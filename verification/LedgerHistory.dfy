/**
 What no run of the ledger undoes: states only advance, claims and owners are written once,
 responses and outbound results settle once, and capacity is never exceeded.
 */
module LedgerHistory {
  import opened Wrappers
  import opened Ledger

  // ---------------------------------------------------------------- the invariant of one ledger

  function Rank(s: State): nat {
    match s
    case Prepared => 0
    case Authorized => 1
    case Queued => 2
    case Running => 3
    case Completed => 4
    case Failed => 4
  }

  // Owner columns agree with the state; responses exist only past acceptance.
  predicate RowOk(r: Row) {
    && (r.state.Prepared? || r.state.Authorized? ==> r.queued.None? && r.run.None?)
    && (r.state.Queued? ==> r.queued.Some? && r.run.None?)
    && (r.state.Running? ==> r.run.Some?)
    && (r.state.Prepared? ==> r.answer.None? && !r.committed)
    && (r.committed ==> r.answerRetryAt.None?)
    && (r.answer.Some? && !r.committed ==> r.answerRetryAt.Some?)
  }

  predicate IntentOk(i: Intent) {
    && (i.state.Pending? <==> i.retryAt.Some?)
    && (i.state.Sent? <==> i.response.Some?)
  }

  predicate SameOwner(r: Row, q: Row) {
    (r.queued.Some? && r.queued == q.queued) || (r.run.Some? && r.run == q.run)
  }

  ghost predicate OwnersUnique(rows: map<Id, Row>) {
    forall i, j :: i in rows && j in rows && i != j ==> !SameOwner(rows[i], rows[j])
  }

  ghost predicate DbOk(db: Db) {
    && (forall i :: i in db.rows ==> RowOk(db.rows[i]))
    && (forall i :: i in db.intents ==> IntentOk(db.intents[i]))
    && OwnersUnique(db.rows)
    && |Nonterminal(db)| <= CAPACITY
  }

  // ---------------------------------------------------------------- how one row and one intent may change

  predicate Advances(r: Row, r': Row) {
    && r'.claim == r.claim && r'.created == r.created
    && Rank(r.state) <= Rank(r'.state)
    && (Terminal(r.state) ==> r' == r)
    && (!r.state.Prepared? ==> r'.lease == r.lease)
    && (r.queued.Some? ==> r'.queued == r.queued)
    && (r.run.Some? ==> r'.run == r.run)
    && (r.committed ==> r'.committed && r'.answer == r.answer && r'.answerRetryAt.None?)
  }

  predicate IntentAdvances(i: Intent, i': Intent) {
    && i'.order == i.order && i'.created == i.created
    && (!i.state.Pending? ==> i' == i)
  }

  ghost predicate DbAdvances(db: Db, db': Db) {
    && (forall i :: i in db.rows ==> i in db'.rows && Advances(db.rows[i], db'.rows[i]))
    && (forall i :: i in db.intents ==> i in db'.intents && IntentAdvances(db.intents[i], db'.intents[i]))
  }

  lemma AdvancesTrans(a: Db, b: Db, c: Db)
    requires DbAdvances(a, b) && DbAdvances(b, c)
    ensures DbAdvances(a, c)
  {
    forall i | i in a.rows ensures i in c.rows && Advances(a.rows[i], c.rows[i]) {
      assert i in b.rows && Advances(a.rows[i], b.rows[i]) && Advances(b.rows[i], c.rows[i]);
    }
    forall i | i in a.intents ensures i in c.intents && IntentAdvances(a.intents[i], c.intents[i]) {
      assert i in b.intents && IntentAdvances(a.intents[i], b.intents[i]) && IntentAdvances(b.intents[i], c.intents[i]);
    }
  }

  // ---------------------------------------------------------------- updating one row

  // A row whose owners nobody else holds may replace a row, or be added while capacity lasts.
  ghost predicate Placeable(db: Db, id: Id, r: Row) {
    && RowOk(r)
    && (forall i :: i in db.rows && i != id ==> !SameOwner(r, db.rows[i]))
    && (id in db.rows ==> Advances(db.rows[id], r))
    && (id !in db.rows ==> |Nonterminal(db)| < CAPACITY)
  }

  lemma Fewer(a: set<Id>, b: set<Id>)
    requires a <= b
    ensures |a| <= |b|
  {
    assert b == a + (b - a);
  }

  lemma PlaceOwners(db: Db, id: Id, r: Row)
    requires OwnersUnique(db.rows)
    requires forall i :: i in db.rows && i != id ==> !SameOwner(r, db.rows[i])
    ensures OwnersUnique(WithRow(db, id, r).rows)
  {
  }

  lemma PlaceCapacity(db: Db, id: Id, r: Row)
    requires |Nonterminal(db)| <= CAPACITY
    requires id in db.rows ==> Terminal(db.rows[id].state) ==> Terminal(r.state)
    requires id !in db.rows ==> |Nonterminal(db)| < CAPACITY
    ensures |Nonterminal(WithRow(db, id, r))| <= CAPACITY
  {
    if id in db.rows {
      Fewer(Nonterminal(WithRow(db, id, r)), Nonterminal(db));
    } else {
      Fewer(Nonterminal(WithRow(db, id, r)), Nonterminal(db) + {id});
    }
  }

  lemma Place(db: Db, id: Id, r: Row)
    requires DbOk(db) && Placeable(db, id, r)
    ensures DbOk(WithRow(db, id, r)) && DbAdvances(db, WithRow(db, id, r))
  {
    PlaceOwners(db, id, r);
    PlaceCapacity(db, id, r);
  }

  // Changing nothing about the owners needs no check of the other rows.
  lemma PlaceSameOwner(db: Db, id: Id, r: Row)
    requires DbOk(db) && id in db.rows && RowOk(r) && Advances(db.rows[id], r)
    requires r.queued == db.rows[id].queued && r.run == db.rows[id].run
    ensures DbOk(WithRow(db, id, r)) && DbAdvances(db, WithRow(db, id, r))
  {
    forall i | i in db.rows && i != id ensures !SameOwner(r, db.rows[i]) {
      assert !SameOwner(db.rows[id], db.rows[i]);
    }
    Place(db, id, r);
  }

  lemma PlaceIntent(db: Db, id: Id, i: Intent)
    requires DbOk(db) && IntentOk(i) && (id in db.intents ==> IntentAdvances(db.intents[id], i))
    ensures DbOk(WithIntent(db, id, i)) && DbAdvances(db, WithIntent(db, id, i))
  {
  }

  lemma ExpireKeeps(db: Db, now: nat)
    requires DbOk(db)
    ensures DbOk(ExpireAll(db, now)) && DbAdvances(db, ExpireAll(db, now))
  {
    var db' := ExpireAll(db, now);
    Fewer(Nonterminal(db'), Nonterminal(db));
    forall i, j | i in db'.rows && j in db'.rows && i != j ensures !SameOwner(db'.rows[i], db'.rows[j]) {
      assert !SameOwner(db.rows[i], db.rows[j]);
    }
  }

  lemma ExpireOutboundKeeps(db: Db, now: nat)
    requires DbOk(db)
    ensures DbOk(ExpireOutbound(db, now)) && DbAdvances(db, ExpireOutbound(db, now))
  {
  }

  lemma PrepareKeeps(db: Db, id: Id, claim: Claim, lease: string, now: nat)
    requires DbOk(db)
    ensures DbOk(Prepare(db, id, claim, lease, now).0) && DbAdvances(db, Prepare(db, id, claim, lease, now).0)
  {
    if id in db.rows {
      var r := db.rows[id];
      if r.claim == claim && r.state.Prepared? && r.lease != lease {
        PlaceSameOwner(db, id, r.(lease := lease, updated := now));
      }
    } else {
      ExpireKeeps(db, now);
      var db' := ExpireAll(db, now);
      if |Nonterminal(db')| < CAPACITY {
        Place(db', id, Fresh(claim, lease, now));
        AdvancesTrans(db, db', Prepare(db, id, claim, lease, now).0);
      }
    }
  }

  lemma BindKeeps(db: Db, id: Id, queued: Option<string>, run: Option<string>, now: nat)
    requires DbOk(db)
    ensures DbOk(BindOwner(db, id, queued, run, now).0) && DbAdvances(db, BindOwner(db, id, queued, run, now).0)
  {
    var db' := BindOwner(db, id, queued, run, now).0;
    if db' != db {
      var r, r' := db.rows[id], db'.rows[id];
      forall i | i in db.rows && i != id ensures !SameOwner(r', db.rows[i]) {
        assert !SameOwner(r, db.rows[i]);
      }
      Place(db, id, r');
    }
  }

  // ---------------------------------------------------------------- every operation, every run

  // The operations that rewrite one existing row in place.
  predicate DeliveryOp(op: Op) {
    op.DoAuthorize? || op.DoFailOwnerless? || op.DoDefer? || op.DoFinish?
  }

  predicate AnswerOp(op: Op) {
    op.DoPrepareAnswer? || op.DoCommitAnswer? || op.DoClearAnswer? || op.DoDeferAnswer?
  }

  predicate OneRow(db: Db, db': Db, id: Id) {
    db' == db || (id in db.rows && id in db'.rows && db' == WithRow(db, id, db'.rows[id]))
  }

  lemma DeliveryOpRow(db: Db, op: Op, now: nat)
    requires DeliveryOp(op) && op.id in db.rows && RowOk(db.rows[op.id])
    ensures var db' := Apply(db, op, now);
            OneRow(db, db', op.id) && RowOk(db'.rows[op.id]) && Advances(db.rows[op.id], db'.rows[op.id])
            && db'.rows[op.id].queued == db.rows[op.id].queued && db'.rows[op.id].run == db.rows[op.id].run
            && db'.rows[op.id].answer == db.rows[op.id].answer
  {
  }

  lemma AnswerOpRow(db: Db, op: Op, now: nat)
    requires AnswerOp(op) && op.id in db.rows && RowOk(db.rows[op.id])
    ensures var db' := Apply(db, op, now);
            OneRow(db, db', op.id) && RowOk(db'.rows[op.id]) && Advances(db.rows[op.id], db'.rows[op.id])
            && db'.rows[op.id].queued == db.rows[op.id].queued && db'.rows[op.id].run == db.rows[op.id].run
  {
  }

  lemma RowOpKeeps(db: Db, op: Op, now: nat)
    requires DbOk(db) && (DeliveryOp(op) || AnswerOp(op))
    ensures DbOk(Apply(db, op, now)) && DbAdvances(db, Apply(db, op, now))
  {
    if op.id in db.rows {
      if DeliveryOp(op) {
        DeliveryOpRow(db, op, now);
      } else {
        AnswerOpRow(db, op, now);
      }
      OneRowKeeps(db, Apply(db, op, now), op.id);
    }
  }

  lemma OneRowKeeps(db: Db, db': Db, id: Id)
    requires DbOk(db) && id in db.rows && OneRow(db, db', id) && RowOk(db'.rows[id]) && Advances(db.rows[id], db'.rows[id])
    requires db'.rows[id].queued == db.rows[id].queued && db'.rows[id].run == db.rows[id].run
    ensures DbOk(db') && DbAdvances(db, db')
  {
    PlaceSameOwner(db, id, db'.rows[id]);
  }

  lemma OutboundOpKeeps(db: Db, op: Op, now: nat)
    requires DbOk(db) && (op.DoPrepareOutbound? || op.DoCommitOutbound? || op.DoDeferOutbound? || op.DoFailOutbound?)
    ensures DbOk(Apply(db, op, now)) && DbAdvances(db, Apply(db, op, now))
  {
    var db' := Apply(db, op, now);
    if db' != db {
      assert db' == WithIntent(db, op.id, db'.intents[op.id]);
      PlaceIntent(db, op.id, db'.intents[op.id]);
    }
  }

  lemma ApplyKeeps(db: Db, op: Op, now: nat)
    requires DbOk(db)
    ensures DbOk(Apply(db, op, now)) && DbAdvances(db, Apply(db, op, now))
  {
    if DeliveryOp(op) || AnswerOp(op) {
      RowOpKeeps(db, op, now);
    } else {
      match op
      case DoPrepare(id, claim, lease) => PrepareKeeps(db, id, claim, lease, now);
      case DoBind(id, queued, run) => BindKeeps(db, id, queued, run, now);
      case DoExpireOutbound => ExpireOutboundKeeps(db, now);
      case _ => OutboundOpKeeps(db, op, now);
    }
  }

  lemma {:induction false} RunAppend(db: Db, log: seq<(Op, nat)>, op: Op, now: nat)
    ensures Run(db, log + [(op, now)]) == Apply(Run(db, log), op, now)
    decreases |log|
  {
    if log == [] {
      assert (log + [(op, now)])[1..] == [];
    } else {
      assert (log + [(op, now)])[1..] == log[1..] + [(op, now)];
      RunAppend(Apply(db, log[0].0, log[0].1), log[1..], op, now);
    }
  }

  /** Over every run: each row stays, its state only advances, its claim never changes, its lease
      changes only while prepared, its owners are written once and shared by nobody; a terminal
      row, a committed response and a settled outbound intent are frozen; an intent is pending
      exactly while it has a retry time; and at most 2048 rows are open. */
  lemma {:induction false} RunKeeps(db: Db, log: seq<(Op, nat)>)
    requires DbOk(db)
    ensures DbOk(Run(db, log)) && DbAdvances(db, Run(db, log))
    decreases |log|
  {
    if log == [] {
    } else {
      ApplyKeeps(db, log[0].0, log[0].1);
      var db1 := Apply(db, log[0].0, log[0].1);
      RunKeeps(db1, log[1..]);
      AdvancesTrans(db, db1, Run(db1, log[1..]));
    }
  }

  // ---------------------------------------------------------------- one answer per delivery

  // Only the identical answer is accepted while one is prepared; another one raises.
  lemma OneAnswer(db: Db, id: Id, a: Answer, now: nat)
    requires DbOk(db) && id in db.rows && Accepted(db.rows[id].state) && !db.rows[id].claim.kind.Instruction?
    ensures var (db', reply) := PrepareAnswer(db, id, a, now);
            && (db.rows[id].answer.Some? ==> db' == db && (reply.Found? <==> db.rows[id].answer.value == a))
            && (db.rows[id].answer.None? && !db.rows[id].committed ==> db'.rows[id].answer == Some(a))
            && (db.rows[id].committed ==> db' == db)
  {
  }

  lemma AnswerStepHolds(db: Db, op: Op, now: nat, id: Id)
    requires id in db.rows && db.rows[id].answer.Some?
    requires op != DoClearAnswer(id, db.rows[id].answer.value.request)
    ensures id in Apply(db, op, now).rows && Apply(db, op, now).rows[id].answer == db.rows[id].answer
  {
  }

  // A committed response is never offered again, whatever happens next.
  lemma CommittedNeverOffered(db: Db, log: seq<(Op, nat)>, id: Id, now: nat)
    requires DbOk(db) && id in db.rows && db.rows[id].committed
    ensures var r := Run(db, log).rows;
            id in r && r[id].committed && r[id].answer == db.rows[id].answer && !AnswerDue(r[id], now)
  {
    RunKeeps(db, log);
  }

  /** Between being prepared and being cleared, a response intent stays the one that was prepared:
      on a run that never clears it, the answer and any commit carry exactly that intent. */
  lemma {:induction false} AnswerHolds(db: Db, log: seq<(Op, nat)>, id: Id)
    requires DbOk(db) && id in db.rows && db.rows[id].answer.Some?
    requires forall k :: 0 <= k < |log| ==> log[k].0 != DoClearAnswer(id, db.rows[id].answer.value.request)
    ensures id in Run(db, log).rows && Run(db, log).rows[id].answer == db.rows[id].answer
    decreases |log|
  {
    if log == [] {
    } else {
      ApplyKeeps(db, log[0].0, log[0].1);
      AnswerStepHolds(db, log[0].0, log[0].1, id);
      var db1 := Apply(db, log[0].0, log[0].1);
      AnswerHolds(db1, log[1..], id);
    }
  }

  // ---------------------------------------------------------------- one result per outbound request

  /** An outbound request settles once: what `commit` or `fail` made of it, every later commit,
      deferral, failure or expiry leaves as it is. */
  lemma OutboundSettlesOnce(db: Db, log: seq<(Op, nat)>, id: Id)
    requires DbOk(db) && id in db.intents && !db.intents[id].state.Pending?
    ensures id in Run(db, log).intents && Run(db, log).intents[id] == db.intents[id]
  {
    RunKeeps(db, log);
  }

  // A different result for a committed request raises; the same one is repeated.
  lemma OutboundResultKept(db: Db, id: Id, response: string, now: nat)
    requires DbOk(db) && id in db.intents
    ensures var (db', reply) := CommitOutbound(db, id, response, now);
            && (db.intents[id].state.Pending? ==> db'.intents[id].state.Sent? && db'.intents[id].response == Some(response))
            && (db.intents[id].state.Sent? ==> db' == db && (reply.Raised? <==> db.intents[id].response != Some(response)))
            && (db.intents[id].state.Dropped? ==> db' == db && reply == Found(db.intents[id]))
  {
  }

  // ---------------------------------------------------------------- pruning only forgets

  /** Pruning removes exactly the rows with an outcome and the settled requests that were last touched
      before the cutoff, changes none of the others, and so keeps every open row and every pending
      request. */
  lemma PruneForgets(db: Db, cutoff: nat)
    requires DbOk(db)
    ensures var db' := Prune(db, cutoff);
            && DbOk(db') && Nonterminal(db') == Nonterminal(db)
            && (forall i :: i in db'.rows <==>
                  i in db.rows && !(db.rows[i].state in {Completed, Failed} && db.rows[i].updated < cutoff))
            && (forall i :: i in db'.rows ==> db'.rows[i] == db.rows[i])
            && (forall i :: i in db'.intents <==>
                  i in db.intents && !(db.intents[i].state in {Sent, Dropped} && db.intents[i].updated < cutoff))
            && (forall i :: i in db'.intents ==> db'.intents[i] == db.intents[i])
  {
    var db' := Prune(db, cutoff);
    assert Nonterminal(db') == Nonterminal(db);
    forall i, j | i in db'.rows && j in db'.rows && i != j ensures !SameOwner(db'.rows[i], db'.rows[j]) {
      assert !SameOwner(db.rows[i], db.rows[j]);
    }
  }
}

/**
 Receipts and the ledger across crashes: an envelope is told "delivered" only after its row is
 durable, and its row moves past prepared only after that receipt was accepted.

 Claiming, recovering and accepting run as separate steps, interleaved at will; a crash loses
 what only a thread knew (an accept between its steps, a redelivery about to be answered).
 */
module PeerReceipts {
  import opened Wrappers
  import opened Histories
  import opened Ledger
  import LedgerEffects

  // What the peer makes of a receipt, as seen by the sender.
  datatype Outcome = Accepts | Refuses | AcceptsUnheard

  datatype Side = Side(
    db: Db,
    stored: set<Id>,      // envelopes that ever had a durable row
    sent: seq<Id>,        // delivered receipts, in the order they were sent
    acked: set<Id>,       // envelopes whose delivered receipt the peer accepted
    accepting: set<Id>,   // accepts that found their row prepared
    receipted: set<Id>,   // accepts whose receipt came back accepted
    redelivered: set<Id>) // completed envelopes the peer offered again

  const START := Side(Db(map[], map[]), {}, [], {}, {}, {}, {})

  datatype Action =
    | Claims(id: Id, claim: Claim, lease: string)
    | Looks(id: Id)
    | Receipts(id: Id, outcome: Outcome)
    | Authorizes(id: Id)
    | Redelivers(id: Id, outcome: Outcome)
    | Recovers(id: Id)
    | Rejects(id: Id, error: string)
    | Works(op: Op)
    | Prunes
    | Crashes

  function Store(s: Side, db: Db): Side {
    s.(db := db, stored := s.stored + db.rows.Keys)
  }

  function Send(s: Side, id: Id, outcome: Outcome): Side {
    s.(sent := s.sent + [id], acked := if outcome.Refuses? then s.acked else s.acked + {id})
  }

  // Claims an offered envelope: prepares its row, or notes that it completed long ago.
  function ClaimEnvelope(s: Side, id: Id, claim: Claim, lease: string, now: nat): Side {
    var (db, reply) := Prepare(s.db, id, claim, lease, now);
    var s' := Store(s, db);
    if reply.Found? && reply.value.state.Completed? then s'.(redelivered := s'.redelivered + {id}) else s'
  }

  // Accepting, first step: read the row; an expired one is failed instead.
  function Look(s: Side, id: Id, now: nat): Side {
    if id !in s.db.rows || !s.db.rows[id].state.Prepared? then s
    else if s.db.rows[id].claim.expires <= now then Store(s, FinishDelivery(s.db, id, false, None, Some(Expired), now).0)
    else s.(accepting := s.accepting + {id})
  }

  // Second step: the receipt; anything but an acceptance that is heard raises.
  function Receipt(s: Side, id: Id, outcome: Outcome): Side {
    if id !in s.accepting then s
    else
      var s' := Send(s, id, outcome).(accepting := s.accepting - {id});
      if outcome.Accepts? then s'.(receipted := s'.receipted + {id}) else s'
  }

  // Third step: authorize.
  function Commit(s: Side, id: Id, now: nat): Side {
    if id !in s.receipted then s
    else Store(s, Authorize(s.db, id, now).0).(receipted := s.receipted - {id})
  }

  function Recover(s: Side, id: Id, now: nat): Side {
    if id in s.db.rows && s.db.rows[id].state.Prepared? && s.db.rows[id].claim.expires <= now
    then Store(s, FinishDelivery(s.db, id, false, None, Some(Expired), now).0)
    else s
  }

  // Rejecting sends no delivered receipt: a prepared row fails, an ownerless accepted one too.
  function Reject(s: Side, id: Id, error: string, now: nat): Side {
    if id !in s.db.rows then s
    else if s.db.rows[id].state.Prepared? then Store(s, FinishDelivery(s.db, id, false, None, Some(Because(error)), now).0)
    else Store(s, FailOwnerless(s.db, id, error, now).0)
  }

  // Work done on accepted rows and outbound requests; it neither claims nor authorizes.
  predicate Ordinary(op: Op) {
    !op.DoPrepare? && !op.DoAuthorize?
  }

  function Step(s: Side, a: Action, now: nat): Side {
    match a
    case Claims(id, claim, lease) => ClaimEnvelope(s, id, claim, lease, now)
    case Looks(id) => Look(s, id, now)
    case Receipts(id, outcome) => Receipt(s, id, outcome)
    case Authorizes(id) => Commit(s, id, now)
    case Redelivers(id, outcome) =>
      if id in s.redelivered then Send(s, id, outcome).(redelivered := s.redelivered - {id}) else s
    case Recovers(id) => Recover(s, id, now)
    case Rejects(id, error) => Reject(s, id, error, now)
    case Works(op) => if Ordinary(op) then Store(s, Apply(s.db, op, now)) else s
    case Prunes => s.(db := Prune(s.db, now))
    case Crashes => s.(accepting := {}, receipted := {}, redelivered := {})
  }

  function Play(log: seq<(Action, nat)>): Side
    decreases |log|
  {
    if log == [] then START
    else Step(Play(log[..|log| - 1]), log[|log| - 1].0, log[|log| - 1].1)
  }

  // ---------------------------------------------------------------- the invariant

  // States a row reaches only through an accepted delivered receipt.
  predicate Past(s: State) {
    Accepted(s) || s.Completed?
  }

  ghost predicate PastAcked(db: Db, acked: set<Id>) {
    forall i :: i in db.rows && Past(db.rows[i].state) ==> i in acked
  }

  ghost predicate Inv(s: Side) {
    && s.db.rows.Keys <= s.stored
    && s.accepting <= s.stored
    && s.redelivered <= s.stored
    && s.receipted <= s.acked
    && (forall k :: 0 <= k < |s.sent| ==> s.sent[k] in s.stored)
    && s.acked <= s.stored
    && PastAcked(s.db, s.acked)
  }

  // No ledger operation but `authorize` takes a row past prepared.
  ghost predicate NoNewPast(db: Db, db': Db) {
    forall i :: i in db'.rows && Past(db'.rows[i].state) ==> i in db.rows && Past(db.rows[i].state)
  }

  lemma OrdinaryRow(db: Db, op: Op, now: nat, i: Id)
    requires Ordinary(op) && i in Apply(db, op, now).rows && Past(Apply(db, op, now).rows[i].state)
    ensures i in db.rows && Past(db.rows[i].state)
  {
  }

  lemma OrdinaryWork(db: Db, op: Op, now: nat)
    requires Ordinary(op)
    ensures NoNewPast(db, Apply(db, op, now))
  {
    forall i | i in Apply(db, op, now).rows && Past(Apply(db, op, now).rows[i].state)
      ensures i in db.rows && Past(db.rows[i].state)
    {
      OrdinaryRow(db, op, now, i);
    }
  }

  lemma ClaimPast(db: Db, id: Id, claim: Claim, lease: string, now: nat)
    ensures NoNewPast(db, Prepare(db, id, claim, lease, now).0)
    ensures var (db', reply) := Prepare(db, id, claim, lease, now); reply.Found? ==> id in db'.rows
  {
  }

  lemma FinishPast(db: Db, id: Id, error: Failure, now: nat)
    ensures NoNewPast(db, FinishDelivery(db, id, false, None, Some(error), now).0)
  {
  }

  lemma StoreKeeps(s: Side, db: Db)
    requires Inv(s) && NoNewPast(s.db, db)
    ensures Inv(Store(s, db))
  {
  }

  lemma CommitKeeps(s: Side, id: Id, now: nat)
    requires Inv(s)
    ensures Inv(Commit(s, id, now))
  {
  }

  lemma SendKeeps(s: Side, a: Action, now: nat)
    requires Inv(s) && (a.Receipts? || a.Redelivers? || a.Prunes? || a.Crashes?)
    ensures Inv(Step(s, a, now))
  {
  }

  lemma RejectPast(s: Side, id: Id, error: string, now: nat)
    ensures NoNewPast(s.db, Reject(s, id, error, now).db)
  {
  }

  lemma StepKeeps(s: Side, a: Action, now: nat)
    requires Inv(s)
    ensures Inv(Step(s, a, now))
  {
    match a
    case Claims(id, claim, lease) =>
      ClaimPast(s.db, id, claim, lease, now);
      StoreKeeps(s, Prepare(s.db, id, claim, lease, now).0);
    case Looks(id) =>
      FinishPast(s.db, id, Expired, now);
      StoreKeeps(s, FinishDelivery(s.db, id, false, None, Some(Expired), now).0);
    case Recovers(id) =>
      FinishPast(s.db, id, Expired, now);
      StoreKeeps(s, FinishDelivery(s.db, id, false, None, Some(Expired), now).0);
    case Authorizes(id) => CommitKeeps(s, id, now);
    case Rejects(id, error) =>
      RejectPast(s, id, error, now);
      if id in s.db.rows {
        StoreKeeps(s, Reject(s, id, error, now).db);
      }
    case Works(op) =>
      if Ordinary(op) {
        OrdinaryWork(s.db, op, now);
        StoreKeeps(s, Apply(s.db, op, now));
      }
    case _ => SendKeeps(s, a, now);
  }

  lemma {:induction false} PlayKeeps(log: seq<(Action, nat)>)
    ensures Inv(Play(log))
    decreases |log|
  {
    if log == [] {
    } else {
      var n := |log| - 1;
      PlayKeeps(log[..n]);
      StepKeeps(Play(log[..n]), log[n].0, log[n].1);
    }
  }

  // ---------------------------------------------------------------- order across crashes

  lemma {:induction false} StoredMeans(log: seq<(Action, nat)>, id: Id) returns (j: nat)
    requires id in Play(log).stored
    ensures j <= |log| && id in Play(log[..j]).db.rows
    decreases |log|
  {
    var n := |log| - 1;
    if id in Play(log[..n]).stored {
      j := StoredMeans(log[..n], id);
      assert log[..n][..j] == log[..j];
    } else {
      j := |log|;
      assert log[..j] == log;
    }
  }

  // Receipts only accumulate, and only an accepted receipt lets a row past prepared.
  lemma StepOrder(s: Side, a: Action, now: nat)
    requires Inv(s)
    ensures s.sent <= Step(s, a, now).sent && s.acked <= Step(s, a, now).acked
    ensures forall k :: |s.sent| <= k < |Step(s, a, now).sent| ==> Step(s, a, now).sent[k] in s.stored
    ensures PastAcked(Step(s, a, now).db, s.acked)
  {
    match a
    case Claims(id, claim, lease) => ClaimPast(s.db, id, claim, lease, now);
    case Looks(id) => FinishPast(s.db, id, Expired, now);
    case Recovers(id) => FinishPast(s.db, id, Expired, now);
    case Rejects(id, error) => RejectPast(s, id, error, now);
    case Works(op) =>
      if Ordinary(op) {
        OrdinaryWork(s.db, op, now);
      }
    case _ =>
  }

  /** A delivered receipt goes out only for an envelope whose row an earlier state already held
      durably, for every run with crashes anywhere. */
  lemma ReceiptAfterRow(log: seq<(Action, nat)>, k: nat) returns (j: nat)
    requires log != [] && |Play(log[..|log| - 1]).sent| <= k < |Play(log).sent|
    ensures j < |log| && Play(log).sent[k] in Play(log[..j]).db.rows
  {
    var n := |log| - 1;
    PlayKeeps(log[..n]);
    StepOrder(Play(log[..n]), log[n].0, log[n].1);
    j := StoredMeans(log[..n], Play(log).sent[k]);
    assert log[..n][..j] == log[..j];
  }

  /** A row that is authorized, queued, running or completed had its delivered receipt accepted in
      a strictly earlier state, for every run with crashes anywhere. */
  lemma RowAfterReceipt(log: seq<(Action, nat)>, id: Id)
    requires id in Play(log).db.rows && Past(Play(log).db.rows[id].state)
    ensures log != [] && id in Play(log[..|log| - 1]).acked
  {
    var n := |log| - 1;
    PlayKeeps(log[..n]);
    StepOrder(Play(log[..n]), log[n].0, log[n].1);
  }

  /** A prepared row that has not expired can be accepted after any crash: looking, receipting and
      authorizing takes it to authorized. */
  lemma AcceptAfterCrash(s: Side, id: Id, now: nat)
    requires id in s.db.rows && s.db.rows[id].state.Prepared? && now < s.db.rows[id].claim.expires
    ensures var s1 := Step(s, Crashes, now);
            var s4 := Step(Step(Step(s1, Looks(id), now), Receipts(id, Accepts), now), Authorizes(id), now);
            && id in s4.db.rows && s4.db.rows[id].state.Authorized? && s4.db.rows[id].claim == s.db.rows[id].claim
            && s4.sent == s.sent + [id] && s4.accepting == {} && s4.receipted == {}
  {
  }

  // ---------------------------------------------------------------- every receipt, by position

  datatype Fact =
    | HadRow(id: Id) | WasSent(id: Id) | IsAcked(id: Id) | IsAccepting(id: Id) | IsReceipted(id: Id) | IsRedelivered(id: Id)

  predicate Holds(s: Side, f: Fact) {
    match f
    case HadRow(id) => id in s.stored
    case WasSent(id) => id in s.sent
    case IsAcked(id) => id in s.acked
    case IsAccepting(id) => id in s.accepting
    case IsReceipted(id) => id in s.receipted
    case IsRedelivered(id) => id in s.redelivered
  }

  // The step sends a delivered receipt for this envelope.
  predicate Sends(s: Side, a: Action, id: Id) {
    (a.Receipts? && a.id == id && id in s.accepting) || (a.Redelivers? && a.id == id && id in s.redelivered)
  }

  predicate RowIs(s: Side, id: Id, state: State) {
    id in s.db.rows && s.db.rows[id].state == state
  }

  predicate Makes(s: Side, a: Action, now: nat, f: Fact) {
    match f
    case HadRow(id) => a.Claims? && LedgerEffects.Admits(s.db, DoPrepare(a.id, a.claim, a.lease), now, id)
    case WasSent(id) => Sends(s, a, id)
    case IsAcked(id) => Sends(s, a, id) && a.outcome != Refuses
    case IsAccepting(id) => a == Looks(id) && RowIs(s, id, Prepared) && now < s.db.rows[id].claim.expires
    case IsReceipted(id) => a == Receipts(id, Accepts) && id in s.accepting
    case IsRedelivered(id) => a.Claims? && a.id == id && RowIs(s, id, Completed) && s.db.rows[id].claim == a.claim
  }

  predicate Unmakes(s: Side, a: Action, f: Fact) {
    match f
    case IsAccepting(id) => a == Crashes || (a.Receipts? && a.id == id)
    case IsReceipted(id) => a == Crashes || a == Authorizes(id)
    case IsRedelivered(id) => a == Crashes || (a.Redelivers? && a.id == id)
    case _ => false
  }

  // A ledger transaction other than a claim brings no row about.
  lemma NoNewRow(db: Db, op: Op, now: nat)
    requires !op.DoPrepare?
    ensures Apply(db, op, now).rows.Keys == db.rows.Keys
  {
  }

  lemma ClaimRow(db: Db, id: Id, claim: Claim, lease: string, now: nat, i: Id)
    ensures i in Prepare(db, id, claim, lease, now).0.rows
            <==> i in db.rows || LedgerEffects.Admits(db, DoPrepare(id, claim, lease), now, i)
  {
    LedgerEffects.PrepareRow(db, i, DoPrepare(id, claim, lease), now);
  }

  lemma ClaimMakes(s: Side, a: Action, now: nat, f: Fact)
    requires Inv(s) && a.Claims?
    ensures Holds(Step(s, a, now), f) <==> Makes(s, a, now, f) || Holds(s, f)
  {
    ClaimRow(s.db, a.id, a.claim, a.lease, now, f.id);
  }

  lemma WorkMakes(s: Side, a: Action, now: nat, f: Fact)
    requires Inv(s) && (a.Recovers? || a.Rejects? || a.Works? || a.Prunes?)
    ensures Holds(Step(s, a, now), f) <==> Holds(s, f)
  {
    if Transaction(s, a, now).Some? {
      TransactionExactly(s, a, now);
      NoNewRow(s.db, Transaction(s, a, now).value, now);
    }
  }

  lemma ReceiptMakes(s: Side, a: Action, now: nat, f: Fact)
    requires Inv(s) && !(a.Claims? || a.Recovers? || a.Rejects? || a.Works? || a.Prunes?)
    ensures Holds(Step(s, a, now), f) <==> Makes(s, a, now, f) || (Holds(s, f) && !Unmakes(s, a, f))
  {
    if Transaction(s, a, now).Some? {
      TransactionExactly(s, a, now);
      NoNewRow(s.db, Transaction(s, a, now).value, now);
    }
  }

  lemma StepMakes(s: Side, a: Action, now: nat, f: Fact)
    requires Inv(s)
    ensures Holds(Step(s, a, now), f) <==> Makes(s, a, now, f) || (Holds(s, f) && !Unmakes(s, a, f))
  {
    if a.Claims? {
      ClaimMakes(s, a, now, f);
    } else if a.Recovers? || a.Rejects? || a.Works? || a.Prunes? {
      WorkMakes(s, a, now, f);
    } else {
      ReceiptMakes(s, a, now, f);
    }
  }

  lemma FactAt(log: seq<(Action, nat)>, f: Fact, k: nat)
    requires k < |log|
    ensures Changes(HoldsAt(log, f), MakesAt(log, f), UnmakesAt(log, f), k)
  {
    var n := k + 1;
    assert log[..n][..k] == log[..k] && log[..n][k] == log[k];
    PlayKeeps(log[..k]);
    StepMakes(Play(log[..k]), log[k].0, log[k].1, f);
  }

  // Whether the fact holds before step k, and what that step does to it.
  ghost function HoldsAt(log: seq<(Action, nat)>, f: Fact): nat -> bool {
    (k: nat) => k <= |log| && Holds(Play(log[..k]), f)
  }

  ghost function MakesAt(log: seq<(Action, nat)>, f: Fact): nat -> bool {
    (k: nat) => k < |log| && Makes(Play(log[..k]), log[k].0, log[k].1, f)
  }

  ghost function UnmakesAt(log: seq<(Action, nat)>, f: Fact): nat -> bool {
    (k: nat) => k < |log| && Unmakes(Play(log[..k]), log[k].0, f)
  }

  /** In every run with crashes anywhere: a receipt was sent, accepted by the peer, or is being worked on
      exactly if the step that does so happened, and no crash or next step has ended it. */
  lemma ReceiptsExactly(log: seq<(Action, nat)>, f: Fact)
    ensures Holds(Play(log), f) <==> Stands(Holds(START, f), MakesAt(log, f), UnmakesAt(log, f), |log|)
  {
    forall k: nat | k < |log| ensures Changes(HoldsAt(log, f), MakesAt(log, f), UnmakesAt(log, f), k) {
      FactAt(log, f, k);
    }
    StandsExactly(HoldsAt(log, f), MakesAt(log, f), UnmakesAt(log, f), |log|);
    assert log[..|log|] == log && log[..0] == [];
  }

  // The transaction a step performs on the ledger, if any.
  function Transaction(s: Side, a: Action, now: nat): Option<Op> {
    match a
    case Claims(id, claim, lease) => Some(DoPrepare(id, claim, lease))
    case Looks(id) => if Overdue(s, id, now) then Some(DoFinish(id, false, None, Some(Expired))) else None
    case Recovers(id) => if Overdue(s, id, now) then Some(DoFinish(id, false, None, Some(Expired))) else None
    case Authorizes(id) => if id in s.receipted then Some(DoAuthorize(id)) else None
    case Rejects(id, error) =>
      if id !in s.db.rows then None
      else Some(if RowIs(s, id, Prepared) then DoFinish(id, false, None, Some(Because(error))) else DoFailOwnerless(id, error))
    case Works(op) => if op.DoPrepare? || op.DoAuthorize? then None else Some(op)
    case _ => None
  }

  predicate Overdue(s: Side, id: Id, now: nat) {
    RowIs(s, id, Prepared) && s.db.rows[id].claim.expires <= now
  }

  /** A row is authorized exactly by a step whose receipt was accepted; an overdue claim fails when it is
      looked at or recovered; a rejected one fails if it is still prepared or has no owner; and no step
      does anything else to the ledger. */
  lemma TransactionExactly(s: Side, a: Action, now: nat)
    requires !a.Prunes?
    ensures Step(s, a, now).db == if Transaction(s, a, now).Some? then Apply(s.db, Transaction(s, a, now).value, now) else s.db
  {
  }
}

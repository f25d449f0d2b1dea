/**
 When the ledger offers work again, and what its callers are told.  The times of a row's or
 request's attempts are read off the run; its counter and its next attempt follow from them.
 */
module LedgerTimes {
  import opened Wrappers
  import opened Ledger
  import opened LedgerHistory
  import opened LedgerEffects

  // ---------------------------------------------------------------- attempts

  // What is tried again: admitting a delivery, sending its answer, sending a request.
  datatype Track = OfAdmission | OfAnswer | OfRequest

  predicate Opens(db: Db, op: Op, now: nat, id: Id, t: Track) {
    match t
    case OfAdmission => Admits(db, op, now, id)
    case OfAnswer => PreparesAnswer(db, op, id)
    case OfRequest => Orders(db, op, id)
  }

  predicate Defers(db: Db, op: Op, id: Id, t: Track) {
    match t
    case OfAdmission => DefersAdmission(db, op, id)
    case OfAnswer => op.DoDeferAnswer? && HandlesAnswer(db, op, id)
    case OfRequest => DefersRequest(db, op, id)
  }

  function TriedOnce(before: seq<nat>, db: Db, op: Op, now: nat, id: Id, t: Track): seq<nat> {
    if Opens(db, op, now, id, t) then [now] else if Defers(db, op, id, t) then before + [now] else before
  }

  // When it was opened, and every deferral since.
  function Tries(db: Db, log: seq<(Op, nat)>, id: Id, t: Track): seq<nat>
    decreases |log|
  {
    if log == [] then []
    else
      var n := |log| - 1;
      TriedOnce(Tries(db, log[..n], id, t), Run(db, log[..n]), log[n].0, log[n].1, id, t)
  }

  // The wait after this many deferrals: two, four and so on up to 256 seconds.
  function Wait(n: nat): nat {
    if n >= 8 then 256 else if n == 0 then 1 else 2 * Wait(n - 1)
  }

  lemma WaitIsDelay(n: nat)
    ensures Delay(n) == Wait(n)
  {
    assert Pow2(8) == 256 by {
      assert Pow2(4) == 16 && Pow2(6) == 64;
    }
    PowIsWait(if n < 8 then n else 8);
  }

  lemma {:induction false} PowIsWait(n: nat)
    requires n <= 8
    ensures Pow2(n) == Wait(n) && Wait(n) <= 256
  {
    if n == 0 {
    } else {
      PowIsWait(n - 1);
      WaitBound(n);
    }
  }

  lemma {:induction false} WaitBound(n: nat)
    requires n <= 8
    ensures Wait(8) == 256 && (n < 8 ==> 2 * Wait(n) <= 256)
  {
    assert Wait(7) == 128 && Wait(6) == 64 && Wait(5) == 32 && Wait(4) == 16 && Wait(3) == 8 && Wait(2) == 4 && Wait(1) == 2;
  }

  function NextTry(tries: seq<nat>): nat
    requires tries != []
  {
    if |tries| == 1 then tries[0] else tries[|tries| - 1] + Wait(|tries| - 1)
  }

  // The delivery waits to be admitted, the answer or the request to be sent.
  predicate Waiting(db: Db, id: Id, t: Track) {
    match t
    case OfAdmission =>
      id in db.rows && (db.rows[id].state == Prepared || (db.rows[id].state == Authorized && db.rows[id].queued == None && db.rows[id].run == None))
    case OfAnswer => OpenAnswer(db, id) && db.rows[id].answer.Some?
    case OfRequest => id in db.intents && db.intents[id].state == Pending
  }

  // Counter and next attempt agree with the times of the attempts.
  predicate Scheduled(db: Db, tries: seq<nat>, id: Id, t: Track)
    requires Waiting(db, id, t)
  {
    && tries != []
    && match t
       case OfAdmission =>
         db.rows[id].attempts == |tries| - 1 && db.rows[id].retryAt == if |tries| == 1 then None else Some(NextTry(tries))
       case OfAnswer => db.rows[id].answerAttempts == |tries| - 1 && db.rows[id].answerRetryAt == Some(NextTry(tries))
       case OfRequest => db.intents[id].attempts == |tries| - 1 && db.intents[id].retryAt == Some(NextTry(tries))
  }

  ghost predicate OnTime(db: Db, tries: seq<nat>, id: Id, t: Track) {
    Waiting(db, id, t) ==> Scheduled(db, tries, id, t)
  }

  // Nothing but opening and deferring changes counter or next attempt of what waits, and nothing else
  // sets it waiting.
  ghost predicate Undisturbed(db: Db, db': Db, id: Id, t: Track) {
    Waiting(db', id, t) ==>
      && Waiting(db, id, t)
      && match t
         case OfAdmission => db'.rows[id].attempts == db.rows[id].attempts && db'.rows[id].retryAt == db.rows[id].retryAt
         case OfAnswer =>
           db'.rows[id].answerAttempts == db.rows[id].answerAttempts && db'.rows[id].answerRetryAt == db.rows[id].answerRetryAt
         case OfRequest => db'.intents[id].attempts == db.intents[id].attempts && db'.intents[id].retryAt == db.intents[id].retryAt
  }

  lemma ClaimUndisturbed(db: Db, op: Op, now: nat, id: Id, t: Track)
    requires op.DoPrepare? && !Opens(db, op, now, id, t)
    ensures Undisturbed(db, Apply(db, op, now), id, t)
  {
    PrepareRow(db, id, op, now);
  }

  lemma OtherUndisturbed(db: Db, op: Op, now: nat, id: Id, t: Track)
    requires !op.DoPrepare? && !op.DoExpireOutbound? && op.id != id
    ensures Undisturbed(db, Apply(db, op, now), id, t)
  {
    OthersStay(db, op, now, id);
  }

  lemma DeliveryUndisturbed(db: Db, op: Op, now: nat, id: Id, t: Track)
    requires DeliveryOp(op) && op.id == id && !Defers(db, op, id, t)
    requires id in db.rows ==> RowOk(db.rows[id])
    ensures Undisturbed(db, Apply(db, op, now), id, t)
  {
  }

  lemma BindUndisturbed(db: Db, op: Op, now: nat, id: Id, t: Track)
    requires op.DoBind? && op.id == id && (id in db.rows ==> RowOk(db.rows[id]))
    ensures Undisturbed(db, Apply(db, op, now), id, t)
  {
    BindRow(db, id, op.queued, op.run, now);
  }

  lemma AnswerUndisturbed(db: Db, op: Op, now: nat, id: Id, t: Track)
    requires AnswerOp(op) && op.id == id && !Opens(db, op, now, id, t) && !Defers(db, op, id, t)
    requires id in db.rows ==> RowOk(db.rows[id])
    ensures Undisturbed(db, Apply(db, op, now), id, t)
  {
  }

  lemma RequestUndisturbed(db: Db, op: Op, now: nat, id: Id, t: Track)
    requires op.DoPrepareOutbound? || op.DoCommitOutbound? || op.DoDeferOutbound? || op.DoFailOutbound?
    requires op.id == id && !Opens(db, op, now, id, t) && !Defers(db, op, id, t)
    ensures Undisturbed(db, Apply(db, op, now), id, t)
  {
  }

  lemma ExpiryUndisturbed(db: Db, now: nat, id: Id, t: Track)
    ensures Undisturbed(db, ExpireOutbound(db, now), id, t)
  {
  }

  lemma QuietUndisturbed(db: Db, op: Op, now: nat, id: Id, t: Track)
    requires DbOk(db) && !Opens(db, op, now, id, t) && !Defers(db, op, id, t)
    ensures Undisturbed(db, Apply(db, op, now), id, t)
  {
    assert id in db.rows ==> RowOk(db.rows[id]);
    if op.DoPrepare? {
      ClaimUndisturbed(db, op, now, id, t);
    } else if op.DoExpireOutbound? {
      ExpiryUndisturbed(db, now, id, t);
    } else if op.id != id {
      OtherUndisturbed(db, op, now, id, t);
    } else if DeliveryOp(op) {
      DeliveryUndisturbed(db, op, now, id, t);
    } else if AnswerOp(op) {
      AnswerUndisturbed(db, op, now, id, t);
    } else if op.DoBind? {
      BindUndisturbed(db, op, now, id, t);
    } else {
      RequestUndisturbed(db, op, now, id, t);
    }
  }

  lemma OpenOnTime(db: Db, op: Op, now: nat, id: Id, t: Track)
    requires Opens(db, op, now, id, t)
    ensures OnTime(Apply(db, op, now), [now], id, t)
  {
    if t.OfAdmission? {
      PrepareRow(db, id, op, now);
    }
  }

  lemma AdmissionOnTime(db: Db, tries: seq<nat>, id: Id, now: nat)
    requires DefersAdmission(db, DoDefer(id), id) && Scheduled(db, tries, id, OfAdmission)
    ensures OnTime(DeferAdmission(db, id, now).0, tries + [now], id, OfAdmission)
  {
    WaitIsDelay(|tries|);
  }

  lemma AnswerOnTime(db: Db, tries: seq<nat>, id: Id, request: string, now: nat)
    requires HandlesAnswer(db, DoDeferAnswer(id, request), id) && Scheduled(db, tries, id, OfAnswer)
    ensures OnTime(DeferAnswer(db, id, request, now).0, tries + [now], id, OfAnswer)
  {
    WaitIsDelay(|tries|);
  }

  lemma RequestOnTime(db: Db, tries: seq<nat>, id: Id, now: nat)
    requires DefersRequest(db, DoDeferOutbound(id), id) && Scheduled(db, tries, id, OfRequest)
    ensures OnTime(DeferOutbound(db, id, now).0, tries + [now], id, OfRequest)
  {
    WaitIsDelay(|tries|);
  }

  lemma DeferOnTime(db: Db, tries: seq<nat>, op: Op, now: nat, id: Id, t: Track)
    requires Waiting(db, id, t) && Scheduled(db, tries, id, t) && Defers(db, op, id, t)
    ensures OnTime(Apply(db, op, now), tries + [now], id, t)
  {
    match t
    case OfAdmission => AdmissionOnTime(db, tries, id, now);
    case OfAnswer => AnswerOnTime(db, tries, id, op.handled, now);
    case OfRequest => RequestOnTime(db, tries, id, now);
  }

  lemma StepOnTime(db: Db, tries: seq<nat>, op: Op, now: nat, id: Id, t: Track)
    requires DbOk(db) && OnTime(db, tries, id, t)
    ensures OnTime(Apply(db, op, now), TriedOnce(tries, db, op, now, id, t), id, t)
  {
    if Opens(db, op, now, id, t) {
      OpenOnTime(db, op, now, id, t);
    } else if Defers(db, op, id, t) {
      DeferOnTime(db, tries, op, now, id, t);
    } else {
      QuietUndisturbed(db, op, now, id, t);
    }
  }

  /** Over every run from an empty ledger, for admissions, answers and requests that wait: the counter
      is the number of deferrals, and the next attempt is due at the opening or, after deferrals, that
      many doublings of a second past the last one, up to 256. */
  lemma {:induction false} TimesExactly(log: seq<(Op, nat)>, id: Id, t: Track)
    ensures OnTime(Run(Db(map[], map[]), log), Tries(Db(map[], map[]), log, id, t), id, t)
    decreases |log|
  {
    var db := Db(map[], map[]);
    if log == [] {
    } else {
      var n := |log| - 1;
      var (op, now) := log[n];
      var before := Run(db, log[..n]);
      TimesExactly(log[..n], id, t);
      assert Nonterminal(db) == {};
      RunKeeps(db, log[..n]);
      RunAppend(db, log[..n], op, now);
      assert log[..n] + [(op, now)] == log;
      StepOnTime(before, Tries(db, log[..n], id, t), op, now, id, t);
    }
  }

  // ---------------------------------------------------------------- replies

  // The caller gets the row, or the request, as the transaction left it.
  predicate TellsRow(db: Db, reply: Reply<Row>, id: Id) {
    reply.Found? ==> id in db.rows && reply.value == db.rows[id]
  }

  predicate TellsRequest(db: Db, reply: Reply<Intent>, id: Id) {
    reply.Found? ==> id in db.intents && reply.value == db.intents[id]
  }

  // A claim is refused if the envelope is known under another one, or there is no room for a new one.
  lemma PrepareTells(db: Db, id: Id, claim: Claim, lease: string, now: nat)
    ensures var (db', reply) := Prepare(db, id, claim, lease, now);
            && TellsRow(db', reply, id) && !reply.Absent?
            && (reply.Raised? <==> if id in db.rows then db.rows[id].claim != claim else |Busy(db, now)| >= 2048)
            && (reply.Raised? ==> db' == db)
  {
    BusyIsOpen(db, now);
  }

  lemma DeliveryTells(db: Db, id: Id, ok: bool, result: Option<string>, failure: Option<Failure>, error: string, now: nat)
    ensures var (db', reply) := Authorize(db, id, now);
            TellsRow(db', reply, id) && !reply.Raised? && (reply.Found? <==> id in db.rows && db.rows[id].state in {Prepared, Authorized})
    ensures var (db', reply) := FinishDelivery(db, id, ok, result, failure, now);
            TellsRow(db', reply, id) && !reply.Raised?
            && (reply.Found? <==> id in db.rows && db.rows[id].state in {Authorized, Queued, Running} + if ok then {} else {Prepared})
    ensures var (db', reply) := FailOwnerless(db, id, error, now);
            TellsRow(db', reply, id) && !reply.Raised? && (reply.Found? <==> id in db.rows)
    ensures var (db', reply) := DeferAdmission(db, id, now);
            TellsRow(db', reply, id) && !reply.Raised? && (reply.Found? <==> id in db.rows)
  {
  }

  // The owners a row has agree with the ones to bind.
  predicate Agrees(r: Row, queued: Option<string>, run: Option<string>) {
    match r.state
    case Authorized => true
    case Queued => r.queued == queued && r.run == None
    case Running => r.queued == queued && r.run == run
    case _ => false
  }

  // Binding no owner, or one that another row has, is refused; so is binding what does not agree.
  lemma BindTells(db: Db, id: Id, queued: Option<string>, run: Option<string>, now: nat)
    requires id in db.rows ==> RowOk(db.rows[id])
    ensures var (db', reply) := BindOwner(db, id, queued, run, now);
            && TellsRow(db', reply, id)
            && (reply.Raised? <==>
                  || (queued == None && run == None)
                  || (id in db.rows && db.rows[id].state == Authorized && Holder(db, id, queued, run))
                  || (id in db.rows && db.rows[id].state == Queued && Agrees(db.rows[id], queued, run) && run.Some? && Holder(db, id, None, run)))
            && (reply.Absent? <==> (queued.Some? || run.Some?) && (id in db.rows ==> !Agrees(db.rows[id], queued, run)))
            && (!reply.Found? ==> db' == db)
  {
  }

  lemma AnswerTells(db: Db, id: Id, a: Answer, request: Option<string>, handled: string, now: nat)
    ensures var (db', reply) := PrepareAnswer(db, id, a, now);
            && TellsRow(db', reply, id)
            && (reply.Absent? <==>
                  !(id in db.rows && db.rows[id].state in {Authorized, Queued, Running} && db.rows[id].claim.kind in {RequestReply, Response}))
            && (reply.Raised? <==> !reply.Absent? && db.rows[id].answer.Some? && db.rows[id].answer != Some(a))
    ensures var (db', reply) := CommitAnswer(db, id, request, now);
            TellsRow(db', reply, id) && !reply.Raised? && (reply.Found? <==> id in db.rows)
    ensures var (db', reply) := ClearAnswer(db, id, handled, now);
            TellsRow(db', reply, id) && !reply.Raised? && (reply.Found? <==> id in db.rows)
    ensures var (db', reply) := DeferAnswer(db, id, handled, now);
            TellsRow(db', reply, id) && !reply.Raised? && (reply.Found? <==> id in db.rows)
  {
  }

  lemma RequestTells(db: Db, id: Id, o: Order, response: string, now: nat)
    ensures var (db', reply) := PrepareOutbound(db, id, o, now);
            TellsRequest(db', reply, id) && !reply.Absent? && (reply.Raised? <==> id in db.intents && db.intents[id].order != o)
    ensures var (db', reply) := CommitOutbound(db, id, response, now);
            && TellsRequest(db', reply, id) && (reply.Absent? <==> id !in db.intents)
            && (reply.Raised? <==> id in db.intents && db.intents[id].state == Sent && db.intents[id].response != Some(response))
    ensures var (db', reply) := DeferOutbound(db, id, now);
            TellsRequest(db', reply, id) && !reply.Raised? && (reply.Found? <==> id in db.intents)
    ensures var (db', reply) := FailOutbound(db, id, now);
            TellsRequest(db', reply, id) && !reply.Raised? && (reply.Found? <==> id in db.intents)
  {
  }
}

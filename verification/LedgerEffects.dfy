/**
 What the ledger's transactions bring about.  Each fact a row or request can carry is defined by
 position in the run: which transaction, met in which state, makes it true, and which ends it.  Over
 every run a fact holds exactly if one made it and none has ended it since.
 */
module LedgerEffects {
  import opened Wrappers
  import opened Histories
  import opened Ledger
  import opened LedgerHistory

  // ---------------------------------------------------------------- facts

  datatype Fact =
    | Claimed(claim: Claim)
    | Is(state: State)
    | Ended(succeeded: bool, result: Option<string>, error: Option<Failure>)
    | OwnedByQueue(owner: string)
    | OwnedByRun(owner: string)
    | Answered(answer: Answer)
    | AnswerCommitted
    | Leased(lease: string)
    | CreatedAt(time: nat)
    | TouchedAt(time: nat)
    | Ordered(order: Order)
    | RequestedAt(time: nat)
    | RequestTouchedAt(time: nat)
    | Awaits
    | SentWith(response: string)
    | GivenUp

  // The fact holds of the row or of the request with this id.
  predicate Holds(db: Db, id: Id, f: Fact) {
    match f
    case Claimed(claim) => id in db.rows && db.rows[id].claim == claim
    case Is(state) => id in db.rows && db.rows[id].state == state
    case Ended(ok, result, error) =>
      id in db.rows && db.rows[id].state == (if ok then Completed else Failed)
      && db.rows[id].result == result && db.rows[id].error == error
    case OwnedByQueue(q) => id in db.rows && db.rows[id].queued == Some(q)
    case OwnedByRun(r) => id in db.rows && db.rows[id].run == Some(r)
    case Answered(a) => id in db.rows && db.rows[id].answer == Some(a)
    case AnswerCommitted => id in db.rows && db.rows[id].committed
    case Leased(lease) => id in db.rows && db.rows[id].lease == lease
    case CreatedAt(t) => id in db.rows && db.rows[id].created == t
    case TouchedAt(t) => id in db.rows && db.rows[id].updated == t
    case Ordered(o) => id in db.intents && db.intents[id].order == o
    case RequestedAt(t) => id in db.intents && db.intents[id].created == t
    case RequestTouchedAt(t) => id in db.intents && db.intents[id].updated == t
    case Awaits => id in db.intents && db.intents[id].state == Pending
    case SentWith(response) => id in db.intents && db.intents[id].state == Sent && db.intents[id].response == Some(response)
    case GivenUp => id in db.intents && db.intents[id].state == Dropped
  }

  // ---------------------------------------------------------------- what brings them about

  // A claim whose receipt was never accepted and whose time is up.
  predicate Overdue(r: Row, now: nat) {
    r.state == Prepared && r.claim.expires <= now
  }

  function Busy(db: Db, now: nat): set<Id> {
    set i | i in db.rows && db.rows[i].state in {Prepared, Authorized, Queued, Running} && !Overdue(db.rows[i], now)
  }

  // A new envelope is admitted: unknown, and with what is overdue out of the way there is room.
  predicate Admits(db: Db, op: Op, now: nat, id: Id) {
    op.DoPrepare? && op.id == id && id !in db.rows && |Busy(db, now)| < 2048
  }

  // Admitting another envelope expires this one.
  predicate Expires(db: Db, op: Op, now: nat, id: Id) {
    op.DoPrepare? && Admits(db, op, now, op.id) && id in db.rows && Overdue(db.rows[id], now)
  }

  predicate Holder(db: Db, id: Id, queued: Option<string>, run: Option<string>) {
    exists i :: i in db.rows && i != id
                && ((queued.Some? && db.rows[i].queued == queued) || (run.Some? && db.rows[i].run == run))
  }

  // The binding finds the row without an owner and its owners held by nobody else.
  predicate BindsFirst(db: Db, op: Op, id: Id) {
    && op.DoBind? && op.id == id && (op.queued.Some? || op.run.Some?)
    && id in db.rows && db.rows[id].state == Authorized && db.rows[id].queued == None && db.rows[id].run == None
    && !Holder(db, id, op.queued, op.run)
  }

  // The run takes over from the queue entry that owns the row.
  predicate BindsRun(db: Db, op: Op, id: Id) {
    && op.DoBind? && op.id == id && op.run.Some?
    && id in db.rows && db.rows[id].state == Queued && db.rows[id].queued == op.queued && db.rows[id].run == None
    && !Holder(db, id, None, op.run)
  }

  predicate FinishesWell(db: Db, op: Op, id: Id) {
    op.DoFinish? && op.id == id && op.succeeded && id in db.rows && db.rows[id].state in {Authorized, Queued, Running}
  }

  predicate FinishesBadly(db: Db, op: Op, id: Id) {
    op.DoFinish? && op.id == id && !op.succeeded && id in db.rows && db.rows[id].state in {Prepared, Authorized, Queued, Running}
  }

  predicate FailsOwnerless(db: Db, op: Op, id: Id) {
    && op.DoFailOwnerless? && op.id == id
    && id in db.rows && db.rows[id].state == Authorized && db.rows[id].queued == None && db.rows[id].run == None
  }

  // A response can still be prepared, cleared or committed.
  predicate OpenAnswer(db: Db, id: Id) {
    id in db.rows && db.rows[id].state in {Authorized, Queued, Running} && !db.rows[id].committed
  }

  // The transaction moves the row into the state.
  predicate Moves(db: Db, op: Op, now: nat, id: Id, state: State) {
    match state
    case Prepared => Admits(db, op, now, id)
    case Authorized => op == DoAuthorize(id) && id in db.rows && db.rows[id].state == Prepared
    case Queued => BindsFirst(db, op, id) && op.run == None
    case Running => (BindsFirst(db, op, id) && op.run.Some?) || BindsRun(db, op, id)
    case Completed => FinishesWell(db, op, id)
    case Failed => FinishesBadly(db, op, id) || FailsOwnerless(db, op, id) || Expires(db, op, now, id)
  }

  predicate Sends(db: Db, op: Op, id: Id) {
    op.DoCommitOutbound? && op.id == id && id in db.intents && db.intents[id].state == Pending
  }

  predicate GivesUp(db: Db, op: Op, now: nat, id: Id) {
    && id in db.intents && db.intents[id].state == Pending
    && (op == DoFailOutbound(id) || (op.DoExpireOutbound? && db.intents[id].order.expires <= now))
  }

  predicate Orders(db: Db, op: Op, id: Id) {
    op.DoPrepareOutbound? && op.id == id && id !in db.intents
  }

  // The same claim comes with a new lease while its receipt is not accepted.
  predicate Releases(db: Db, op: Op, id: Id) {
    && op.DoPrepare? && op.id == id
    && id in db.rows && db.rows[id].state == Prepared && db.rows[id].claim == op.claim && db.rows[id].lease != op.lease
  }

  predicate DefersAdmission(db: Db, op: Op, id: Id) {
    op == DoDefer(id) && id in db.rows && db.rows[id].state == Authorized && db.rows[id].queued == None && db.rows[id].run == None
  }

  predicate PreparesAnswer(db: Db, op: Op, id: Id) {
    && op.DoPrepareAnswer? && op.id == id && OpenAnswer(db, id) && db.rows[id].answer == None
    && db.rows[id].claim.kind in {RequestReply, Response}
  }

  predicate CommitsAnswer(db: Db, op: Op, id: Id) {
    && op.DoCommitAnswer? && op.id == id && OpenAnswer(db, id)
    && (op.request.Some? ==> db.rows[id].answer.Some? && db.rows[id].answer.value.request == op.request.value)
  }

  // The transaction handles the answer the row has open.
  predicate HandlesAnswer(db: Db, op: Op, id: Id) {
    && (op.DoClearAnswer? || op.DoDeferAnswer?) && op.id == id && OpenAnswer(db, id)
    && db.rows[id].answer.Some? && db.rows[id].answer.value.request == op.handled
  }

  predicate DefersRequest(db: Db, op: Op, id: Id) {
    op == DoDeferOutbound(id) && id in db.intents && db.intents[id].state == Pending
  }

  // The transaction writes the row, or the request.
  predicate Touches(db: Db, op: Op, now: nat, id: Id) {
    || Admits(db, op, now, id) || Expires(db, op, now, id) || Releases(db, op, id)
    || (op == DoAuthorize(id) && id in db.rows && db.rows[id].state in {Prepared, Authorized})
    || BindsFirst(db, op, id) || BindsRun(db, op, id) || DefersAdmission(db, op, id)
    || FinishesWell(db, op, id) || FinishesBadly(db, op, id) || FailsOwnerless(db, op, id)
    || PreparesAnswer(db, op, id) || CommitsAnswer(db, op, id) || HandlesAnswer(db, op, id)
  }

  predicate TouchesRequest(db: Db, op: Op, now: nat, id: Id) {
    Orders(db, op, id) || Sends(db, op, id) || GivesUp(db, op, now, id) || DefersRequest(db, op, id)
  }

  predicate Makes(db: Db, op: Op, now: nat, id: Id, f: Fact) {
    match f
    case Claimed(claim) => Admits(db, op, now, id) && op.claim == claim
    case Is(state) => Moves(db, op, now, id, state)
    case Ended(ok, result, error) =>
      || ((if ok then FinishesWell(db, op, id) else FinishesBadly(db, op, id)) && op.result == result && op.failure == error)
      || (!ok && FailsOwnerless(db, op, id) && error == Some(Because(op.error)) && db.rows[id].result == result)
      || (!ok && Expires(db, op, now, id) && error == Some(Expired) && db.rows[id].result == result)
    case OwnedByQueue(q) => BindsFirst(db, op, id) && op.queued == Some(q)
    case OwnedByRun(r) => (BindsFirst(db, op, id) || BindsRun(db, op, id)) && op.run == Some(r)
    case Answered(a) => PreparesAnswer(db, op, id) && op.answer == a
    case AnswerCommitted => CommitsAnswer(db, op, id)
    case Leased(lease) => (Admits(db, op, now, id) || Releases(db, op, id)) && op.lease == lease
    case CreatedAt(t) => Admits(db, op, now, id) && now == t
    case TouchedAt(t) => Touches(db, op, now, id) && now == t
    case Ordered(o) => Orders(db, op, id) && op.order == o
    case RequestedAt(t) => Orders(db, op, id) && now == t
    case RequestTouchedAt(t) => TouchesRequest(db, op, now, id) && now == t
    case Awaits => Orders(db, op, id)
    case SentWith(response) => Sends(db, op, id) && op.response == response
    case GivenUp => GivesUp(db, op, now, id)
  }

  // Into any other state.
  predicate MovesFrom(db: Db, op: Op, now: nat, id: Id, state: State) {
    || (state != Prepared && Moves(db, op, now, id, Prepared))
    || (state != Authorized && Moves(db, op, now, id, Authorized))
    || (state != Queued && Moves(db, op, now, id, Queued))
    || (state != Running && Moves(db, op, now, id, Running))
    || (state != Completed && Moves(db, op, now, id, Completed))
    || (state != Failed && Moves(db, op, now, id, Failed))
  }

  // A state gives way to the next, a request to its result, an answer to being cleared, a lease and a
  // time to the next one; the rest stays.
  predicate Unmakes(db: Db, op: Op, now: nat, id: Id, f: Fact) {
    match f
    case Is(state) => MovesFrom(db, op, now, id, state)
    case Answered(a) => op.DoClearAnswer? && HandlesAnswer(db, op, id)
    case Leased(lease) => Releases(db, op, id)
    case TouchedAt(t) => Touches(db, op, now, id)
    case RequestTouchedAt(t) => TouchesRequest(db, op, now, id)
    case Awaits => Sends(db, op, id) || GivesUp(db, op, now, id)
    case _ => false
  }

  // ---------------------------------------------------------------- one transaction

  lemma BusyIsOpen(db: Db, now: nat)
    ensures Busy(db, now) == Nonterminal(ExpireAll(db, now))
  {
  }

  // What a claim does to a row: admitted, expired, or at most given another lease.
  lemma PrepareRow(db: Db, id: Id, op: Op, now: nat)
    requires op.DoPrepare?
    ensures var db' := Apply(db, op, now);
            && db'.intents == db.intents
            && (id in db'.rows <==> id in db.rows || Admits(db, op, now, id))
            && (Admits(db, op, now, id) ==>
                  db'.rows[id] == Row(op.claim, op.lease, Prepared, None, None, None, 0, None, false, None, 0, None, None, now, now))
            && (Expires(db, op, now, id) ==> db'.rows[id] == db.rows[id].(state := Failed, error := Some(Expired), updated := now))
            && (Releases(db, op, id) ==> db'.rows[id] == db.rows[id].(lease := op.lease, updated := now))
            && (id in db.rows && !Expires(db, op, now, id) && !Releases(db, op, id) ==> db'.rows[id] == db.rows[id])
  {
    BusyIsOpen(db, now);
  }

  // The fact after the transaction is what the transaction makes or leaves of it.
  ghost predicate Exact(db: Db, op: Op, now: nat, id: Id, f: Fact) {
    Holds(Apply(db, op, now), id, f) <==>
      Makes(db, op, now, id, f) || (Holds(db, id, f) && !Unmakes(db, op, now, id, f))
  }

  // The same row and request carry the same facts.
  lemma SameFacts(db: Db, db': Db, id: Id, f: Fact)
    requires (id in db'.rows <==> id in db.rows) && (id in db.rows ==> db'.rows[id] == db.rows[id])
    requires (id in db'.intents <==> id in db.intents) && (id in db.intents ==> db'.intents[id] == db.intents[id])
    ensures Holds(db', id, f) <==> Holds(db, id, f)
  {
  }

  lemma AdmitStep(db: Db, op: Op, now: nat, id: Id, f: Fact)
    requires op.DoPrepare? && Admits(db, op, now, id)
    ensures Exact(db, op, now, id, f)
  {
    PrepareRow(db, id, op, now);
  }

  lemma ExpiryStep(db: Db, op: Op, now: nat, id: Id, f: Fact)
    requires op.DoPrepare? && Expires(db, op, now, id)
    ensures Exact(db, op, now, id, f)
  {
    PrepareRow(db, id, op, now);
  }

  lemma BypassStep(db: Db, op: Op, now: nat, id: Id, f: Fact)
    requires op.DoPrepare? && !Admits(db, op, now, id) && !Expires(db, op, now, id) && !Releases(db, op, id)
    ensures Exact(db, op, now, id, f)
  {
    PrepareRow(db, id, op, now);
    SameFacts(db, Apply(db, op, now), id, f);
    assert !Makes(db, op, now, id, f) && !Unmakes(db, op, now, id, f);
  }

  lemma ReleaseStep(db: Db, op: Op, now: nat, id: Id, f: Fact)
    requires op.DoPrepare? && Releases(db, op, id)
    ensures Exact(db, op, now, id, f)
  {
    PrepareRow(db, id, op, now);
  }

  lemma PrepareStep(db: Db, op: Op, now: nat, id: Id, f: Fact)
    requires op.DoPrepare?
    ensures Exact(db, op, now, id, f)
  {
    if Admits(db, op, now, id) {
      AdmitStep(db, op, now, id, f);
    } else if Expires(db, op, now, id) {
      ExpiryStep(db, op, now, id, f);
    } else if Releases(db, op, id) {
      ReleaseStep(db, op, now, id, f);
    } else {
      BypassStep(db, op, now, id, f);
    }
  }

  // Every other transaction touches the row or request it names and no other.
  lemma OthersStay(db: Db, op: Op, now: nat, id: Id)
    requires !op.DoPrepare? && !op.DoExpireOutbound? && op.id != id
    ensures var db' := Apply(db, op, now);
            && (id in db'.rows <==> id in db.rows) && (id in db.rows ==> db'.rows[id] == db.rows[id])
            && (id in db'.intents <==> id in db.intents) && (id in db.intents ==> db'.intents[id] == db.intents[id])
  {
  }

  lemma OthersStep(db: Db, op: Op, now: nat, id: Id, f: Fact)
    requires !op.DoPrepare? && !op.DoExpireOutbound? && op.id != id
    ensures Exact(db, op, now, id, f)
  {
    OthersStay(db, op, now, id);
    SameFacts(db, Apply(db, op, now), id, f);
    NotItsOwn(db, op, now, id, f);
  }

  lemma NotItsOwn(db: Db, op: Op, now: nat, id: Id, f: Fact)
    requires !op.DoPrepare? && !op.DoExpireOutbound? && op.id != id
    ensures !Makes(db, op, now, id, f) && !Unmakes(db, op, now, id, f)
  {
  }

  lemma AuthorizeStep(db: Db, id: Id, now: nat, f: Fact)
    ensures Exact(db, DoAuthorize(id), now, id, f)
  {
  }

  lemma OwnerlessStep(db: Db, id: Id, error: string, now: nat, f: Fact)
    ensures Exact(db, DoFailOwnerless(id, error), now, id, f)
  {
  }

  // What binding writes, and when.
  lemma BindRow(db: Db, id: Id, queued: Option<string>, run: Option<string>, now: nat)
    requires id in db.rows ==> RowOk(db.rows[id])
    ensures var op, db' := DoBind(id, queued, run), BindOwner(db, id, queued, run, now).0;
            && (id in db'.rows <==> id in db.rows) && db'.intents == db.intents
            && (BindsFirst(db, op, id) ==>
                  db'.rows[id] == db.rows[id].(
                    state := if run.Some? then Running else Queued, queued := queued, run := run, retryAt := None, updated := now))
            && (BindsRun(db, op, id) ==>
                  db'.rows[id] == db.rows[id].(state := Running, run := run, retryAt := None, updated := now))
            && (id in db.rows && !BindsFirst(db, op, id) && !BindsRun(db, op, id) ==> db'.rows[id] == db.rows[id])
  {
  }

  lemma BindStep(db: Db, id: Id, queued: Option<string>, run: Option<string>, now: nat, f: Fact)
    requires id in db.rows ==> RowOk(db.rows[id])
    ensures Exact(db, DoBind(id, queued, run), now, id, f)
  {
    BindRow(db, id, queued, run, now);
    var op := DoBind(id, queued, run);
    if BindsFirst(db, op, id) {
      BoundFirst(db, id, queued, run, now, f);
    } else if BindsRun(db, op, id) {
      BoundRun(db, id, queued, run, now, f);
    } else {
      SameFacts(db, Apply(db, op, now), id, f);
      BoundNothing(db, op, now, id, f);
    }
  }

  lemma BoundNothing(db: Db, op: Op, now: nat, id: Id, f: Fact)
    requires op.DoBind? && op.id == id && !BindsFirst(db, op, id) && !BindsRun(db, op, id)
    ensures !Makes(db, op, now, id, f) && !Unmakes(db, op, now, id, f)
  {
  }

  lemma BoundFirst(db: Db, id: Id, queued: Option<string>, run: Option<string>, now: nat, f: Fact)
    requires id in db.rows && RowOk(db.rows[id]) && BindsFirst(db, DoBind(id, queued, run), id)
    ensures Exact(db, DoBind(id, queued, run), now, id, f)
  {
    BindRow(db, id, queued, run, now);
  }

  lemma BoundRun(db: Db, id: Id, queued: Option<string>, run: Option<string>, now: nat, f: Fact)
    requires id in db.rows && RowOk(db.rows[id]) && BindsRun(db, DoBind(id, queued, run), id)
    ensures Exact(db, DoBind(id, queued, run), now, id, f)
  {
    BindRow(db, id, queued, run, now);
  }

  lemma FinishRow(db: Db, id: Id, ok: bool, result: Option<string>, error: Option<Failure>, now: nat)
    ensures var op, db' := DoFinish(id, ok, result, error), FinishDelivery(db, id, ok, result, error, now).0;
            && (id in db'.rows <==> id in db.rows) && db'.intents == db.intents
            && (FinishesWell(db, op, id) ==>
                  db'.rows[id] == db.rows[id].(state := Completed, result := result, error := error, updated := now))
            && (FinishesBadly(db, op, id) ==>
                  db'.rows[id] == db.rows[id].(state := Failed, result := result, error := error, updated := now))
            && (id in db.rows && !FinishesWell(db, op, id) && !FinishesBadly(db, op, id) ==> db'.rows[id] == db.rows[id])
  {
  }

  lemma FinishStep(db: Db, id: Id, ok: bool, result: Option<string>, error: Option<Failure>, now: nat, f: Fact)
    ensures Exact(db, DoFinish(id, ok, result, error), now, id, f)
  {
    FinishRow(db, id, ok, result, error, now);
    var op := DoFinish(id, ok, result, error);
    if FinishesWell(db, op, id) || FinishesBadly(db, op, id) {
      FinishedStep(db, id, ok, result, error, now, f);
    } else {
      SameFacts(db, Apply(db, op, now), id, f);
      assert !Makes(db, op, now, id, f) && !Unmakes(db, op, now, id, f);
    }
  }

  lemma FinishedStep(db: Db, id: Id, ok: bool, result: Option<string>, error: Option<Failure>, now: nat, f: Fact)
    requires var op := DoFinish(id, ok, result, error); FinishesWell(db, op, id) || FinishesBadly(db, op, id)
    ensures Exact(db, DoFinish(id, ok, result, error), now, id, f)
  {
    FinishRow(db, id, ok, result, error, now);
  }

  lemma DeferStep(db: Db, id: Id, now: nat, f: Fact)
    ensures Exact(db, DoDefer(id), now, id, f)
  {
  }

  lemma PrepareAnswerStep(db: Db, id: Id, a: Answer, now: nat, f: Fact)
    ensures Exact(db, DoPrepareAnswer(id, a), now, id, f)
  {
  }

  lemma CommitAnswerStep(db: Db, id: Id, request: Option<string>, now: nat, f: Fact)
    ensures Exact(db, DoCommitAnswer(id, request), now, id, f)
  {
  }

  lemma ClearAnswerStep(db: Db, id: Id, request: string, now: nat, f: Fact)
    ensures Exact(db, DoClearAnswer(id, request), now, id, f)
  {
  }

  lemma DeferAnswerStep(db: Db, id: Id, request: string, now: nat, f: Fact)
    ensures Exact(db, DoDeferAnswer(id, request), now, id, f)
  {
  }

  lemma PrepareOutboundStep(db: Db, id: Id, o: Order, now: nat, f: Fact)
    ensures Exact(db, DoPrepareOutbound(id, o), now, id, f)
  {
  }

  lemma CommitOutboundStep(db: Db, id: Id, response: string, now: nat, f: Fact)
    requires id in db.intents ==> IntentOk(db.intents[id])
    ensures Exact(db, DoCommitOutbound(id, response), now, id, f)
  {
  }

  lemma DeferOutboundStep(db: Db, id: Id, now: nat, f: Fact)
    ensures Exact(db, DoDeferOutbound(id), now, id, f)
  {
  }

  lemma FailOutboundStep(db: Db, id: Id, now: nat, f: Fact)
    ensures Exact(db, DoFailOutbound(id), now, id, f)
  {
  }

  lemma ExpireOutboundStep(db: Db, now: nat, id: Id, f: Fact)
    ensures Exact(db, DoExpireOutbound, now, id, f)
  {
  }

  lemma StepExactly(db: Db, op: Op, now: nat, id: Id, f: Fact)
    requires DbOk(db)
    ensures Exact(db, op, now, id, f)
  {
    assert id in db.rows ==> RowOk(db.rows[id]);
    assert id in db.intents ==> IntentOk(db.intents[id]);
    if op.DoPrepare? {
      PrepareStep(db, op, now, id, f);
    } else if op.DoExpireOutbound? {
      ExpireOutboundStep(db, now, id, f);
    } else if op.id != id {
      OthersStep(db, op, now, id, f);
    } else {
      OwnStep(db, op, now, f);
    }
  }

  lemma OwnStep(db: Db, op: Op, now: nat, f: Fact)
    requires !op.DoPrepare? && !op.DoExpireOutbound?
    requires (op.id in db.rows ==> RowOk(db.rows[op.id])) && (op.id in db.intents ==> IntentOk(db.intents[op.id]))
    ensures Exact(db, op, now, op.id, f)
  {
    match op
    case DoAuthorize(i) => AuthorizeStep(db, i, now, f);
    case DoFailOwnerless(i, error) => OwnerlessStep(db, i, error, now, f);
    case DoBind(i, queued, run) => BindStep(db, i, queued, run, now, f);
    case DoDefer(i) => DeferStep(db, i, now, f);
    case DoFinish(i, ok, result, error) => FinishStep(db, i, ok, result, error, now, f);
    case DoPrepareAnswer(i, a) => PrepareAnswerStep(db, i, a, now, f);
    case DoCommitAnswer(i, request) => CommitAnswerStep(db, i, request, now, f);
    case DoClearAnswer(i, request) => ClearAnswerStep(db, i, request, now, f);
    case DoDeferAnswer(i, request) => DeferAnswerStep(db, i, request, now, f);
    case DoPrepareOutbound(i, o) => PrepareOutboundStep(db, i, o, now, f);
    case DoCommitOutbound(i, response) => CommitOutboundStep(db, i, response, now, f);
    case DoDeferOutbound(i) => DeferOutboundStep(db, i, now, f);
    case DoFailOutbound(i) => FailOutboundStep(db, i, now, f);
  }

  // ---------------------------------------------------------------- every run

  // Whether the fact holds before transaction k, and what that one does to it.
  ghost function HoldsAt(db: Db, log: seq<(Op, nat)>, id: Id, f: Fact): nat -> bool {
    (k: nat) => k <= |log| && Holds(Run(db, log[..k]), id, f)
  }

  ghost function MakesAt(db: Db, log: seq<(Op, nat)>, id: Id, f: Fact): nat -> bool {
    (k: nat) => k < |log| && Makes(Run(db, log[..k]), log[k].0, log[k].1, id, f)
  }

  ghost function UnmakesAt(db: Db, log: seq<(Op, nat)>, id: Id, f: Fact): nat -> bool {
    (k: nat) => k < |log| && Unmakes(Run(db, log[..k]), log[k].0, log[k].1, id, f)
  }

  lemma FactAt(db: Db, log: seq<(Op, nat)>, id: Id, f: Fact, k: nat)
    requires DbOk(db) && k < |log|
    ensures Changes(HoldsAt(db, log, id, f), MakesAt(db, log, id, f), UnmakesAt(db, log, id, f), k)
  {
    var (op, now) := log[k];
    RunKeeps(db, log[..k]);
    RunAppend(db, log[..k], op, now);
    assert log[..k] + [(op, now)] == log[..k + 1];
    StepExactly(Run(db, log[..k]), op, now, id, f);
  }

  /** Over every run, for every fact: it holds at the end exactly if it held to begin with or some
      transaction made it true, and none has ended it since.  So a row is completed exactly if some
      finish with success met it accepted and open, and then carries that result. */
  lemma RunExactly(db: Db, log: seq<(Op, nat)>, id: Id, f: Fact)
    requires DbOk(db)
    ensures Holds(Run(db, log), id, f) <==>
              Stands(Holds(db, id, f), MakesAt(db, log, id, f), UnmakesAt(db, log, id, f), |log|)
  {
    forall k: nat | k < |log| ensures Changes(HoldsAt(db, log, id, f), MakesAt(db, log, id, f), UnmakesAt(db, log, id, f), k) {
      FactAt(db, log, id, f, k);
    }
    StandsExactly(HoldsAt(db, log, id, f), MakesAt(db, log, id, f), UnmakesAt(db, log, id, f), |log|);
    assert log[..|log|] == log && log[..0] == [];
  }

  predicate CompletesAt(log: seq<(Op, nat)>, k: nat, id: Id, result: Option<string>, error: Option<Failure>) {
    && k < |log| && log[k].0 == DoFinish(id, true, result, error)
    && FinishesWell(Run(Db(map[], map[]), log[..k]), log[k].0, id)
  }

  /** Of a ledger that starts empty: a row is completed with a result exactly if a finish with success
      and that result met it accepted and open. */
  lemma CompletedExactly(log: seq<(Op, nat)>, id: Id, result: Option<string>, error: Option<Failure>)
    ensures Holds(Run(Db(map[], map[]), log), id, Ended(true, result, error)) <==>
              exists k: nat :: CompletesAt(log, k, id, result, error)
  {
    var db, f := Db(map[], map[]), Ended(true, result, error);
    assert Nonterminal(db) == {};
    RunExactly(db, log, id, f);
    var made, ended := MakesAt(db, log, id, f), UnmakesAt(db, log, id, f);
    forall k: nat ensures MadeAndLasts(made, ended, k, |log|) <==> CompletesAt(log, k, id, result, error) {
      assert LastsFrom(ended, k + 1, |log|);
    }
  }
}

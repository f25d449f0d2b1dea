/**
 The durable delivery ledger: one row per claimed envelope, one per outbound request.

 Every operation is one database transaction, a function from the ledger to the next ledger
 and a reply; an operation that raises leaves the ledger as it was.  Digests are compared by
 the contents they stand for.
 */
module Ledger {
  import opened Wrappers

  type Id = nat

  datatype State = Prepared | Authorized | Queued | Running | Completed | Failed

  datatype Role = Host | Client

  datatype EnvelopeKind = Instruction | RequestReply | Response

  // The immutable envelope claim; its digest excludes the lease.
  datatype Claim = Claim(
    request: string,
    role: Role,
    connection: string,
    chat: string,
    kind: EnvelopeKind,
    expires: nat,
    rest: string)

  // A response intent; its digest covers all three fields.
  datatype Answer = Answer(request: string, body: string, wantsReply: bool)

  datatype Row = Row(
    claim: Claim,
    lease: string,
    state: State,
    queued: Option<string>,
    run: Option<string>,
    retryAt: Option<nat>,
    attempts: nat,
    answer: Option<Answer>,
    committed: bool,
    answerRetryAt: Option<nat>,
    answerAttempts: nat,
    result: Option<string>,
    error: Option<Failure>,
    created: nat,
    updated: nat)

  datatype Failure = Expired | Because(text: string)

  datatype IntentState = Pending | Sent | Dropped

  // What an outbound request fixes for good.
  datatype Order = Order(
    session: string,
    connection: string,
    route: string,
    revision: string,
    expires: nat,
    rest: string)

  datatype Intent = Intent(
    order: Order,
    state: IntentState,
    response: Option<string>,
    retryAt: Option<nat>,
    attempts: nat,
    created: nat,
    updated: nat)

  datatype Db = Db(rows: map<Id, Row>, intents: map<Id, Intent>)

  // What the caller gets back: a row, nothing, or an exception.
  datatype Reply<+T> = Found(value: T) | Absent | Raised

  const CAPACITY: nat := 2048

  // ---------------------------------------------------------------- states

  predicate Terminal(s: State) {
    s.Completed? || s.Failed?
  }

  // The receipt has been accepted and no result recorded yet.
  predicate Accepted(s: State) {
    s.Authorized? || s.Queued? || s.Running?
  }

  function Nonterminal(db: Db): set<Id> {
    set i | i in db.rows && !Terminal(db.rows[i].state)
  }

  function WithRow(db: Db, id: Id, r: Row): Db {
    db.(rows := db.rows[id := r])
  }

  function WithIntent(db: Db, id: Id, i: Intent): Db {
    db.(intents := db.intents[id := i])
  }

  function ReplyRow(db: Db, id: Id): Reply<Row> {
    if id in db.rows then Found(db.rows[id]) else Absent
  }

  function ReplyIntent(db: Db, id: Id): Reply<Intent> {
    if id in db.intents then Found(db.intents[id]) else Absent
  }

  // ---------------------------------------------------------------- claiming an envelope

  function Expire(r: Row, now: nat): Row {
    if r.state.Prepared? && r.claim.expires <= now then r.(state := Failed, error := Some(Expired), updated := now) else r
  }

  function ExpireAll(db: Db, now: nat): Db {
    db.(rows := map i | i in db.rows :: Expire(db.rows[i], now))
  }

  function Fresh(claim: Claim, lease: string, now: nat): Row {
    Row(claim, lease, Prepared, None, None, None, 0, None, false, None, 0, None, None, now, now)
  }

  function Prepare(db: Db, id: Id, claim: Claim, lease: string, now: nat): (Db, Reply<Row>) {
    if id in db.rows then
      var r := db.rows[id];
      if r.claim != claim then (db, Raised)
      else if r.state.Prepared? && r.lease != lease then
        var r' := r.(lease := lease, updated := now);
        (WithRow(db, id, r'), Found(r'))
      else (db, Found(r))
    else
      var db' := ExpireAll(db, now);
      if |Nonterminal(db')| >= CAPACITY then (db, Raised)
      else (WithRow(db', id, Fresh(claim, lease, now)), Found(Fresh(claim, lease, now)))
  }

  function Authorize(db: Db, id: Id, now: nat): (Db, Reply<Row>) {
    if id in db.rows && (db.rows[id].state.Prepared? || db.rows[id].state.Authorized?) then
      var r' := db.rows[id].(state := Authorized, updated := now);
      (WithRow(db, id, r'), Found(r'))
    else (db, Absent)
  }

  predicate Ownerless(r: Row) {
    r.state.Authorized? && r.queued.None? && r.run.None?
  }

  function FailOwnerless(db: Db, id: Id, error: string, now: nat): (Db, Reply<Row>) {
    if id in db.rows && Ownerless(db.rows[id]) then
      var r' := db.rows[id].(state := Failed, error := Some(Because(error)), retryAt := None, updated := now);
      (WithRow(db, id, r'), Found(r'))
    else (db, ReplyRow(db, id))
  }

  // The unique indexes over the two owner columns.
  predicate OwnerTaken(db: Db, id: Id, queued: Option<string>, run: Option<string>) {
    exists i :: i in db.rows && i != id
                && ((queued.Some? && db.rows[i].queued == queued) || (run.Some? && db.rows[i].run == run))
  }

  function BindOwner(db: Db, id: Id, queued: Option<string>, run: Option<string>, now: nat): (Db, Reply<Row>) {
    if queued.None? && run.None? then (db, Raised)
    else if id !in db.rows then (db, Absent)
    else
      var r := db.rows[id];
      match r.state
      case Authorized =>
        if !Ownerless(r) then (db, Found(r))
        else if OwnerTaken(db, id, queued, run) then (db, Raised)
        else
          var r' := r.(state := if run.Some? then Running else Queued, queued := queued, run := run,
                       retryAt := None, updated := now);
          (WithRow(db, id, r'), Found(r'))
      case Queued =>
        if r.queued != queued || r.run.Some? then (db, Absent)
        else if run.None? then (db, Found(r))
        else if OwnerTaken(db, id, None, run) then (db, Raised)
        else
          var r' := r.(state := Running, run := run, retryAt := None, updated := now);
          (WithRow(db, id, r'), Found(r'))
      case Running =>
        if r.queued != queued || r.run != run then (db, Absent) else (db, Found(r))
      case _ => (db, Absent)
  }

  function FinishDelivery(db: Db, id: Id, succeeded: bool, result: Option<string>, error: Option<Failure>, now: nat): (Db, Reply<Row>) {
    if id in db.rows && (Accepted(db.rows[id].state) || (!succeeded && db.rows[id].state.Prepared?)) then
      var r' := db.rows[id].(state := if succeeded then Completed else Failed, result := result, error := error, updated := now);
      (WithRow(db, id, r'), Found(r'))
    else (db, Absent)
  }

  // ---------------------------------------------------------------- retry delays

  function Pow2(n: nat): nat {
    if n == 0 then 1 else 2 * Pow2(n - 1)
  }

  function Min(a: nat, b: nat): nat {
    if a <= b then a else b
  }

  function Delay(attempts: nat): nat {
    Min(300, Pow2(Min(attempts, 8)))
  }

  function DeferAdmission(db: Db, id: Id, now: nat): (Db, Reply<Row>) {
    if id in db.rows && Ownerless(db.rows[id]) then
      var r := db.rows[id];
      var r' := r.(attempts := r.attempts + 1, retryAt := Some(now + Delay(r.attempts + 1)), updated := now);
      (WithRow(db, id, r'), Found(r'))
    else (db, ReplyRow(db, id))
  }

  // ---------------------------------------------------------------- response intents

  function PrepareAnswer(db: Db, id: Id, a: Answer, now: nat): (Db, Reply<Row>) {
    if id !in db.rows || !Accepted(db.rows[id].state) || db.rows[id].claim.kind.Instruction? then (db, Absent)
    else
      var r := db.rows[id];
      if r.answer.Some? then if r.answer.value != a then (db, Raised) else (db, Found(r))
      else if r.committed then (db, Found(r))
      else
        var r' := r.(answer := Some(a), answerRetryAt := Some(now), answerAttempts := 0, updated := now);
        (WithRow(db, id, r'), Found(r'))
  }

  predicate Uncommitted(r: Row) {
    Accepted(r.state) && !r.committed
  }

  predicate Answers(r: Row, request: string) {
    r.answer.Some? && r.answer.value.request == request
  }

  function CommitAnswer(db: Db, id: Id, request: Option<string>, now: nat): (Db, Reply<Row>) {
    if id in db.rows && Uncommitted(db.rows[id]) && (request.None? || Answers(db.rows[id], request.value)) then
      var r' := db.rows[id].(committed := true, answerRetryAt := None, updated := now);
      (WithRow(db, id, r'), Found(r'))
    else (db, ReplyRow(db, id))
  }

  function ClearAnswer(db: Db, id: Id, request: string, now: nat): (Db, Reply<Row>) {
    if id in db.rows && Uncommitted(db.rows[id]) && Answers(db.rows[id], request) then
      var r' := db.rows[id].(answer := None, answerRetryAt := None, answerAttempts := 0, updated := now);
      (WithRow(db, id, r'), Found(r'))
    else (db, ReplyRow(db, id))
  }

  function DeferAnswer(db: Db, id: Id, request: string, now: nat): (Db, Reply<Row>) {
    if id in db.rows && Uncommitted(db.rows[id]) && Answers(db.rows[id], request) then
      var r := db.rows[id];
      var r' := r.(answerAttempts := r.answerAttempts + 1, answerRetryAt := Some(now + Delay(r.answerAttempts + 1)), updated := now);
      (WithRow(db, id, r'), Found(r'))
    else (db, ReplyRow(db, id))
  }

  // Rows offered for another attempt at their response.
  predicate AnswerDue(r: Row, now: nat) {
    Uncommitted(r) && r.answer.Some? && (r.answerRetryAt.Some? ==> r.answerRetryAt.value <= now)
  }

  // ---------------------------------------------------------------- outbound intents

  function PrepareOutbound(db: Db, id: Id, o: Order, now: nat): (Db, Reply<Intent>) {
    if id in db.intents then
      if db.intents[id].order != o then (db, Raised) else (db, Found(db.intents[id]))
    else
      var i := Intent(o, Pending, None, Some(now), 0, now, now);
      (WithIntent(db, id, i), Found(i))
  }

  function ExpireIntent(i: Intent, now: nat): Intent {
    if i.state.Pending? && i.order.expires <= now then i.(state := Dropped, retryAt := None, updated := now) else i
  }

  // Every query of pending work first expires what is overdue.
  function ExpireOutbound(db: Db, now: nat): Db {
    db.(intents := map i | i in db.intents :: ExpireIntent(db.intents[i], now))
  }

  function CommitOutbound(db: Db, id: Id, response: string, now: nat): (Db, Reply<Intent>) {
    if id !in db.intents then (db, Absent)
    else
      var i := db.intents[id];
      match i.state
      case Sent => if i.response != Some(response) then (db, Raised) else (db, Found(i))
      case Dropped => (db, Found(i))
      case Pending =>
        var i' := i.(state := Sent, response := Some(response), retryAt := None, updated := now);
        (WithIntent(db, id, i'), Found(i'))
  }

  function DeferOutbound(db: Db, id: Id, now: nat): (Db, Reply<Intent>) {
    if id in db.intents && db.intents[id].state.Pending? then
      var i := db.intents[id];
      var i' := i.(attempts := i.attempts + 1, retryAt := Some(now + Delay(i.attempts + 1)), updated := now);
      (WithIntent(db, id, i'), Found(i'))
    else (db, ReplyIntent(db, id))
  }

  function FailOutbound(db: Db, id: Id, now: nat): (Db, Reply<Intent>) {
    if id in db.intents && db.intents[id].state.Pending? then
      var i' := db.intents[id].(state := Dropped, retryAt := None, updated := now);
      (WithIntent(db, id, i'), Found(i'))
    else (db, ReplyIntent(db, id))
  }

  // ---------------------------------------------------------------- pruning

  predicate PruneRow(r: Row, cutoff: nat) {
    Terminal(r.state) && r.updated < cutoff
  }

  predicate PruneIntent(i: Intent, cutoff: nat) {
    !i.state.Pending? && i.updated < cutoff
  }

  function Prune(db: Db, cutoff: nat): Db {
    Db(map i | i in db.rows && !PruneRow(db.rows[i], cutoff) :: db.rows[i],
       map i | i in db.intents && !PruneIntent(db.intents[i], cutoff) :: db.intents[i])
  }

  // ---------------------------------------------------------------- the operations of a run

  datatype Op =
    | DoPrepare(id: Id, claim: Claim, lease: string)
    | DoAuthorize(id: Id)
    | DoFailOwnerless(id: Id, error: string)
    | DoBind(id: Id, queued: Option<string>, run: Option<string>)
    | DoDefer(id: Id)
    | DoFinish(id: Id, succeeded: bool, result: Option<string>, failure: Option<Failure>)
    | DoPrepareAnswer(id: Id, answer: Answer)
    | DoCommitAnswer(id: Id, request: Option<string>)
    | DoClearAnswer(id: Id, handled: string)
    | DoDeferAnswer(id: Id, handled: string)
    | DoPrepareOutbound(id: Id, order: Order)
    | DoExpireOutbound
    | DoCommitOutbound(id: Id, response: string)
    | DoDeferOutbound(id: Id)
    | DoFailOutbound(id: Id)

  function Apply(db: Db, op: Op, now: nat): Db {
    match op
    case DoPrepare(id, claim, lease) => Prepare(db, id, claim, lease, now).0
    case DoAuthorize(id) => Authorize(db, id, now).0
    case DoFailOwnerless(id, error) => FailOwnerless(db, id, error, now).0
    case DoBind(id, queued, run) => BindOwner(db, id, queued, run, now).0
    case DoDefer(id) => DeferAdmission(db, id, now).0
    case DoFinish(id, ok, result, error) => FinishDelivery(db, id, ok, result, error, now).0
    case DoPrepareAnswer(id, a) => PrepareAnswer(db, id, a, now).0
    case DoCommitAnswer(id, request) => CommitAnswer(db, id, request, now).0
    case DoClearAnswer(id, request) => ClearAnswer(db, id, request, now).0
    case DoDeferAnswer(id, request) => DeferAnswer(db, id, request, now).0
    case DoPrepareOutbound(id, o) => PrepareOutbound(db, id, o, now).0
    case DoExpireOutbound => ExpireOutbound(db, now)
    case DoCommitOutbound(id, response) => CommitOutbound(db, id, response, now).0
    case DoDeferOutbound(id) => DeferOutbound(db, id, now).0
    case DoFailOutbound(id) => FailOutbound(db, id, now).0
  }

  // A run: each operation with the time at which its transaction reads the clock.
  function Run(db: Db, log: seq<(Op, nat)>): Db
    decreases |log|
  {
    if log == [] then db else Run(Apply(db, log[0].0, log[0].1), log[1..])
  }
}

/**
 Requests multiplexed over one app-server process after another, and the verdict each failure
 carries: may this request be sent again?

 Every await of the client is a point where other steps interleave: waiting for the writer lock,
 draining the pipe, waiting for the response, and the reader's own end.
 */
module CodexRequests {
  import opened Wrappers

  type Id = nat

  // How a request ends: a result, an explicit rejection, a failure with its verdict, or an
  // exception that carries none (cancellation, a foreign error).
  datatype Verdict = Success | Rejected | Failure(safe: bool) | NoVerdict

  // A rejection is an error that allows a retry.
  predicate SafeToRetry(v: Verdict) {
    v.Rejected? || (v.Failure? && v.safe)
  }

  // A request under way: the process it was meant for, whether its bytes went out, and what its
  // future holds.
  datatype Request = Request(process: nat, written: bool, future: Option<Verdict>)

  datatype Client = Client(
    process: Option<nat>,
    alive: bool,            // the process has no exit status yet
    next: nat,
    underway: map<Id, Request>,
    pending: set<Id>,       // the table the reader looks responses up in
    outcomes: map<Id, Verdict>,
    wrote: set<Id>,         // requests of which bytes were written
    refused: set<Id>)       // requests app-server rejected explicitly

  const START := Client(None, false, 0, map[], {}, map[], {}, {})

  // How the pipe takes a write: whole, or it raises with or without bytes gone out.
  datatype Pipe = Takes | RaisesAfter | RaisesBefore

  // Why the reader stopped: end of output, an error of its own, or no output pipe at all.
  datatype ReaderEnd = EndOfOutput | ReaderError | NoOutputPipe

  datatype Event =
    | Spawn
    | Exits
    | Begin
    | LockTimeout(id: Id)
    | Turn(id: Id, late: bool, pipe: Pipe)
    | DrainTimeout(id: Id, discard: bool)
    | DrainError(id: Id)
    | Response(id: Id, accepted: bool)
    | Collect(id: Id)
    | ResponseTimeout(id: Id)
    | Cancel(id: Id)
    | ReaderStops(end: ReaderEnd)
    | Retire
    | FailRetired

  // ---------------------------------------------------------------- steps

  // The coroutine of a request returns or raises.
  function Settle(c: Client, id: Id, v: Verdict): Client {
    c.(underway := c.underway - {id}, pending := c.pending - {id}, outcomes := c.outcomes[id := v])
  }

  function BeginRequest(c: Client): Client {
    if c.process.None? || !c.alive
    then c.(outcomes := c.outcomes[c.next := Failure(true)], next := c.next + 1)
    else c.(underway := c.underway[c.next := Request(c.process.value, false, None)], pending := c.pending + {c.next}, next := c.next + 1)
  }

  predicate Waits(c: Client, id: Id) {
    id in c.underway && !c.underway[id].written
  }

  predicate Sent(c: Client, id: Id) {
    id in c.underway && c.underway[id].written
  }

  // The request holds the writer lock: the process is checked again before anything is written.
  function TakeTurn(c: Client, id: Id, late: bool, pipe: Pipe): Client {
    if !Waits(c, id) then c
    else if c.process != Some(c.underway[id].process) || !c.alive then Settle(c, id, Failure(true))
    else if late then Settle(c, id, Failure(true))
    else
      match pipe
      case Takes => c.(underway := c.underway[id := c.underway[id].(written := true)], wrote := c.wrote + {id})
      case RaisesAfter => Settle(c, id, Failure(false)).(wrote := c.wrote + {id})
      case RaisesBefore => Settle(c, id, Failure(false))
  }

  // Every future in the table that is not done gets the error; the table is emptied.
  function FailAll(c: Client, v: Verdict): Client {
    c.(underway := map id | id in c.underway ::
                     if id in c.pending && c.underway[id].future.None? then c.underway[id].(future := Some(v)) else c.underway[id],
       pending := {})
  }

  // Retiring a transport: unsafe as soon as anything is pending.
  function FailTransport(c: Client): Client {
    FailAll(c, Failure(c.pending == {}))
  }

  function Answer(c: Client, id: Id, accepted: bool): Client {
    if id !in c.pending || id !in c.underway || c.underway[id].future.Some? then c
    else
      var v := if accepted then Success else Rejected;
      c.(underway := c.underway[id := c.underway[id].(future := Some(v))],
         refused := if accepted then c.refused else c.refused + {id})
  }

  function StopReader(c: Client, end: ReaderEnd): Client {
    if c.process.None? then c
    else
      match end
      case EndOfOutput => FailTransport(c)
      case ReaderError => FailAll(c, NoVerdict)
      case NoOutputPipe => FailAll(c, Failure(true))
  }

  function Step(c: Client, e: Event): Client {
    match e
    case Spawn => if c.process.None? then c.(process := Some(c.next), alive := true, next := c.next + 1) else c
    case Exits => c.(alive := false)
    case Begin => BeginRequest(c)
    case LockTimeout(id) => if Waits(c, id) then Settle(c, id, Failure(true)) else c
    case Turn(id, late, pipe) => TakeTurn(c, id, late, pipe)
    case DrainTimeout(id, discard) =>
      if !Sent(c, id) then c
      else
        var c' := if discard && c.process == Some(c.underway[id].process) then FailTransport(c).(process := None) else c;
        Settle(c', id, Failure(false))
    case DrainError(id) => if Sent(c, id) then Settle(c, id, Failure(false)) else c
    case Response(id, accepted) => Answer(c, id, accepted)
    case Collect(id) => if Sent(c, id) && c.underway[id].future.Some? then Settle(c, id, c.underway[id].future.value) else c
    case ResponseTimeout(id) => if Sent(c, id) && c.underway[id].future.None? then Settle(c, id, Failure(false)) else c
    case Cancel(id) => if id in c.underway then Settle(c, id, NoVerdict) else c
    case ReaderStops(end) => StopReader(c, end)
    case Retire => c.(process := None)
    case FailRetired => FailTransport(c)
  }

  function Run(c: Client, log: seq<Event>): Client
    decreases |log|
  {
    if log == [] then c else Run(Step(c, log[0]), log[1..])
  }

  // ---------------------------------------------------------------- soundness

  // The request would still pass the check under the writer lock.
  predicate CanWrite(c: Client, id: Id)
    requires id in c.underway
  {
    !c.underway[id].written && c.alive && c.process == Some(c.underway[id].process)
  }

  // A future that allows a retry is a rejection, or belongs to a request that can never write.
  predicate FutureSound(c: Client, id: Id)
    requires id in c.underway && c.underway[id].future.Some?
  {
    SafeToRetry(c.underway[id].future.value) ==>
      || (c.underway[id].future.value.Rejected? && id in c.refused)
      || (!c.underway[id].written && !CanWrite(c, id))
  }

  predicate RequestSound(c: Client, id: Id)
    requires id in c.underway
  {
    && id < c.next && id !in c.outcomes && c.underway[id].process < c.next
    && (c.underway[id].written <==> id in c.wrote)
    && (c.underway[id].future.Some? ==> FutureSound(c, id))
    && (c.underway[id].future.None? ==> id in c.pending && id !in c.refused)
  }

  /** The verdict is sound: an error that allows a retry means that no byte of the request was
      written, or that app-server rejected it explicitly. */
  predicate OutcomeSound(c: Client, id: Id)
    requires id in c.outcomes
  {
    id < c.next && (SafeToRetry(c.outcomes[id]) ==> id !in c.wrote || id in c.refused)
  }

  ghost predicate Sound(c: Client) {
    && (forall id :: id in c.underway ==> RequestSound(c, id))
    && (forall id :: id in c.outcomes ==> OutcomeSound(c, id))
    && (forall id :: id in c.wrote || id in c.refused ==> id < c.next)
    && (forall id :: id in c.pending ==> id in c.underway)
    && (c.process.Some? ==> c.process.value < c.next)
  }

  lemma SettleKeeps(c: Client, id: Id, v: Verdict)
    requires Sound(c) && id in c.underway
    requires SafeToRetry(v) ==> !c.underway[id].written || (v.Rejected? && id in c.refused)
    ensures Sound(Settle(c, id, v))
  {
  }

  lemma BeginKeeps(c: Client)
    requires Sound(c)
    ensures Sound(BeginRequest(c))
  {
  }

  // The one request a retry-safe failure of everything would mislead: unanswered, and its bytes are
  // out or can still go out.
  predicate Exposed(c: Client, id: Id) {
    id in c.underway && c.underway[id].future.None? && (c.underway[id].written || CanWrite(c, id))
  }

  ghost predicate AnyExposed(c: Client) {
    exists id :: Exposed(c, id)
  }

  lemma FailAllKeeps(c: Client, v: Verdict)
    requires Sound(c) && !v.Rejected? && (AnyExposed(c) ==> !SafeToRetry(v))
    ensures Sound(FailAll(c, v))
  {
    var c' := FailAll(c, v);
    forall i | i in c'.underway ensures RequestSound(c', i) {
      assert RequestSound(c, i);
      assert Exposed(c, i) ==> AnyExposed(c);
    }
  }

  // With an empty table nobody is exposed.
  lemma TransportKeeps(c: Client)
    requires Sound(c)
    ensures Sound(FailTransport(c))
  {
    if AnyExposed(c) {
      var id :| Exposed(c, id);
      assert RequestSound(c, id);
    }
    FailAllKeeps(c, Failure(c.pending == {}));
  }

  // Writing marks the request before anything else can fail it.
  lemma WriteKeeps(c: Client, id: Id)
    requires Sound(c) && id in c.underway && CanWrite(c, id)
    ensures Sound(c.(underway := c.underway[id := c.underway[id].(written := true)], wrote := c.wrote + {id}))
  {
  }

  lemma TurnKeeps(c: Client, id: Id, late: bool, pipe: Pipe)
    requires Sound(c)
    ensures Sound(TakeTurn(c, id, late, pipe))
  {
  }

  lemma AnswerKeeps(c: Client, id: Id, accepted: bool)
    requires Sound(c)
    ensures Sound(Answer(c, id, accepted))
  {
  }

  // The process goes, dies, or is a new one: whoever could not write still cannot.
  lemma ProcessKeeps(c: Client, process: Option<nat>, alive: bool, next: nat)
    requires Sound(c) && c.next <= next
    requires process.None? || (process == c.process && (alive ==> c.alive)) || (process == Some(c.next) && next == c.next + 1)
    ensures Sound(c.(process := process, alive := alive, next := next))
  {
    var c' := c.(process := process, alive := alive, next := next);
    forall i | i in c'.underway ensures RequestSound(c', i) {
      assert RequestSound(c, i);
    }
  }

  lemma DrainTimeoutKeeps(c: Client, id: Id, discard: bool)
    requires Sound(c)
    ensures Sound(Step(c, DrainTimeout(id, discard)))
  {
    if Sent(c, id) {
      TransportKeeps(c);
      var f := FailTransport(c);
      ProcessKeeps(f, None, f.alive, f.next);
      SettleKeeps(f.(process := None), id, Failure(false));
      SettleKeeps(c, id, Failure(false));
    }
  }

  predicate HasOutput(e: Event) {
    e != ReaderStops(NoOutputPipe)
  }

  lemma SettlingKeeps(c: Client, e: Event)
    requires Sound(c) && (e.LockTimeout? || e.DrainError? || e.Collect? || e.ResponseTimeout? || e.Cancel?)
    ensures Sound(Step(c, e))
  {
    if e.id in c.underway {
      assert RequestSound(c, e.id);
      SettleKeeps(c, e.id, NoVerdict);
      SettleKeeps(c, e.id, Failure(false));
      if !c.underway[e.id].written {
        SettleKeeps(c, e.id, Failure(true));
      }
      if c.underway[e.id].future.Some? {
        SettleKeeps(c, e.id, c.underway[e.id].future.value);
      }
    }
  }

  lemma StepKeeps(c: Client, e: Event)
    requires Sound(c) && HasOutput(e)
    ensures Sound(Step(c, e))
  {
    match e
    case Spawn => ProcessKeeps(c, Some(c.next), true, c.next + 1);
    case Exits => ProcessKeeps(c, c.process, false, c.next);
    case Begin => BeginKeeps(c);
    case Turn(id, late, pipe) => TurnKeeps(c, id, late, pipe);
    case DrainTimeout(id, discard) => DrainTimeoutKeeps(c, id, discard);
    case Response(id, accepted) => AnswerKeeps(c, id, accepted);
    case ReaderStops(end) =>
      TransportKeeps(c);
      FailAllKeeps(c, NoVerdict);
    case Retire => ProcessKeeps(c, None, c.alive, c.next);
    case FailRetired => TransportKeeps(c);
    case _ => SettlingKeeps(c, e);
  }

  lemma {:induction false} RunKeeps(c: Client, log: seq<Event>)
    requires Sound(c) && forall k :: 0 <= k < |log| ==> HasOutput(log[k])
    ensures Sound(Run(c, log))
    decreases |log|
  {
    if log == [] {
    } else {
      StepKeeps(c, log[0]);
      RunKeeps(Step(c, log[0]), log[1..]);
    }
  }

  /** For every interleaving of requests, writes, timeouts, responses, exits and retirements of
      processes that have an output pipe: an error that allows a retry means none of the request's
      bytes were written, or app-server rejected it explicitly. */
  lemma RetryVerdictSound(log: seq<Event>, id: Id)
    requires forall k :: 0 <= k < |log| ==> HasOutput(log[k])
    requires id in Run(START, log).outcomes && SafeToRetry(Run(START, log).outcomes[id])
    ensures id !in Run(START, log).wrote || id in Run(START, log).refused
  {
    RunKeeps(START, log);
    assert OutcomeSound(Run(START, log), id);
  }

  // ---------------------------------------------------------------- without an output pipe

  // A continuation in which every process has an output pipe leaves every verdict sound.
  ghost predicate StaysSound(c: Client, log: seq<Event>) {
    (forall k :: 0 <= k < |log| ==> HasOutput(log[k])) ==>
      forall id :: id in Run(c, log).outcomes ==> OutcomeSound(Run(c, log), id)
  }

  lemma RunOne(c: Client, e: Event)
    ensures Run(c, [e]) == Step(c, e)
  {
    assert [e][1..] == [];
  }

  // How an exposed request is misled: it writes if it has not yet, and collects.
  function Misled(c: Client, id: Id): seq<Event>
    requires id in c.underway
  {
    if c.underway[id].written then [Collect(id)] else [Turn(id, false, Takes), Collect(id)]
  }

  /** A reader that stops without an output pipe tells every exposed request that a retry is safe,
      also one that only gets to write afterwards. */
  lemma NoPipeUnsound(c: Client, id: Id)
    requires Sound(c) && c.process.Some? && Exposed(c, id)
    ensures var c' := Run(Step(c, ReaderStops(NoOutputPipe)), Misled(c, id));
            id in c'.outcomes && !OutcomeSound(c', id)
  {
    assert RequestSound(c, id);
    var stopped := Step(c, ReaderStops(NoOutputPipe));
    var log := Misled(c, id);
    if c.underway[id].written {
      RunOne(stopped, Collect(id));
    } else {
      assert log[1..] == [Collect(id)];
      RunOne(Step(stopped, Turn(id, false, Takes)), Collect(id));
    }
  }

  /** Exactly then: when the reader stops without an output pipe, every continuation leaves every
      verdict sound if and only if no unanswered request has written or can still write. */
  lemma NoPipeExactly(c: Client)
    requires Sound(c) && c.process.Some?
    ensures !AnyExposed(c) <==> forall log :: StaysSound(Step(c, ReaderStops(NoOutputPipe)), log)
  {
    var stopped := Step(c, ReaderStops(NoOutputPipe));
    if AnyExposed(c) {
      var id :| Exposed(c, id);
      NoPipeUnsound(c, id);
      assert !StaysSound(stopped, Misled(c, id));
    } else {
      FailAllKeeps(c, Failure(true));
      forall log: seq<Event> ensures StaysSound(stopped, log) {
        if forall k :: 0 <= k < |log| ==> HasOutput(log[k]) {
          RunKeeps(stopped, log);
        }
      }
    }
  }

  // Both kinds of exposed request are reached: one that waits for the writer lock, one that wrote.
  lemma ExposedReachable()
    ensures var c := Run(START, [Spawn, Begin]); Sound(c) && c.process.Some? && Waits(c, 1) && Exposed(c, 1)
    ensures var c := Run(START, [Spawn, Begin, Turn(1, false, Takes)]); Sound(c) && c.process.Some? && Sent(c, 1) && Exposed(c, 1)
  {
    var log := [Spawn, Begin, Turn(1, false, Takes)];
    RunKeeps(START, [Spawn, Begin]);
    RunKeeps(START, log);
    RunOne(Step(START, Spawn), Begin);
    assert [Spawn, Begin][1..] == [Begin];
    RunOne(Step(Step(START, Spawn), Begin), Turn(1, false, Takes));
    assert log[1..] == [Begin, Turn(1, false, Takes)] && log[1..][1..] == [Turn(1, false, Takes)];
  }

  /** A failing run of five events: a request begins, the reader stops without an output pipe, the
      request writes, and is told that a retry is safe. */
  lemma NoPipeRun()
    ensures var c := Run(START, [Spawn, Begin, ReaderStops(NoOutputPipe), Turn(1, false, Takes), Collect(1)]);
            1 in c.outcomes && SafeToRetry(c.outcomes[1]) && 1 in c.wrote && 1 !in c.refused
  {
    ExposedReachable();
    var c := Run(START, [Spawn, Begin]);
    NoPipeUnsound(c, 1);
    var rest := [ReaderStops(NoOutputPipe), Turn(1, false, Takes), Collect(1)];
    assert rest[1..] == Misled(c, 1);
    RunSplit(START, [Spawn, Begin], rest);
    assert [Spawn, Begin] + rest == [Spawn, Begin, ReaderStops(NoOutputPipe), Turn(1, false, Takes), Collect(1)];
  }

  lemma {:induction false} RunSplit(c: Client, a: seq<Event>, b: seq<Event>)
    ensures Run(c, a + b) == Run(Run(c, a), b)
    decreases |a|
  {
    if a == [] {
      assert a + b == b;
    } else {
      assert (a + b)[1..] == a[1..] + b;
      RunSplit(Step(c, a[0]), a[1..], b);
    }
  }
}

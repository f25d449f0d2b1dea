/**
 Which verdict every request ends with, told from the events: where its future got a value, where it
 was collected, and where it ended without one.
 */
module CodexVerdicts {
  import opened Wrappers
  import opened CodexRequests

  // ---------------------------------------------------------------- what one event does

  // Unanswered, and in the table the reader looks responses up in.
  predicate Awaits(c: Client, id: Id) {
    id in c.underway && id in c.pending && c.underway[id].future.None?
  }

  // The event gives the request's future this value.  Losing the transport forbids a retry.
  predicate Gives(c: Client, e: Event, id: Id, v: Verdict) {
    Awaits(c, id) &&
    match e
    case Response(i, accepted) => i == id && v == if accepted then Success else Rejected
    case ReaderStops(end) =>
      && c.process.Some?
      && v == (match end case EndOfOutput => Failure(false) case ReaderError => NoVerdict case NoOutputPipe => Failure(true))
    case FailRetired => v == Failure(false)
    case DrainTimeout(i, discard) =>
      i != id && discard && Sent(c, i) && c.process == Some(c.underway[i].process) && v == Failure(false)
    case _ => false
  }

  predicate Live(c: Client, process: nat) {
    c.alive && c.process == Some(process)
  }

  // The event ends the request before it wrote anything, for a reason of the client's own.
  predicate EndsUnsent(c: Client, e: Event, id: Id) {
    match e
    case Begin => id == c.next && (c.process.None? || !c.alive)
    case LockTimeout(i) => i == id && Waits(c, id)
    case Turn(i, late, pipe) => i == id && Waits(c, id) && (late || !Live(c, c.underway[id].process))
    case _ => false
  }

  // The event ends the request while its bytes may have gone out.
  predicate EndsInDoubt(c: Client, e: Event, id: Id) {
    match e
    case Turn(i, late, pipe) => i == id && Waits(c, id) && !late && Live(c, c.underway[id].process) && !pipe.Takes?
    case DrainTimeout(i, discard) => i == id && Sent(c, id)
    case DrainError(i) => i == id && Sent(c, id)
    case ResponseTimeout(i) => i == id && Sent(c, id) && c.underway[id].future.None?
    case _ => false
  }

  predicate Collects(c: Client, e: Event, id: Id, v: Verdict) {
    e == Collect(id) && Sent(c, id) && c.underway[id].future == Some(v)
  }

  // The event ends the request with this verdict.
  predicate Ends(c: Client, e: Event, id: Id, v: Verdict) {
    || (EndsUnsent(c, e, id) && v == Failure(true))
    || (EndsInDoubt(c, e, id) && v == Failure(false))
    || (e == Cancel(id) && id in c.underway && v == NoVerdict)
    || Collects(c, e, id, v)
  }

  // ---------------------------------------------------------------- ids

  // Numbers are given out once; a request under way has not ended, and waits in the table until its
  // future has a value.  Every run leaves a client so (`RunOrderly`).
  ghost predicate Orderly(c: Client) {
    && (forall id :: id in c.underway ==> id < c.next && id !in c.outcomes && (c.underway[id].written <==> id in c.wrote))
    && (forall id :: id in c.underway && c.underway[id].future.None? ==> id in c.pending)
    && (forall id :: id in c.outcomes || id in c.wrote ==> id < c.next)
    && (forall id :: id in c.pending ==> id in c.underway)
    && Dated(c)
  }

  // No request is meant for a process that is yet to come.
  ghost predicate Dated(c: Client) {
    && (c.process.Some? ==> c.process.value < c.next)
    && (forall id :: id in c.underway ==> c.underway[id].process < c.next)
  }

  lemma FailAllOrderly(c: Client, v: Verdict)
    requires Orderly(c)
    ensures Orderly(FailAll(c, v))
  {
  }

  lemma SettleOrderly(c: Client, id: Id, v: Verdict)
    requires Orderly(c) && id in c.underway
    ensures Orderly(Settle(c, id, v))
  {
  }

  lemma TurnOrderly(c: Client, id: Id, late: bool, pipe: Pipe)
    requires Orderly(c)
    ensures Orderly(TakeTurn(c, id, late, pipe))
  {
  }

  lemma AnswerOrderly(c: Client, id: Id, accepted: bool)
    requires Orderly(c)
    ensures Orderly(Answer(c, id, accepted))
  {
  }

  lemma BeginOrderly(c: Client)
    requires Orderly(c)
    ensures Orderly(BeginRequest(c)) && Orderly(Step(c, Spawn))
  {
  }

  lemma StopOrderly(c: Client, end: ReaderEnd)
    requires Orderly(c)
    ensures Orderly(StopReader(c, end)) && Orderly(FailTransport(c))
  {
    FailAllOrderly(c, Failure(c.pending == {}));
    FailAllOrderly(c, NoVerdict);
    FailAllOrderly(c, Failure(true));
  }

  lemma ProcessOrderly(c: Client, process: Option<nat>, alive: bool)
    requires Orderly(c) && (process.None? || process == c.process)
    ensures Orderly(c.(process := process, alive := alive))
  {
  }

  predicate Settles(e: Event) {
    e.LockTimeout? || e.DrainTimeout? || e.DrainError? || e.Collect? || e.ResponseTimeout? || e.Cancel?
  }

  lemma SettlingOrderly(c: Client, e: Event)
    requires Orderly(c) && Settles(e)
    ensures Orderly(Step(c, e)) && c.next <= Step(c, e).next
  {
    if e.id in c.underway {
      SettleOrderly(c, e.id, Failure(false));
      match e
      case LockTimeout(id) => SettleOrderly(c, id, Failure(true));
      case DrainTimeout(id, discard) =>
        StopOrderly(c, EndOfOutput);
        ProcessOrderly(FailTransport(c), None, c.alive);
        SettleOrderly(FailTransport(c).(process := None), id, Failure(false));
      case Collect(id) =>
        if c.underway[id].future.Some? {
          SettleOrderly(c, id, c.underway[id].future.value);
        }
      case Cancel(id) => SettleOrderly(c, id, NoVerdict);
      case _ =>
    }
  }

  lemma StepOrderly(c: Client, e: Event)
    requires Orderly(c)
    ensures Orderly(Step(c, e)) && c.next <= Step(c, e).next
  {
    if Settles(e) {
      SettlingOrderly(c, e);
    } else {
      match e
      case Spawn => BeginOrderly(c);
      case Exits => ProcessOrderly(c, c.process, false);
      case Begin => BeginOrderly(c);
      case Turn(id, late, pipe) => TurnOrderly(c, id, late, pipe);
      case Response(id, accepted) => AnswerOrderly(c, id, accepted);
      case ReaderStops(end) => StopOrderly(c, end);
      case Retire => ProcessOrderly(c, None, c.alive);
      case FailRetired => StopOrderly(c, EndOfOutput);
      case _ =>
    }
  }

  // ---------------------------------------------------------------- one step

  predicate Ended(c: Client, id: Id, v: Verdict) {
    id in c.outcomes && c.outcomes[id] == v
  }

  predicate Holds(c: Client, id: Id, v: Verdict) {
    id in c.underway && c.underway[id].future == Some(v)
  }

  lemma EndsSettling(c: Client, e: Event, id: Id, v: Verdict)
    requires Orderly(c) && Settles(e)
    ensures Ended(Step(c, e), id, v) <==> Ends(c, e, id, v) || Ended(c, id, v)
  {
  }

  lemma EndsTurn(c: Client, e: Event, id: Id, v: Verdict)
    requires Orderly(c) && e.Turn?
    ensures Ended(Step(c, e), id, v) <==> Ends(c, e, id, v) || Ended(c, id, v)
  {
  }

  lemma EndsExactly(c: Client, e: Event, id: Id, v: Verdict)
    requires Orderly(c)
    ensures Ended(Step(c, e), id, v) <==> Ends(c, e, id, v) || Ended(c, id, v)
  {
    if Settles(e) {
      EndsSettling(c, e, id, v);
    } else if e.Turn? {
      EndsTurn(c, e, id, v);
    }
  }

  lemma GivesSettling(c: Client, e: Event, id: Id, v: Verdict)
    requires Orderly(c) && id in Step(c, e).underway && Settles(e)
    ensures Holds(Step(c, e), id, v) <==> Gives(c, e, id, v) || Holds(c, id, v)
  {
  }

  lemma GivesStopping(c: Client, e: Event, id: Id, v: Verdict)
    requires Orderly(c) && id in Step(c, e).underway && (e.ReaderStops? || e.FailRetired?)
    ensures Holds(Step(c, e), id, v) <==> Gives(c, e, id, v) || Holds(c, id, v)
  {
  }

  lemma GivesExactly(c: Client, e: Event, id: Id, v: Verdict)
    requires Orderly(c) && id in Step(c, e).underway
    ensures Holds(Step(c, e), id, v) <==> Gives(c, e, id, v) || Holds(c, id, v)
  {
    if Settles(e) {
      GivesSettling(c, e, id, v);
    } else if e.ReaderStops? || e.FailRetired? {
      GivesStopping(c, e, id, v);
    }
  }

  lemma WritesExactly(c: Client, e: Event, id: Id)
    requires Orderly(c)
    ensures id in Step(c, e).wrote <==>
              || id in c.wrote
              || (exists pipe: Pipe :: e == Turn(id, false, pipe) && Waits(c, id) && Live(c, c.underway[id].process) && !pipe.RaisesBefore?)
  {
  }

  // A request under way after a step was under way before, or is the one that begins.
  lemma UnderwayBefore(c: Client, e: Event, id: Id)
    requires Orderly(c) && id in Step(c, e).underway
    ensures id in c.underway || (e.Begin? && id == c.next && Step(c, e).underway[id].future.None?)
  {
  }

  // ---------------------------------------------------------------- whole runs

  lemma RunLast(log: seq<Event>)
    requires log != []
    ensures Run(START, log) == Step(Run(START, log[..|log| - 1]), log[|log| - 1])
  {
    var front, last := log[..|log| - 1], log[|log| - 1];
    assert log == front + [last];
    RunSplit(START, front, [last]);
    RunOne(Run(START, front), last);
  }

  lemma {:induction false} RunOrderly(log: seq<Event>)
    ensures Orderly(Run(START, log))
    decreases |log|
  {
    if log == [] {
    } else {
      RunOrderly(log[..|log| - 1]);
      RunLast(log);
      StepOrderly(Run(START, log[..|log| - 1]), log[|log| - 1]);
    }
  }

  function Before(log: seq<Event>, k: nat): Client
    requires k <= |log|
  {
    Run(START, log[..k])
  }

  predicate EndsAt(log: seq<Event>, k: nat, id: Id, v: Verdict) {
    k < |log| && Ends(Before(log, k), log[k], id, v)
  }

  predicate GivesAt(log: seq<Event>, k: nat, id: Id, v: Verdict) {
    k < |log| && Gives(Before(log, k), log[k], id, v)
  }

  lemma BeforeSame(log: seq<Event>, n: nat, k: nat)
    requires k <= n <= |log|
    ensures Before(log[..n], k) == Before(log, k)
  {
    assert log[..n][..k] == log[..k];
  }

  /** A request has ended with a verdict exactly if some event ended it so. */
  lemma {:induction false} VerdictExactly(log: seq<Event>, id: Id, v: Verdict)
    ensures Ended(Run(START, log), id, v) <==> exists k: nat :: EndsAt(log, k, id, v)
    decreases |log|
  {
    if log == [] {
    } else {
      var n := |log| - 1;
      VerdictExactly(log[..n], id, v);
      RunLast(log);
      RunOrderly(log[..n]);
      EndsExactly(Before(log, n), log[n], id, v);
      forall k: nat | k < n ensures EndsAt(log[..n], k, id, v) <==> EndsAt(log, k, id, v) {
        BeforeSame(log, n, k);
      }
      assert Ends(Before(log, n), log[n], id, v) <==> EndsAt(log, n, id, v);
    }
  }

  lemma {:induction false} NumbersGrow(log: seq<Event>, k: nat)
    requires k <= |log|
    ensures Before(log, k).next <= Run(START, log).next
    decreases |log|
  {
    if k == |log| {
      assert log[..k] == log;
    } else {
      var n := |log| - 1;
      NumbersGrow(log[..n], k);
      BeforeSame(log, n, k);
      RunLast(log);
      RunOrderly(log[..n]);
      StepOrderly(Before(log, n), log[n]);
    }
  }

  /** The future of a request under way holds a value exactly if some event gave it that one. */
  lemma {:induction false} FutureExactly(log: seq<Event>, id: Id, v: Verdict)
    requires id in Run(START, log).underway
    ensures Holds(Run(START, log), id, v) <==> exists k: nat :: GivesAt(log, k, id, v)
    decreases |log|
  {
    if log == [] {
    } else {
      var n := |log| - 1;
      var c := Before(log, n);
      RunLast(log);
      RunOrderly(log[..n]);
      UnderwayBefore(c, log[n], id);
      GivesExactly(c, log[n], id, v);
      forall k: nat | k < n ensures GivesAt(log[..n], k, id, v) <==> GivesAt(log, k, id, v) {
        BeforeSame(log, n, k);
      }
      assert Gives(c, log[n], id, v) <==> GivesAt(log, n, id, v);
      if id in c.underway {
        FutureExactly(log[..n], id, v);
      } else {
        forall k: nat | k < n ensures !GivesAt(log, k, id, v) {
          NotGivenYet(log, n, k, id, v);
        }
      }
    }
  }

  // Nobody answered a request that has not begun.
  lemma NotGivenYet(log: seq<Event>, n: nat, k: nat, id: Id, v: Verdict)
    requires k < n < |log| && Before(log, n).next <= id
    ensures !GivesAt(log, k, id, v)
  {
    RunOrderly(log[..k]);
    NumbersGrow(log[..n], k);
    BeforeSame(log, n, k);
  }

  // ---------------------------------------------------------------- what it comes to

  // The response at i met the request waiting, and was collected at k.
  predicate Answered(log: seq<Event>, i: nat, k: nat, id: Id, accepted: bool) {
    && i < k < |log|
    && log[i] == Response(id, accepted) && Awaits(Before(log, i), id)
    && log[k] == Collect(id) && Sent(Before(log, k), id)
  }

  lemma AnsweredEnds(log: seq<Event>, i: nat, k: nat, id: Id, accepted: bool)
    requires Answered(log, i, k, id, accepted)
    ensures EndsAt(log, k, id, if accepted then Success else Rejected)
  {
    var v := if accepted then Success else Rejected;
    BeforeSame(log, k, i);
    assert GivesAt(log[..k], i, id, v);
    FutureExactly(log[..k], id, v);
  }

  lemma EndsAnswered(log: seq<Event>, k: nat, id: Id, accepted: bool) returns (i: nat)
    requires EndsAt(log, k, id, if accepted then Success else Rejected)
    ensures Answered(log, i, k, id, accepted)
  {
    var v := if accepted then Success else Rejected;
    FutureExactly(log[..k], id, v);
    i :| GivesAt(log[..k], i, id, v);
    BeforeSame(log, k, i);
  }

  /** A request ends as a success, or as rejected, exactly if a response of that kind met it waiting and
      was collected: nothing before it was in its future, and nothing ended it in between. */
  lemma AnswerExactly(log: seq<Event>, id: Id, accepted: bool)
    ensures Ended(Run(START, log), id, if accepted then Success else Rejected)
            <==> exists i: nat, k: nat :: Answered(log, i, k, id, accepted)
  {
    var v := if accepted then Success else Rejected;
    VerdictExactly(log, id, v);
    if k: nat :| EndsAt(log, k, id, v) {
      var i := EndsAnswered(log, k, id, accepted);
    }
    if i: nat, k: nat :| Answered(log, i, k, id, accepted) {
      AnsweredEnds(log, i, k, id, accepted);
    }
  }

  lemma {:induction false} WroteBefore(log: seq<Event>, k: nat, id: Id)
    requires k <= |log| && id in Before(log, k).wrote
    ensures id in Run(START, log).wrote
    decreases |log|
  {
    if k == |log| {
      assert log[..k] == log;
    } else {
      var n := |log| - 1;
      BeforeSame(log, n, k);
      WroteBefore(log[..n], k, id);
      RunLast(log);
      RunOrderly(log[..n]);
      WritesExactly(Before(log, n), log[n], id);
    }
  }

  // The pipe raised before any byte of the request was out.
  predicate RaisedAt(log: seq<Event>, k: nat, id: Id) {
    k < |log| && log[k] == Turn(id, false, RaisesBefore)
  }

  lemma UnwrittenEnds(log: seq<Event>, k: nat, id: Id, v: Verdict)
    requires EndsAt(log, k, id, v) && id !in Run(START, log).wrote
    ensures SafeToRetry(v) || (v == NoVerdict && log[k] == Cancel(id)) || (v == Failure(false) && RaisedAt(log, k, id))
  {
    var c := Before(log, k);
    RunOrderly(log[..k]);
    if id in c.wrote {
      WroteBefore(log, k, id);
    }
    if log[k].Turn? && EndsInDoubt(c, log[k], id) && log[k].pipe.RaisesAfter? {
      RunLast(log[..k + 1]);
      assert log[..k + 1][..k] == log[..k];
      WritesExactly(c, log[k], id);
      WroteBefore(log, k + 1, id);
    }
  }

  /** A request of which nothing was written ends with a verdict that allows a retry, unless it was
      cancelled or the pipe itself raised. */
  lemma UnwrittenMayRetry(log: seq<Event>, id: Id)
    requires id in Run(START, log).outcomes && id !in Run(START, log).wrote
    ensures var v := Run(START, log).outcomes[id];
            || SafeToRetry(v)
            || (v == NoVerdict && exists k: nat :: k < |log| && log[k] == Cancel(id))
            || (v == Failure(false) && exists k: nat :: RaisedAt(log, k, id))
  {
    var v := Run(START, log).outcomes[id];
    VerdictExactly(log, id, v);
    var k: nat :| EndsAt(log, k, id, v);
    UnwrittenEnds(log, k, id, v);
  }

  // ---------------------------------------------------------------- a request that can never write

  predicate Barred(c: Client, id: Id) {
    id in c.underway && !c.underway[id].written && !Live(c, c.underway[id].process)
  }

  lemma BarredStep(c: Client, e: Event, id: Id)
    requires Orderly(c) && Barred(c, id)
    ensures id in Step(c, e).underway ==> Barred(Step(c, e), id)
    ensures id !in Step(c, e).underway ==> Ended(Step(c, e), id, if e == Cancel(id) then NoVerdict else Failure(true))
  {
  }

  lemma {:induction false} EndedStays(c: Client, log: seq<Event>, id: Id, v: Verdict)
    requires Orderly(c) && Ended(c, id, v)
    ensures Ended(Run(c, log), id, v)
    decreases |log|
  {
    if log == [] {
    } else {
      EndsExactly(c, log[0], id, v);
      StepOrderly(c, log[0]);
      EndedStays(Step(c, log[0]), log[1..], id, v);
    }
  }

  /** Once the process a waiting request was meant for is gone, the request can only wait on or end with
      a verdict that allows a retry, cancellation aside, whatever happens. */
  lemma {:induction false} BarredMayRetry(c: Client, log: seq<Event>, id: Id)
    requires Orderly(c) && Barred(c, id)
    ensures Barred(Run(c, log), id) || Ended(Run(c, log), id, Failure(true))
            || (Ended(Run(c, log), id, NoVerdict) && exists k :: 0 <= k < |log| && log[k] == Cancel(id))
    decreases |log|
  {
    if log == [] {
    } else {
      BarredStep(c, log[0], id);
      StepOrderly(c, log[0]);
      if id in Step(c, log[0]).underway {
        BarredMayRetry(Step(c, log[0]), log[1..], id);
      } else {
        EndedStays(Step(c, log[0]), log[1..], id, if log[0] == Cancel(id) then NoVerdict else Failure(true));
      }
    }
  }
}

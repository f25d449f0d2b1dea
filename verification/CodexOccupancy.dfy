/**
 Which turn occupies a thread, by position in the log: from its installation until its completion,
 its release, a start that failed for good, or the loss of the transport.
 */
module CodexOccupancy {
  import opened Wrappers
  import opened CodexStream
  import opened CodexTurns
  import opened CodexReaders

  // ---------------------------------------------------------------- what ends an occupation

  // A completion of the current turn: it names none, none is known, or it is the one.
  predicate CompletesTurn(n: Notification, thread: string, current: string) {
    n.kind == TurnCompleted && n.thread == thread && (n.turn == "" || current == "" || n.turn == current)
  }

  predicate Vacates(a: Action, k: nat, thread: string, current: string) {
    match a
    case Receive(n) => CompletesTurn(n, thread, current)
    case Release(j) => j == k
    case StartFails(j, why) => j == k && why in {Safe, Foreign}
    case Lose => true
    case _ => false
  }

  // Action j of the log ends the occupation by the handle installed at `since`.
  predicate VacatesAt(log: seq<Action>, k: nat, thread: string, since: nat, j: nat) {
    j < |log| &&
    var es := Seen(log, k, since, j + 1);
    Vacates(log[j], k, thread, Bound(es, thread, |es|))
  }

  ghost predicate Lasts(log: seq<Action>, k: nat, thread: string, since: nat) {
    forall j: nat :: since < j ==> !VacatesAt(log, k, thread, since, j)
  }

  // ---------------------------------------------------------------- the current turn

  lemma {:induction false} NamesPrefix(es: seq<Event>, more: seq<Event>, thread: string, n: nat)
    requires n <= |es|
    ensures LastMove(es + more, thread, n) == LastMove(es, thread, n)
    ensures FirstName(es + more, thread, n) == FirstName(es, thread, n)
    decreases n
  {
    if n == 0 {
    } else {
      NamesPrefix(es, more, thread, n - 1);
      assert (es + more)[n - 1] == es[n - 1];
    }
  }

  // One more event moves the current turn as one more notification moves the handle.
  lemma BoundMore(es: seq<Event>, e: Event, thread: string)
    ensures var b := Bound(es, thread, |es|);
            Bound(es + [e], thread, |es| + 1) ==
              if Moves(e, thread) then e.note.turn else if b == "" then NameIn(e, thread) else b
  {
    NamesPrefix(es, [e], thread, |es|);
    BoundStep(es + [e], thread, |es|);
  }

  // ---------------------------------------------------------------- one action

  function Current(h: Handle, es: seq<Event>): string {
    Bound(es, h.thread, |es|)
  }

  // An occupying handle knows its current turn.
  ghost predicate Knows(c: Client, k: nat, es: seq<Event>) {
    k < |c.handles| && (Occupies(c, k) ==> c.handles[k].tap.handle == Current(c.handles[k], es))
  }

  ghost predicate StepTells(c: Client, a: Action, k: nat, es: seq<Event>)
    requires k < |c.handles|
  {
    var c', es' := Step(c, a), es + EventFor(a, k);
    && k < |c'.handles| && c'.handles[k].thread == c.handles[k].thread && c'.handles[k].since == c.handles[k].since
    && Knows(c', k, es')
    && (Occupies(c', k) <==> Occupies(c, k) && !Vacates(a, k, c.handles[k].thread, Current(c.handles[k], es')))
  }

  lemma TouchKeepsPlace(h: Handle, active: bool, n: Notification, limit: Limit, clock: nat)
    ensures var h' := Touch(h, active, n, limit, clock);
            h'.thread == h.thread && h'.since == h.since && h'.tap.handle == Rebound(h, active, n).handle
  {
  }

  // The handle follows the current turn.
  lemma ReboundIsCurrent(h: Handle, n: Notification, es: seq<Event>)
    requires h.tap.handle == Current(h, es)
    ensures Rebound(h, n.thread == h.thread, n).handle == Current(h, es + [Note(n)])
  {
    BoundMore(es, Note(n), h.thread);
  }

  lemma ReceiveOccupies(c: Client, n: Notification, k: nat, current: string)
    requires TableOk(c) && k < |c.handles| && |TouchAll(c, n, |c.handles|)| == |c.handles|
    requires TouchAll(c, n, |c.handles|)[k].thread == c.handles[k].thread
    requires Occupies(c, k) ==> current == Rebound(c.handles[k], n.thread == c.handles[k].thread, n).handle
    ensures k < |Step(c, Receive(n)).handles|
    ensures Occupies(Step(c, Receive(n)), k) <==> Occupies(c, k) && !CompletesTurn(n, c.handles[k].thread, current)
  {
  }

  lemma ReceiveTells(c: Client, n: Notification, k: nat, es: seq<Event>)
    requires TableOk(c) && Knows(c, k, es)
    ensures StepTells(c, Receive(n), k, es)
  {
    var h := c.handles[k];
    TouchAllAt(c, n, |c.handles|);
    TouchKeepsPlace(h, ActiveFor(c, k, n), n, c.limit, c.clock);
    if Occupies(c, k) {
      ReboundIsCurrent(h, n, es);
      assert ActiveFor(c, k, n) <==> n.thread == h.thread;
    }
    ReceiveOccupies(c, n, k, Current(h, es + [Note(n)]));
  }

  lemma AcceptTells(c: Client, j: nat, turn: string, k: nat, es: seq<Event>)
    requires Knows(c, k, es)
    ensures StepTells(c, Accept(j, turn), k, es)
  {
    if j == k && turn != "" {
      BoundMore(es, Named(turn), c.handles[k].thread);
    } else {
      assert es + EventFor(Accept(j, turn), k) == es;
    }
  }

  lemma LoseTells(c: Client, k: nat, es: seq<Event>)
    requires Knows(c, k, es)
    ensures StepTells(c, Lose, k, es)
  {
    BreakAllAt(c, |c.handles|);
    assert es + EventFor(Lose, k) == es;
  }

  lemma OtherTells(c: Client, a: Action, k: nat, es: seq<Event>)
    requires TableOk(c) && Knows(c, k, es) && !a.Receive? && !a.Accept? && !a.Lose?
    ensures StepTells(c, a, k, es)
  {
    assert es + EventFor(a, k) == es;
  }

  lemma ActionTells(c: Client, a: Action, k: nat, es: seq<Event>)
    requires TableOk(c) && Knows(c, k, es)
    ensures StepTells(c, a, k, es)
  {
    match a
    case Receive(n) => ReceiveTells(c, n, k, es);
    case Accept(j, turn) => AcceptTells(c, j, turn, k, es);
    case Lose => LoseTells(c, k, es);
    case _ => OtherTells(c, a, k, es);
  }

  // ---------------------------------------------------------------- every log

  lemma VacatesEarlier(log: seq<Action>, a: Action, k: nat, thread: string, since: nat, j: nat)
    requires j < |log|
    ensures VacatesAt(log + [a], k, thread, since, j) <==> VacatesAt(log, k, thread, since, j)
  {
    SeenPrefix(log, a, k, since, j + 1);
  }

  lemma LastsMore(log: seq<Action>, a: Action, k: nat, thread: string, since: nat)
    requires since < |log|
    ensures Lasts(log + [a], k, thread, since) <==>
              Lasts(log, k, thread, since) && !VacatesAt(log + [a], k, thread, since, |log|)
  {
    forall j: nat | j < |log| ensures VacatesAt(log + [a], k, thread, since, j) <==> VacatesAt(log, k, thread, since, j) {
      VacatesEarlier(log, a, k, thread, since, j);
    }
  }

  // Handle k was installed by an action that found its thread free, and occupies it as long as that lasts.
  ghost predicate Placed(limit: Limit, log: seq<Action>, k: nat) {
    var c := Run(limit, log);
    k < |c.handles| && Installed(limit, log, k, c.handles[k]) && Occupying(c, log, k)
  }

  ghost predicate Installed(limit: Limit, log: seq<Action>, k: nat, h: Handle) {
    && h.since < |log| && h.thread != "" && log[h.since] == Install(h.thread)
    && h.thread !in Run(limit, log[..h.since]).turns && k == |Run(limit, log[..h.since]).handles|
  }

  ghost predicate Occupying(c: Client, log: seq<Action>, k: nat)
    requires k < |c.handles|
  {
    && c.handles[k].since < |log|
    && (Occupies(c, k) <==> Lasts(log, k, c.handles[k].thread, c.handles[k].since))
    && Knows(c, k, Seen(log, k, c.handles[k].since, |log|))
  }

  lemma SeenMore(log: seq<Action>, a: Action, k: nat, since: nat)
    requires since <= |log|
    ensures Seen(log + [a], k, since, |log| + 1) == Seen(log, k, since, |log|) + EventFor(a, k)
  {
    SeenPrefix(log, a, k, since, |log|);
    assert (log + [a])[|log|] == a;
  }

  lemma OccupyingStays(c: Client, log: seq<Action>, a: Action, k: nat)
    requires TableOk(c) && k < |c.handles| && Occupying(c, log, k)
    ensures k < |Step(c, a).handles| && Occupying(Step(c, a), log + [a], k)
    ensures Step(c, a).handles[k].thread == c.handles[k].thread && Step(c, a).handles[k].since == c.handles[k].since
  {
    var h := c.handles[k];
    SeenMore(log, a, k, h.since);
    ActionTells(c, a, k, Seen(log, k, h.since, |log|));
    LastsMore(log, a, k, h.thread, h.since);
    assert VacatesAt(log + [a], k, h.thread, h.since, |log|)
        <==> Vacates(a, k, h.thread, Current(h, Seen(log, k, h.since, |log|) + EventFor(a, k)));
  }

  lemma PlacedStays(limit: Limit, log: seq<Action>, a: Action, k: nat)
    requires Placed(limit, log, k)
    ensures Placed(limit, log + [a], k)
  {
    RunTable(limit, log);
    RunAppend(limit, log, a);
    OccupyingStays(Run(limit, log), log, a, k);
    var since := Run(limit, log).handles[k].since;
    assert (log + [a])[..since] == log[..since] && (log + [a])[since] == log[since];
  }

  lemma PlacedNow(limit: Limit, log: seq<Action>, a: Action, k: nat)
    requires |Run(limit, log).handles| <= k < |Run(limit, log + [a]).handles|
    ensures Placed(limit, log + [a], k)
  {
    RunOk(limit, log);
    RunAppend(limit, log, a);
    FreshReads(Run(limit, log), a, k);
    assert (log + [a])[..|log|] == log;
    assert Seen(log + [a], k, |log|, |log| + 1) == [] + EventFor(a, k);
  }

  lemma {:induction false} EveryPlaced(limit: Limit, log: seq<Action>, k: nat)
    requires k < |Run(limit, log).handles|
    ensures Placed(limit, log, k)
    decreases |log|
  {
    if log == [] {
    } else {
      var n := |log| - 1;
      assert log[..n] + [log[n]] == log;
      if k < |Run(limit, log[..n]).handles| {
        EveryPlaced(limit, log[..n], k);
        PlacedStays(limit, log[..n], log[n], k);
      } else {
        PlacedNow(limit, log[..n], log[n], k);
      }
    }
  }

  /** Over every log: a handle was installed on a thread that was free, and occupies it exactly if since
      then neither a completion of its current turn, nor its release, nor a start that failed for good,
      nor a loss of the transport has occurred; and a thread is occupied only by a handle of its own. */
  lemma OccupiedExactly(limit: Limit, log: seq<Action>, k: nat)
    requires k < |Run(limit, log).handles|
    ensures var c := Run(limit, log);
            var h := c.handles[k];
            && h.since < |log| && log[h.since] == Install(h.thread) && h.thread !in Run(limit, log[..h.since]).turns
            && (Occupies(c, k) <==> Lasts(log, k, h.thread, h.since))
            && (forall t :: t in c.turns ==> c.turns[t] < |c.handles| && c.handles[c.turns[t]].thread == t)
  {
    EveryPlaced(limit, log, k);
    RunOk(limit, log);
  }

  // ---------------------------------------------------------------- closed, and still in the way

  predicate ClosesThread(a: Action, thread: string) {
    a.Receive? && a.note.kind == ThreadClosed && a.note.thread == thread
  }

  // The subscription of handle k is closed from inside the stream: overflow, or the thread closes.
  predicate ClosesAt(limit: Limit, log: seq<Action>, k: nat, thread: string, j: nat) {
    j < |log| && var c := Run(limit, log[..j]); k < |c.handles| && (Breaks(c, log[j], k) || ClosesThread(log[j], thread))
  }

  ghost predicate ClosedBy(limit: Limit, log: seq<Action>, k: nat, thread: string) {
    exists j: nat :: ClosesAt(limit, log, k, thread, j)
  }

  lemma ClosingStep(c: Client, a: Action, k: nat)
    requires TableOk(c) && k < |c.handles| && k < |Step(c, a).handles| && Occupies(Step(c, a), k) && Occupies(c, k)
    requires c.handles[k].tap.handle == c.handles[k].tap.filter && !a.Lose?
    ensures Step(c, a).handles[k].tap.closed <==>
              c.handles[k].tap.closed || Breaks(c, a, k) || ClosesThread(a, c.handles[k].thread)
  {
    if a.Receive? {
      TouchAllAt(c, a.note, |c.handles|);
      TouchKeepsPlace(c.handles[k], ActiveFor(c, k, a.note), a.note, c.limit, c.clock);
      assert Step(c, a).handles[k].thread == c.handles[k].thread;
      ClosingTouch(c, a.note, k);
    } else {
      ClosingNothing(c, a, k);
    }
  }

  lemma ClosingNothing(c: Client, a: Action, k: nat)
    requires TableOk(c) && k < |c.handles| && k < |Step(c, a).handles| && Occupies(Step(c, a), k) && Occupies(c, k)
    requires !a.Lose? && !a.Receive?
    ensures Step(c, a).handles[k].tap.closed == c.handles[k].tap.closed
  {
  }

  lemma ClosingTouch(c: Client, n: Notification, k: nat)
    requires TableOk(c) && k < |c.handles| && Occupies(c, k) && c.handles[k].tap.handle == c.handles[k].tap.filter
    requires n.thread == c.handles[k].thread ==> !Retires(c, n)
    ensures Touch(c.handles[k], ActiveFor(c, k, n), n, c.limit, c.clock).tap.closed <==>
              c.handles[k].tap.closed || Breaks(c, Receive(n), k) || ClosesThread(Receive(n), c.handles[k].thread)
  {
  }

  lemma ClosedMore(limit: Limit, log: seq<Action>, a: Action, k: nat, thread: string)
    ensures ClosedBy(limit, log + [a], k, thread) <==>
              ClosedBy(limit, log, k, thread) || ClosesAt(limit, log + [a], k, thread, |log|)
  {
    forall j: nat | j < |log| ensures ClosesAt(limit, log + [a], k, thread, j) <==> ClosesAt(limit, log, k, thread, j) {
      assert (log + [a])[..j] == log[..j];
    }
  }

  lemma {:induction false} NothingCloses(limit: Limit, log: seq<Action>, k: nat, thread: string)
    requires k >= |Run(limit, log).handles|
    ensures !ClosedBy(limit, log, k, thread)
    decreases |log|
  {
    if log == [] {
    } else {
      var n := |log| - 1;
      HandlesStay(Run(limit, log[..n]), log[n]);
      NothingCloses(limit, log[..n], k, thread);
      assert log[..n] + [log[n]] == log;
      ClosedMore(limit, log[..n], log[n], k, thread);
    }
  }

  // The handle before the action: occupying too, of the same thread, and knowing one id.
  lemma OccupiedBefore(limit: Limit, log: seq<Action>, a: Action, k: nat)
    requires k < |Run(limit, log).handles| && k < |Run(limit, log + [a]).handles| && Occupies(Run(limit, log + [a]), k)
    ensures var c := Run(limit, log);
            && Occupies(c, k) && !a.Lose? && c.handles[k].tap.handle == c.handles[k].tap.filter
            && Run(limit, log + [a]).handles[k].thread == c.handles[k].thread
  {
    EveryPlaced(limit, log, k);
    RunOk(limit, log);
    RunAppend(limit, log, a);
    var c := Run(limit, log);
    assert HandleOk(c.handles[k], k, log);
    ActionTells(c, a, k, Seen(log, k, c.handles[k].since, |log|));
  }

  lemma ClosedStays(limit: Limit, log: seq<Action>, a: Action, k: nat)
    requires k < |Run(limit, log).handles| && k < |Run(limit, log + [a]).handles| && Occupies(Run(limit, log + [a]), k)
    requires var h := Run(limit, log).handles[k]; h.tap.closed <==> ClosedBy(limit, log, k, h.thread)
    ensures var h := Run(limit, log + [a]).handles[k]; h.tap.closed <==> ClosedBy(limit, log + [a], k, h.thread)
  {
    OccupiedBefore(limit, log, a, k);
    RunTable(limit, log);
    RunAppend(limit, log, a);
    ClosingStep(Run(limit, log), a, k);
    ClosedMore(limit, log, a, k, Run(limit, log).handles[k].thread);
    assert (log + [a])[..|log|] == log;
  }

  lemma ClosedFresh(limit: Limit, log: seq<Action>, a: Action, k: nat)
    requires |Run(limit, log).handles| <= k < |Run(limit, log + [a]).handles|
    ensures var h := Run(limit, log + [a]).handles[k]; !h.tap.closed && !ClosedBy(limit, log + [a], k, h.thread)
  {
    RunAppend(limit, log, a);
    FreshReads(Run(limit, log), a, k);
    var thread := Run(limit, log + [a]).handles[k].thread;
    NothingCloses(limit, log, k, thread);
    ClosedMore(limit, log, a, k, thread);
    assert (log + [a])[..|log|] == log;
  }

  /** A closed handle that still occupies its thread is one whose backlog overflowed or whose thread
      closed: there is no other way to be closed and in the way. */
  lemma {:induction false} ClosedOccupantExactly(limit: Limit, log: seq<Action>, k: nat)
    requires k < |Run(limit, log).handles| && Occupies(Run(limit, log), k)
    ensures var h := Run(limit, log).handles[k]; h.tap.closed <==> ClosedBy(limit, log, k, h.thread)
    decreases |log|
  {
    if log == [] {
    } else {
      var n := |log| - 1;
      assert log[..n] + [log[n]] == log;
      if k < |Run(limit, log[..n]).handles| {
        OccupiedBefore(limit, log[..n], log[n], k);
        ClosedOccupantExactly(limit, log[..n], k);
        ClosedStays(limit, log[..n], log[n], k);
      } else {
        ClosedFresh(limit, log[..n], log[n], k);
      }
    }
  }

  /** So a handle is open exactly as long as it occupies its thread and neither its backlog overflows
      nor its thread closes. */
  lemma OpenExactly(limit: Limit, log: seq<Action>, k: nat)
    requires k < |Run(limit, log).handles|
    ensures var h := Run(limit, log).handles[k];
            !h.tap.closed <==> Lasts(log, k, h.thread, h.since) && !ClosedBy(limit, log, k, h.thread)
  {
    OccupiedExactly(limit, log, k);
    RunTable(limit, log);
    if Occupies(Run(limit, log), k) {
      ClosedOccupantExactly(limit, log, k);
    }
  }

  /** A completed turn frees its thread: the next start gets it. */
  lemma CompletionFrees(limit: Limit, thread: string, turn: string)
    requires thread != "" && turn != ""
    ensures var log := [Install(thread), Receive(Notification(TurnStarted, thread, turn, "")), Receive(Notification(TurnCompleted, thread, turn, ""))];
            thread !in Run(limit, log).turns
  {
    var started, done := Notification(TurnStarted, thread, turn, ""), Notification(TurnCompleted, thread, turn, "");
    var log := [Install(thread), Receive(started), Receive(done)];
    assert log[..2] == [Install(thread), Receive(started)] && log[..2][..1] == [Install(thread)] && log[..2][..1][..0] == [];
    var c1 := Step(Idle(limit), Install(thread));
    assert Run(limit, log[..2][..1]) == c1;
    TouchAllAt(c1, started, 1);
    assert Run(limit, log[..2]) == Step(c1, Receive(started));
  }
}

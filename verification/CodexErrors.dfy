/**
 The error a broken subscription leaves: put there once, by the step that breaks it, and read once.
 */
module CodexErrors {
  import opened Wrappers
  import opened Histories
  import opened CodexStream
  import opened CodexTurns
  import opened CodexReaders

  predicate Holds(c: Client, k: nat, v: Failure) {
    k < |c.handles| && c.handles[k].failure == v
  }

  // The step installs handle k.
  predicate Installs(c: Client, a: Action, k: nat) {
    a.Install? && a.thread != "" && a.thread !in c.turns && k == |c.handles|
  }

  predicate Makes(c: Client, a: Action, k: nat, v: Failure) {
    match v
    case Intact => Installs(c, a, k)
    case Pending => k < |c.handles| && Breaks(c, a, k)
    case Raised => a == Take(k) && Holds(c, k, Pending)
  }

  predicate Unmakes(c: Client, a: Action, k: nat, v: Failure) {
    match v
    case Intact => k < |c.handles| && Breaks(c, a, k)
    case Pending => a == Take(k)
    case Raised => false
  }

  // A subscription that is open has not failed.
  ghost predicate Sound(c: Client) {
    forall k :: 0 <= k < |c.handles| && !c.handles[k].tap.closed ==> c.handles[k].failure.Intact?
  }

  lemma FailureTouch(c: Client, n: Notification, k: nat)
    requires k < |c.handles| && Sound(c)
    ensures var h := Touch(c.handles[k], ActiveFor(c, k, n), n, c.limit, c.clock);
            && h.failure == (if Breaks(c, Receive(n), k) then Pending else c.handles[k].failure)
            && (!h.tap.closed ==> !c.handles[k].tap.closed && h.failure.Intact?)
  {
  }

  lemma FailureStep(c: Client, a: Action, k: nat)
    requires Sound(c) && k < |Step(c, a).handles|
    ensures !Step(c, a).handles[k].tap.closed ==> Step(c, a).handles[k].failure.Intact?
    ensures forall v :: Holds(Step(c, a), k, v) <==> Makes(c, a, k, v) || (Holds(c, k, v) && !Unmakes(c, a, k, v))
  {
    match a
    case Receive(n) =>
      TouchAllAt(c, n, |c.handles|);
      FailureTouch(c, n, k);
    case Lose => BreakAllAt(c, |c.handles|);
    case _ =>
  }

  lemma NotThere(c: Client, a: Action, k: nat, v: Failure)
    requires k >= |Step(c, a).handles|
    ensures !Holds(c, k, v) && !Makes(c, a, k, v)
  {
    HandlesStay(c, a);
  }

  lemma {:induction false} RunSound(limit: Limit, log: seq<Action>)
    ensures Sound(Run(limit, log))
    decreases |log|
  {
    if log == [] {
    } else {
      var c, a := Run(limit, log[..|log| - 1]), log[|log| - 1];
      RunSound(limit, log[..|log| - 1]);
      forall k | 0 <= k < |Step(c, a).handles| && !Step(c, a).handles[k].tap.closed
        ensures Step(c, a).handles[k].failure.Intact?
      {
        FailureStep(c, a, k);
      }
    }
  }

  // Whether the fact holds before step i, and what that step does to it.
  ghost function HoldsAt(limit: Limit, log: seq<Action>, k: nat, v: Failure): nat -> bool {
    (i: nat) => i <= |log| && Holds(Run(limit, log[..i]), k, v)
  }

  ghost function MakesAt(limit: Limit, log: seq<Action>, k: nat, v: Failure): nat -> bool {
    (i: nat) => i < |log| && Makes(Run(limit, log[..i]), log[i], k, v)
  }

  ghost function UnmakesAt(limit: Limit, log: seq<Action>, k: nat, v: Failure): nat -> bool {
    (i: nat) => i < |log| && Unmakes(Run(limit, log[..i]), log[i], k, v)
  }

  lemma FactAt(limit: Limit, log: seq<Action>, k: nat, v: Failure, i: nat)
    requires i < |log|
    ensures Changes(HoldsAt(limit, log, k, v), MakesAt(limit, log, k, v), UnmakesAt(limit, log, k, v), i)
  {
    var c := Run(limit, log[..i]);
    RunSound(limit, log[..i]);
    RunAppend(limit, log[..i], log[i]);
    assert log[..i] + [log[i]] == log[..i + 1];
    if k < |Step(c, log[i]).handles| {
      FailureStep(c, log[i], k);
    } else {
      NotThere(c, log[i], k, v);
    }
  }

  /** Over every log: a subscription has an error to read exactly if a lost transport or a full backlog
      broke it while it was open and nobody has read since; and the error has been raised exactly if the
      next read came, so it is raised once. */
  lemma ErrorExactly(limit: Limit, log: seq<Action>, k: nat, v: Failure)
    ensures Holds(Run(limit, log), k, v) <==>
              Stands(false, MakesAt(limit, log, k, v), UnmakesAt(limit, log, k, v), |log|)
  {
    forall i: nat | i < |log| ensures Changes(HoldsAt(limit, log, k, v), MakesAt(limit, log, k, v), UnmakesAt(limit, log, k, v), i) {
      FactAt(limit, log, k, v, i);
    }
    StandsExactly(HoldsAt(limit, log, k, v), MakesAt(limit, log, k, v), UnmakesAt(limit, log, k, v), |log|);
    assert log[..|log|] == log && log[..0] == [];
  }
}

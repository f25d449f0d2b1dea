/**
 The admission gate of the host: requests in flight, responses that release later, and closing
 the gate until everything admitted has been released.

 One section under the condition's lock is one step; waking a closer makes it look again.
 */
module PeerAdmission {
  import opened Histories

  type Id = nat

  // A request: being forwarded, answered with a descriptor still open, its finalizer running, or done.
  datatype Phase = Working | Deferred | Finalizing | Released

  datatype Closer = Waiting | Returned

  datatype Gate = Gate(accepting: bool, inFlight: nat, requests: map<Id, Phase>, closers: map<nat, Closer>)

  const SHUT := Gate(false, 0, map[], map[])

  datatype Action =
    | Enter(id: Id)
    | Answer(id: Id, deferred: bool)
    | Finalize(id: Id)
    | Finalized(id: Id)
    | Close(c: nat)
    | Wake(c: nat)
    | Reopen(ready: bool)

  // The clamped decrement.
  function Less(n: nat): nat {
    if n >= 1 then n - 1 else 0
  }

  function Move(g: Gate, id: Id, ph: Phase): Gate {
    g.(requests := g.requests[id := ph])
  }

  function Release(g: Gate, id: Id): Gate {
    Move(g, id, Released).(inFlight := Less(g.inFlight))
  }

  predicate In(g: Gate, id: Id, ph: Phase) {
    id in g.requests && g.requests[id] == ph
  }

  // Looks at the counter: the closer returns once nothing is in flight.
  function Look(g: Gate, c: nat): Gate {
    g.(closers := g.closers[c := if g.inFlight == 0 then Returned else Waiting])
  }

  function Step(g: Gate, a: Action): Gate {
    match a
    case Enter(id) =>
      if !g.accepting || id in g.requests then g else Move(g, id, Working).(inFlight := g.inFlight + 1)
    case Answer(id, deferred) =>
      if !In(g, id, Working) then g else if deferred then Move(g, id, Deferred) else Release(g, id)
    case Finalize(id) => if In(g, id, Deferred) then Move(g, id, Finalizing) else g
    case Finalized(id) => if In(g, id, Finalizing) then Release(g, id) else g
    case Close(c) => if c in g.closers then g else Look(g.(accepting := false), c)
    case Wake(c) => if c in g.closers && g.closers[c].Waiting? then Look(g, c) else g
    case Reopen(ready) => g.(accepting := ready)
  }

  function Play(g: Gate, log: seq<Action>): Gate
    decreases |log|
  {
    if log == [] then g else Play(Step(g, log[0]), log[1..])
  }

  // ---------------------------------------------------------------- the counter

  function Live(g: Gate): set<Id> {
    set id | id in g.requests && !g.requests[id].Released?
  }

  /** The counter is the number of admitted requests not yet released. */
  ghost predicate Exact(g: Gate) {
    g.inFlight == |Live(g)|
  }

  lemma MoveLive(g: Gate, id: Id, ph: Phase)
    ensures Live(Move(g, id, ph)) == if ph.Released? then Live(g) - {id} else Live(g) + {id}
  {
  }

  /** Releasing a live request takes exactly one off the counter: the clamp at zero never decides. */
  lemma ReleaseExact(g: Gate, id: Id)
    requires Exact(g) && id in Live(g)
    ensures Exact(Release(g, id)) && g.inFlight >= 1 && Release(g, id).inFlight == g.inFlight - 1
    ensures Live(Release(g, id)) == Live(g) - {id}
  {
    MoveLive(g, id, Released);
    assert Live(Release(g, id)) == Live(Move(g, id, Released));
    assert |Live(g)| == |Live(g) - {id}| + 1;
  }

  lemma EnterExact(g: Gate, id: Id)
    requires Exact(g)
    ensures Exact(Step(g, Enter(id)))
    ensures !g.accepting ==> Live(Step(g, Enter(id))) == Live(g)
  {
    if g.accepting && id !in g.requests {
      MoveLive(g, id, Working);
      assert Live(Step(g, Enter(id))) == Live(Move(g, id, Working));
    }
  }

  lemma AdvanceExact(g: Gate, id: Id, ph: Phase)
    requires Exact(g) && id in Live(g) && !ph.Released?
    ensures Exact(Move(g, id, ph)) && Live(Move(g, id, ph)) == Live(g)
  {
    MoveLive(g, id, ph);
    assert Live(g) + {id} == Live(g);
  }

  lemma StepExact(g: Gate, a: Action)
    requires Exact(g)
    ensures Exact(Step(g, a))
    ensures !(a.Enter? && g.accepting) ==> Live(Step(g, a)) <= Live(g)
  {
    match a
    case Enter(id) => EnterExact(g, id);
    case Answer(id, deferred) =>
      if In(g, id, Working) {
        ReleaseExact(g, id);
        AdvanceExact(g, id, Deferred);
      }
    case Finalize(id) =>
      if In(g, id, Deferred) {
        AdvanceExact(g, id, Finalizing);
      }
    case Finalized(id) =>
      if In(g, id, Finalizing) {
        ReleaseExact(g, id);
      }
    case _ => assert Live(Step(g, a)) == Live(g);
  }

  lemma {:induction false} CounterExact(g: Gate, log: seq<Action>)
    requires Exact(g)
    ensures Exact(Play(g, log))
    decreases |log|
  {
    if log == [] {
    } else {
      StepExact(g, log[0]);
      CounterExact(Step(g, log[0]), log[1..]);
    }
  }

  // ---------------------------------------------------------------- releasing once

  function Rank(ph: Phase): nat {
    match ph
    case Working => 0
    case Deferred => 1
    case Finalizing => 2
    case Released => 3
  }

  // Whether a step releases this request.
  predicate Releases(g: Gate, a: Action, id: Id) {
    id in Live(g) && id !in Live(Step(g, a))
  }

  lemma Advances(g: Gate, a: Action, id: Id)
    requires id in g.requests
    ensures id in Step(g, a).requests && Rank(g.requests[id]) <= Rank(Step(g, a).requests[id])
  {
  }

  lemma {:induction false} StaysReleased(g: Gate, log: seq<Action>, id: Id)
    requires In(g, id, Released)
    ensures In(Play(g, log), id, Released)
    decreases |log|
  {
    if log == [] {
    } else {
      Advances(g, log[0], id);
      StaysReleased(Step(g, log[0]), log[1..], id);
    }
  }

  /** A request is released at most once in a run, however often its finalizer is called. */
  lemma ReleasedOnce(g: Gate, log: seq<Action>, id: Id, i: nat, j: nat)
    requires i < j < |log| && Releases(Play(g, log[..i]), log[i], id)
    ensures !Releases(Play(g, log[..j]), log[j], id)
  {
    var g1 := Play(g, log[..i + 1]);
    assert log[..i + 1] == log[..i] + [log[i]];
    PlaySplit(g, log[..i], [log[i]]);
    assert Play(Play(g, log[..i]), [log[i]]) == Step(Play(g, log[..i]), log[i]);
    Advances(Play(g, log[..i]), log[i], id);
    assert log[..j] == log[..i + 1] + log[i + 1..j];
    PlaySplit(g, log[..i + 1], log[i + 1..j]);
    StaysReleased(g1, log[i + 1..j], id);
  }

  lemma {:induction false} PlaySplit(g: Gate, a: seq<Action>, b: seq<Action>)
    ensures Play(g, a + b) == Play(Play(g, a), b)
    decreases |a|
  {
    if a == [] {
      assert a + b == b;
    } else {
      assert (a + b)[1..] == a[1..] + b;
      PlaySplit(Step(g, a[0]), a[1..], b);
    }
  }

  // ---------------------------------------------------------------- draining

  ghost predicate Undisturbed(log: seq<Action>) {
    forall k :: 0 <= k < |log| ==> !log[k].Reopen?
  }

  // The gate is shut, and whoever has returned saw it empty.
  ghost predicate Draining(g: Gate, c: nat, known: set<Id>) {
    && Exact(g) && !g.accepting && g.requests.Keys == known
    && c in g.closers && (g.closers[c].Returned? ==> Live(g) == {})
  }

  lemma DrainStep(g: Gate, a: Action, c: nat, known: set<Id>)
    requires Draining(g, c, known) && !a.Reopen?
    ensures Draining(Step(g, a), c, known)
  {
    StepExact(g, a);
    var g' := Step(g, a);
    assert a.Answer? || a.Finalize? || a.Finalized? ==> g'.requests.Keys == g.requests.Keys;
    if g'.closers[c].Returned? && g.closers[c].Waiting? {
      assert Live(g') == Live(g);
    }
  }

  lemma {:induction false} DrainRun(g: Gate, log: seq<Action>, c: nat, known: set<Id>)
    requires Draining(g, c, known) && Undisturbed(log)
    ensures Draining(Play(g, log), c, known)
    decreases |log|
  {
    if log == [] {
    } else {
      DrainStep(g, log[0], c, known);
      DrainRun(Step(g, log[0]), log[1..], c, known);
    }
  }

  /** Closing drains: when a call to close returns and nobody reopened meanwhile, no request admitted
      earlier is live, none was admitted since the call began, and none is until somebody reopens. */
  lemma CloseDrains(g: Gate, c: nat, during: seq<Action>, after: seq<Action>)
    requires Exact(g) && c !in g.closers && Undisturbed(during) && Undisturbed(after)
    ensures var g1 := Play(Step(g, Close(c)), during);
            c in g1.closers && (g1.closers[c].Returned? ==>
              && Live(g1) == {} && g1.requests.Keys == g.requests.Keys
              && Live(Play(g1, after)) == {} && Play(g1, after).requests.Keys == g.requests.Keys)
  {
    var g0 := Step(g, Close(c));
    StepExact(g, Close(c));
    assert Live(g0) == Live(g);
    DrainRun(g0, during, c, g.requests.Keys);
    var g1 := Play(g0, during);
    if g1.closers[c].Returned? {
      DrainRun(g1, after, c, g.requests.Keys);
      ReturnedStays(g1, after, c);
    }
  }

  lemma {:induction false} ReturnedStays(g: Gate, log: seq<Action>, c: nat)
    requires c in g.closers && g.closers[c].Returned?
    ensures c in Play(g, log).closers && Play(g, log).closers[c].Returned?
    decreases |log|
  {
    if log == [] {
    } else {
      ReturnedStays(Step(g, log[0]), log[1..], c);
    }
  }

  /** A closer that is woken once nothing is live returns, so waiting ends when the last request does. */
  lemma LastReleaseWakes(g: Gate, c: nat)
    requires Exact(g) && c in g.closers && Live(g) == {}
    ensures c in Step(g, Wake(c)).closers && Step(g, Wake(c)).closers[c].Returned?
  {
  }

  // ---------------------------------------------------------------- every phase, by position

  datatype Fact = Open | Has(id: Id, phase: Phase) | Waits(c: nat) | HasReturned(c: nat)

  predicate Holds(g: Gate, f: Fact) {
    match f
    case Open => g.accepting
    case Has(id, ph) => In(g, id, ph)
    case Waits(c) => c in g.closers && g.closers[c] == Waiting
    case HasReturned(c) => c in g.closers && g.closers[c] == Returned
  }

  // A closer looks: at its call, or woken while it waits.
  predicate Looks(g: Gate, a: Action, c: nat) {
    (a == Close(c) && c !in g.closers) || (a == Wake(c) && Holds(g, Waits(c)))
  }

  predicate Makes(g: Gate, a: Action, f: Fact) {
    match f
    case Open => a == Reopen(true)
    case Has(id, Working) => a == Enter(id) && g.accepting && id !in g.requests
    case Has(id, Deferred) => a == Answer(id, true) && In(g, id, Working)
    case Has(id, Finalizing) => a == Finalize(id) && In(g, id, Deferred)
    case Has(id, Released) => (a == Answer(id, false) && In(g, id, Working)) || (a == Finalized(id) && In(g, id, Finalizing))
    case Waits(c) => Looks(g, a, c) && Live(g) != {}
    case HasReturned(c) => Looks(g, a, c) && Live(g) == {}
  }

  predicate Unmakes(g: Gate, a: Action, f: Fact) {
    match f
    case Open => a == Reopen(false) || (a.Close? && a.c !in g.closers)
    case Has(id, Working) => a.Answer? && a.id == id
    case Has(id, Deferred) => a == Finalize(id)
    case Has(id, Finalizing) => a == Finalized(id)
    case Has(id, Released) => false
    case Waits(c) => Looks(g, a, c) && Live(g) == {}
    case HasReturned(c) => false
  }

  lemma StepMakes(g: Gate, a: Action, f: Fact)
    requires Exact(g)
    ensures Holds(Step(g, a), f) <==> Makes(g, a, f) || (Holds(g, f) && !Unmakes(g, a, f))
  {
    assert Live(g) == {} <==> g.inFlight == 0;
  }

  lemma PlayMore(g: Gate, log: seq<Action>, k: nat)
    requires k < |log|
    ensures Play(g, log[..k + 1]) == Step(Play(g, log[..k]), log[k])
  {
    assert log[..k + 1] == log[..k] + [log[k]];
    PlaySplit(g, log[..k], [log[k]]);
  }

  // Whether the fact holds before step k, and what that step does to it.
  ghost function HoldsAt(g: Gate, log: seq<Action>, f: Fact): nat -> bool {
    (k: nat) => k <= |log| && Holds(Play(g, log[..k]), f)
  }

  ghost function MakesAt(g: Gate, log: seq<Action>, f: Fact): nat -> bool {
    (k: nat) => k < |log| && Makes(Play(g, log[..k]), log[k], f)
  }

  ghost function UnmakesAt(g: Gate, log: seq<Action>, f: Fact): nat -> bool {
    (k: nat) => k < |log| && Unmakes(Play(g, log[..k]), log[k], f)
  }

  /** In every run, who is in which phase, who waits for the gate to drain and whether it is open: exactly
      what the last step that concerns it left. */
  lemma GateExactly(g: Gate, log: seq<Action>, f: Fact)
    requires Exact(g)
    ensures Holds(Play(g, log), f) <==> Stands(Holds(g, f), MakesAt(g, log, f), UnmakesAt(g, log, f), |log|)
  {
    forall k: nat | k < |log| ensures Changes(HoldsAt(g, log, f), MakesAt(g, log, f), UnmakesAt(g, log, f), k)
    {
      CounterExact(g, log[..k]);
      PlayMore(g, log, k);
      StepMakes(Play(g, log[..k]), log[k], f);
    }
    StandsExactly(HoldsAt(g, log, f), MakesAt(g, log, f), UnmakesAt(g, log, f), |log|);
    assert log[..|log|] == log && log[..0] == [];
  }

  // ---------------------------------------------------------------- the gate object

  class AdmissionGate {
    var accepting: bool
    var inFlight: nat
    ghost var requests: map<Id, Phase>
    ghost var closers: map<nat, Closer>

    ghost function View(): Gate
      reads this
    {
      Gate(accepting, inFlight, requests, closers)
    }

    constructor ()
      ensures View() == SHUT && Exact(View())
    {
      accepting, inFlight, requests, closers := false, 0, map[], map[];
      new;
      assert Live(View()) == {};
    }

    method Admit(ghost id: Id) returns (admitted: bool)
      requires Exact(View()) && id !in requests
      modifies this
      ensures View() == Step(old(View()), Enter(id)) && Exact(View())
      ensures admitted <==> old(accepting)
      ensures admitted <==> id in Live(View())
    {
      StepExact(View(), Enter(id));
      admitted := accepting;
      if admitted {
        inFlight := inFlight + 1;
        requests := requests[id := Working];
      }
    }

    // Both ways of releasing share this; the last one out wakes the closers.
    method ReleaseOne(ghost id: Id) returns (wake: bool)
      requires Exact(View()) && id in Live(View())
      modifies this`inFlight, this`requests
      ensures View() == Release(old(View()), id) && Exact(View())
      ensures wake <==> Live(View()) == {}
    {
      ReleaseExact(View(), id);
      inFlight := Less(inFlight);
      requests := requests[id := Released];
      wake := inFlight == 0;
    }

    method CloseOnce(ghost c: nat) returns (drained: bool)
      requires Exact(View()) && c !in closers
      modifies this
      ensures View() == Step(old(View()), Close(c)) && Exact(View())
      ensures drained <==> Live(View()) == {}
    {
      StepExact(View(), Close(c));
      accepting := false;
      drained := inFlight == 0;
      closers := closers[c := if inFlight == 0 then Returned else Waiting];
    }
  }
}

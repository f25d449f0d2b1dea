/**
 Every section of materializing makes and ends exactly the facts its table says, and so every run does.
 */
module CacheEffects {
  import opened Wrappers
  import opened Histories
  import opened CacheFiles
  import opened CacheProtocol
  import opened CacheSteps

  // ---------------------------------------------------------------- the parts a section leaves

  function Moved(s: Cache, t: Tid, phase: Phase): map<Tid, Thread>
    requires t in s.threads
  {
    s.threads[t := s.threads[t].(phase := phase)]
  }

  function ThreadsAfter(s: Cache, a: Action): map<Tid, Thread> {
    match a
    case Refer(t, target, size) =>
      if !Enters(s, a, t) then s.threads
      else s.threads[t := Thread(target, size, if target in s.table then s.table[target].id else s.next, Waiting)]
    case Leave(t) => if Leaves(s, a, t) then s.threads - {t} else s.threads
    case Close(n) => s.threads
    case _ => if a.t in s.threads && Next(s, a).Some? then Moved(s, a.t, Next(s, a).value) else s.threads
  }

  function ReservationsAfter(s: Cache, a: Action): map<Path, nat> {
    match a
    case Book(t, pass) =>
      if CanBook(s, t) && pass.ok then s.reservations[Download(s.threads[t].target.entry, s.next) := s.threads[t].size + 4096]
      else s.reservations
    case Issue(t, sidecar, pass, sound, lease) =>
      if Issues(s, a, t) then s.reservations - {s.threads[t].phase.staging} else s.reservations
    case Clean(t, refused) => if Cleans(s, a, t) then s.reservations - {s.threads[t].phase.staging} else s.reservations
    case _ => s.reservations
  }

  function HoldersAfter(s: Cache, a: Action): map<Holder, Grip> {
    match a
    case Look(t, fits) =>
      if fits && In(s, t, Holding) && s.threads[t].target in s.files
      then s.holders[ByThread(t) := Grip(s.threads[t].target, s.files[s.threads[t].target].inode)]
      else s.holders
    case Doubt(t) => if In(s, t, Hashing) then s.holders - {ByThread(t)} else s.holders
    case Hand(t, pass, lease) =>
      if !Hands(s, a, t) then s.holders
      else if pass.ok && lease.Some? then (s.holders - {ByThread(t)})[ByLease(lease.value) := s.holders[ByThread(t)]]
      else s.holders - {ByThread(t)}
    case Issue(t, sidecar, pass, sound, lease) =>
      if Succeeds(s, a, t) && lease.Some?
      then s.holders[ByLease(lease.value) := Grip(s.threads[t].target, pass.files[s.threads[t].target].inode)]
      else s.holders
    case Close(n) => s.holders - {ByLease(n)}
    case _ => s.holders
  }

  function FilesAfter(s: Cache, a: Action): Files {
    match a
    case Store(t, bytes, inode) =>
      if t in s.threads && s.threads[t].phase.Fetching? && bytes <= s.threads[t].size
      then s.files[s.threads[t].phase.staging := CacheFiles.File(inode, bytes, 0, None)]
      else s.files
    case Rip(t, torn) => if Rips(s, a, t) then InPlace(s, t, torn) else s.files
    case Hand(t, pass, lease) => if Hands(s, a, t) then pass.files else s.files
    case Book(t, pass) => if CanBook(s, t) then pass.files else s.files
    case Issue(t, sidecar, pass, sound, lease) => if Issues(s, a, t) then pass.files else s.files
    case Clean(t, refused) => if Cleans(s, a, t) then s.files - (Spoilt(s.threads[t]) - refused) else s.files
    case _ => s.files
  }

  // What a failed thread has to clean up.
  function Spoilt(th: Thread): set<Path>
    requires th.phase.Failed? && th.target.Payload?
  {
    {th.phase.staging} + if th.phase.replaced then {th.target, Meta(th.target.entry)} else {}
  }

  predicate Leads(s: Cache, a: Action, s': Cache) {
    && s'.threads == ThreadsAfter(s, a) && s'.reservations == ReservationsAfter(s, a)
    && s'.holders == HoldersAfter(s, a) && s'.files == FilesAfter(s, a)
  }

  lemma GuardsAgree(s: Cache, t: Tid)
    ensures (Bookable(s, t) <==> CanBook(s, t)) && (Publishable(s, t) <==> Complete(s, t))
  {
  }

  lemma ReferLeads(s: Cache, t: Tid, target: Path, size: nat)
    ensures Leads(s, Refer(t, target, size), Reference(s, t, target, size))
  {
    if !Enters(s, Refer(t, target, size), t) {
      assert Reference(s, t, target, size) == s;
    }
  }

  lemma TakeLeads(s: Cache, t: Tid)
    ensures Leads(s, Take(t), Acquire(s, t))
  {
    if Next(s, Take(t)).Some? {
      assert Acquire(s, t) == To(s, t, Holding).(owner := s.owner[s.threads[t].lock := t]);
    } else {
      assert Acquire(s, t) == s;
    }
  }

  lemma HitLeads(s: Cache, t: Tid)
    requires In(s, t, Holding) && s.threads[t].target in s.files
    ensures Leads(s, Look(t, true), Inspect(s, t, true))
  {
    var target := s.threads[t].target;
    assert Inspect(s, t, true) == AddPin(To(s, t, Hashing), ByThread(t), target, s.files[target].inode);
  }

  lemma MissLeads(s: Cache, t: Tid, fits: bool)
    requires In(s, t, Holding) && !(fits && s.threads[t].target in s.files)
    ensures Leads(s, Look(t, fits), Inspect(s, t, fits))
  {
    assert Inspect(s, t, fits) == To(s, t, Missed);
  }

  lemma LookLeads(s: Cache, t: Tid, fits: bool)
    ensures Leads(s, Look(t, fits), Inspect(s, t, fits))
  {
    if !In(s, t, Holding) {
      assert Inspect(s, t, fits) == s;
    } else if fits && s.threads[t].target in s.files {
      HitLeads(s, t);
    } else {
      MissLeads(s, t, fits);
    }
  }

  lemma DoubtLeads(s: Cache, t: Tid)
    ensures Leads(s, Doubt(t), Distrust(s, t))
  {
    if Next(s, Doubt(t)).Some? {
      assert Distrust(s, t) == DropPin(To(s, t, Missed), ByThread(t));
    } else {
      assert Distrust(s, t) == s;
      assert In(s, t, Hashing) ==> s.holders - {ByThread(t)} == s.holders;
    }
  }

  lemma HandLeads(s: Cache, t: Tid, pass: Pass, lease: Option<nat>)
    ensures Leads(s, Hand(t, pass, lease), ServeIf(s, t, pass, lease, true))
  {
    var s' := ServeIf(s, t, pass, lease, true);
    if Hands(s, Hand(t, pass, lease), t) {
      var g, dropped := s.holders[ByThread(t)], DropPin(To(Evicted(s, pass), t, Leaving), ByThread(t));
      assert dropped.holders == s.holders - {ByThread(t)};
      assert s' == if pass.ok && lease.Some? then AddPin(dropped, ByLease(lease.value), g.target, g.inode) else dropped;
    } else {
      assert s' == s;
    }
  }

  lemma BookedLeads(s: Cache, t: Tid, pass: Pass)
    requires CanBook(s, t) && pass.ok
    ensures Leads(s, Book(t, pass), ReserveIf(s, t, pass, true))
  {
    GuardsAgree(s, t);
    assert ReserveIf(s, t, pass, true) == Booked(s, t, pass);
  }

  lemma UnbookedLeads(s: Cache, t: Tid, pass: Pass)
    requires In(s, t, Missed) && !(CanBook(s, t) && pass.ok)
    ensures Leads(s, Book(t, pass), ReserveIf(s, t, pass, true))
  {
    GuardsAgree(s, t);
    assert ReserveIf(s, t, pass, true) == if CanBook(s, t) then To(Evicted(s, pass), t, Leaving) else To(s, t, Leaving);
  }

  lemma BookLeads(s: Cache, t: Tid, pass: Pass)
    ensures Leads(s, Book(t, pass), ReserveIf(s, t, pass, true))
  {
    if !In(s, t, Missed) {
      assert ReserveIf(s, t, pass, true) == s;
    } else if CanBook(s, t) && pass.ok {
      BookedLeads(s, t, pass);
    } else {
      UnbookedLeads(s, t, pass);
    }
  }

  lemma StoreLeads(s: Cache, t: Tid, bytes: nat, inode: nat)
    ensures Leads(s, Store(t, bytes, inode), Write(s, t, bytes, inode))
  {
    if t in s.threads && s.threads[t].phase.Fetching? && bytes <= s.threads[t].size {
      var staging := s.threads[t].phase.staging;
      assert Write(s, t, bytes, inode) == s.(files := s.files[staging := CacheFiles.File(inode, bytes, 0, None)]);
    } else {
      assert Write(s, t, bytes, inode) == s;
    }
  }

  lemma BreakLeads(s: Cache, t: Tid)
    ensures Leads(s, Break(t), FailFetch(s, t))
  {
    if Next(s, Break(t)).Some? {
      assert FailFetch(s, t) == To(s, t, Failed(s.threads[t].phase.staging, false, true, false));
    } else {
      assert FailFetch(s, t) == s;
    }
  }

  lemma RipLeads(s: Cache, t: Tid, torn: Option<File>)
    ensures Leads(s, Rip(t, torn), Tear(s, t, torn))
  {
    GuardsAgree(s, t);
    if Rips(s, Rip(t, torn), t) {
      assert Tear(s, t, torn) == To(s.(files := InPlace(s, t, torn)), t, Failed(s.threads[t].phase.staging, true, true, torn.Some?));
    } else {
      assert Tear(s, t, torn) == s;
    }
  }

  lemma IssueLeads(s: Cache, t: Tid, sidecar: File, pass: Pass, sound: bool, lease: Option<nat>)
    ensures Leads(s, Issue(t, sidecar, pass, sound, lease), PublishIf(s, t, sidecar, pass, sound, lease, true))
  {
    GuardsAgree(s, t);
    var a, s' := Issue(t, sidecar, pass, sound, lease), PublishIf(s, t, sidecar, pass, sound, lease, true);
    if !Issues(s, a, t) {
      assert s' == s;
    } else if Succeeds(s, a, t) {
      IssueSucceeds(s, t, sidecar, pass, sound, lease);
    } else {
      assert s' == To(Evicted(Install(s, t, sidecar), pass), t, Failed(s.threads[t].phase.staging, true, false, true));
    }
  }

  lemma IssueSucceeds(s: Cache, t: Tid, sidecar: File, pass: Pass, sound: bool, lease: Option<nat>)
    requires Succeeds(s, Issue(t, sidecar, pass, sound, lease), t)
    ensures Leads(s, Issue(t, sidecar, pass, sound, lease), PublishIf(s, t, sidecar, pass, sound, lease, true))
  {
    GuardsAgree(s, t);
    var target, done := s.threads[t].target, To(Evicted(Install(s, t, sidecar), pass), t, Leaving);
    assert PublishIf(s, t, sidecar, pass, sound, lease, true)
        == if lease.Some? then AddPin(done, ByLease(lease.value), target, pass.files[target].inode) else done;
  }

  lemma CleanLeads(s: Cache, t: Tid, refused: set<Path>)
    ensures Leads(s, Clean(t, refused), Cleanup(s, t, refused))
  {
    if Cleans(s, Clean(t, refused), t) {
      var th := s.threads[t];
      assert Cleanup(s, t, refused)
          == To(s, t, Leaving).(files := s.files - (Spoilt(th) - refused), reservations := s.reservations - {th.phase.staging});
    } else {
      assert Cleanup(s, t, refused) == s;
    }
  }

  lemma GiveLeads(s: Cache, t: Tid)
    ensures Leads(s, Give(t), Unlock(s, t))
  {
    if In(s, t, Leaving) {
      assert Unlock(s, t) == To(s, t, Released).(owner := s.owner - {s.threads[t].lock});
    } else {
      assert Unlock(s, t) == s;
    }
  }

  lemma LeaveLeads(s: Cache, t: Tid)
    ensures Leads(s, Leave(t), Unreference(s, t))
  {
    if !Leaves(s, Leave(t), t) {
      assert Unreference(s, t) == s;
    }
  }

  lemma CloseLeads(s: Cache, n: nat)
    ensures Leads(s, Close(n), CloseLease(s, n))
  {
    if ByLease(n) in s.holders {
      assert CloseLease(s, n) == DropPin(s, ByLease(n));
    } else {
      assert CloseLease(s, n) == s;
      assert s.holders - {ByLease(n)} == s.holders;
    }
  }

  lemma StepLeads(s: Cache, a: Action)
    ensures Leads(s, a, StepIf(s, a, true))
  {
    match a
    case Refer(t, target, size) => ReferLeads(s, t, target, size);
    case Take(t) => TakeLeads(s, t);
    case Look(t, fits) => LookLeads(s, t, fits);
    case Doubt(t) => DoubtLeads(s, t);
    case Hand(t, pass, lease) => HandLeads(s, t, pass, lease);
    case Book(t, pass) => BookLeads(s, t, pass);
    case Store(t, bytes, inode) => StoreLeads(s, t, bytes, inode);
    case Break(t) => BreakLeads(s, t);
    case Rip(t, torn) => RipLeads(s, t, torn);
    case Issue(t, sidecar, pass, sound, lease) => IssueLeads(s, t, sidecar, pass, sound, lease);
    case Clean(t, refused) => CleanLeads(s, t, refused);
    case Give(t) => GiveLeads(s, t);
    case Leave(t) => LeaveLeads(s, t);
    case Close(n) => CloseLeads(s, n);
  }

  // ---------------------------------------------------------------- the facts they carry

  lemma PhaseFact(s: Cache, a: Action, s': Cache, t: Tid, target: Path, size: nat, phase: Phase)
    requires s'.threads == ThreadsAfter(s, a)
    ensures Exact(s, a, s', Is(t, target, size, phase))
  {
  }

  lemma ReservationFact(s: Cache, a: Action, s': Cache, p: Path, bytes: nat)
    requires s'.reservations == ReservationsAfter(s, a)
    ensures Exact(s, a, s', Reserved(p, bytes))
  {
  }

  lemma GripFact(s: Cache, a: Action, s': Cache, h: Holder, target: Path, inode: nat)
    requires s'.holders == HoldersAfter(s, a)
    ensures Exact(s, a, s', Grips(h, target, inode))
  {
  }

  lemma FileFact(s: Cache, a: Action, s': Cache, p: Path, file: File)
    requires s'.files == FilesAfter(s, a) && PassInside(s, a)
    ensures Exact(s, a, s', There(p, file))
  {
  }

  lemma PartsFact(s: Cache, a: Action, s': Cache, f: Fact)
    requires Leads(s, a, s') && PassInside(s, a)
    ensures Exact(s, a, s', f)
  {
    match f
    case Is(t, target, size, phase) => PhaseFact(s, a, s', t, target, size, phase);
    case Reserved(p, bytes) => ReservationFact(s, a, s', p, bytes);
    case Grips(h, target, inode) => GripFact(s, a, s', h, target, inode);
    case There(p, file) => FileFact(s, a, s', p, file);
  }

  lemma StepMakes(s: Cache, a: Action, f: Fact)
    requires Happens(s, a)
    ensures Exact(s, a, Step(s, a), f)
  {
    StepIs(s, a);
    StepLeads(s, a);
    HappensInside(s, a);
    PartsFact(s, a, StepIf(s, a, true), f);
  }

  // ---------------------------------------------------------------- every run

  lemma {:induction false} PlaySplit(s: Cache, a: seq<Action>, b: seq<Action>)
    ensures Play(s, a + b) == Play(Play(s, a), b)
    decreases |a|
  {
    if a == [] {
      assert a + b == b;
    } else {
      assert (a + b)[1..] == a[1..] + b;
      PlaySplit(Step(s, a[0]), a[1..], b);
    }
  }

  lemma PlayMore(s: Cache, log: seq<Action>, k: nat)
    requires k < |log|
    ensures Play(s, log[..k + 1]) == Step(Play(s, log[..k]), log[k])
  {
    assert log[..k + 1] == log[..k] + [log[k]];
    PlaySplit(s, log[..k], [log[k]]);
  }

  // Whether the fact holds before step k, and what that step does to it.
  ghost function HoldsAt(s: Cache, log: seq<Action>, f: Fact): nat -> bool {
    (k: nat) => k <= |log| && Holds(Play(s, log[..k]), f)
  }

  ghost function MakesAt(s: Cache, log: seq<Action>, f: Fact): nat -> bool {
    (k: nat) => k < |log| && Happens(Play(s, log[..k]), log[k]) && Makes(Play(s, log[..k]), log[k], f)
  }

  ghost function UnmakesAt(s: Cache, log: seq<Action>, f: Fact): nat -> bool {
    (k: nat) => k < |log| && Happens(Play(s, log[..k]), log[k]) && Unmakes(Play(s, log[..k]), log[k], f)
  }

  lemma FactAt(s: Cache, log: seq<Action>, f: Fact, k: nat)
    requires k < |log|
    ensures Changes(HoldsAt(s, log, f), MakesAt(s, log, f), UnmakesAt(s, log, f), k)
  {
    PlayMore(s, log, k);
    var c, a := Play(s, log[..k]), log[k];
    if Happens(c, a) {
      StepMakes(c, a, f);
    } else {
      StepIs(c, a);
    }
  }

  /** In every interleaving: which thread is where, which space is reserved, which lease holds which file
      and which files there are is exactly what the last section that concerns it left. */
  lemma CacheExactly(s: Cache, log: seq<Action>, f: Fact)
    ensures Holds(Play(s, log), f) <==> Stands(Holds(s, f), MakesAt(s, log, f), UnmakesAt(s, log, f), |log|)
  {
    forall k: nat | k < |log| ensures Changes(HoldsAt(s, log, f), MakesAt(s, log, f), UnmakesAt(s, log, f), k) {
      FactAt(s, log, f, k);
    }
    StandsExactly(HoldsAt(s, log, f), MakesAt(s, log, f), UnmakesAt(s, log, f), |log|);
    assert log[..|log|] == log && log[..0] == [];
  }
}

/**
 A payload under a live lease is neither unlinked nor replaced, in every interleaving.
 */
module CachePins {
  import opened Wrappers
  import opened CacheFiles
  import opened CacheProtocol
  import opened CacheLocks

  function Grips(holders: map<Holder, Grip>, x: Path): set<Holder> {
    set h | h in holders && holders[h].target == x
  }

  // A thread between reserving space and cleaning up after itself.
  predicate Fetches(ph: Phase) {
    ph.Fetching? || ph.Failed?
  }

  // Pin counts are the number of leases and hashing threads.
  ghost predicate CountsOk(pins: map<Path, nat>, holders: map<Holder, Grip>) {
    forall x :: Count(pins, x) == |Grips(holders, x)|
  }

  // Exactly the hashing threads hold thread pins, each on its own target.
  ghost predicate HashersOk(holders: map<Holder, Grip>, threads: map<Tid, Thread>) {
    && (forall t :: ByThread(t) in holders ==>
          t in threads && threads[t].phase.Hashing? && holders[ByThread(t)].target == threads[t].target)
    && (forall t :: t in threads && threads[t].phase.Hashing? ==> ByThread(t) in holders)
  }

  // Nobody holds a payload that is being fetched anew.
  ghost predicate FetchersOk(holders: map<Holder, Grip>, threads: map<Tid, Thread>) {
    forall t :: t in threads && Fetches(threads[t].phase) ==>
      threads[t].phase.staging.Download? && threads[t].target.Payload? && Grips(holders, threads[t].target) == {}
  }

  // Every held payload is still the file that was pinned.
  ghost predicate Stable(holders: map<Holder, Grip>, files: Files) {
    forall h :: h in holders && Steady(holders[h].target) ==>
      holders[h].target in files && files[holders[h].target].inode == holders[h].inode
  }

  ghost predicate PinsOk(s: Cache) {
    && CountsOk(s.pins, s.holders)
    && HashersOk(s.holders, s.threads)
    && FetchersOk(s.holders, s.threads)
    && Stable(s.holders, s.files)
  }

  // ---------------------------------------------------------------- counting holders

  lemma AddedGrip(holders: map<Holder, Grip>, h: Holder, x: Path, inode: nat, y: Path)
    requires h !in holders
    ensures Grips(holders[h := Grip(x, inode)], y) == Grips(holders, y) + if y == x then {h} else {}
  {
  }

  lemma AddedGrips(s: Cache, h: Holder, x: Path, inode: nat)
    requires CountsOk(s.pins, s.holders) && h !in s.holders
    ensures var s' := AddPin(s, h, x, inode);
            && CountsOk(s'.pins, s'.holders)
            && (forall y :: y != x ==> Grips(s'.holders, y) == Grips(s.holders, y))
  {
    var pins := s.pins[x := Count(s.pins, x) + 1];
    var holders := s.holders[h := Grip(x, inode)];
    forall y ensures Count(pins, y) == |Grips(holders, y)| && (y != x ==> Grips(holders, y) == Grips(s.holders, y)) {
      assert Count(s.pins, y) == |Grips(s.holders, y)|;
      AddedGrip(s.holders, h, x, inode, y);
    }
  }

  lemma DroppedGrip(s: Cache, h: Holder)
    requires CountsOk(s.pins, s.holders) && h in s.holders
    ensures CountsOk(DropPin(s, h).pins, DropPin(s, h).holders)
    ensures forall y :: Grips(DropPin(s, h).holders, y) == Grips(s.holders, y) - {h}
  {
    var s' := DropPin(s, h);
    var x := s.holders[h].target;
    assert h in Grips(s.holders, x);
    forall y ensures Count(s'.pins, y) == |Grips(s'.holders, y)| && Grips(s'.holders, y) == Grips(s.holders, y) - {h} {
      assert Count(s.pins, y) == |Grips(s.holders, y)|;
      assert Grips(s'.holders, y) == Grips(s.holders, y) - {h};
      assert y != x ==> Grips(s.holders, y) - {h} == Grips(s.holders, y);
    }
  }

  // ---------------------------------------------------------------- what keeps held payloads

  // The files changed, but no held payload did.
  ghost predicate HeldKept(holders: map<Holder, Grip>, files: Files, files': Files) {
    forall h :: h in holders && Steady(holders[h].target) && holders[h].target in files ==>
      holders[h].target in files' && files'[holders[h].target] == files[holders[h].target]
  }

  lemma PassKeepsHeld(s: Cache, pass: Pass, protected: Option<Path>, reserve: nat)
    requires CountsOk(s.pins, s.holders) && Allowed(s, pass, protected, reserve)
    ensures HeldKept(s.holders, s.files, pass.files)
  {
    forall h | h in s.holders && Steady(s.holders[h].target) && s.holders[h].target in s.files
      ensures s.holders[h].target in pass.files
    {
      assert h in Grips(s.holders, s.holders[h].target);
      assert Count(s.pins, s.holders[h].target) == |Grips(s.holders, s.holders[h].target)|;
    }
  }

  lemma FetcherUnheld(s: Cache, t: Tid, h: Holder)
    requires FetchersOk(s.holders, s.threads) && t in s.threads && Fetches(s.threads[t].phase) && h in s.holders
    ensures s.holders[h].target != s.threads[t].target
  {
    assert h in Grips(s.holders, s.holders[h].target);
  }

  lemma InstallKeepsHeld(s: Cache, t: Tid, sidecar: Option<File>)
    requires FetchersOk(s.holders, s.threads) && Publishable(s, t)
    ensures HeldKept(s.holders, s.files, Replace(s, t).files)
    ensures sidecar.Some? ==> HeldKept(s.holders, s.files, Rewrite(Replace(s, t), t, sidecar.value).files)
  {
    forall h | h in s.holders ensures s.holders[h].target != s.threads[t].target {
      FetcherUnheld(s, t, h);
    }
  }

  // ---------------------------------------------------------------- the steps

  // A thread moves between phases that neither hash nor start fetching.
  predicate Plain(ph: Phase, ph': Phase) {
    && !ph.Hashing? && !ph'.Hashing?
    && (Fetches(ph') ==> Fetches(ph) && ph'.staging == ph.staging)
  }

  lemma QuietStep(s: Cache, s': Cache, t: Tid)
    requires PinsOk(s) && s'.pins == s.pins && s'.holders == s.holders && HeldKept(s.holders, s.files, s'.files)
    requires s'.threads == s.threads
             || (t in s.threads && t in s'.threads && Plain(s.threads[t].phase, s'.threads[t].phase)
                 && s'.threads == s.threads[t := s.threads[t].(phase := s'.threads[t].phase)])
    ensures PinsOk(s')
  {
  }

  lemma ReferencePins(s: Cache, t: Tid, target: Path, size: nat)
    requires PinsOk(s)
    ensures PinsOk(Reference(s, t, target, size))
  {
  }

  lemma UnreferencePins(s: Cache, t: Tid)
    requires PinsOk(s)
    ensures PinsOk(Unreference(s, t))
  {
  }

  lemma AcquirePins(s: Cache, t: Tid)
    requires PinsOk(s)
    ensures PinsOk(Acquire(s, t))
  {
  }

  lemma UnlockPins(s: Cache, t: Tid)
    requires PinsOk(s)
    ensures PinsOk(Unlock(s, t))
  {
  }

  // Pinning a target whose lock this thread holds: nobody is fetching it.
  lemma NobodyFetches(s: Cache, t: Tid)
    requires LocksOk(s) && t in s.threads && Critical(s.threads[t].phase) && !Fetches(s.threads[t].phase)
    ensures forall u :: u in s.threads && Fetches(s.threads[u].phase) ==> s.threads[u].target != s.threads[t].target
  {
  }

  lemma AddKeeps(s: Cache, h: Holder, x: Path, inode: nat)
    requires CountsOk(s.pins, s.holders) && FetchersOk(s.holders, s.threads) && Stable(s.holders, s.files) && h !in s.holders
    requires forall u :: u in s.threads && Fetches(s.threads[u].phase) ==> s.threads[u].target != x
    requires Steady(x) ==> x in s.files && s.files[x].inode == inode
    ensures var s' := AddPin(s, h, x, inode);
            CountsOk(s'.pins, s'.holders) && FetchersOk(s'.holders, s'.threads) && Stable(s'.holders, s'.files)
  {
    AddedGrips(s, h, x, inode);
  }

  lemma HashingFetchers(holders: map<Holder, Grip>, threads: map<Tid, Thread>, t: Tid, ph: Phase)
    requires t in threads && !Fetches(ph) && FetchersOk(holders, threads)
    ensures FetchersOk(holders, threads[t := threads[t].(phase := ph)])
  {
  }

  lemma HasherAdded(holders: map<Holder, Grip>, threads: map<Tid, Thread>, t: Tid, inode: nat)
    requires HashersOk(holders, threads) && t in threads
    ensures HashersOk(holders[ByThread(t) := Grip(threads[t].target, inode)], threads[t := threads[t].(phase := Hashing)])
  {
  }

  lemma HasherDropped(holders: map<Holder, Grip>, threads: map<Tid, Thread>, t: Tid, ph: Phase)
    requires HashersOk(holders, threads) && t in threads && !ph.Hashing?
    ensures HashersOk(holders - {ByThread(t)}, threads[t := threads[t].(phase := ph)])
  {
  }

  lemma InspectKeeps(s: Cache, t: Tid, fits: bool)
    requires LocksOk(s) && PinsOk(s)
    ensures PinsOk(Inspect(s, t, fits))
  {
    if At(s, t) && s.threads[t].phase.Holding? {
      if fits && s.threads[t].target in s.files {
        var s1 := To(s, t, Hashing);
        var x := s.threads[t].target;
        NobodyFetches(s, t);
        HashingFetchers(s.holders, s.threads, t, Hashing);
        AddKeeps(s1, ByThread(t), x, s.files[x].inode);
        HasherAdded(s.holders, s.threads, t, s.files[x].inode);
      } else {
        QuietStep(s, To(s, t, Missed), t);
      }
    }
  }

  lemma DropKeeps(s: Cache, h: Holder)
    requires CountsOk(s.pins, s.holders) && FetchersOk(s.holders, s.threads) && Stable(s.holders, s.files) && h in s.holders
    ensures var s' := DropPin(s, h);
            CountsOk(s'.pins, s'.holders) && FetchersOk(s'.holders, s'.threads) && Stable(s'.holders, s'.files)
  {
    DroppedGrip(s, h);
  }

  // A hashing thread gives up its pin and moves on.
  lemma UnpinKeeps(s: Cache, t: Tid, ph: Phase)
    requires PinsOk(s) && t in s.threads && s.threads[t].phase.Hashing? && !ph.Hashing? && !Fetches(ph)
    ensures PinsOk(DropPin(To(s, t, ph), ByThread(t)))
  {
    var s1 := To(s, t, ph);
    HashingFetchers(s.holders, s.threads, t, ph);
    DropKeeps(s1, ByThread(t));
    HasherDropped(s.holders, s.threads, t, ph);
  }

  lemma DistrustKeeps(s: Cache, t: Tid)
    requires PinsOk(s)
    ensures PinsOk(Distrust(s, t))
  {
    if At(s, t) && s.threads[t].phase.Hashing? {
      UnpinKeeps(s, t, Missed);
    }
  }

  lemma CloseKeeps(s: Cache, n: nat)
    requires PinsOk(s)
    ensures PinsOk(CloseLease(s, n))
  {
    if ByLease(n) in s.holders {
      DropKeeps(s, ByLease(n));
    }
  }

  // A lease takes over where nobody is fetching.
  lemma LeaseKeeps(s: Cache, n: nat, x: Path, inode: nat)
    requires PinsOk(s) && ByLease(n) !in s.holders
    requires forall u :: u in s.threads && Fetches(s.threads[u].phase) ==> s.threads[u].target != x
    requires Steady(x) ==> x in s.files && s.files[x].inode == inode
    ensures PinsOk(AddPin(s, ByLease(n), x, inode))
  {
    AddKeeps(s, ByLease(n), x, inode);
  }

  lemma PassKeeps(s: Cache, pass: Pass, protected: Option<Path>, reserve: nat)
    requires PinsOk(s) && Allowed(s, pass, protected, reserve)
    ensures PinsOk(Evicted(s, pass))
  {
    PassKeepsHeld(s, pass, protected, reserve);
  }

  lemma ServeKeeps(s: Cache, t: Tid, pass: Pass, lease: Option<nat>)
    requires LocksOk(s) && PinsOk(s)
    ensures PinsOk(Serve(s, t, pass, lease))
  {
    if At(s, t) && s.threads[t].phase.Hashing? && Allowed(s, pass, Some(s.threads[t].target), 0) {
      var s1 := Evicted(s, pass);
      PassKeeps(s, pass, Some(s.threads[t].target), 0);
      UnpinKeeps(s1, t, Leaving);
      if lease.Some? && ByLease(lease.value) !in s.holders {
        NobodyFetches(s, t);
        LeaseKeeps(DropPin(To(s1, t, Leaving), ByThread(t)), lease.value,
                   s.holders[ByThread(t)].target, s.holders[ByThread(t)].inode);
      }
    }
  }

  lemma BookedKeeps(s: Cache, t: Tid, pass: Pass)
    requires PinsOk(s) && Bookable(s, t) && HeldKept(s.holders, s.files, pass.files)
    ensures PinsOk(Booked(s, t, pass))
  {
  }

  lemma LeavingKeeps(s: Cache, t: Tid)
    requires PinsOk(s) && t in s.threads && !s.threads[t].phase.Hashing?
    ensures PinsOk(To(s, t, Leaving))
  {
  }

  lemma ReserveKeeps(s: Cache, t: Tid, pass: Pass)
    requires PinsOk(s)
    ensures PinsOk(Reserve(s, t, pass))
  {
    if At(s, t) && s.threads[t].phase.Missed? {
      if !Bookable(s, t) {
        LeavingKeeps(s, t);
      } else if Allowed(s, pass, None, s.threads[t].size + META_MAX) {
        PassKeepsHeld(s, pass, None, s.threads[t].size + META_MAX);
        BookedKeeps(s, t, pass);
        PassKeeps(s, pass, None, s.threads[t].size + META_MAX);
        LeavingKeeps(Evicted(s, pass), t);
      }
    }
  }

  function TornFiles(s: Cache, t: Tid, torn: Option<File>): Files
    requires Publishable(s, t)
  {
    if torn.Some? then Rewrite(Replace(s, t), t, torn.value).files else Replace(s, t).files
  }

  lemma TearShape(s: Cache, t: Tid, torn: Option<File>)
    requires Publishable(s, t) && (torn.Some? ==> torn.value.size <= META_MAX)
    ensures var ph := Failed(s.threads[t].phase.staging, true, true, torn.Some?);
            Tear(s, t, torn) == To(s.(files := TornFiles(s, t, torn)), t, ph)
  {
  }

  lemma TornKeeps(s: Cache, t: Tid, files: Files, ph: Phase)
    requires PinsOk(s) && HeldKept(s.holders, s.files, files) && t in s.threads && Plain(s.threads[t].phase, ph)
    ensures PinsOk(To(s.(files := files), t, ph))
  {
  }

  lemma TearKeeps(s: Cache, t: Tid, torn: Option<File>)
    requires PinsOk(s)
    ensures PinsOk(Tear(s, t, torn))
  {
    if Publishable(s, t) && (torn.Some? ==> torn.value.size <= META_MAX) {
      InstallKeepsHeld(s, t, torn);
      TearShape(s, t, torn);
      TornKeeps(s, t, TornFiles(s, t, torn), Failed(s.threads[t].phase.staging, true, true, torn.Some?));
    }
  }

  lemma InstalledPins(s: Cache, t: Tid, sidecar: File)
    requires PinsOk(s) && Publishable(s, t)
    ensures PinsOk(Install(s, t, sidecar))
  {
    InstallKeepsHeld(s, t, Some(sidecar));
    QuietStep(s, Install(s, t, sidecar), t);
  }

  lemma FailedKeeps(s: Cache, t: Tid)
    requires PinsOk(s) && t in s.threads && s.threads[t].phase.Fetching?
    ensures PinsOk(To(s, t, Failed(s.threads[t].phase.staging, true, false, true)))
  {
  }

  lemma PublishKeeps(s: Cache, t: Tid, sidecar: File, pass: Pass, sound: bool, lease: Option<nat>)
    requires LocksOk(s) && PinsOk(s)
    ensures PinsOk(Publish(s, t, sidecar, pass, sound, lease))
  {
    if Publishable(s, t) && Allowed(Install(s, t, sidecar), pass, Some(s.threads[t].target), 0) {
      InstalledPins(s, t, sidecar);
      var s1 := Install(s, t, sidecar);
      PassKeeps(s1, pass, Some(s.threads[t].target), 0);
      FailedKeeps(Evicted(s1, pass), t);
      LeavingKeeps(Evicted(s1, pass), t);
      OthersElsewhere(s, t);
      PublishedLease(s, t, Evicted(s1, pass), lease);
    }
  }

  lemma PublishedLease(s: Cache, t: Tid, s2: Cache, lease: Option<nat>)
    requires t in s.threads && s2.threads == s.threads && s2.holders == s.holders && PinsOk(To(s2, t, Leaving))
    requires forall u :: u in s.threads && u != t && Fetches(s.threads[u].phase) ==> s.threads[u].target != s.threads[t].target
    ensures lease.Some? && ByLease(lease.value) !in s.holders && s.threads[t].target in s2.files ==>
              PinsOk(AddPin(To(s2, t, Leaving), ByLease(lease.value), s.threads[t].target, s2.files[s.threads[t].target].inode))
  {
    var x := s.threads[t].target;
    if lease.Some? && ByLease(lease.value) !in s.holders && x in s2.files {
      LeaseKeeps(To(s2, t, Leaving), lease.value, x, s2.files[x].inode);
    }
  }

  lemma OthersElsewhere(s: Cache, t: Tid)
    requires LocksOk(s) && t in s.threads && Critical(s.threads[t].phase)
    ensures forall u :: u in s.threads && u != t && Fetches(s.threads[u].phase) ==> s.threads[u].target != s.threads[t].target
  {
  }

  lemma CleanupKeeps(s: Cache, t: Tid, refused: set<Path>)
    requires PinsOk(s)
    ensures PinsOk(Cleanup(s, t, refused))
  {
    var s' := Cleanup(s, t, refused);
    if At(s, t) && s.threads[t].phase.Failed? {
      forall h | h in s.holders ensures s.holders[h].target != s.threads[t].target {
        FetcherUnheld(s, t, h);
      }
      assert HeldKept(s.holders, s.files, s'.files);
      QuietStep(s, s', t);
    }
  }

  lemma WriteKeeps(s: Cache, t: Tid, size: nat, inode: nat)
    requires PinsOk(s)
    ensures PinsOk(Write(s, t, size, inode))
  {
  }

  lemma FailKeeps(s: Cache, t: Tid)
    requires PinsOk(s)
    ensures PinsOk(FailFetch(s, t))
  {
  }

  lemma PinStep(s: Cache, a: Action)
    requires LocksOk(s) && PinsOk(s)
    ensures PinsOk(Step(s, a))
  {
    match a
    case Refer(t, target, size) => ReferencePins(s, t, target, size);
    case Take(t) => AcquirePins(s, t);
    case Give(t) => UnlockPins(s, t);
    case Leave(t) => UnreferencePins(s, t);
    case Look(t, fits) => InspectKeeps(s, t, fits);
    case Doubt(t) => DistrustKeeps(s, t);
    case Hand(t, pass, lease) => ServeKeeps(s, t, pass, lease);
    case Book(t, pass) => ReserveKeeps(s, t, pass);
    case Store(t, n, inode) => WriteKeeps(s, t, n, inode);
    case Break(t) => FailKeeps(s, t);
    case Rip(t, torn) => TearKeeps(s, t, torn);
    case Issue(t, sidecar, pass, sound, lease) => PublishKeeps(s, t, sidecar, pass, sound, lease);
    case Clean(t, refused) => CleanupKeeps(s, t, refused);
    case Close(n) => CloseKeeps(s, n);
  }

  /** From an empty runtime over any files, in every interleaving: pin counts are exact, each
      target has one materializer, and every pinned or leased payload whose name is not shaped
      like a sidecar is still the file that was pinned. */
  lemma {:induction false} PinnedStable(s: Cache, log: seq<Action>)
    requires LocksOk(s) && PinsOk(s)
    ensures LocksOk(Play(s, log)) && PinsOk(Play(s, log))
    decreases |log|
  {
    if log == [] {
    } else {
      LockStep(s, log[0]);
      PinStep(s, log[0]);
      PinnedStable(Step(s, log[0]), log[1..]);
    }
  }

  lemma EmptyOk(files: Files, maxBytes: nat)
    ensures LocksOk(Empty(files, maxBytes)) && PinsOk(Empty(files, maxBytes))
  {
  }

  // A lease names the same file for as long as it is open.
  ghost predicate LeaseAs(s: Cache, n: nat, g: Grip) {
    ByLease(n) in s.holders && s.holders[ByLease(n)] == g
  }

  lemma ServeLease(s: Cache, t: Tid, pass: Pass, lease: Option<nat>, n: nat, g: Grip)
    requires LeaseAs(s, n, g)
    ensures LeaseAs(Serve(s, t, pass, lease), n, g)
  {
  }

  lemma PublishLease(s: Cache, t: Tid, sidecar: File, pass: Pass, sound: bool, lease: Option<nat>, n: nat, g: Grip)
    requires LeaseAs(s, n, g)
    ensures LeaseAs(Publish(s, t, sidecar, pass, sound, lease), n, g)
  {
  }

  lemma PinLease(s: Cache, a: Action, n: nat, g: Grip)
    requires LeaseAs(s, n, g) && a != Close(n) && (a.Look? || a.Doubt? || a.Close?)
    ensures LeaseAs(Step(s, a), n, g)
  {
  }

  lemma ReserveHolders(s: Cache, t: Tid, pass: Pass, allowed: bool)
    ensures ReserveIf(s, t, pass, allowed).holders == s.holders
  {
  }

  lemma TearHolders(s: Cache, t: Tid, torn: Option<File>)
    ensures Tear(s, t, torn).holders == s.holders
  {
  }

  lemma QuietLease(s: Cache, a: Action)
    requires a.Refer? || a.Take? || a.Store? || a.Break? || a.Clean? || a.Give? || a.Leave?
    ensures Step(s, a).holders == s.holders
  {
  }

  lemma LeaseFixed(s: Cache, a: Action, n: nat, g: Grip)
    requires LeaseAs(s, n, g) && a != Close(n)
    ensures LeaseAs(Step(s, a), n, g)
  {
    match a
    case Hand(t, pass, lease) => ServeLease(s, t, pass, lease, n, g);
    case Issue(t, sidecar, pass, sound, lease) => PublishLease(s, t, sidecar, pass, sound, lease, n, g);
    case Book(t, pass) =>
      if At(s, t) {
        ReserveHolders(s, t, pass, Allowed(s, pass, None, s.threads[t].size + META_MAX));
      }
    case Rip(t, torn) => TearHolders(s, t, torn);
    case Look(_, _) => PinLease(s, a, n, g);
    case Doubt(_) => PinLease(s, a, n, g);
    case Close(_) => PinLease(s, a, n, g);
    case _ => QuietLease(s, a);
  }

  /** The promise as a lease holder sees it: from the moment a lease exists until it is closed, its
      path holds the very file it was opened on. */
  lemma {:induction false} LeaseStable(s: Cache, log: seq<Action>, n: nat, g: Grip)
    requires LocksOk(s) && PinsOk(s) && LeaseAs(s, n, g) && Steady(g.target)
    requires Close(n) !in log
    ensures g.target in Play(s, log).files && Play(s, log).files[g.target].inode == g.inode
    decreases |log|
  {
    if log == [] {
    } else {
      LockStep(s, log[0]);
      PinStep(s, log[0]);
      LeaseFixed(s, log[0], n, g);
      LeaseStable(Step(s, log[0]), log[1..], n, g);
    }
  }
}

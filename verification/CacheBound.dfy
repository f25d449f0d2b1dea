/**
 The byte bound: once an eviction pass has succeeded, the cache directory never holds more than
 the configured number of bytes, in every interleaving.
 */
module CacheBound {
  import opened Wrappers
  import opened CacheFiles
  import opened CacheProtocol
  import opened CacheLocks
  import opened CachePins

  // A thread whose reservation is still booked.
  predicate Charges(ph: Phase) {
    ph.Fetching? || (ph.Failed? && ph.charged)
  }

  // Publication broke off between the rename and the release of the reservation.
  predicate Torn(ph: Phase) {
    ph.Failed? && ph.replaced && ph.charged
  }

  // Names are new, distinct between threads, and booked exactly while the thread is charged.
  ghost predicate NamesOk(threads: map<Tid, Thread>, reservations: map<Path, nat>, next: nat) {
    && (forall p :: p in reservations ==> p.Download? && p.n < next)
    && (forall t :: t in threads && Fetches(threads[t].phase) ==> threads[t].phase.staging.Download? && threads[t].phase.staging.n < next)
    && (forall t :: t in threads && Charges(threads[t].phase) ==>
          threads[t].phase.staging in reservations && reservations[threads[t].phase.staging] == threads[t].size + META_MAX)
    && (forall t :: t in threads && Fetches(threads[t].phase) && !Charges(threads[t].phase) ==>
          threads[t].phase.staging !in reservations)
    && (forall t, u :: t in threads && u in threads && t != u && Fetches(threads[t].phase) && Fetches(threads[u].phase) ==>
          threads[t].phase.staging != threads[u].phase.staging)
  }

  // What a torn publication left is within its reservation.
  predicate TornFits(th: Thread, files: Files)
    requires Torn(th.phase)
  {
    && th.target.Payload?
    && th.phase.staging !in files
    && (th.target in files ==> files[th.target].size <= th.size)
    && (th.phase.rewrote && Meta(th.target.entry) in files ==> files[Meta(th.target.entry)].size <= META_MAX)
  }

  ghost predicate SizesOk(threads: map<Tid, Thread>, reservations: map<Path, nat>, files: Files) {
    && (forall p :: p in reservations && p in files ==> files[p].size + META_MAX <= reservations[p])
    && (forall t :: t in threads && Torn(threads[t].phase) ==> TornFits(threads[t], files))
  }

  // Files a held reservation already pays for.
  function Covered(threads: map<Tid, Thread>, ts: set<Tid>): set<Path> {
    (set t | t in ts && t in threads && Torn(threads[t].phase) :: threads[t].target)
    + (set t | t in ts && t in threads && Torn(threads[t].phase) && threads[t].phase.rewrote && threads[t].target.Payload?
         :: Meta(threads[t].target.entry))
  }

  function Excused(threads: map<Tid, Thread>, reservations: map<Path, nat>): set<Path> {
    reservations.Keys + Covered(threads, threads.Keys)
  }

  ghost function Charged(s: Cache): nat {
    Bytes(s.files, Excused(s.threads, s.reservations)) + Sum(s.reservations)
  }

  ghost predicate BoundOk(s: Cache) {
    && NamesOk(s.threads, s.reservations, s.next)
    && SizesOk(s.threads, s.reservations, s.files)
    && (s.bounded ==> Charged(s) <= s.maxBytes)
  }

  // ---------------------------------------------------------------- comparing sums

  lemma SumGrow(m: map<Path, nat>, m': map<Path, nat>, p: Path, a: nat)
    requires forall k :: k in m' ==> (k in m && m'[k] <= m[k]) || (k == p && m'[k] <= a)
    ensures Sum(m') <= Sum(m) + a
  {
    if p in m' && m'[p] <= a {
      SumTake(m', p);
      SumAtMost(m' - {p}, m);
    } else {
      SumAtMost(m', m);
    }
  }

  lemma SumGrowTwo(m: map<Path, nat>, m': map<Path, nat>, p: Path, a: nat, q: Path, b: nat)
    requires forall k :: k in m' ==> (k in m && m'[k] <= m[k]) || (k == p && m'[k] <= a) || (k == q && m'[k] <= b)
    ensures Sum(m') <= Sum(m) + a + b
  {
    if q in m' && m'[q] <= b {
      SumTake(m', q);
      SumGrow(m, m' - {q}, p, a);
    } else {
      SumGrow(m, m', p, a);
    }
  }

  // ---------------------------------------------------------------- steps without new bytes

  // Counted bytes only shrink and the reservations are the same.
  lemma ChargedFewer(s: Cache, s': Cache)
    requires s'.reservations == s.reservations
    requires forall p :: p in s'.files && p !in Excused(s'.threads, s'.reservations) ==>
               p in s.files && p !in Excused(s.threads, s.reservations) && s'.files[p].size <= s.files[p].size
    ensures Charged(s') <= Charged(s)
  {
    SumAtMost(Sizes(s'.files, Excused(s'.threads, s'.reservations)), Sizes(s.files, Excused(s.threads, s.reservations)));
  }

  // A pass that succeeded establishes the bound.
  lemma PassBounds(s: Cache, pass: Pass, protected: Option<Path>, reserve: nat)
    requires Allowed(s, pass, protected, reserve) && (s.bounded ==> Charged(s) <= s.maxBytes)
    ensures Evicted(s, pass).bounded ==> Charged(Evicted(s, pass)) <= s.maxBytes
    ensures pass.ok ==> Charged(Evicted(s, pass)) + reserve <= s.maxBytes
  {
    var s' := Evicted(s, pass);
    if pass.ok {
      BytesFewer(pass.files, pass.files, s.reservations.Keys, Excused(s.threads, s.reservations));
    } else {
      ChargedFewer(s, s');
    }
  }

  lemma SizesFewer(threads: map<Tid, Thread>, reservations: map<Path, nat>, files: Files, files': Files)
    requires SizesOk(threads, reservations, files) && Within(files', files)
    ensures SizesOk(threads, reservations, files')
  {
  }

  lemma PassKeepsBound(s: Cache, pass: Pass, protected: Option<Path>, reserve: nat)
    requires BoundOk(s) && Allowed(s, pass, protected, reserve)
    ensures BoundOk(Evicted(s, pass))
  {
    PassBounds(s, pass, protected, reserve);
    SizesFewer(s.threads, s.reservations, s.files, pass.files);
  }

  // ---------------------------------------------------------------- phase changes

  // The thread stays as charged as it was.
  predicate SameCharge(ph: Phase, ph': Phase) {
    && !Torn(ph) && !Torn(ph')
    && (Fetches(ph') <==> Fetches(ph))
    && (Charges(ph') <==> Charges(ph))
    && (Fetches(ph') ==> ph'.staging == ph.staging)
  }

  lemma CoveredSame(threads: map<Tid, Thread>, t: Tid, ph: Phase)
    requires t in threads && !Torn(threads[t].phase) && !Torn(ph)
    ensures var threads' := threads[t := threads[t].(phase := ph)];
            Covered(threads', threads'.Keys) == Covered(threads, threads.Keys)
  {
    var threads' := threads[t := threads[t].(phase := ph)];
    forall u | u in threads && Torn(threads[u].phase) ensures u in threads' && threads'[u] == threads[u] {
    }
    forall u | u in threads' && Torn(threads'[u].phase) ensures u in threads && threads'[u] == threads[u] {
    }
  }

  lemma MoveKeeps(s: Cache, t: Tid, ph: Phase)
    requires BoundOk(s) && t in s.threads && SameCharge(s.threads[t].phase, ph)
    ensures BoundOk(To(s, t, ph))
  {
    CoveredSame(s.threads, t, ph);
    MoveNames(s.threads, s.reservations, s.next, t, ph);
    MoveSizes(s.threads, s.reservations, s.files, t, ph);
  }

  lemma MoveNames(threads: map<Tid, Thread>, reservations: map<Path, nat>, next: nat, t: Tid, ph: Phase)
    requires NamesOk(threads, reservations, next) && t in threads && SameCharge(threads[t].phase, ph)
    ensures NamesOk(threads[t := threads[t].(phase := ph)], reservations, next)
  {
  }

  lemma MoveSizes(threads: map<Tid, Thread>, reservations: map<Path, nat>, files: Files, t: Tid, ph: Phase)
    requires SizesOk(threads, reservations, files) && t in threads && !Torn(ph)
    ensures SizesOk(threads[t := threads[t].(phase := ph)], reservations, files)
  {
  }

  // Pins, holders and locks do not matter to the bound.
  lemma BoundFrame(s: Cache, s': Cache)
    requires BoundOk(s) && s'.threads == s.threads && s'.reservations == s.reservations && s'.files == s.files
    requires s'.next == s.next && s'.bounded == s.bounded && s'.maxBytes == s.maxBytes
    ensures BoundOk(s')
  {
  }

  // ---------------------------------------------------------------- arriving and leaving

  lemma NewcomerKeeps(threads: map<Tid, Thread>, reservations: map<Path, nat>, files: Files, next: nat, t: Tid, th: Thread)
    requires NamesOk(threads, reservations, next) && SizesOk(threads, reservations, files) && t !in threads && th.phase.Waiting?
    ensures NamesOk(threads[t := th], reservations, next + 1) && SizesOk(threads[t := th], reservations, files)
  {
  }

  // Threads that are not torn cover nothing.
  lemma CoveredAlike(threads: map<Tid, Thread>, threads': map<Tid, Thread>)
    requires forall u :: u in threads && Torn(threads[u].phase) ==> u in threads' && threads'[u] == threads[u]
    requires forall u :: u in threads' && Torn(threads'[u].phase) ==> u in threads && threads'[u] == threads[u]
    ensures Covered(threads', threads'.Keys) == Covered(threads, threads.Keys)
  {
  }

  lemma NewcomerBound(s: Cache, t: Tid, th: Thread)
    requires BoundOk(s) && t !in s.threads && th.phase.Waiting?
    ensures BoundOk(s.(threads := s.threads[t := th], next := s.next + 1))
  {
    NewcomerKeeps(s.threads, s.reservations, s.files, s.next, t, th);
    CoveredAlike(s.threads, s.threads[t := th]);
  }

  lemma ReferenceShape(s: Cache, t: Tid, target: Path, size: nat)
    ensures var s' := Reference(s, t, target, size);
            s' == s || (&& t !in s.threads && t in s'.threads && s'.threads[t].phase.Waiting?
                        && s'.threads == s.threads[t := s'.threads[t]] && s'.next == s.next + 1
                        && s'.reservations == s.reservations && s'.files == s.files
                        && s'.bounded == s.bounded && s'.maxBytes == s.maxBytes)
  {
  }

  lemma ReferenceBound(s: Cache, t: Tid, target: Path, size: nat)
    requires BoundOk(s)
    ensures BoundOk(Reference(s, t, target, size))
  {
    var s' := Reference(s, t, target, size);
    ReferenceShape(s, t, target, size);
    if s' != s {
      NewcomerBound(s, t, s'.threads[t]);
      BoundFrame(s.(threads := s.threads[t := s'.threads[t]], next := s.next + 1), s');
    }
  }

  lemma DepartureKeeps(threads: map<Tid, Thread>, reservations: map<Path, nat>, files: Files, next: nat, t: Tid)
    requires NamesOk(threads, reservations, next) && SizesOk(threads, reservations, files)
    ensures NamesOk(threads - {t}, reservations, next) && SizesOk(threads - {t}, reservations, files)
  {
  }

  lemma UnreferenceBound(s: Cache, t: Tid)
    requires BoundOk(s)
    ensures BoundOk(Unreference(s, t))
  {
    var s' := Unreference(s, t);
    if s'.threads != s.threads {
      DepartureKeeps(s.threads, s.reservations, s.files, s.next, t);
      CoveredAlike(s.threads, s.threads - {t});
    }
  }

  lemma OwnerBound(s: Cache, t: Tid, ph: Phase, owner: map<nat, Tid>)
    requires BoundOk(s) && t in s.threads && SameCharge(s.threads[t].phase, ph)
    ensures BoundOk(To(s, t, ph).(owner := owner))
  {
    MoveKeeps(s, t, ph);
    BoundFrame(To(s, t, ph), To(s, t, ph).(owner := owner));
  }

  // ---------------------------------------------------------------- pins and leases

  lemma InspectBound(s: Cache, t: Tid, fits: bool)
    requires BoundOk(s)
    ensures BoundOk(Inspect(s, t, fits))
  {
    if At(s, t) && s.threads[t].phase.Holding? {
      MoveKeeps(s, t, Hashing);
      MoveKeeps(s, t, Missed);
      BoundFrame(if fits && s.threads[t].target in s.files then To(s, t, Hashing) else To(s, t, Missed), Inspect(s, t, fits));
    }
  }

  lemma DistrustBound(s: Cache, t: Tid)
    requires BoundOk(s)
    ensures BoundOk(Distrust(s, t))
  {
    if At(s, t) && s.threads[t].phase.Hashing? && ByThread(t) in s.holders {
      MoveKeeps(s, t, Missed);
      BoundFrame(To(s, t, Missed), Distrust(s, t));
    }
  }

  lemma ServeBound(s: Cache, t: Tid, pass: Pass, lease: Option<nat>)
    requires BoundOk(s)
    ensures BoundOk(Serve(s, t, pass, lease))
  {
    if At(s, t) && s.threads[t].phase.Hashing? && Allowed(s, pass, Some(s.threads[t].target), 0) && Serve(s, t, pass, lease) != s {
      PassKeepsBound(s, pass, Some(s.threads[t].target), 0);
      MoveKeeps(Evicted(s, pass), t, Leaving);
      BoundFrame(To(Evicted(s, pass), t, Leaving), Serve(s, t, pass, lease));
    }
  }

  // ---------------------------------------------------------------- reserving

  lemma BookedCharge(s: Cache, t: Tid, pass: Pass)
    requires Bookable(s, t) && pass.ok && Allowed(s, pass, None, s.threads[t].size + META_MAX)
    ensures Charged(Booked(s, t, pass)) <= s.maxBytes
  {
    var st := StagingOf(s, t);
    var s' := Booked(s, t, pass);
    SumPut(s.reservations, st, s.threads[t].size + META_MAX);
    assert s.reservations - {st} == s.reservations;
    BytesFewer(pass.files, pass.files, s.reservations.Keys, Excused(s'.threads, s'.reservations));
  }

  lemma BookedSizes(threads: map<Tid, Thread>, reservations: map<Path, nat>, files: Files, t: Tid, st: Path, n: nat)
    requires SizesOk(threads, reservations, files) && t in threads && st !in files
    ensures SizesOk(threads[t := threads[t].(phase := Fetching(st))], reservations[st := n], files)
  {
  }

  lemma BookedBound(s: Cache, t: Tid, pass: Pass)
    requires BoundOk(s) && Bookable(s, t) && pass.ok && Allowed(s, pass, None, s.threads[t].size + META_MAX)
    ensures BoundOk(Booked(s, t, pass))
  {
    BookedCharge(s, t, pass);
    BookedNames(s.threads, s.reservations, s.next, t, StagingOf(s, t));
    SizesFewer(s.threads, s.reservations, s.files, pass.files);
    BookedSizes(s.threads, s.reservations, pass.files, t, StagingOf(s, t), s.threads[t].size + META_MAX);
  }

  lemma BookedNames(threads: map<Tid, Thread>, reservations: map<Path, nat>, next: nat, t: Tid, st: Path)
    requires NamesOk(threads, reservations, next) && t in threads && threads[t].phase.Missed? && st.Download? && st.n == next
    ensures NamesOk(threads[t := threads[t].(phase := Fetching(st))], reservations[st := threads[t].size + META_MAX], next + 1)
  {
  }

  lemma ReserveBound(s: Cache, t: Tid, pass: Pass)
    requires BoundOk(s)
    ensures BoundOk(Reserve(s, t, pass))
  {
    if At(s, t) && s.threads[t].phase.Missed? {
      if !Bookable(s, t) {
        MoveKeeps(s, t, Leaving);
      } else if Allowed(s, pass, None, s.threads[t].size + META_MAX) {
        if pass.ok {
          BookedBound(s, t, pass);
        } else {
          PassKeepsBound(s, pass, None, s.threads[t].size + META_MAX);
          MoveKeeps(Evicted(s, pass), t, Leaving);
        }
      }
    }
  }

  // ---------------------------------------------------------------- transfer

  lemma WriteBound(s: Cache, t: Tid, size: nat, inode: nat)
    requires BoundOk(s)
    ensures BoundOk(Write(s, t, size, inode))
  {
    var s' := Write(s, t, size, inode);
    if At(s, t) && s.threads[t].phase.Fetching? && size <= s.threads[t].size {
      ChargedFewer(s, s');
      forall u | u in s.threads && Torn(s.threads[u].phase) ensures TornFits(s'.threads[u], s'.files) {
        assert TornFits(s.threads[u], s.files);
        assert u != t && Fetches(s.threads[u].phase) && Fetches(s.threads[t].phase);
      }
    }
  }

  // ---------------------------------------------------------------- publication

  // Other torn publications still fit after this thread writes its own target and sidecar.
  lemma OthersFit(s: Cache, t: Tid, files': Files)
    requires LocksOk(s) && SizesOk(s.threads, s.reservations, s.files)
    requires t in s.threads && s.threads[t].phase.Fetching? && s.threads[t].target.Payload?
    requires forall p :: p in files' && p != s.threads[t].target && p != Meta(s.threads[t].target.entry) ==> p in s.files && files'[p] == s.files[p]
    requires Meta(s.threads[t].target.entry) in files' ==>
               files'[Meta(s.threads[t].target.entry)].size <= META_MAX
               || (Meta(s.threads[t].target.entry) in s.files
                   && files'[Meta(s.threads[t].target.entry)] == s.files[Meta(s.threads[t].target.entry)])
    ensures forall u :: u in s.threads && u != t && Torn(s.threads[u].phase) && s.threads[u].phase.staging.Download? ==> TornFits(s.threads[u], files')
  {
  }

  lemma CoveredMore(threads: map<Tid, Thread>, t: Tid, ph: Phase)
    requires t in threads && !Torn(threads[t].phase) && Torn(ph) && threads[t].target.Payload?
    ensures var threads' := threads[t := threads[t].(phase := ph)];
            && Covered(threads, threads.Keys) <= Covered(threads', threads'.Keys)
            && threads[t].target in Covered(threads', threads'.Keys)
            && (ph.rewrote ==> Meta(threads[t].target.entry) in Covered(threads', threads'.Keys))
  {
    var threads' := threads[t := threads[t].(phase := ph)];
    forall u | u in threads && Torn(threads[u].phase) ensures u in threads' && threads'[u] == threads[u] {
    }
    assert threads'[t].target == threads[t].target && Torn(threads'[t].phase);
  }

  function TornPhase(s: Cache, t: Tid, torn: Option<File>): Phase
    requires Publishable(s, t)
  {
    Failed(s.threads[t].phase.staging, true, true, torn.Some?)
  }

  lemma TearCharge(s: Cache, t: Tid, torn: Option<File>)
    requires Publishable(s, t) && (torn.None? || torn.value.size <= META_MAX)
    ensures Charged(Tear(s, t, torn)) <= Charged(s)
  {
    CoveredMore(s.threads, t, TornPhase(s, t, torn));
    ChargedFewer(s, Tear(s, t, torn));
  }

  lemma TornSizes(threads: map<Tid, Thread>, reservations: map<Path, nat>, files: Files, t: Tid, ph: Phase)
    requires t in threads && Torn(ph) && TornFits(threads[t].(phase := ph), files)
    requires forall u :: u in threads && u != t && Torn(threads[u].phase) ==> TornFits(threads[u], files)
    requires forall p :: p in reservations && p in files ==> files[p].size + META_MAX <= reservations[p]
    ensures SizesOk(threads[t := threads[t].(phase := ph)], reservations, files)
  {
  }

  lemma TearSizes(s: Cache, t: Tid, torn: Option<File>)
    requires LocksOk(s) && BoundOk(s) && Publishable(s, t) && (torn.None? || torn.value.size <= META_MAX)
    ensures var s' := Tear(s, t, torn); SizesOk(s'.threads, s'.reservations, s'.files)
  {
    TearShape(s, t, torn);
    var files := TornFiles(s, t, torn);
    OthersFit(s, t, files);
    TornSizes(s.threads, s.reservations, files, t, TornPhase(s, t, torn));
  }

  lemma TearBound(s: Cache, t: Tid, torn: Option<File>)
    requires LocksOk(s) && BoundOk(s)
    ensures BoundOk(Tear(s, t, torn))
  {
    if Publishable(s, t) && (torn.None? || torn.value.size <= META_MAX) {
      TearCharge(s, t, torn);
      TearSizes(s, t, torn);
      TornNames(s.threads, s.reservations, s.next, t, TornPhase(s, t, torn));
    }
  }

  lemma TornNames(threads: map<Tid, Thread>, reservations: map<Path, nat>, next: nat, t: Tid, ph: Phase)
    requires NamesOk(threads, reservations, next) && t in threads
    requires threads[t].phase.Fetching? && ph.Failed? && ph.charged && ph.staging == threads[t].phase.staging
    ensures NamesOk(threads[t := threads[t].(phase := ph)], reservations, next)
  {
  }

  // Where a charged thread ends up once its reservation is gone.
  predicate Settled(st: Path, ph: Phase) {
    ph.Leaving? || (ph.Failed? && !ph.charged && ph.staging == st)
  }

  lemma SettledNames(threads: map<Tid, Thread>, reservations: map<Path, nat>, next: nat, t: Tid, ph: Phase)
    requires NamesOk(threads, reservations, next) && t in threads && Fetches(threads[t].phase)
    requires Settled(threads[t].phase.staging, ph)
    ensures NamesOk(threads[t := threads[t].(phase := ph)], reservations - {threads[t].phase.staging}, next)
  {
  }

  lemma InstallCharge(s: Cache, t: Tid, sidecar: File, ph: Phase)
    requires BoundOk(s) && Publishable(s, t) && sidecar.size <= META_MAX && Settled(s.threads[t].phase.staging, ph)
    ensures Charged(To(Install(s, t, sidecar), t, ph)) <= Charged(s)
  {
    var s' := To(Install(s, t, sidecar), t, ph);
    var st := s.threads[t].phase.staging;
    CoveredSame(s.threads, t, ph);
    SumDrop(s.reservations, st);
    SumGrowTwo(Sizes(s.files, Excused(s.threads, s.reservations)), Sizes(s'.files, Excused(s'.threads, s'.reservations)),
               s.threads[t].target, s.threads[t].size, Meta(s.threads[t].target.entry), META_MAX);
  }

  // Without a torn thread t, and with every other torn thread fitting, the sizes are fine.
  lemma SettledSizes(threads: map<Tid, Thread>, reservations: map<Path, nat>, files: Files, t: Tid, ph: Phase)
    requires t in threads && !Torn(ph)
    requires forall u :: u in threads && u != t && Torn(threads[u].phase) ==> TornFits(threads[u], files)
    requires forall p :: p in reservations && p in files ==> files[p].size + META_MAX <= reservations[p]
    ensures SizesOk(threads[t := threads[t].(phase := ph)], reservations, files)
  {
  }

  lemma InstallSizes(s: Cache, t: Tid, sidecar: File, ph: Phase)
    requires LocksOk(s) && BoundOk(s) && Publishable(s, t) && sidecar.size <= META_MAX && !Torn(ph)
    ensures var s' := To(Install(s, t, sidecar), t, ph); SizesOk(s'.threads, s'.reservations, s'.files)
  {
    var s' := Install(s, t, sidecar);
    OthersFit(s, t, s'.files);
    SettledSizes(s.threads, s'.reservations, s'.files, t, ph);
  }

  lemma InstallBound(s: Cache, t: Tid, sidecar: File, ph: Phase)
    requires LocksOk(s) && BoundOk(s) && Publishable(s, t) && sidecar.size <= META_MAX
    requires Settled(s.threads[t].phase.staging, ph)
    ensures BoundOk(To(Install(s, t, sidecar), t, ph))
  {
    InstallCharge(s, t, sidecar, ph);
    SettledNames(s.threads, s.reservations, s.next, t, ph);
    InstallSizes(s, t, sidecar, ph);
  }

  lemma PublishBound(s: Cache, t: Tid, sidecar: File, pass: Pass, sound: bool, lease: Option<nat>)
    requires LocksOk(s) && BoundOk(s)
    ensures BoundOk(Publish(s, t, sidecar, pass, sound, lease))
  {
    if Publishable(s, t) && sidecar.size <= META_MAX && Allowed(Install(s, t, sidecar), pass, Some(s.threads[t].target), 0) {
      PublishedBound(s, t, sidecar, pass, Leaving);
      PublishedBound(s, t, sidecar, pass, Failed(s.threads[t].phase.staging, true, false, true));
      LeasedBound(To(Evicted(Install(s, t, sidecar), pass), t, Leaving), lease, s.threads[t].target);
    }
  }

  lemma LeasedBound(s: Cache, lease: Option<nat>, x: Path)
    requires BoundOk(s)
    ensures lease.Some? && x in s.files ==> BoundOk(AddPin(s, ByLease(lease.value), x, s.files[x].inode))
  {
  }

  lemma PublishedBound(s: Cache, t: Tid, sidecar: File, pass: Pass, ph: Phase)
    requires LocksOk(s) && BoundOk(s) && Publishable(s, t) && sidecar.size <= META_MAX
    requires Allowed(Install(s, t, sidecar), pass, Some(s.threads[t].target), 0)
    requires Settled(s.threads[t].phase.staging, ph)
    ensures BoundOk(To(Evicted(Install(s, t, sidecar), pass), t, ph))
  {
    InstallBound(s, t, sidecar, ph);
    PassKeepsBound(To(Install(s, t, sidecar), t, ph), pass, Some(s.threads[t].target), 0);
  }

  // ---------------------------------------------------------------- cleaning up

  lemma CoveredLess(threads: map<Tid, Thread>, t: Tid, ph: Phase)
    requires t in threads && !Torn(ph) && threads[t].target.Payload?
    ensures var threads' := threads[t := threads[t].(phase := ph)];
            forall p :: p in Covered(threads, threads.Keys) && p !in Covered(threads', threads'.Keys) ==>
              && Torn(threads[t].phase)
              && (p == threads[t].target || (threads[t].phase.rewrote && p == Meta(threads[t].target.entry)))
  {
    var threads' := threads[t := threads[t].(phase := ph)];
    forall u | u in threads && u != t && Torn(threads[u].phase) ensures u in threads' && threads'[u] == threads[u] {
    }
  }

  // What cleaning up counts anew, compared with what was counted before.
  lemma CleanupSizes(s: Cache, t: Tid, refused: set<Path>, p: Path)
    requires BoundOk(s) && At(s, t) && s.threads[t].phase.Failed? && s.threads[t].target.Payload?
    requires p in Sizes(Cleanup(s, t, refused).files, Excused(Cleanup(s, t, refused).threads, Cleanup(s, t, refused).reservations))
    ensures p in s.files && Cleanup(s, t, refused).files[p] == s.files[p]
    ensures p in Excused(s.threads, s.reservations) ==>
              || (p == s.threads[t].phase.staging && s.threads[t].phase.charged)
              || (Torn(s.threads[t].phase) && p == s.threads[t].target)
              || (Torn(s.threads[t].phase) && s.threads[t].phase.rewrote && p == Meta(s.threads[t].target.entry))
  {
    CoveredLess(s.threads, t, Leaving);
  }

  lemma CleanupCharge(s: Cache, t: Tid, refused: set<Path>)
    requires BoundOk(s) && At(s, t) && s.threads[t].phase.Failed? && s.threads[t].target.Payload?
    ensures Charged(Cleanup(s, t, refused)) <= Charged(s)
  {
    var th := s.threads[t];
    var s' := Cleanup(s, t, refused);
    var before, after := Sizes(s.files, Excused(s.threads, s.reservations)), Sizes(s'.files, Excused(s'.threads, s'.reservations));
    SumDrop(s.reservations, th.phase.staging);
    forall p | p in after
      ensures || (p in before && after[p] <= before[p])
              || (!Torn(th.phase) && th.phase.charged && p == th.phase.staging && after[p] <= th.size)
              || (Torn(th.phase) && p == th.target && after[p] <= th.size)
              || (Torn(th.phase) && p == Meta(th.target.entry) && after[p] <= META_MAX)
    {
      CleanupSizes(s, t, refused, p);
      assert Torn(th.phase) ==> TornFits(th, s.files);
    }
    if Torn(th.phase) {
      SumGrowTwo(before, after, th.target, th.size, Meta(th.target.entry), META_MAX);
    } else if th.phase.charged {
      SumGrow(before, after, th.phase.staging, th.size);
    } else {
      SumAtMost(after, before);
    }
  }

  lemma CleanupBound(s: Cache, t: Tid, refused: set<Path>)
    requires BoundOk(s)
    ensures BoundOk(Cleanup(s, t, refused))
  {
    if At(s, t) && s.threads[t].phase.Failed? && s.threads[t].target.Payload? {
      var s' := Cleanup(s, t, refused);
      CleanupCharge(s, t, refused);
      SettledNames(s.threads, s.reservations, s.next, t, Leaving);
      SizesFewer(s.threads, s.reservations, s.files, s'.files);
      MoveSizes(s.threads, s.reservations, s'.files, t, Leaving);
      assert SizesOk(s'.threads, s'.reservations, s'.files);
    }
  }

  // ---------------------------------------------------------------- every run

  lemma OuterBound(s: Cache, a: Action)
    requires BoundOk(s) && Outer(a)
    ensures BoundOk(Step(s, a))
  {
    match a
    case Refer(t, target, size) => ReferenceBound(s, t, target, size);
    case Take(t) =>
      if At(s, t) && s.threads[t].phase.Waiting? {
        OwnerBound(s, t, Holding, s.owner[s.threads[t].lock := t]);
      }
    case Give(t) =>
      if At(s, t) && s.threads[t].phase.Leaving? {
        OwnerBound(s, t, Released, s.owner - {s.threads[t].lock});
      }
    case Leave(t) => UnreferenceBound(s, t);
  }

  lemma BoundStep(s: Cache, a: Action)
    requires LocksOk(s) && BoundOk(s)
    ensures BoundOk(Step(s, a))
  {
    if Outer(a) {
      OuterBound(s, a);
    } else {
      match a
      case Look(t, fits) => InspectBound(s, t, fits);
      case Doubt(t) => DistrustBound(s, t);
      case Hand(t, pass, lease) => ServeBound(s, t, pass, lease);
      case Book(t, pass) => ReserveBound(s, t, pass);
      case Store(t, n, inode) => WriteBound(s, t, n, inode);
      case Break(t) => FailBound(s, t);
      case Rip(t, torn) => TearBound(s, t, torn);
      case Issue(t, sidecar, pass, sound, lease) => PublishBound(s, t, sidecar, pass, sound, lease);
      case Clean(t, refused) => CleanupBound(s, t, refused);
      case Close(n) => BoundFrame(s, CloseLease(s, n));
    }
  }

  lemma FailBound(s: Cache, t: Tid)
    requires BoundOk(s)
    ensures BoundOk(FailFetch(s, t))
  {
    if At(s, t) && s.threads[t].phase.Fetching? {
      MoveKeeps(s, t, Failed(s.threads[t].phase.staging, false, true, false));
    }
  }

  lemma {:induction false} BoundRun(s: Cache, log: seq<Action>)
    requires LocksOk(s) && BoundOk(s)
    ensures LocksOk(Play(s, log)) && BoundOk(Play(s, log))
    decreases |log|
  {
    if log == [] {
    } else {
      LockStep(s, log[0]);
      BoundStep(s, log[0]);
      BoundRun(Step(s, log[0]), log[1..]);
    }
  }
}

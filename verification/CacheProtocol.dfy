/**
 Every interleaving of threads that materialize cache entries: reference-counted entry locks,
 pins, reservations, transfers outside the global lock, publication, failure and lease close.

 One section under the global lock is one step.  An eviction inside a step may leave any files
 that `CacheFiles.Spares` allows, which is what the eviction method is proved to do.
 */
module CacheProtocol {
  import opened Wrappers
  import opened CacheFiles

  type Tid = nat

  datatype Phase =
    | Waiting                     // holds a reference, not yet the lock
    | Holding                     // the one materializer of its target
    | Hashing                     // pinned a candidate, hashing it outside the lock
    | Missed                      // nothing usable is cached
    | Fetching(staging: Path)     // reserved space, transferring outside the lock
    | Failed(staging: Path, replaced: bool, charged: bool, rewrote: bool) // must clean up
    | Leaving                     // done, still holds the lock
    | Released                    // gave the lock back, still holds the reference

  datatype Thread = Thread(target: Path, size: nat, lock: nat, phase: Phase)

  // Who holds a pin: a thread that is hashing, or a lease.
  datatype Holder = ByThread(t: Tid) | ByLease(n: nat)

  datatype Grip = Grip(target: Path, inode: nat)

  datatype Lock = Lock(id: nat, refs: nat)

  datatype Cache = Cache(
    files: Files,
    pins: map<Path, nat>,
    reservations: map<Path, nat>,
    table: map<Path, Lock>,
    owner: map<nat, Tid>,
    threads: map<Tid, Thread>,
    holders: map<Holder, Grip>,
    next: nat,
    maxBytes: nat,
    bounded: bool) // some eviction pass has succeeded

  function To(s: Cache, t: Tid, phase: Phase): Cache
    requires t in s.threads
  {
    s.(threads := s.threads[t := s.threads[t].(phase := phase)])
  }

  predicate At(s: Cache, t: Tid) {
    t in s.threads
  }

  // ---------------------------------------------------------------- locks

  function Reference(s: Cache, t: Tid, target: Path, size: nat): Cache {
    if t in s.threads || !target.Payload? || size + META_MAX > s.maxBytes then s
    else
      var lock := if target in s.table then s.table[target] else Lock(s.next, 0);
      s.(table := s.table[target := lock.(refs := lock.refs + 1)],
         threads := s.threads[t := Thread(target, size, lock.id, Waiting)],
         next := s.next + 1)
  }

  function Acquire(s: Cache, t: Tid): Cache {
    if !At(s, t) || !s.threads[t].phase.Waiting? || s.threads[t].lock in s.owner then s
    else To(s, t, Holding).(owner := s.owner[s.threads[t].lock := t])
  }

  function Unlock(s: Cache, t: Tid): Cache {
    if !At(s, t) || !s.threads[t].phase.Leaving? then s
    else To(s, t, Released).(owner := s.owner - {s.threads[t].lock})
  }

  // The table must still hold this thread's lock; the source raises otherwise.
  predicate LockUnchanged(s: Cache, t: Tid)
    requires At(s, t)
  {
    s.threads[t].target in s.table && s.table[s.threads[t].target].id == s.threads[t].lock
  }

  function Unreference(s: Cache, t: Tid): Cache {
    if !At(s, t) || !s.threads[t].phase.Released? || !LockUnchanged(s, t) then s
    else
      var target := s.threads[t].target;
      var lock := s.table[target];
      s.(threads := s.threads - {t},
         table := if lock.refs > 1 then s.table[target := lock.(refs := lock.refs - 1)] else s.table - {target})
  }

  // ---------------------------------------------------------------- pins

  function Count(pins: map<Path, nat>, p: Path): nat {
    if p in pins then pins[p] else 0
  }

  function AddPin(s: Cache, h: Holder, target: Path, inode: nat): Cache {
    s.(pins := s.pins[target := Count(s.pins, target) + 1], holders := s.holders[h := Grip(target, inode)])
  }

  function DropPin(s: Cache, h: Holder): Cache
    requires h in s.holders
  {
    var target := s.holders[h].target;
    s.(pins := if Count(s.pins, target) > 1 then s.pins[target := Count(s.pins, target) - 1] else s.pins - {target},
       holders := s.holders - {h})
  }

  // First look at the cached payload; `fits` is whether the sidecar and sizes agree.
  function Inspect(s: Cache, t: Tid, fits: bool): Cache {
    if !At(s, t) || !s.threads[t].phase.Holding? then s
    else if fits && s.threads[t].target in s.files then
      AddPin(To(s, t, Hashing), ByThread(t), s.threads[t].target, s.files[s.threads[t].target].inode)
    else To(s, t, Missed)
  }

  // The digest or the second look disagrees.
  function Distrust(s: Cache, t: Tid): Cache {
    if !At(s, t) || !s.threads[t].phase.Hashing? || ByThread(t) !in s.holders then s
    else DropPin(To(s, t, Missed), ByThread(t))
  }

  function CloseLease(s: Cache, n: nat): Cache {
    if ByLease(n) !in s.holders then s else DropPin(s, ByLease(n))
  }

  // ---------------------------------------------------------------- evictions inside a step

  // What one pass left behind, and whether it succeeded.
  datatype Pass = Pass(files: Files, ok: bool)

  ghost predicate Allowed(s: Cache, pass: Pass, protected: Option<Path>, reserve: nat) {
    && Spares(s.files, pass.files, s.pins, s.reservations.Keys, protected)
    && (pass.ok ==> Bytes(pass.files, s.reservations.Keys) + Sum(s.reservations) + reserve <= s.maxBytes)
  }

  function Evicted(s: Cache, pass: Pass): Cache {
    s.(files := pass.files, bounded := s.bounded || pass.ok)
  }

  // The verified payload is handed out, as a lease or as a bare path.
  function ServeIf(s: Cache, t: Tid, pass: Pass, lease: Option<nat>, allowed: bool): Cache {
    if !At(s, t) || !s.threads[t].phase.Hashing? || ByThread(t) !in s.holders then s
    else if !allowed then s
    else if lease.Some? && ByLease(lease.value) in s.holders then s
    else
      var s1 := To(Evicted(s, pass), t, Leaving);
      var dropped := DropPin(s1, ByThread(t));
      if pass.ok && lease.Some?
      then AddPin(dropped, ByLease(lease.value), s.holders[ByThread(t)].target, s.holders[ByThread(t)].inode)
      else dropped
  }

  ghost function Serve(s: Cache, t: Tid, pass: Pass, lease: Option<nat>): Cache {
    if At(s, t) then ServeIf(s, t, pass, lease, Allowed(s, pass, Some(s.threads[t].target), 0)) else s
  }

  function StagingOf(s: Cache, t: Tid): Path
    requires At(s, t) && s.threads[t].target.Payload?
  {
    Download(s.threads[t].target.entry, s.next)
  }

  function Booked(s: Cache, t: Tid, pass: Pass): Cache
    requires At(s, t) && s.threads[t].target.Payload?
  {
    To(Evicted(s, pass), t, Fetching(StagingOf(s, t))).(
      reservations := s.reservations[StagingOf(s, t) := s.threads[t].size + META_MAX],
      next := s.next + 1)
  }

  // A new reservation needs an unpinned target and a staging name nobody uses.
  predicate Bookable(s: Cache, t: Tid) {
    && At(s, t) && s.threads[t].phase.Missed? && s.threads[t].target.Payload?
    && Count(s.pins, s.threads[t].target) == 0
    && StagingOf(s, t) !in s.files && StagingOf(s, t) !in s.reservations
  }

  // Checks the pins, makes room and reserves, or gives up.
  function ReserveIf(s: Cache, t: Tid, pass: Pass, allowed: bool): Cache {
    if !At(s, t) || !s.threads[t].phase.Missed? then s
    else if !Bookable(s, t) then To(s, t, Leaving)
    else if !allowed then s
    else if pass.ok then Booked(s, t, pass)
    else To(Evicted(s, pass), t, Leaving)
  }

  ghost function Reserve(s: Cache, t: Tid, pass: Pass): Cache {
    if At(s, t) then ReserveIf(s, t, pass, Allowed(s, pass, None, s.threads[t].size + META_MAX)) else s
  }

  // ---------------------------------------------------------------- transfer and publication

  // The transfer writes no more than the declared size.
  function Write(s: Cache, t: Tid, size: nat, inode: nat): Cache {
    if !At(s, t) || !s.threads[t].phase.Fetching? || size > s.threads[t].size then s
    else s.(files := s.files[s.threads[t].phase.staging := File(inode, size, 0, None)])
  }

  function FailFetch(s: Cache, t: Tid): Cache {
    if !At(s, t) || !s.threads[t].phase.Fetching? then s
    else To(s, t, Failed(s.threads[t].phase.staging, false, true, false))
  }

  predicate Publishable(s: Cache, t: Tid) {
    && At(s, t) && s.threads[t].phase.Fetching? && s.threads[t].target.Payload?
    && s.threads[t].phase.staging in s.files
    && s.files[s.threads[t].phase.staging].size == s.threads[t].size
  }

  function Replace(s: Cache, t: Tid): Cache
    requires Publishable(s, t)
  {
    var staging := s.threads[t].phase.staging;
    s.(files := (s.files - {staging})[s.threads[t].target := s.files[staging]])
  }

  function Rewrite(s: Cache, t: Tid, sidecar: File): Cache
    requires At(s, t) && s.threads[t].target.Payload?
  {
    s.(files := s.files[Meta(s.threads[t].target.entry) := sidecar])
  }

  // Publication breaks off after the rename, with the reservation still held.
  function Tear(s: Cache, t: Tid, sidecar: Option<File>): Cache {
    if !Publishable(s, t) || (sidecar.Some? && sidecar.value.size > META_MAX) then s
    else
      var s1 := Replace(s, t);
      var s2 := if sidecar.Some? then Rewrite(s1, t, sidecar.value) else s1;
      To(s2, t, Failed(s.threads[t].phase.staging, true, true, sidecar.Some?))
  }

  // Publication up to releasing the reservation.
  function Install(s: Cache, t: Tid, sidecar: File): Cache
    requires Publishable(s, t)
  {
    Rewrite(Replace(s, t), t, sidecar).(reservations := s.reservations - {s.threads[t].phase.staging})
  }

  // The whole of publication; `sound` is whether the last check of the hierarchy passed.
  function PublishIf(s: Cache, t: Tid, sidecar: File, pass: Pass, sound: bool, lease: Option<nat>, allowed: bool): Cache {
    if !Publishable(s, t) || sidecar.size > META_MAX then s
    else if lease.Some? && ByLease(lease.value) in s.holders then s
    else
      var s1 := Install(s, t, sidecar);
      var target := s.threads[t].target;
      if !allowed then s
      else
        var s2 := Evicted(s1, pass);
        if !pass.ok || !sound || target !in s2.files
        then To(s2, t, Failed(s.threads[t].phase.staging, true, false, true))
        else
          var s3 := To(s2, t, Leaving);
          if lease.Some? then AddPin(s3, ByLease(lease.value), target, s2.files[target].inode) else s3
  }

  ghost function Publish(s: Cache, t: Tid, sidecar: File, pass: Pass, sound: bool, lease: Option<nat>): Cache {
    if Publishable(s, t)
    then PublishIf(s, t, sidecar, pass, sound, lease, Allowed(Install(s, t, sidecar), pass, Some(s.threads[t].target), 0))
    else s
  }

  // Removal of a file may be refused; `refused` are those.
  function Without(files: Files, gone: set<Path>, refused: set<Path>): Files {
    files - (gone - refused)
  }

  function Cleanup(s: Cache, t: Tid, refused: set<Path>): Cache {
    if !At(s, t) || !s.threads[t].phase.Failed? || !s.threads[t].target.Payload? then s
    else
      var th := s.threads[t];
      var gone := {th.phase.staging} + if th.phase.replaced then {th.target, Meta(th.target.entry)} else {};
      To(s, t, Leaving).(files := Without(s.files, gone, refused), reservations := s.reservations - {th.phase.staging})
  }

  // ---------------------------------------------------------------- runs

  datatype Action =
    | Refer(t: Tid, target: Path, size: nat)
    | Take(t: Tid)
    | Look(t: Tid, fits: bool)
    | Doubt(t: Tid)
    | Hand(t: Tid, pass: Pass, lease: Option<nat>)
    | Book(t: Tid, pass: Pass)
    | Store(t: Tid, bytes: nat, inode: nat)
    | Break(t: Tid)
    | Rip(t: Tid, torn: Option<File>)
    | Issue(t: Tid, sidecar: File, pass: Pass, sound: bool, lease: Option<nat>)
    | Clean(t: Tid, refused: set<Path>)
    | Give(t: Tid)
    | Leave(t: Tid)
    | Close(n: nat)

  ghost function Step(s: Cache, a: Action): Cache {
    match a
    case Refer(t, target, size) => Reference(s, t, target, size)
    case Take(t) => Acquire(s, t)
    case Look(t, fits) => Inspect(s, t, fits)
    case Doubt(t) => Distrust(s, t)
    case Hand(t, pass, lease) => Serve(s, t, pass, lease)
    case Book(t, pass) => Reserve(s, t, pass)
    case Store(t, n, inode) => Write(s, t, n, inode)
    case Break(t) => FailFetch(s, t)
    case Rip(t, torn) => Tear(s, t, torn)
    case Issue(t, sidecar, pass, sound, lease) => Publish(s, t, sidecar, pass, sound, lease)
    case Clean(t, refused) => Cleanup(s, t, refused)
    case Give(t) => Unlock(s, t)
    case Leave(t) => Unreference(s, t)
    case Close(n) => CloseLease(s, n)
  }

  ghost function Play(s: Cache, log: seq<Action>): Cache
    decreases |log|
  {
    if log == [] then s else Play(Step(s, log[0]), log[1..])
  }

  function Empty(files: Files, maxBytes: nat): Cache {
    Cache(files, map[], map[], map[], map[], map[], map[], 0, maxBytes, false)
  }
}

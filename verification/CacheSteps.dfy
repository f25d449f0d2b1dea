/**
 What the sections of materializing bring about: which thread is where, which space is reserved, who
 holds which file, and which files there are, told by position in the run.
 */
module CacheSteps {
  import opened Wrappers
  import opened Histories
  import opened CacheFiles
  import opened CacheProtocol

  datatype Fact =
    | Is(t: Tid, target: Path, size: nat, phase: Phase)
    | Reserved(path: Path, bytes: nat)
    | Grips(holder: Holder, target: Path, inode: nat)
    | There(path: Path, file: File)

  predicate Holds(s: Cache, f: Fact) {
    match f
    case Is(t, target, size, phase) =>
      t in s.threads && s.threads[t].target == target && s.threads[t].size == size && s.threads[t].phase == phase
    case Reserved(p, bytes) => p in s.reservations && s.reservations[p] == bytes
    case Grips(h, target, inode) => h in s.holders && s.holders[h] == Grip(target, inode)
    case There(p, file) => p in s.files && s.files[p] == file
  }

  // ---------------------------------------------------------------- when a section does something

  predicate Enters(s: Cache, a: Action, t: Tid) {
    a.Refer? && a.t == t && t !in s.threads && a.target.Payload? && a.size + 4096 <= s.maxBytes
  }

  predicate In(s: Cache, t: Tid, phase: Phase) {
    t in s.threads && s.threads[t].phase == phase
  }

  predicate LeaseFree(s: Cache, lease: Option<nat>) {
    lease.None? || ByLease(lease.value) !in s.holders
  }

  // The verified payload is handed out, or would be had the pass succeeded.
  predicate Hands(s: Cache, a: Action, t: Tid) {
    a.Hand? && a.t == t && In(s, t, Hashing) && ByThread(t) in s.holders && LeaseFree(s, a.lease)
  }

  // Nobody holds the payload, and the staging name is new.
  predicate CanBook(s: Cache, t: Tid) {
    && In(s, t, Missed) && s.threads[t].target.Payload?
    && !(s.threads[t].target in s.pins && s.pins[s.threads[t].target] > 0)
    && Download(s.threads[t].target.entry, s.next) !in s.files.Keys + s.reservations.Keys
  }

  predicate Books(s: Cache, a: Action, t: Tid) {
    a.Book? && a.t == t && CanBook(s, t)
  }

  // A whole transfer of the declared size is waiting under its staging name.
  predicate Complete(s: Cache, t: Tid) {
    && t in s.threads && s.threads[t].phase.Fetching? && s.threads[t].target.Payload?
    && s.threads[t].phase.staging in s.files && s.files[s.threads[t].phase.staging].size == s.threads[t].size
  }

  predicate Rips(s: Cache, a: Action, t: Tid) {
    a.Rip? && a.t == t && Complete(s, t) && (a.torn.Some? ==> a.torn.value.size <= 4096)
  }

  // The files once the payload and its sidecar are in place.
  function InPlace(s: Cache, t: Tid, sidecar: Option<File>): Files
    requires Complete(s, t)
  {
    var th := s.threads[t];
    var files := (s.files - {th.phase.staging})[th.target := s.files[th.phase.staging]];
    if sidecar.Some? then files[Meta(th.target.entry) := sidecar.value] else files
  }

  // Publication goes through up to its pass.
  predicate Issues(s: Cache, a: Action, t: Tid) {
    a.Issue? && a.t == t && Complete(s, t) && a.sidecar.size <= 4096 && LeaseFree(s, a.lease)
  }

  predicate Succeeds(s: Cache, a: Action, t: Tid) {
    Issues(s, a, t) && a.pass.ok && a.sound && s.threads[t].target in a.pass.files
  }

  predicate Cleans(s: Cache, a: Action, t: Tid) {
    a.Clean? && a.t == t && t in s.threads && s.threads[t].phase.Failed? && s.threads[t].target.Payload?
  }

  predicate Leaves(s: Cache, a: Action, t: Tid) {
    && a == Leave(t) && In(s, t, Released)
    && s.threads[t].target in s.table && s.table[s.threads[t].target].id == s.threads[t].lock
  }

  // The section's eviction pass is one the cache can make; a section without one needs none.
  ghost predicate Granted(s: Cache, a: Action) {
    match a
    case Hand(t, pass, lease) => t in s.threads && Allowed(s, pass, Some(s.threads[t].target), 0)
    case Book(t, pass) => t in s.threads && Allowed(s, pass, None, s.threads[t].size + 4096)
    case Issue(t, sidecar, pass, sound, lease) =>
      Complete(s, t) &&
      var published := s.(files := InPlace(s, t, Some(sidecar)), reservations := s.reservations - {s.threads[t].phase.staging});
      Allowed(published, pass, Some(s.threads[t].target), 0)
    case _ => true
  }

  // ---------------------------------------------------------------- the phase diagram

  // The phase a section takes its thread to, if any.
  function Next(s: Cache, a: Action): Option<Phase> {
    match a
    case Refer(t, target, size) => if Enters(s, a, t) then Some(Waiting) else None
    case Take(t) => if In(s, t, Waiting) && s.threads[t].lock !in s.owner then Some(Holding) else None
    case Look(t, fits) =>
      if In(s, t, Holding) then Some(if fits && s.threads[t].target in s.files then Hashing else Missed) else None
    case Doubt(t) => if In(s, t, Hashing) && ByThread(t) in s.holders then Some(Missed) else None
    case Hand(t, pass, lease) => if Hands(s, a, t) then Some(Leaving) else None
    case Book(t, pass) =>
      if !In(s, t, Missed) then None
      else if CanBook(s, t) && pass.ok then Some(Fetching(Download(s.threads[t].target.entry, s.next)))
      else Some(Leaving)
    case Store(t, bytes, inode) => None
    case Break(t) =>
      if t in s.threads && s.threads[t].phase.Fetching? then Some(Failed(s.threads[t].phase.staging, false, true, false)) else None
    case Rip(t, torn) => if Rips(s, a, t) then Some(Failed(s.threads[t].phase.staging, true, true, torn.Some?)) else None
    case Issue(t, sidecar, pass, sound, lease) =>
      if !Issues(s, a, t) then None
      else if Succeeds(s, a, t) then Some(Leaving)
      else Some(Failed(s.threads[t].phase.staging, true, false, true))
    case Clean(t, refused) => if Cleans(s, a, t) then Some(Leaving) else None
    case Give(t) => if In(s, t, Leaving) then Some(Released) else None
    case Leave(t) => None
    case Close(n) => None
  }

  // The section takes the thread there: a new one with what it asks for, another with what it asked for.
  predicate Reaches(s: Cache, a: Action, t: Tid, target: Path, size: nat, phase: Phase) {
    && !a.Close? && a.t == t && Next(s, a) == Some(phase)
    && if a.Refer? then a.target == target && a.size == size
       else t in s.threads && s.threads[t].target == target && s.threads[t].size == size
  }

  predicate MovesOn(s: Cache, a: Action, t: Tid) {
    !a.Close? && a.t == t && (Next(s, a).Some? || Leaves(s, a, t))
  }

  // ---------------------------------------------------------------- what makes and ends a fact

  predicate MakesGrip(s: Cache, a: Action, h: Holder, g: Grip) {
    match h
    case ByThread(t) =>
      && a == Look(t, true) && In(s, t, Holding) && s.threads[t].target in s.files
      && g == Grip(s.threads[t].target, s.files[s.threads[t].target].inode)
    case ByLease(n) =>
      || (a.Hand? && Hands(s, a, a.t) && a.pass.ok && a.lease == Some(n) && g == s.holders[ByThread(a.t)])
      || (a.Issue? && Succeeds(s, a, a.t) && a.lease == Some(n)
          && g == Grip(s.threads[a.t].target, a.pass.files[s.threads[a.t].target].inode))
  }

  predicate Drops(s: Cache, a: Action, h: Holder) {
    match h
    case ByThread(t) =>
      || (a == Look(t, true) && In(s, t, Holding) && s.threads[t].target in s.files)
      || (a == Doubt(t) && In(s, t, Hashing))
      || Hands(s, a, t)
    case ByLease(n) => a == Close(n)
  }

  predicate MakesFile(s: Cache, a: Action, p: Path, file: File) {
    || (a.Store? && a.t in s.threads && s.threads[a.t].phase == Fetching(p) && a.bytes <= s.threads[a.t].size
        && file == CacheFiles.File(a.inode, a.bytes, 0, None))
    || (a.Rip? && Rips(s, a, a.t) && p in InPlace(s, a.t, a.torn) && InPlace(s, a.t, a.torn)[p] == file)
    || (a.Issue? && Issues(s, a, a.t) && p in a.pass.files && p in InPlace(s, a.t, Some(a.sidecar)) && a.pass.files[p] == file)
  }

  // Replaced, renamed, evicted or cleaned up.
  predicate EndsFile(s: Cache, a: Action, p: Path) {
    || (a.Store? && a.t in s.threads && s.threads[a.t].phase == Fetching(p) && a.bytes <= s.threads[a.t].size)
    || (a.Rip? && Rips(s, a, a.t))
    || (a.Issue? && Issues(s, a, a.t))
    || (((a.Hand? && Hands(s, a, a.t)) || (a.Book? && Books(s, a, a.t))) && p !in a.pass.files)
    || (a.Clean? && Cleans(s, a, a.t) && p !in a.refused
        && (p == s.threads[a.t].phase.staging
            || (s.threads[a.t].phase.replaced && (p == s.threads[a.t].target || p == Meta(s.threads[a.t].target.entry)))))
  }

  predicate Makes(s: Cache, a: Action, f: Fact) {
    match f
    case Is(t, target, size, phase) => Reaches(s, a, t, target, size, phase)
    case Reserved(p, bytes) =>
      a.Book? && Books(s, a, a.t) && a.pass.ok && p == Download(s.threads[a.t].target.entry, s.next) && bytes == s.threads[a.t].size + 4096
    case Grips(h, target, inode) => MakesGrip(s, a, h, Grip(target, inode))
    case There(p, file) => MakesFile(s, a, p, file)
  }

  predicate Unmakes(s: Cache, a: Action, f: Fact) {
    match f
    case Is(t, target, size, phase) => MovesOn(s, a, t)
    case Reserved(p, bytes) =>
      ((a.Issue? && Issues(s, a, a.t)) || (a.Clean? && Cleans(s, a, a.t))) && p == s.threads[a.t].phase.staging
    case Grips(h, target, inode) => Drops(s, a, h)
    case There(p, file) => EndsFile(s, a, p)
  }

  // ---------------------------------------------------------------- one section

  // A section whose pass is granted or not.
  function StepIf(s: Cache, a: Action, granted: bool): Cache {
    match a
    case Refer(t, target, size) => Reference(s, t, target, size)
    case Take(t) => Acquire(s, t)
    case Look(t, fits) => Inspect(s, t, fits)
    case Doubt(t) => Distrust(s, t)
    case Hand(t, pass, lease) => ServeIf(s, t, pass, lease, granted)
    case Book(t, pass) => ReserveIf(s, t, pass, granted)
    case Store(t, n, inode) => Write(s, t, n, inode)
    case Break(t) => FailFetch(s, t)
    case Rip(t, torn) => Tear(s, t, torn)
    case Issue(t, sidecar, pass, sound, lease) => PublishIf(s, t, sidecar, pass, sound, lease, granted)
    case Clean(t, refused) => Cleanup(s, t, refused)
    case Give(t) => Unlock(s, t)
    case Leave(t) => Unreference(s, t)
    case Close(n) => CloseLease(s, n)
  }

  // A section that finds no room to book leaves whatever its pass says.
  ghost predicate Happens(s: Cache, a: Action) {
    Granted(s, a) || (a.Book? && !CanBook(s, a.t))
  }

  lemma StepIs(s: Cache, a: Action)
    ensures Step(s, a) == if Happens(s, a) then StepIf(s, a, true) else s
  {
  }

  // What a pass leaves was there before it.
  ghost predicate PassInside(s: Cache, a: Action) {
    match a
    case Hand(t, pass, lease) => Within(pass.files, s.files)
    case Book(t, pass) => CanBook(s, t) ==> Within(pass.files, s.files)
    case Issue(t, sidecar, pass, sound, lease) => Complete(s, t) ==> Within(pass.files, InPlace(s, t, Some(sidecar)))
    case _ => true
  }

  lemma HappensInside(s: Cache, a: Action)
    requires Happens(s, a)
    ensures PassInside(s, a)
  {
  }

  ghost predicate Exact(s: Cache, a: Action, s': Cache, f: Fact) {
    Holds(s', f) <==> Makes(s, a, f) || (Holds(s, f) && !Unmakes(s, a, f))
  }
}

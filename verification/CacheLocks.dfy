/**
 Reference-counted entry locks give each target at most one materializer, in every interleaving.
 */
module CacheLocks {
  import opened Wrappers
  import opened CacheFiles
  import opened CacheProtocol

  // Phases between acquiring and releasing the entry lock.
  predicate Critical(ph: Phase) {
    !ph.Waiting? && !ph.Released?
  }

  function Users(threads: map<Tid, Thread>, target: Path): set<Tid> {
    set t | t in threads && threads[t].target == target
  }

  /** Every thread's lock is the one in the table, the count is the number of threads using the
      target, and whoever is between acquire and release owns the lock. */
  ghost predicate LocksOk(s: Cache) {
    && (forall t :: t in s.threads ==> LockUnchanged(s, t))
    && (forall x :: x in s.table ==> s.table[x].refs == |Users(s.threads, x)|)
    && (forall t :: t in s.threads && Critical(s.threads[t].phase) ==>
          s.threads[t].lock in s.owner && s.owner[s.threads[t].lock] == t)
  }

  // One materializer per target.
  lemma Exclusive(s: Cache, t: Tid, u: Tid)
    requires LocksOk(s) && t in s.threads && u in s.threads
    requires Critical(s.threads[t].phase) && Critical(s.threads[u].phase)
    requires s.threads[t].target == s.threads[u].target
    ensures t == u
  {
  }

  // A step inside the critical section of `t`.
  predicate Inside(s: Cache, s': Cache, t: Tid) {
    && s'.table == s.table && s'.owner == s.owner
    && (s'.threads == s.threads
        || (t in s.threads && t in s'.threads && Critical(s.threads[t].phase) && Critical(s'.threads[t].phase)
            && s'.threads == s.threads[t := s.threads[t].(phase := s'.threads[t].phase)]))
  }

  lemma UsersSame(s: Cache, s': Cache, t: Tid, x: Path)
    requires Inside(s, s', t)
    ensures Users(s'.threads, x) == Users(s.threads, x)
  {
  }

  lemma InsideKeeps(s: Cache, s': Cache, t: Tid)
    requires LocksOk(s) && Inside(s, s', t)
    ensures LocksOk(s')
  {
    forall x | x in s'.table ensures s'.table[x].refs == |Users(s'.threads, x)| {
      UsersSame(s, s', t, x);
    }
    forall u | u in s'.threads ensures LockUnchanged(s', u) {
      assert LockUnchanged(s, u);
    }
  }

  lemma NoUsers(s: Cache, x: Path)
    requires LocksOk(s) && x !in s.table
    ensures Users(s.threads, x) == {}
  {
  }

  lemma UsersAdd(threads: map<Tid, Thread>, t: Tid, th: Thread, x: Path)
    requires t !in threads
    ensures Users(threads[t := th], x) == if th.target == x then Users(threads, x) + {t} else Users(threads, x)
    ensures |Users(threads[t := th], x)| == if th.target == x then |Users(threads, x)| + 1 else |Users(threads, x)|
  {
  }

  lemma ReferenceUsers(s: Cache, t: Tid, target: Path, size: nat, x: Path)
    requires LocksOk(s) && x in Reference(s, t, target, size).table
    ensures var s' := Reference(s, t, target, size); s'.table[x].refs == |Users(s'.threads, x)|
  {
    var s' := Reference(s, t, target, size);
    if t !in s.threads && t in s'.threads {
      UsersAdd(s.threads, t, s'.threads[t], x);
      if target !in s.table {
        NoUsers(s, target);
      }
    }
  }

  lemma ReferenceLocks(s: Cache, t: Tid, target: Path, size: nat, u: Tid)
    requires LocksOk(s) && u in Reference(s, t, target, size).threads
    ensures LockUnchanged(Reference(s, t, target, size), u)
  {
  }

  lemma ReferenceKeeps(s: Cache, t: Tid, target: Path, size: nat)
    requires LocksOk(s)
    ensures LocksOk(Reference(s, t, target, size))
  {
    var s' := Reference(s, t, target, size);
    forall x | x in s'.table ensures s'.table[x].refs == |Users(s'.threads, x)| {
      ReferenceUsers(s, t, target, size, x);
    }
    forall u | u in s'.threads ensures LockUnchanged(s', u) {
      ReferenceLocks(s, t, target, size, u);
    }
  }

  lemma AcquireKeeps(s: Cache, t: Tid)
    requires LocksOk(s)
    ensures LocksOk(Acquire(s, t))
  {
    var s' := Acquire(s, t);
    if s' != s {
      forall x ensures Users(s'.threads, x) == Users(s.threads, x) {
      }
      forall u | u in s'.threads ensures LockUnchanged(s', u) {
        assert LockUnchanged(s, u);
      }
    }
  }

  lemma UnlockKeeps(s: Cache, t: Tid)
    requires LocksOk(s)
    ensures LocksOk(Unlock(s, t))
  {
    var s' := Unlock(s, t);
    if s' != s {
      forall x ensures Users(s'.threads, x) == Users(s.threads, x) {
      }
      forall u | u in s'.threads ensures LockUnchanged(s', u) {
        assert LockUnchanged(s, u);
      }
    }
  }

  lemma OneUser(users: set<Tid>, t: Tid)
    requires t in users && |users| == 1
    ensures users == {t}
  {
    assert users == {t} + (users - {t});
  }

  /** Dropping a reference always finds the thread's own lock, so the identity check never fails. */
  lemma UnreferenceKeeps(s: Cache, t: Tid)
    requires LocksOk(s)
    ensures LocksOk(Unreference(s, t))
    ensures t in s.threads && s.threads[t].phase.Released? ==> t !in Unreference(s, t).threads
  {
    var s' := Unreference(s, t);
    if t in s.threads && s.threads[t].phase.Released? {
      assert LockUnchanged(s, t);
      var target := s.threads[t].target;
      var users := Users(s.threads, target);
      assert t in users;
      assert Users(s'.threads, target) == users - {t};
      if |users| == 1 {
        OneUser(users, t);
      } else {
        assert |users| == |users - {t}| + 1;
      }
      forall x | x in s'.table ensures s'.table[x].refs == |Users(s'.threads, x)| {
        if x != target {
          assert Users(s'.threads, x) == Users(s.threads, x);
        }
      }
      forall u | u in s'.threads ensures LockUnchanged(s', u) {
        assert LockUnchanged(s, u);
        assert s.threads[u].target == target ==> u in users;
      }
    }
  }

  predicate Outer(a: Action) {
    a.Refer? || a.Take? || a.Give? || a.Leave?
  }

  function Actor(a: Action): Tid {
    if a.Close? then 0 else a.t
  }

  lemma InspectInside(s: Cache, t: Tid, fits: bool)
    ensures Inside(s, Inspect(s, t, fits), t)
  {
  }

  lemma DistrustInside(s: Cache, t: Tid)
    ensures Inside(s, Distrust(s, t), t)
  {
  }

  lemma ServeInside(s: Cache, t: Tid, pass: Pass, lease: Option<nat>)
    ensures Inside(s, Serve(s, t, pass, lease), t)
  {
  }

  lemma ToInside(s: Cache, s': Cache, t: Tid, ph: Phase)
    requires At(s, t) && Critical(s.threads[t].phase) && Critical(ph)
    requires s'.threads == s.threads && s'.table == s.table && s'.owner == s.owner
    ensures Inside(s, To(s', t, ph), t)
  {
  }

  lemma ReserveInside(s: Cache, t: Tid, pass: Pass)
    ensures Inside(s, Reserve(s, t, pass), t)
  {
    if At(s, t) && s.threads[t].phase.Missed? {
      if Bookable(s, t) {
        ToInside(s, Evicted(s, pass), t, Fetching(StagingOf(s, t)));
        ToInside(s, Evicted(s, pass), t, Leaving);
      } else {
        ToInside(s, s, t, Leaving);
      }
    }
  }

  lemma FailInside(s: Cache, t: Tid)
    ensures Inside(s, FailFetch(s, t), t)
  {
  }

  lemma TearInside(s: Cache, t: Tid, torn: Option<File>)
    ensures Inside(s, Tear(s, t, torn), t)
  {
  }

  lemma PublishInside(s: Cache, t: Tid, sidecar: File, pass: Pass, sound: bool, lease: Option<nat>)
    ensures Inside(s, Publish(s, t, sidecar, pass, sound, lease), t)
  {
  }

  lemma CleanupInside(s: Cache, t: Tid, refused: set<Path>)
    ensures Inside(s, Cleanup(s, t, refused), t)
  {
  }

  lemma InnerStep(s: Cache, a: Action)
    requires !Outer(a)
    ensures Inside(s, Step(s, a), Actor(a))
  {
    match a
    case Look(t, fits) => InspectInside(s, t, fits);
    case Doubt(t) => DistrustInside(s, t);
    case Hand(t, pass, lease) => ServeInside(s, t, pass, lease);
    case Book(t, pass) => ReserveInside(s, t, pass);
    case Break(t) => FailInside(s, t);
    case Rip(t, torn) => TearInside(s, t, torn);
    case Issue(t, sidecar, pass, sound, lease) => PublishInside(s, t, sidecar, pass, sound, lease);
    case Clean(t, refused) => CleanupInside(s, t, refused);
    case _ =>
  }

  lemma LockStep(s: Cache, a: Action)
    requires LocksOk(s)
    ensures LocksOk(Step(s, a))
  {
    match a
    case Refer(t, target, size) => ReferenceKeeps(s, t, target, size);
    case Take(t) => AcquireKeeps(s, t);
    case Give(t) => UnlockKeeps(s, t);
    case Leave(t) => UnreferenceKeeps(s, t);
    case _ =>
      InnerStep(s, a);
      InsideKeeps(s, Step(s, a), Actor(a));
  }
}

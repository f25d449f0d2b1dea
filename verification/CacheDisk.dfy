/**
 What the byte bound means for the directory itself, and where the accounting the source keeps
 (counted files plus reservations) briefly exceeds it.
 */
module CacheDisk {
  import opened Wrappers
  import opened CacheFiles
  import opened CacheProtocol
  import opened CacheLocks
  import opened CachePins
  import opened CacheBound

  function TornThreads(threads: map<Tid, Thread>): set<Tid> {
    set t | t in threads && Torn(threads[t].phase)
  }

  predicate Pays(threads: map<Tid, Thread>, ts: set<Tid>, p: Path) {
    exists t :: t in ts && t in threads && Torn(threads[t].phase) && threads[t].phase.staging == p
  }

  // The reservations of some torn threads.
  function Paid(threads: map<Tid, Thread>, reservations: map<Path, nat>, ts: set<Tid>): map<Path, nat> {
    map p | p in reservations && Pays(threads, ts, p) :: reservations[p]
  }

  lemma PaysOne(threads: map<Tid, Thread>, reservations: map<Path, nat>, next: nat, ts: set<Tid>, t: Tid, p: Path)
    requires NamesOk(threads, reservations, next) && ts <= TornThreads(threads) && t in ts
    ensures Pays(threads, ts - {t}, p) <==> Pays(threads, ts, p) && p != threads[t].phase.staging
  {
    assert forall u :: u in ts ==> Torn(threads[u].phase) && Fetches(threads[u].phase);
  }

  lemma PaidOne(threads: map<Tid, Thread>, reservations: map<Path, nat>, next: nat, ts: set<Tid>, t: Tid)
    requires NamesOk(threads, reservations, next) && ts <= TornThreads(threads) && t in ts
    ensures Sum(Paid(threads, reservations, ts)) == Sum(Paid(threads, reservations, ts - {t})) + threads[t].size + META_MAX
  {
    var st := threads[t].phase.staging;
    var m := Paid(threads, reservations, ts);
    assert Charges(threads[t].phase) && Pays(threads, ts, st);
    SumTake(m, st);
    forall p ensures Pays(threads, ts - {t}, p) <==> Pays(threads, ts, p) && p != st {
      PaysOne(threads, reservations, next, ts, t, p);
    }
    assert m - {st} == Paid(threads, reservations, ts - {t});
  }

  function Left(th: Thread): set<Path>
    requires th.target.Payload? && th.phase.Failed?
  {
    {th.target} + if th.phase.rewrote then {Meta(th.target.entry)} else {}
  }

  lemma CoveredOne(threads: map<Tid, Thread>, ts: set<Tid>, t: Tid)
    requires t in ts && t in threads && Torn(threads[t].phase) && threads[t].target.Payload?
    ensures Covered(threads, ts) == Covered(threads, ts - {t}) + Left(threads[t])
  {
  }

  lemma LeftFits(files: Files, th: Thread, aside: set<Path>)
    requires Torn(th.phase) && TornFits(th, files)
    ensures Bytes(files, aside - Left(th)) <= Bytes(files, aside) + th.size + META_MAX
  {
    BytesTally(files, aside, th.target, th.size);
    if th.phase.rewrote {
      BytesTally(files, aside - {th.target}, Meta(th.target.entry), META_MAX);
      assert aside - Left(th) == aside - {th.target} - {Meta(th.target.entry)};
    } else {
      assert aside - Left(th) == aside - {th.target};
    }
  }

  lemma UncoverOne(files: Files, threads: map<Tid, Thread>, ts: set<Tid>, t: Tid, aside: set<Path>)
    requires t in ts && t in threads && Torn(threads[t].phase) && TornFits(threads[t], files)
    ensures Bytes(files, aside - Covered(threads, ts))
            <= Bytes(files, aside - Covered(threads, ts - {t})) + threads[t].size + META_MAX
  {
    var rest := aside - Covered(threads, ts - {t});
    LeftFits(files, threads[t], rest);
    CoveredOne(threads, ts, t);
    assert aside - Covered(threads, ts) == rest - Left(threads[t]);
  }

  // Counting what torn publications left costs at most their reservations.
  lemma {:induction false} Uncover(s: Cache, ts: set<Tid>, aside: set<Path>)
    requires NamesOk(s.threads, s.reservations, s.next) && SizesOk(s.threads, s.reservations, s.files)
    requires ts <= TornThreads(s.threads)
    ensures Bytes(s.files, aside - Covered(s.threads, ts)) <= Bytes(s.files, aside) + Sum(Paid(s.threads, s.reservations, ts))
    decreases |ts|
  {
    if ts == {} {
      assert aside - Covered(s.threads, ts) == aside;
    } else {
      var t :| t in ts;
      Uncover(s, ts - {t}, aside);
      PaidOne(s.threads, s.reservations, s.next, ts, t);
      UncoverOne(s.files, s.threads, ts, t, aside);
    }
  }

  // Reservations whose staging file exists.
  function Started(reservations: map<Path, nat>, files: Files): map<Path, nat> {
    map p | p in reservations && p in files :: reservations[p]
  }

  lemma {:induction false} Unstage(files: Files, reservations: map<Path, nat>, aside: set<Path>)
    requires forall p :: p in reservations && p in files ==> files[p].size <= reservations[p]
    ensures Bytes(files, aside - reservations.Keys) <= Bytes(files, aside) + Sum(Started(reservations, files))
    decreases |reservations|
  {
    if reservations == map[] {
      assert aside - reservations.Keys == aside;
    } else {
      var p :| p in reservations;
      var fewer := reservations - {p};
      Unstage(files, fewer, aside);
      assert aside - reservations.Keys == aside - fewer.Keys - {p};
      if p in files {
        BytesTally(files, aside - fewer.Keys, p, reservations[p]);
        SumTake(Started(reservations, files), p);
        assert Started(reservations, files) - {p} == Started(fewer, files);
      } else {
        BytesTally(files, aside - fewer.Keys, p, 0);
        assert Started(reservations, files) == Started(fewer, files);
      }
    }
  }

  lemma {:induction false} SumApart(a: map<Path, nat>, b: map<Path, nat>, m: map<Path, nat>)
    requires forall p :: p in a ==> p in m && a[p] == m[p] && p !in b
    requires forall p :: p in b ==> p in m && b[p] == m[p]
    ensures Sum(a) + Sum(b) <= Sum(m)
    decreases |a|
  {
    if a == map[] {
      SumAtMost(b, m);
    } else {
      var p :| p in a;
      SumTake(a, p);
      SumTake(m, p);
      SumApart(a - {p}, b, m - {p});
    }
  }

  /** Everything in the cache directory, staging files included, is at most what is charged. */
  lemma DiskAtMostCharged(s: Cache)
    requires NamesOk(s.threads, s.reservations, s.next) && SizesOk(s.threads, s.reservations, s.files)
    ensures Bytes(s.files, {}) <= Charged(s)
  {
    var ts := TornThreads(s.threads);
    var aside := Excused(s.threads, s.reservations);
    var torn := Covered(s.threads, ts);
    assert torn == Covered(s.threads, s.threads.Keys);
    Uncover(s, ts, aside);
    Unstage(s.files, s.reservations, aside - torn);
    assert aside - torn - s.reservations.Keys == {};
    forall p | p in Paid(s.threads, s.reservations, ts) ensures p !in Started(s.reservations, s.files) {
      var t :| t in ts && s.threads[t].phase.staging == p;
      assert TornFits(s.threads[t], s.files);
    }
    SumApart(Paid(s.threads, s.reservations, ts), Started(s.reservations, s.files), s.reservations);
  }

  lemma EmptyBound(files: Files, maxBytes: nat)
    ensures BoundOk(Empty(files, maxBytes))
  {
  }

  /** The cache directory never outgrows its limit: from an empty runtime over any files, in every
      interleaving, once one eviction pass has succeeded, all its bytes together fit the limit. */
  lemma DiskBound(files: Files, maxBytes: nat, log: seq<Action>)
    ensures var s := Play(Empty(files, maxBytes), log); s.bounded ==> Bytes(s.files, {}) <= s.maxBytes
  {
    EmptyOk(files, maxBytes);
    EmptyBound(files, maxBytes);
    BoundRun(Empty(files, maxBytes), log);
    DiskAtMostCharged(Play(Empty(files, maxBytes), log));
  }

  // The accounting the source keeps: counted files plus reservations.
  ghost function Account(s: Cache): nat {
    Bytes(s.files, s.reservations.Keys) + Sum(s.reservations)
  }

  /** The account fits the limit in every reachable state without a torn publication. */
  lemma AccountBound(s: Cache)
    requires BoundOk(s) && s.bounded && TornThreads(s.threads) == {}
    ensures Account(s) <= s.maxBytes
  {
    assert Covered(s.threads, s.threads.Keys) == {} by {
      assert forall t :: t in s.threads && Torn(s.threads[t].phase) ==> t in TornThreads(s.threads);
    }
    assert Excused(s.threads, s.reservations) == s.reservations.Keys;
  }

  // ---------------------------------------------------------------- where the account is exceeded

  function SizeAt(files: Files, p: Path): nat {
    if p in files then files[p].size else 0
  }

  lemma BytesPut(files: Files, aside: set<Path>, p: Path, f: File)
    requires p !in aside
    ensures Bytes(files[p := f], aside) == Bytes(files, aside) - SizeAt(files, p) + f.size
  {
    SumPut(Sizes(files, aside), p, f.size);
    SumDrop(Sizes(files, aside), p);
    assert Sizes(files[p := f], aside) == Sizes(files, aside)[p := f.size];
  }

  // What breaking off adds to the account: the payload twice, a sidecar once, less what they replace.
  function Added(s: Cache, t: Tid, torn: Option<File>): int
    requires At(s, t) && s.threads[t].target.Payload?
  {
    var target := s.threads[t].target;
    s.threads[t].size - SizeAt(s.files, target)
    + if torn.Some? then torn.value.size - SizeAt(s.files, Meta(target.entry)) else 0
  }

  /** The exact effect of a publication that breaks off after the rename: the account grows by what
      it put in place less what that replaced, so it fits afterwards exactly when the room left
      covers the difference. */
  lemma RipAccount(s: Cache, t: Tid, torn: Option<File>)
    requires NamesOk(s.threads, s.reservations, s.next) && Publishable(s, t)
    requires torn.Some? ==> torn.value.size <= META_MAX
    ensures var s' := Step(s, Rip(t, torn));
            && Account(s') == Account(s) + Added(s, t, torn)
            && (Account(s') <= s'.maxBytes <==> Added(s, t, torn) <= s.maxBytes - Account(s))
  {
    var staging, target := s.threads[t].phase.staging, s.threads[t].target;
    assert Fetches(s.threads[t].phase) && Charges(s.threads[t].phase);
    var aside := s.reservations.Keys;
    var moved := s.files - {staging};
    BytesDrop(s.files, aside, staging);
    BytesPut(moved, aside, target, s.files[staging]);
    if torn.Some? {
      BytesPut(moved[target := s.files[staging]], aside, Meta(target.entry), torn.value);
    }
  }

  /** So over every interleaving: from any reachable state. */
  lemma RipInRuns(files: Files, maxBytes: nat, log: seq<Action>, t: Tid, torn: Option<File>)
    requires Publishable(Play(Empty(files, maxBytes), log), t)
    requires torn.Some? ==> torn.value.size <= META_MAX
    ensures var s := Play(Empty(files, maxBytes), log);
            Account(Step(s, Rip(t, torn))) <= s.maxBytes <==> Added(s, t, torn) <= s.maxBytes - Account(s)
  {
    EmptyOk(files, maxBytes);
    EmptyBound(files, maxBytes);
    BoundRun(Empty(files, maxBytes), log);
    RipAccount(Play(Empty(files, maxBytes), log), t, torn);
  }

  const TARGET := Payload(0, Plain(0))
  const STAGING := Download(0, 1)

  // One thread in a cache with room for exactly one attachment of this size.
  function Alone(size: nat, ph: Phase, files: Files, reservations: map<Path, nat>, next: nat, bounded: bool): Cache {
    Cache(files, map[], reservations, map[TARGET := Lock(0, 1)], map[0 := 0], map[0 := Thread(TARGET, size, 0, ph)],
          map[], next, size + META_MAX, bounded)
  }

  lemma AloneMisses(size: nat)
    ensures Step(Step(Step(Empty(map[], size + META_MAX), Refer(0, TARGET, size)), Take(0)), Look(0, false))
            == Alone(size, Missed, map[], map[], 1, false)
  {
  }

  lemma AloneBooks(size: nat)
    ensures Step(Alone(size, Missed, map[], map[], 1, false), Book(0, Pass(map[], true)))
            == Alone(size, Fetching(STAGING), map[], map[STAGING := size + META_MAX], 2, true)
  {
    var s := Alone(size, Missed, map[], map[], 1, false);
    assert Sizes(map[], s.reservations.Keys) == map[];
    assert Allowed(s, Pass(map[], true), None, size + META_MAX);
    assert Bookable(s, 0);
    assert s.threads[0 := s.threads[0].(phase := Fetching(STAGING))] == map[0 := Thread(TARGET, size, 0, Fetching(STAGING))];
  }

  function Stored(size: nat): Cache {
    Alone(size, Fetching(STAGING), map[STAGING := File(7, size, 0, None)], map[STAGING := size + META_MAX], 2, true)
  }

  lemma AloneStores(size: nat)
    ensures Step(Alone(size, Fetching(STAGING), map[], map[STAGING := size + META_MAX], 2, true), Store(0, size, 7))
            == Stored(size)
  {
  }

  // The account is at the limit before publication.
  lemma AloneFull(size: nat)
    ensures Account(Stored(size)) == size + META_MAX
  {
    var none: map<Path, nat> := map[];
    SumPut(none, STAGING, size + META_MAX);
    assert none - {STAGING} == none && Sizes(Stored(size).files, Stored(size).reservations.Keys) == none;
  }

  lemma AloneNames(size: nat)
    ensures NamesOk(Stored(size).threads, Stored(size).reservations, Stored(size).next)
  {
  }

  lemma AloneTears(size: nat)
    ensures var s := Step(Stored(size), Rip(0, None)); s.bounded && TornThreads(s.threads) == {0} && s.maxBytes == size + META_MAX
  {
  }

  lemma AloneOver(size: nat)
    ensures Account(Step(Stored(size), Rip(0, None))) == size + META_MAX + size
  {
    AloneFull(size);
    AloneNames(size);
    RipAccount(Stored(size), 0, None);
  }

  /** A publication that breaks off after the rename counts its bytes twice until it cleans up: with
      the limit just large enough for one attachment, the account exceeds it by the whole payload. */
  lemma TornExceeds(size: nat)
    requires size > 0
    ensures var s := Step(Step(Step(Step(Step(Step(Empty(map[], size + META_MAX),
                       Refer(0, TARGET, size)), Take(0)), Look(0, false)), Book(0, Pass(map[], true))), Store(0, size, 7)), Rip(0, None));
            s.bounded && TornThreads(s.threads) == {0} && Account(s) == s.maxBytes + size
  {
    AloneMisses(size);
    AloneBooks(size);
    AloneStores(size);
    AloneTears(size);
    AloneOver(size);
  }
}

/**
 One eviction pass of the attachment cache, as the object that holds the files: scan and recover,
 group, and remove the oldest groups until the bound holds.
 */
module CacheEviction {
  import opened Wrappers
  import opened CacheFiles
  import opened CacheGroups

  datatype Status = Complete | Overflow | Unsafe

  // What the file system answers during one scan.
  datatype Weather = Weather(unsafe: bool, pruned: nat)

  ghost predicate Sorted(s: seq<Group>) {
    forall i, j :: 0 <= i < j < |s| ==> s[i].used <= s[j].used
  }

  lemma InsertedSorted(s: seq<Group>, i: nat, g: Group)
    requires Sorted(s) && i <= |s|
    requires (forall k :: 0 <= k < i ==> s[k].used <= g.used) && (forall k :: i <= k < |s| ==> g.used <= s[k].used)
    ensures Sorted(s[..i] + [g] + s[i..])
  {
  }

  lemma InsertedSame(s: seq<Group>, i: nat, g: Group)
    requires i <= |s|
    ensures multiset(s[..i] + [g] + s[i..]) == multiset(s) + multiset{g}
  {
    assert s == s[..i] + s[i..];
  }

  method InsertByUse(g: Group, s: seq<Group>) returns (r: seq<Group>)
    requires Sorted(s)
    ensures Sorted(r) && multiset(r) == multiset(s) + multiset{g}
  {
    var i := 0;
    while i < |s| && s[i].used <= g.used
      invariant 0 <= i <= |s|
      invariant forall k :: 0 <= k < i ==> s[k].used <= g.used
    {
      i := i + 1;
    }
    r := s[..i] + [g] + s[i..];
    InsertedSorted(s, i, g);
    InsertedSame(s, i, g);
  }

  method SortByUse(s: seq<Group>) returns (r: seq<Group>)
    ensures Sorted(r) && multiset(r) == multiset(s)
    ensures forall g :: g in r <==> g in s
  {
    r := [];
    var i := 0;
    while i < |s|
      invariant 0 <= i <= |s|
      invariant Sorted(r) && multiset(r) == multiset(s[..i])
    {
      r := InsertByUse(s[i], r);
      assert s[..i + 1] == s[..i] + [s[i]];
      i := i + 1;
    }
    assert s[..i] == s;
    forall g ensures g in r <==> g in s {
      assert g in r <==> g in multiset(r);
    }
  }

  // Pinned or protected groups are skipped.
  predicate Skipped(pins: map<Path, nat>, g: Group, protected: Option<Path>) {
    (protected.Some? && protected.value in g.paths) || exists p :: p in g.paths && Pinned(pins, p)
  }

  // ---------------------------------------------------------------- room

  // The group of this head is not to be removed.
  predicate InUse(files: Files, staged: set<Path>, pins: map<Path, nat>, protected: Option<Path>, h: Path)
    requires h in files
  {
    Skipped(pins, GroupFor(files, staged, h), protected)
  }

  // The circumstances of making room: what may not go, and how much has to fit beside the files.
  datatype Demand = Demand(pins: map<Path, nat>, staged: set<Path>, stuck: set<Path>, protected: Option<Path>,
                           limit: nat, reserved: nat, over: int)

  // The tally fits: the counted bytes, what is counted too often, and the reservations.
  ghost predicate Fits(d: Demand, files: Files) {
    Bytes(files, d.staged) + d.over + d.reserved <= d.limit
  }

  ghost predicate Removable(d: Demand, files: Files, h: Path) {
    h in files && Head(files, d.staged, d.stuck, h) && !InUse(files, d.staged, d.pins, d.protected, h)
  }

  // Some file of the group could still go.
  ghost predicate Remains(d: Demand, files: Files, after: Files, h: Path)
    requires h in files
  {
    exists y :: y in GroupFor(files, d.staged, h).paths && y in after && y !in d.stuck
  }

  // File x is in the removable group of h.
  ghost predicate GoesWith(d: Demand, files: Files, x: Path, h: Path) {
    Removable(d, files, h) && x in GroupFor(files, d.staged, h).paths
  }

  ghost predicate Evictable(d: Demand, files: Files, x: Path) {
    x !in d.stuck && exists h :: GoesWith(d, files, x, h)
  }

  // File x was in the removable group of h, last used no later than that of q.
  ghost predicate WentBefore(d: Demand, files: Files, x: Path, h: Path, q: Path)
    requires q in files
  {
    GoesWith(d, files, x, h) && files[h].used <= files[q].used
  }

  // Only what is in a removable group goes for room.
  ghost predicate OnlyEvictable(d: Demand, files: Files, after: Files) {
    forall x :: x in WithoutOrphans(files, d.staged, d.stuck) && x !in after ==> Evictable(d, files, x)
  }

  /** Oldest first: a file that went for room was in a removable group last used no later than any
      removable group of which something remains. */
  ghost predicate OldestFirst(d: Demand, files: Files, after: Files) {
    forall x, q :: x in WithoutOrphans(files, d.staged, d.stuck) && x !in after && Removable(d, files, q) && Remains(d, files, after, q) ==>
      exists h :: WentBefore(d, files, x, h, q)
  }

  // The group of h was the last to go and had to: with its files back, the tally does not fit.
  ghost predicate LastNeeded(d: Demand, files: Files, after: Files, before: Files, h: Path) {
    && Within(after, before) && Within(before, files) && !Fits(d, before)
    && Removable(d, files, h) && forall x :: x in before && x !in after ==> x in GroupFor(files, d.staged, h).paths
  }

  ghost predicate NoMoreThanNeeded(d: Demand, files: Files, after: Files) {
    exists before, h :: LastNeeded(d, files, after, before, h)
  }

  ghost predicate Exhausted(d: Demand, files: Files, after: Files) {
    forall h :: Removable(d, files, h) ==> !Remains(d, files, after, h)
  }

  /** What making room comes to: the orphans go; nothing else does if what is left fits; otherwise
      the oldest removable groups go, no more of them than needed; and it succeeds exactly if the tally
      fits in the end, failing only when nothing removable remains. */
  ghost predicate MakesRoom(d: Demand, files: Files, after: Files, ok: bool) {
    && Within(after, WithoutOrphans(files, d.staged, d.stuck))
    && (ok <==> Fits(d, after))
    && (Fits(d, WithoutOrphans(files, d.staged, d.stuck)) ==> after == WithoutOrphans(files, d.staged, d.stuck))
    && OnlyEvictable(d, files, after) && OldestFirst(d, files, after)
    && (after != WithoutOrphans(files, d.staged, d.stuck) ==> NoMoreThanNeeded(d, files, after))
    && (!ok ==> Exhausted(d, files, after))
  }

  // Everything a pass promises from grouping on.
  ghost predicate Passes(d: Demand, files: Files, after: Files, ok: bool) {
    && Spares(files, after, d.pins, d.staged, d.protected)
    && Loses(files, after, d.pins, d.staged, d.stuck, d.protected, true)
    && MakesRoom(d, files, after, ok)
  }

  // ---------------------------------------------------------------- removing groups

  // The groups of the listed files, oldest first.
  ghost predicate GroupsOf(files: Files, staged: set<Path>, stuck: set<Path>, listing: seq<Path>, groups: seq<Group>)
    requires forall p :: p in listing ==> p in files
  {
    Sorted(groups) && multiset(groups) == multiset(AllGroups(files, staged, stuck, listing))
  }

  predicate Listed(g: Group, files: Files, staged: set<Path>) {
    forall p :: p in g.paths ==> p in files && p !in staged
  }

  // The files of one group are gone as far as the file system lets them, and no other is.
  ghost predicate Trimmed(was: Files, now: Files, stuck: set<Path>, g: Group) {
    && Within(now, was)
    && (forall p :: p in was && p !in now ==> p in g.paths && p !in stuck)
    && Cleared(now, stuck, g)
  }

  ghost predicate Cleared(files: Files, stuck: set<Path>, g: Group) {
    forall p :: p in g.paths && p in files ==> p in stuck
  }

  // One turn: the tally does not fit, and the group goes unless it is skipped.
  ghost predicate Turn(d: Demand, g: Group, was: Files, now: Files) {
    !Fits(d, was) && if Skipped(d.pins, g, d.protected) then now == was else Trimmed(was, now, d.stuck, g)
  }

  ghost predicate Trail(d: Demand, groups: seq<Group>, trail: seq<Files>) {
    0 < |trail| <= |groups| + 1 && forall k :: 0 <= k < |trail| - 1 ==> Turn(d, groups[k], trail[k], trail[k + 1])
  }

  predicate TriedWith(d: Demand, groups: seq<Group>, cut: nat, k: nat, p: Path) {
    k < cut <= |groups| && p in groups[k].paths && p !in d.stuck && !Skipped(d.pins, groups[k], d.protected)
  }

  // The first `cut` groups were tried, and nothing outside them was touched.
  ghost predicate Tried(d: Demand, start: Files, files: Files, groups: seq<Group>, cut: nat) {
    && cut <= |groups|
    && (forall k :: 0 <= k < cut && !Skipped(d.pins, groups[k], d.protected) ==> Cleared(files, d.stuck, groups[k]))
    && (forall p :: p in start && p !in files ==> exists k: nat :: TriedWith(d, groups, cut, k, p))
  }

  // The last group that lost a file, and the files before it did; the tally did not fit then.
  ghost predicate LastTried(d: Demand, start: Files, files: Files, groups: seq<Group>, cut: nat, before: Files, last: nat) {
    files != start ==>
      && last < cut <= |groups| && !Skipped(d.pins, groups[last], d.protected)
      && Within(files, before) && Within(before, start) && !Fits(d, before)
      && forall x :: x in before && x !in files ==> x in groups[last].paths
  }

  ghost predicate Evicting(d: Demand, start: Files, files: Files, groups: seq<Group>, cut: nat, before: Files, last: nat) {
    Within(files, start) && Tried(d, start, files, groups, cut) && LastTried(d, start, files, groups, cut, before, last)
  }

  // Payloads in use are still there, and so is every payload beside one.
  ghost predicate HeldStay(pins: map<Path, nat>, protected: Option<Path>, before: Files, at: Files) {
    && (forall p :: p in before && Held(pins, protected, p) ==> p in at)
    && (forall p, t :: p in before && t in before && Held(pins, protected, p) && t.Payload? && t.entry == p.entry ==> t in at)
  }

  class TeamCache {
    var files: Files
    var pins: map<Path, nat>
    var reservations: map<Path, nat>
    var locks: set<Path>
    const maxBytes: nat
    const stuck: set<Path>   // files whose removal the file system refuses

    constructor (files: Files, maxBytes: nat, stuck: set<Path>)
      ensures this.files == files && this.maxBytes == maxBytes && this.stuck == stuck
      ensures pins == map[] && reservations == map[] && locks == {}
    {
      this.files, this.maxBytes, this.stuck := files, maxBytes, stuck;
      pins, reservations, locks := map[], map[], {};
    }

    ghost function Reserved(): nat
      reads this
    {
      Sum(reservations)
    }

    // Bytes the bound is about: everything but the files being staged.
    ghost function Counted(): nat
      reads this
    {
      Bytes(files, reservations.Keys)
    }

    ghost predicate Kept(before: Files, protected: Option<Path>)
      reads this
    {
      Spares(before, files, pins, reservations.Keys, protected)
    }

    method SumReservations() returns (total: nat)
      ensures total == Reserved()
    {
      total := 0;
      var left := reservations;
      while left != map[]
        invariant total + Sum(left) == Sum(reservations)
        decreases |left|
      {
        var p :| p in left;
        SumTake(left, p);
        total := total + left[p];
        left := left - {p};
      }
    }

    method Unlink(p: Path) returns (gone: bool)
      modifies this`files
      ensures gone <==> p in old(files) && p !in stuck
      ensures files == if gone then old(files) - {p} else old(files)
    {
      gone := p in files && p !in stuck;
      if gone {
        files := files - {p};
      }
    }

    // A bounded listing; it is complete when the limit was not reached.
    method Scan(w: Weather) returns (listing: seq<Path>, status: Status)
      ensures Distinct(listing) && forall p :: p in listing ==> p in files
      ensures status.Complete? ==> forall p :: p in files ==> p in listing
      ensures status.Unsafe? <==> w.unsafe
      ensures status.Complete? <==> !w.unsafe && |files| <= SCAN_LIMIT
    {
      listing := [];
      var left := files.Keys;
      while left != {} && |listing| < SCAN_LIMIT
        invariant left <= files.Keys && |listing| <= SCAN_LIMIT && Distinct(listing)
        invariant forall p :: p in listing <==> p in files && p !in left
        invariant |listing| + |left| == |files|
        decreases |left|
      {
        var p :| p in left;
        listing := listing + [p];
        left := left - {p};
      }
      status := if w.unsafe then Unsafe else if left != {} then Overflow else Complete;
    }

    // A crashed download's remains, outside what is being staged.
    predicate Swept(p: Path)
      reads this
    {
      Leftover(p) && p !in reservations && p !in stuck
    }

    // Drops staging files from the listing and removes what crashed downloads left behind.
    method SweepLeftovers(listing: seq<Path>, ghost protected: Option<Path>) returns (regular: seq<Path>, progress: nat)
      requires Distinct(listing) && forall p :: p in listing ==> p in files
      modifies this`files
      ensures Kept(old(files), protected)
      ensures Distinct(regular) && forall p :: p in regular <==> p in listing && p in files && p !in reservations
      ensures forall p :: p in old(files) ==> (p !in files <==> p in listing && Swept(p))
    {
      regular, progress := [], 0;
      var i := 0;
      while i < |listing|
        invariant 0 <= i <= |listing|
        invariant Kept(old(files), protected)
        invariant forall k :: i <= k < |listing| ==> listing[k] in files
        invariant Distinct(regular) && forall p :: p in regular <==> p in listing[..i] && p in files && p !in reservations
        invariant forall p :: p in old(files) ==> (p !in files <==> p in listing[..i] && Swept(p))
      {
        var p := listing[i];
        assert listing[..i + 1] == listing[..i] + [p];
        if p !in reservations {
          var gone := false;
          if Leftover(p) {
            gone := Unlink(p);
          }
          if gone {
            progress := progress + 1;
          } else {
            regular := regular + [p];
          }
        }
        i := i + 1;
      }
      assert listing[..i] == listing;
    }

    // The directories no recovery may touch.
    function Shielded(protected: Option<Path>): set<Entry>
      reads this
    {
      (set p | p in locks && p.Payload? :: p.entry)
      + (set p | p in pins && p.Payload? && pins[p] > 0 :: p.entry)
      + (set p | p in reservations && p.Download? :: p.entry)
      + (if protected.Some? && protected.value.Payload? then {protected.value.entry} else {})
    }

    predicate Sheltered(p: Path, shielded: set<Entry>) {
      !p.Stray? && p.entry in shielded
    }

    // Recovering an oversized cache: whatever the scan saw outside live directories goes.
    method EvictInactive(listing: seq<Path>, protected: Option<Path>) returns (progress: nat)
      requires forall p :: p in listing ==> p !in reservations
      modifies this`files
      ensures Kept(old(files), protected)
      ensures forall p :: p in old(files) ==>
                (p !in files <==> p in listing && !Sheltered(p, Shielded(protected)) && p !in stuck)
    {
      progress := 0;
      var shielded := Shielded(protected);
      var i := 0;
      while i < |listing|
        invariant 0 <= i <= |listing|
        invariant Kept(old(files), protected)
        invariant forall p :: p in old(files) ==>
                    (p !in files <==> p in listing[..i] && !Sheltered(p, shielded) && p !in stuck)
      {
        var p := listing[i];
        assert listing[..i + 1] == listing[..i] + [p];
        if !Sheltered(p, shielded) {
          var gone := Unlink(p);
          progress := progress + if gone then 1 else 0;
        }
        i := i + 1;
      }
      assert listing[..i] == listing;
    }

    // In the directories no recovery may touch, only leftovers went.
    ghost predicate Untouched(before: Files, shielded: set<Entry>)
      reads this
    {
      forall p :: p in before && Sheltered(p, shielded) && !Leftover(p) ==> p in files
    }

    // Exactly the leftovers are gone.
    ghost predicate CleanedTo(before: Files, after: Files)
      reads this
    {
      Within(after, before) && forall p :: p in before ==> (p !in after <==> Swept(p))
    }

    // One scan with its clean-up.
    method ScanOnce(protected: Option<Path>, w: Weather, ghost before: Files)
      returns (status: Status, regular: seq<Path>, progress: nat)
      requires Kept(before, protected) && Untouched(before, Shielded(protected))
      modifies this`files
      ensures Kept(before, protected) && Untouched(before, Shielded(protected))
      ensures Distinct(regular) && forall p :: p in regular ==> p !in reservations
      ensures status.Complete? ==> Lists(files, reservations.Keys, regular) && CleanedTo(old(files), files)
      ensures status.Unsafe? <==> w.unsafe
      ensures status.Complete? <==> !w.unsafe && |old(files)| <= SCAN_LIMIT
    {
      var listing;
      listing, status := Scan(w);
      regular, progress := SweepLeftovers(listing, protected);
    }

    // Scans, cleans up and recovers until one scan is complete, within the allowed passes.
    method Survey(protected: Option<Path>, weather: seq<Weather>) returns (ok: bool, regular: seq<Path>)
      requires |weather| > RECOVERY_PASSES
      modifies this`files
      ensures Kept(old(files), protected)
      ensures ok ==> Distinct(regular) && Lists(files, reservations.Keys, regular)
      ensures Untouched(old(files), Shielded(protected))
      ensures |old(files)| <= SCAN_LIMIT ==> (ok <==> !weather[0].unsafe) && (ok ==> CleanedTo(old(files), files))
    {
      ok, regular := false, [];
      var passes := 0;
      while passes <= RECOVERY_PASSES
        invariant Kept(old(files), protected) && Untouched(old(files), Shielded(protected))
        invariant passes <= RECOVERY_PASSES + 1
        invariant if passes == 0 then files == old(files) else |old(files)| > SCAN_LIMIT
      {
        var status, progress;
        status, regular, progress := ScanOnce(protected, weather[passes], old(files));
        if !status.Overflow? || passes == RECOVERY_PASSES {
          ok := status.Complete?;
          return;
        }
        var freed := EvictInactive(regular, protected);
        if progress + freed + weather[passes].pruned == 0 {
          return;
        }
        passes := passes + 1;
      }
    }

    /** Pairs sidecars with payloads and removes exactly the orphans, leases or not: pins are not
        consulted here. */
    method PairSidecars(regular: seq<Path>, info: Files) returns (groups: seq<Group>, total: nat, paired: set<Path>)
      requires info == files && Distinct(regular) && Lists(info, reservations.Keys, regular)
      modifies this`files
      ensures PairedTo(info, reservations.Keys, stuck, regular, |regular|, files, groups, total, paired)
    {
      groups, total, paired := [], 0, {};
      PairStarts(info, reservations.Keys, stuck, regular);
      var i := 0;
      while i < |regular|
        invariant 0 <= i <= |regular| && PairedTo(info, reservations.Keys, stuck, regular, i, files, groups, total, paired)
      {
        groups, total, paired := PairOne(info, regular, i, groups, total, paired);
        i := i + 1;
      }
    }

    method PairOne(info: Files, regular: seq<Path>, i: nat, groups0: seq<Group>, total0: nat, paired0: set<Path>)
      returns (groups: seq<Group>, total: nat, paired: set<Path>)
      requires Distinct(regular) && Lists(info, reservations.Keys, regular) && i < |regular|
      requires PairedTo(info, reservations.Keys, stuck, regular, i, files, groups0, total0, paired0)
      modifies this`files
      ensures PairedTo(info, reservations.Keys, stuck, regular, i + 1, files, groups, total, paired)
    {
      groups, total, paired := groups0, total0, paired0;
      var p := regular[i];
      assert p in regular;
      var target := TargetOf(p, info[p]);
      if SidecarShaped(p) && target.Some? && target.value in regular {
        PairNext(info, reservations.Keys, stuck, regular, i, files, groups, total, paired);
        var t := target.value;
        total := total + info[t].size + info[p].size;
        groups := groups + [Group(info[p].used, info[t].size + info[p].size, [t, p])];
        paired := paired + {t, p};
      } else if SidecarShaped(p) && p !in stuck {
        OrphanNext(info, reservations.Keys, stuck, regular, i, files, groups, total, paired);
        var gone := Unlink(p);
        paired := paired + {p};
      } else {
        OtherNext(info, reservations.Keys, stuck, regular, i, files, groups, total, paired);
      }
    }

    // What is left counts too, each file on its own.
    method AddSingles(regular: seq<Path>, info: Files, paired: set<Path>, groups0: seq<Group>, total0: nat)
      returns (groups: seq<Group>, total: nat)
      requires forall p :: p in regular ==> p in info && (p !in paired <==> Lone(info, reservations.Keys, stuck, p))
      requires total0 == SizeSum(groups0)
      ensures groups == groups0 + LoneGroups(info, reservations.Keys, stuck, regular, |regular|) && total == SizeSum(groups)
    {
      groups, total := groups0, total0;
      var i := 0;
      while i < |regular|
        invariant 0 <= i <= |regular|
        invariant groups == groups0 + LoneGroups(info, reservations.Keys, stuck, regular, i) && total == SizeSum(groups)
      {
        var p := regular[i];
        assert p in regular;
        if p !in paired {
          total := total + info[p].size;
          SizeSumMore(groups, Group(info[p].used, info[p].size, [p]));
          groups := groups + [Group(info[p].used, info[p].size, [p])];
        }
        i := i + 1;
      }
    }

    method UnlinkGroup(g: Group, info: Files) returns (freed: nat)
      requires Within(files, info) && Listed(g, info, reservations.Keys)
      modifies this`files
      ensures Trimmed(old(files), files, stuck, g)
      ensures Counted() + freed == old(Counted())
    {
      freed := 0;
      var i := 0;
      while i < |g.paths|
        invariant 0 <= i <= |g.paths| && Within(files, old(files))
        invariant Counted() + freed == old(Counted())
        invariant forall p :: p in old(files) && p !in files ==> p in g.paths && p !in stuck
        invariant forall k :: 0 <= k < i && g.paths[k] in files ==> g.paths[k] in stuck
      {
        var p := g.paths[i];
        ghost var before := files;
        var gone := Unlink(p);
        if gone {
          BytesDrop(before, reservations.Keys, p);
          freed := freed + info[p].size;
        }
        i := i + 1;
      }
    }

    ghost function DemandOf(protected: Option<Path>, reserved: nat, over: int): Demand
      reads this
    {
      Demand(pins, reservations.Keys, stuck, protected, maxBytes, reserved, over)
    }

    // One group in its turn, while the tally does not fit.
    method TryGroup(g: Group, info: Files, protected: Option<Path>, total: nat, ghost d: Demand) returns (left: nat)
      requires Within(files, info) && Listed(g, info, reservations.Keys)
      requires d.pins == pins && d.staged == reservations.Keys && d.stuck == stuck && d.protected == protected
      requires d.over >= 0 && total == Counted() + d.over && total + d.reserved > d.limit
      modifies this`files
      ensures Within(files, info) && left == Counted() + d.over
      ensures Turn(d, g, old(files), files)
    {
      left := total;
      if !Skipped(pins, g, protected) {
        var freed := UnlinkGroup(g, info);
        left := left - freed;
      }
    }

    /** Removes groups oldest first and stops as soon as the bound holds.  `trail` are the files from
        turn to turn: each group was tried while the tally did not fit, all but the pinned and protected
        ones are gone as far as the file system lets them, and nothing else is. */
    method EvictOldest(groups: seq<Group>, info: Files, total: nat, reserved: nat, protected: Option<Path>, ghost d: Demand)
      returns (left: nat, ghost trail: seq<Files>)
      requires d.pins == pins && d.staged == reservations.Keys && d.stuck == stuck && d.protected == protected
      requires d.reserved == reserved && d.limit == maxBytes && d.over >= 0 && total == Counted() + d.over
      requires Within(files, info) && forall k :: 0 <= k < |groups| ==> Listed(groups[k], info, reservations.Keys)
      modifies this`files
      ensures left == Counted() + d.over && Trail(d, groups, trail) && trail[0] == old(files) && trail[|trail| - 1] == files
      ensures |trail| <= |groups| ==> left + reserved <= maxBytes
      ensures total + reserved <= maxBytes ==> |trail| == 1
    {
      left, trail := total, [files];
      var i := 0;
      while i < |groups|
        invariant 0 <= i <= |groups| && |trail| == i + 1 && trail[0] == old(files) && trail[i] == files
        invariant Within(files, info) && left == Counted() + d.over && Trail(d, groups, trail)
        invariant total + reserved <= maxBytes ==> i == 0 && left == total
      {
        if left + reserved <= maxBytes {
          break;
        }
        left := TryGroup(groups[i], info, protected, left, d);
        TrailMore(d, groups, trail, files);
        trail := trail + [files];
        i := i + 1;
      }
    }

    // Groups the files, oldest first; the tally is what is left of them and what is counted too often.
    method GroupFiles(regular: seq<Path>) returns (groups: seq<Group>, total: nat)
      requires Distinct(regular) && Lists(files, reservations.Keys, regular)
      modifies this`files
      ensures files == WithoutOrphans(old(files), reservations.Keys, stuck)
      ensures GroupsOf(old(files), reservations.Keys, stuck, regular, groups)
      ensures total == Counted() + Over(old(files), reservations.Keys, stuck, regular)
    {
      var info := files;
      var paired;
      groups, total, paired := PairSidecars(regular, info);
      RestAreLone(info, reservations.Keys, stuck, regular, paired);
      WithoutAll(info, reservations.Keys, stuck, regular);
      groups, total := AddSingles(regular, info, paired, groups, total);
      groups := SortByUse(groups);
    }

    // Grouping: the orphans go, then the oldest until the tally fits.
    method EvictGroups(regular: seq<Path>, reserved: nat, protected: Option<Path>) returns (ok: bool)
      requires Distinct(regular) && Lists(files, reservations.Keys, regular)
      modifies this`files
      ensures Passes(DemandOf(protected, reserved, Over(old(files), reservations.Keys, stuck, regular)), old(files), files, ok)
    {
      var info := files;
      var groups, total := GroupFiles(regular);
      ghost var d := DemandOf(protected, reserved, Over(info, reservations.Keys, stuck, regular));
      GroupsInside(info, reservations.Keys, stuck, regular, groups);
      OverIsNat(info, reservations.Keys, stuck, regular);
      var left, trail := EvictOldest(groups, info, total, reserved, protected, d);
      ok := left + reserved <= maxBytes;
      PassMade(d, info, regular, groups, trail, ok);
    }

    // The same, as seen from before the scan.
    method EvictSurveyed(regular: seq<Path>, reserved: nat, protected: Option<Path>, ghost before: Files) returns (ok: bool)
      requires Distinct(regular) && Lists(files, reservations.Keys, regular)
      requires Kept(before, protected) && HeldStay(pins, protected, before, files)
      modifies this`files
      ensures Kept(before, protected) && Loses(before, files, pins, reservations.Keys, stuck, protected, true)
      ensures MakesRoom(DemandOf(protected, reserved, Over(old(files), reservations.Keys, stuck, regular)), old(files), files, ok)
      ensures ok ==> Counted() + reserved <= maxBytes
    {
      OverIsNat(files, reservations.Keys, stuck, regular);
      ok := EvictGroups(regular, reserved, protected);
      PassesFrom(DemandOf(protected, reserved, Over(old(files), reservations.Keys, stuck, regular)), before, old(files), files, ok);
    }

    // Scanning and recovery lose nothing in use.
    method SurveyHeld(protected: Option<Path>, weather: seq<Weather>) returns (ok: bool, regular: seq<Path>)
      requires |weather| > RECOVERY_PASSES
      modifies this`files
      ensures Kept(old(files), protected) && HeldStay(pins, protected, old(files), files)
      ensures Loses(old(files), files, pins, reservations.Keys, stuck, protected, false)
      ensures ok ==> Distinct(regular) && Lists(files, reservations.Keys, regular)
      ensures |old(files)| <= SCAN_LIMIT ==> (ok <==> !weather[0].unsafe) && (ok ==> CleanedTo(old(files), files))
    {
      ok, regular := Survey(protected, weather);
      ShelterHeld(old(files), protected);
    }

    /** One eviction pass.  Whatever happens, it spares what must be spared; it says exactly which
        payloads in use it loses; and once it groups, it makes room as `MakesRoom` says, from the files
        `at` that its scan left and listed.  A cache the scan can list is grouped exactly when the
        reservations fit and the scan was safe. */
    method Evict(protected: Option<Path>, reserve: nat, weather: seq<Weather>)
      returns (ok: bool, ghost grouped: bool, ghost at: Files, ghost listing: seq<Path>)
      requires |weather| > RECOVERY_PASSES
      modifies this`files
      ensures Kept(old(files), protected)
      ensures ok ==> grouped && Counted() + Reserved() + reserve <= maxBytes
      ensures Loses(old(files), files, pins, reservations.Keys, stuck, protected, grouped)
      ensures |old(files)| <= SCAN_LIMIT ==> (grouped <==> Reserved() + reserve <= maxBytes && !weather[0].unsafe)
      ensures grouped ==> Distinct(listing) && Lists(at, reservations.Keys, listing) && (|old(files)| <= SCAN_LIMIT ==> CleanedTo(old(files), at))
      ensures grouped ==> MakesRoom(DemandOf(protected, Reserved() + reserve, Over(at, reservations.Keys, stuck, listing)), at, files, ok)
    {
      ok, grouped, at, listing := false, false, files, [];
      var reserved := SumReservations();
      reserved := reserved + reserve;
      if reserve > maxBytes || reserved > maxBytes {
        return;
      }
      var surveyed, regular := SurveyHeld(protected, weather);
      if !surveyed {
        return;
      }
      grouped, at, listing := true, files, regular;
      ok := EvictSurveyed(regular, reserved, protected, old(files));
    }

    // A payload in use lies in a directory no recovery touches, and so does its own payload.
    lemma ShelterHeld(before: Files, protected: Option<Path>)
      requires Untouched(before, Shielded(protected))
      ensures HeldStay(pins, protected, before, files)
    {
      forall p, t | p in before && t in before && Held(pins, protected, p) && t.Payload? && t.entry == p.entry
        ensures p in files && t in files
      {
        assert p.entry in Shielded(protected);
        assert Sheltered(p, Shielded(protected)) && Sheltered(t, Shielded(protected));
      }
    }
  }

  lemma SparesTrans(a: Files, b: Files, c: Files, pins: map<Path, nat>, staged: set<Path>, protected: Option<Path>)
    requires Spares(a, b, pins, staged, protected) && Spares(b, c, pins, staged, protected)
    ensures Spares(a, c, pins, staged, protected)
  {
  }

  // Recovery moves nothing the condition speaks of.
  lemma LosesSame(d: Demand, before: Files, at: Files, after: Files)
    requires Within(at, before) && HeldStay(d.pins, d.protected, before, at)
    requires Loses(at, after, d.pins, d.staged, d.stuck, d.protected, true)
    ensures Loses(before, after, d.pins, d.staged, d.stuck, d.protected, true)
  {
  }

  lemma PassesFrom(d: Demand, before: Files, at: Files, after: Files, ok: bool)
    requires Spares(before, at, d.pins, d.staged, d.protected) && HeldStay(d.pins, d.protected, before, at)
    requires Passes(d, at, after, ok) && d.over >= 0
    ensures Spares(before, after, d.pins, d.staged, d.protected)
    ensures Loses(before, after, d.pins, d.staged, d.stuck, d.protected, true)
    ensures MakesRoom(d, at, after, ok)
    ensures ok ==> Bytes(after, d.staged) + d.reserved <= d.limit
  {
    LosesSame(d, before, at, after);
    SparesTrans(before, at, after, d.pins, d.staged, d.protected);
  }

  // ---------------------------------------------------------------- why a pass makes room

  // One more group tried.
  lemma TriedMore(d: Demand, start: Files, was: Files, now: Files, groups: seq<Group>, k: nat)
    requires k < |groups| && !Skipped(d.pins, groups[k], d.protected)
    requires Tried(d, start, was, groups, k) && Trimmed(was, now, d.stuck, groups[k])
    ensures Tried(d, start, now, groups, k + 1)
  {
    var n := k + 1;
    forall p | p in start && p !in now ensures exists j: nat :: TriedWith(d, groups, n, j, p) {
      if p in was {
        assert TriedWith(d, groups, n, k, p);
      } else {
        var j: nat :| TriedWith(d, groups, k, j, p);
        assert TriedWith(d, groups, n, j, p);
      }
    }
  }

  lemma TriedNone(d: Demand, start: Files, now: Files, groups: seq<Group>, k: nat)
    requires k < |groups| && Skipped(d.pins, groups[k], d.protected) && Tried(d, start, now, groups, k)
    ensures Tried(d, start, now, groups, k + 1)
  {
    var n := k + 1;
    forall p | p in start && p !in now ensures exists j: nat :: TriedWith(d, groups, n, j, p) {
      var j: nat :| TriedWith(d, groups, k, j, p);
      assert TriedWith(d, groups, n, j, p);
    }
  }

  lemma TrailMore(d: Demand, groups: seq<Group>, trail: seq<Files>, now: Files)
    requires Trail(d, groups, trail) && |trail| <= |groups| && Turn(d, groups[|trail| - 1], trail[|trail| - 1], now)
    ensures Trail(d, groups, trail + [now])
  {
  }

  // What the turns come to.
  lemma {:induction false} TrailEvicts(d: Demand, groups: seq<Group>, trail: seq<Files>) returns (before: Files, last: nat)
    requires Trail(d, groups, trail)
    ensures Evicting(d, trail[0], trail[|trail| - 1], groups, |trail| - 1, before, last)
    decreases |trail|
  {
    before, last := trail[0], 0;
    if |trail| == 1 {
      EvictingStarts(d, trail[0], groups);
    } else {
      var k := |trail| - 2;
      var was, now := trail[k], trail[k + 1];
      before, last := TrailEvicts(d, groups, trail[..k + 1]);
      assert Turn(d, groups[k], was, now);
      if Skipped(d.pins, groups[k], d.protected) {
        EvictedNone(d, trail[0], now, groups, k, before, last);
      } else {
        EvictedOne(d, trail[0], was, now, groups, k, before, last);
        if now != was {
          before, last := was, k;
        }
      }
    }
  }

  lemma EvictingStarts(d: Demand, start: Files, groups: seq<Group>)
    ensures Evicting(d, start, start, groups, 0, start, 0)
  {
  }

  lemma EvictedOne(d: Demand, start: Files, was: Files, now: Files, groups: seq<Group>, k: nat, before: Files, last: nat)
    requires k < |groups| && !Skipped(d.pins, groups[k], d.protected) && !Fits(d, was)
    requires Evicting(d, start, was, groups, k, before, last) && Trimmed(was, now, d.stuck, groups[k])
    ensures if now != was then Evicting(d, start, now, groups, k + 1, was, k) else Evicting(d, start, now, groups, k + 1, before, last)
  {
    TriedMore(d, start, was, now, groups, k);
  }

  lemma EvictedNone(d: Demand, start: Files, now: Files, groups: seq<Group>, k: nat, before: Files, last: nat)
    requires k < |groups| && Skipped(d.pins, groups[k], d.protected) && Evicting(d, start, now, groups, k, before, last)
    ensures Evicting(d, start, now, groups, k + 1, before, last)
  {
    TriedNone(d, start, now, groups, k);
  }

  lemma GroupsAre(files: Files, staged: set<Path>, stuck: set<Path>, listing: seq<Path>, groups: seq<Group>)
    requires Lists(files, staged, listing) && GroupsOf(files, staged, stuck, listing, groups)
    ensures IsGrouping(files, staged, stuck, groups)
  {
    AllGroupsAre(files, staged, stuck, listing);
    var all := AllGroups(files, staged, stuck, listing);
    forall g ensures g in groups <==> g in all {
      assert g in groups <==> g in multiset(groups);
      assert g in all <==> g in multiset(all);
    }
  }

  lemma GroupsInside(files: Files, staged: set<Path>, stuck: set<Path>, listing: seq<Path>, groups: seq<Group>)
    requires Lists(files, staged, listing) && GroupsOf(files, staged, stuck, listing, groups)
    ensures forall k :: 0 <= k < |groups| ==> Listed(groups[k], files, staged)
  {
    GroupsAre(files, staged, stuck, listing, groups);
    forall k | 0 <= k < |groups| ensures Listed(groups[k], files, staged) {
      assert groups[k] in groups;
    }
  }

  // The group at an index is that of a head, removable exactly if it is not skipped.
  lemma HeadAt(d: Demand, files: Files, groups: seq<Group>, k: nat) returns (h: Path)
    requires IsGrouping(files, d.staged, d.stuck, groups) && k < |groups|
    ensures h in files && Head(files, d.staged, d.stuck, h) && groups[k] == GroupFor(files, d.staged, h)
    ensures Removable(d, files, h) <==> !Skipped(d.pins, groups[k], d.protected)
  {
    assert groups[k] in groups;
    h :| h in files && Head(files, d.staged, d.stuck, h) && groups[k] == GroupFor(files, d.staged, h);
  }

  // A removable group of which something remains was not reached.
  lemma NotReached(d: Demand, files: Files, after: Files, groups: seq<Group>, cut: nat, q: Path) returns (j: nat)
    requires IsGrouping(files, d.staged, d.stuck, groups) && cut <= |groups|
    requires Tried(d, WithoutOrphans(files, d.staged, d.stuck), after, groups, cut)
    requires Removable(d, files, q) && Remains(d, files, after, q)
    ensures cut <= j < |groups| && groups[j] == GroupFor(files, d.staged, q)
  {
    assert GroupFor(files, d.staged, q) in groups;
    j :| 0 <= j < |groups| && groups[j] == GroupFor(files, d.staged, q);
  }

  lemma EvictableWent(d: Demand, files: Files, after: Files, groups: seq<Group>, cut: nat)
    requires IsGrouping(files, d.staged, d.stuck, groups) && cut <= |groups|
    requires Tried(d, WithoutOrphans(files, d.staged, d.stuck), after, groups, cut)
    ensures OnlyEvictable(d, files, after)
  {
    forall x | x in WithoutOrphans(files, d.staged, d.stuck) && x !in after ensures Evictable(d, files, x) {
      var k: nat :| TriedWith(d, groups, cut, k, x);
      var h := HeadAt(d, files, groups, k);
      assert GoesWith(d, files, x, h);
    }
  }

  lemma OldestWent(d: Demand, files: Files, after: Files, groups: seq<Group>, cut: nat)
    requires IsGrouping(files, d.staged, d.stuck, groups) && Sorted(groups) && cut <= |groups|
    requires Tried(d, WithoutOrphans(files, d.staged, d.stuck), after, groups, cut)
    ensures OldestFirst(d, files, after)
  {
    forall x, q | x in WithoutOrphans(files, d.staged, d.stuck) && x !in after && Removable(d, files, q) && Remains(d, files, after, q)
      ensures exists h :: WentBefore(d, files, x, h, q)
    {
      var j := NotReached(d, files, after, groups, cut, q);
      var k: nat :| TriedWith(d, groups, cut, k, x);
      var h := HeadAt(d, files, groups, k);
      assert groups[k].used <= groups[j].used;
      assert WentBefore(d, files, x, h, q);
    }
  }

  lemma LastWasNeeded(d: Demand, files: Files, after: Files, groups: seq<Group>, cut: nat, before: Files, last: nat)
    requires IsGrouping(files, d.staged, d.stuck, groups)
    requires LastTried(d, WithoutOrphans(files, d.staged, d.stuck), after, groups, cut, before, last)
    ensures after != WithoutOrphans(files, d.staged, d.stuck) ==> NoMoreThanNeeded(d, files, after)
  {
    if after != WithoutOrphans(files, d.staged, d.stuck) {
      var h := HeadAt(d, files, groups, last);
      assert LastNeeded(d, files, after, before, h);
    }
  }

  lemma NothingRemains(d: Demand, files: Files, after: Files, groups: seq<Group>, cut: nat)
    requires IsGrouping(files, d.staged, d.stuck, groups) && cut == |groups|
    requires Tried(d, WithoutOrphans(files, d.staged, d.stuck), after, groups, cut)
    ensures Exhausted(d, files, after)
  {
    forall h | Removable(d, files, h) ensures !Remains(d, files, after, h) {
      if Remains(d, files, after, h) {
        var j := NotReached(d, files, after, groups, cut, h);
      }
    }
  }

  lemma NothingTried(d: Demand, start: Files, after: Files, groups: seq<Group>)
    requires Tried(d, start, after, groups, 0) && Within(after, start)
    ensures after == start
  {
    assert forall p :: p in start ==> p in after;
  }

  // Once nothing was tried nothing went; once everything was, nothing removable remains.
  lemma RoomEnded(d: Demand, files: Files, after: Files, groups: seq<Group>, cut: nat, ok: bool)
    requires IsGrouping(files, d.staged, d.stuck, groups) && Within(after, WithoutOrphans(files, d.staged, d.stuck))
    requires Tried(d, WithoutOrphans(files, d.staged, d.stuck), after, groups, cut) && (cut < |groups| ==> ok)
    ensures (cut == 0 ==> after == WithoutOrphans(files, d.staged, d.stuck)) && (!ok ==> Exhausted(d, files, after))
  {
    if cut == 0 {
      NothingTried(d, WithoutOrphans(files, d.staged, d.stuck), after, groups);
    }
    if !ok {
      NothingRemains(d, files, after, groups, cut);
    }
  }

  lemma RoomMade(d: Demand, files: Files, after: Files, groups: seq<Group>, cut: nat, before: Files, last: nat, ok: bool)
    requires IsGrouping(files, d.staged, d.stuck, groups) && Sorted(groups) && cut <= |groups|
    requires Evicting(d, WithoutOrphans(files, d.staged, d.stuck), after, groups, cut, before, last)
    requires Fits(d, WithoutOrphans(files, d.staged, d.stuck)) ==> cut == 0
    requires (ok <==> Fits(d, after)) && (cut < |groups| ==> ok)
    ensures MakesRoom(d, files, after, ok)
  {
    EvictableWent(d, files, after, groups, cut);
    OldestWent(d, files, after, groups, cut);
    LastWasNeeded(d, files, after, groups, cut, before, last);
    RoomEnded(d, files, after, groups, cut, ok);
  }

  // What is left when everything that could go for room has gone.
  ghost function Least(d: Demand, files: Files): Files {
    map x | x in WithoutOrphans(files, d.staged, d.stuck) && !Evictable(d, files, x) :: files[x]
  }

  lemma LeastInside(d: Demand, files: Files, after: Files)
    requires Within(after, WithoutOrphans(files, d.staged, d.stuck)) && OnlyEvictable(d, files, after)
    ensures Bytes(Least(d, files), d.staged) <= Bytes(after, d.staged)
  {
    SumAtMost(Sizes(Least(d, files), d.staged), Sizes(after, d.staged));
  }

  lemma LeastReached(d: Demand, files: Files, after: Files)
    requires Within(after, WithoutOrphans(files, d.staged, d.stuck)) && OnlyEvictable(d, files, after)
    requires Exhausted(d, files, after)
    ensures after == Least(d, files)
  {
    forall x | x in after ensures !Evictable(d, files, x) {
      if x !in d.stuck {
        forall h ensures !GoesWith(d, files, x, h) {
          assert Removable(d, files, h) ==> !Remains(d, files, after, h);
        }
      }
    }
  }

  /** A pass makes room exactly if removing everything removable would, and if it cannot, that is what
      it leaves. */
  lemma RoomExactly(d: Demand, files: Files, after: Files, ok: bool)
    requires MakesRoom(d, files, after, ok)
    ensures ok <==> Fits(d, Least(d, files))
    ensures !ok ==> after == Least(d, files)
  {
    LeastInside(d, files, after);
    if !ok {
      LeastReached(d, files, after);
    }
  }

  /** Nothing goes for room exactly if the tally fits without the orphans, or nothing is removable. */
  lemma NothingGoesExactly(d: Demand, files: Files, after: Files, ok: bool)
    requires MakesRoom(d, files, after, ok)
    ensures var start := WithoutOrphans(files, d.staged, d.stuck);
            after == start <==> Fits(d, start) || forall x :: x in start ==> !Evictable(d, files, x)
  {
    var start := WithoutOrphans(files, d.staged, d.stuck);
    if after == start && !Fits(d, start) {
      RoomExactly(d, files, after, ok);
    } else if forall x :: x in start ==> !Evictable(d, files, x) {
      assert forall x :: x in start ==> x in after;
    }
  }

  // Orphans are never staged, and no payload with an ordinary name is one.
  lemma OrphansSpared(d: Demand, files: Files)
    ensures Spares(files, WithoutOrphans(files, d.staged, d.stuck), d.pins, d.staged, d.protected)
  {
  }

  // What goes for room is in a group that is not in use, and in no use itself.
  lemma TriedSpares(d: Demand, files: Files, start: Files, after: Files, groups: seq<Group>, cut: nat)
    requires Tried(d, start, after, groups, cut) && Within(after, start)
    requires forall k :: 0 <= k < |groups| ==> Listed(groups[k], files, d.staged)
    ensures Spares(start, after, d.pins, d.staged, d.protected)
    ensures forall p :: p in start && Held(d.pins, d.protected, p) ==> p in after
  {
    forall p | p in start && p !in after ensures p !in d.staged && !Held(d.pins, d.protected, p) && !Pinned(d.pins, p) && d.protected != Some(p) {
      var j: nat :| TriedWith(d, groups, cut, j, p);
      assert Listed(groups[j], files, d.staged);
    }
  }

  lemma OrphansLost(d: Demand, files: Files, after: Files)
    requires Within(after, WithoutOrphans(files, d.staged, d.stuck))
    requires forall p :: p in WithoutOrphans(files, d.staged, d.stuck) && Held(d.pins, d.protected, p) ==> p in after
    ensures Loses(files, after, d.pins, d.staged, d.stuck, d.protected, true)
  {
  }

  lemma PassMade(d: Demand, files: Files, listing: seq<Path>, groups: seq<Group>, trail: seq<Files>, ok: bool)
    requires Lists(files, d.staged, listing) && GroupsOf(files, d.staged, d.stuck, listing, groups)
    requires Trail(d, groups, trail) && trail[0] == WithoutOrphans(files, d.staged, d.stuck)
    requires Fits(d, trail[0]) ==> |trail| == 1
    requires (ok <==> Fits(d, trail[|trail| - 1])) && (|trail| <= |groups| ==> ok)
    ensures Passes(d, files, trail[|trail| - 1], ok)
  {
    var start, cut, after := trail[0], |trail| - 1, trail[|trail| - 1];
    var before, last := TrailEvicts(d, groups, trail);
    GroupsAre(files, d.staged, d.stuck, listing, groups);
    RoomMade(d, files, after, groups, cut, before, last, ok);
    GroupsInside(files, d.staged, d.stuck, listing, groups);
    TriedSpares(d, files, start, after, groups, cut);
    OrphansLost(d, files, after);
    OrphansSpared(d, files);
    SparesTrans(files, start, after, d.pins, d.staged, d.protected);
  }

  /** A lease does not protect a payload named like a legacy sidecar: a pass removes it. */
  method LegacyNameLosesPin(base: Name, weather: seq<Weather>)
    returns (before: Files, pins: map<Path, nat>, after: Files)
    requires |weather| > RECOVERY_PASSES && !weather[0].unsafe
    ensures var p := Payload(0, Legacy(base)); p in before && Pinned(pins, p) && p !in after
  {
    var p := Payload(0, Legacy(base));
    before := map[p := File(1, 1, 0, None)];
    var cache := new TeamCache(before, 4096, {});
    cache.pins := map[p := 1];
    pins := cache.pins;
    LegacyShorter(base);
    assert Held(pins, None, p) && Unpaired(before, {}, p);
    var ok, grouped, at, listing := cache.Evict(None, 0, weather);
    after := cache.files;
  }

  // One payload with both kinds of sidecar.
  function TwoSidecars(): Files {
    map[Payload(0, Plain(0)) := File(1, 3, 0, None), Meta(0) := File(2, 1, 0, Some(Plain(0))),
        Payload(0, Legacy(Plain(0))) := File(3, 1, 0, None)]
  }

  lemma TwoSidecarsPaired(stuck: set<Path>)
    ensures var files, t := TwoSidecars(), Payload(0, Plain(0));
            && Paired(files, {}, Meta(0)) && Paired(files, {}, Payload(0, Legacy(Plain(0))))
            && WithoutOrphans(files, {}, stuck) == files && Repeated(files, {}, stuck, t)
  {
    var files, t, m, l := TwoSidecars(), Payload(0, Plain(0)), Meta(0), Payload(0, Legacy(Plain(0)));
    assert forall p :: p in files <==> p == t || p == m || p == l;
    assert TargetOf(m, files[m]) == Some(t) && TargetOf(l, files[l]) == Some(t);
    assert Bundles(files, {}, stuck, m, t) && Bundles(files, {}, stuck, l, t);
  }

  lemma TwoSidecarsBytes()
    ensures Bytes(TwoSidecars(), {}) == 5
  {
    var files, t, m, l := TwoSidecars(), Payload(0, Plain(0)), Meta(0), Payload(0, Legacy(Plain(0)));
    BytesDrop(files, {}, t);
    BytesDrop(files - {t}, {}, m);
    BytesDrop(files - {t} - {m}, {}, l);
    assert Sizes(files - {t} - {m} - {l}, {}) == map[];
  }

  /** If a file is counted twice, a cache that is exactly full loses files for room as soon as one of
      them is removable. */
  lemma CountedTwiceGoes(d: Demand, files: Files, listing: seq<Path>, after: Files, ok: bool, x: Path)
    requires Distinct(listing) && Lists(files, d.staged, listing) && !CountedOnce(files, d.staged, d.stuck)
    requires MakesRoom(d, files, after, ok) && d.over == Over(files, d.staged, d.stuck, listing)
    requires Bytes(WithoutOrphans(files, d.staged, d.stuck), d.staged) + d.reserved == d.limit
    requires x in WithoutOrphans(files, d.staged, d.stuck) && Evictable(d, files, x)
    ensures after != WithoutOrphans(files, d.staged, d.stuck)
  {
    OverExactly(files, d.staged, d.stuck, listing);
    NothingGoesExactly(d, files, after, ok);
  }

  lemma TwoSidecarsRemovable(d: Demand)
    requires d.pins == map[] && d.staged == {} && d.stuck == {} && d.protected == None
    ensures Evictable(d, TwoSidecars(), Payload(0, Plain(0))) && !CountedOnce(TwoSidecars(), {}, {})
  {
    var files, t, m := TwoSidecars(), Payload(0, Plain(0)), Meta(0);
    TwoSidecarsPaired({});
    assert GoesWith(d, files, t, m);
    assert t in files && files[t].size > 0;
  }

  /** Two sidecars of one payload are such a case: nothing is an orphan, everything fits, and a pass
      removes files all the same. */
  lemma TwoSidecarsCountTwice(listing: seq<Path>, after: Files, ok: bool)
    requires Distinct(listing) && Lists(TwoSidecars(), {}, listing)
    requires MakesRoom(Demand(map[], {}, {}, None, 5, 0, Over(TwoSidecars(), {}, {}, listing)), TwoSidecars(), after, ok)
    ensures Bytes(TwoSidecars(), {}) == 5 && WithoutOrphans(TwoSidecars(), {}, {}) == TwoSidecars() && after != TwoSidecars()
  {
    var d := Demand(map[], {}, {}, None, 5, 0, Over(TwoSidecars(), {}, {}, listing));
    TwoSidecarsBytes();
    TwoSidecarsPaired({});
    TwoSidecarsRemovable(d);
    CountedTwiceGoes(d, TwoSidecars(), listing, after, ok, Payload(0, Plain(0)));
  }
}

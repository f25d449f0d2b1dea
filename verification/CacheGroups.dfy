/**
 How a pass sees the files: every payload with its sidecar, and every other file on its own, told
 from the files alone; and how the tally of these groups compares with the bytes there are.
 */
module CacheGroups {
  import opened Wrappers
  import opened CacheFiles

  // A payload with its sidecar, or a file on its own.
  datatype Group = Group(used: nat, size: nat, paths: seq<Path>)

  // ---------------------------------------------------------------- groups of files

  // A sidecar whose payload is there.
  predicate Paired(files: Files, staged: set<Path>, p: Path) {
    && p in files && p !in staged && SidecarShaped(p)
    && var target := TargetOf(p, files[p]); target.Some? && target.value in files && target.value !in staged
  }

  // A payload with a sidecar.
  predicate Tied(files: Files, staged: set<Path>, t: Path) {
    exists p :: p in files && Paired(files, staged, p) && TargetOf(p, files[p]) == Some(t)
  }

  // Named like a sidecar without a payload: a pass removes it, if it can.
  predicate Orphaned(files: Files, staged: set<Path>, p: Path) {
    p in files && p !in staged && Unpaired(files, staged, p)
  }

  // Neither sidecar nor payload of one, and not removed as an orphan.
  predicate Lone(files: Files, staged: set<Path>, stuck: set<Path>, p: Path) {
    && p in files && p !in staged && !Paired(files, staged, p) && !Tied(files, staged, p)
    && (Orphaned(files, staged, p) ==> p in stuck)
  }

  // The file a group is named after.
  predicate Head(files: Files, staged: set<Path>, stuck: set<Path>, p: Path) {
    Paired(files, staged, p) || Lone(files, staged, stuck, p)
  }

  // The group of a head: with its payload if it is a sidecar, last used when the head was.
  function GroupFor(files: Files, staged: set<Path>, p: Path): Group
    requires p in files
  {
    if Paired(files, staged, p) then
      var t := TargetOf(p, files[p]).value;
      Group(files[p].used, files[t].size + files[p].size, [t, p])
    else Group(files[p].used, files[p].size, [p])
  }

  predicate Bundles(files: Files, staged: set<Path>, stuck: set<Path>, h: Path, p: Path) {
    h in files && Head(files, staged, stuck, h) && p in GroupFor(files, staged, h).paths
  }

  // The groups are those of the heads, each of them.
  ghost predicate IsGrouping(files: Files, staged: set<Path>, stuck: set<Path>, groups: seq<Group>) {
    && (forall g :: g in groups ==> exists p :: p in files && Head(files, staged, stuck, p) && g == GroupFor(files, staged, p))
    && (forall p :: p in files && Head(files, staged, stuck, p) ==> GroupFor(files, staged, p) in groups)
  }

  // What is left once the orphans are gone that can go.
  function WithoutOrphans(files: Files, staged: set<Path>, stuck: set<Path>): Files {
    map p | p in files && !(Orphaned(files, staged, p) && p !in stuck) :: files[p]
  }

  // ---------------------------------------------------------------- in the order of a listing

  function PairGroups(files: Files, staged: set<Path>, listing: seq<Path>, n: nat): seq<Group>
    requires n <= |listing| && forall p :: p in listing ==> p in files
  {
    if n == 0 then []
    else
      PairGroups(files, staged, listing, n - 1)
      + if Paired(files, staged, listing[n - 1]) then [GroupFor(files, staged, listing[n - 1])] else []
  }

  function LoneGroups(files: Files, staged: set<Path>, stuck: set<Path>, listing: seq<Path>, n: nat): seq<Group>
    requires n <= |listing| && forall p :: p in listing ==> p in files
  {
    if n == 0 then []
    else
      LoneGroups(files, staged, stuck, listing, n - 1)
      + if Lone(files, staged, stuck, listing[n - 1]) then [GroupFor(files, staged, listing[n - 1])] else []
  }

  function AllGroups(files: Files, staged: set<Path>, stuck: set<Path>, listing: seq<Path>): seq<Group>
    requires forall p :: p in listing ==> p in files
  {
    PairGroups(files, staged, listing, |listing|) + LoneGroups(files, staged, stuck, listing, |listing|)
  }

  lemma {:induction false} PairGroupsAre(files: Files, staged: set<Path>, listing: seq<Path>, n: nat)
    requires n <= |listing| && forall p :: p in listing ==> p in files
    ensures forall g :: g in PairGroups(files, staged, listing, n) <==>
              exists k :: 0 <= k < n && Paired(files, staged, listing[k]) && g == GroupFor(files, staged, listing[k])
  {
    if n == 0 {
    } else {
      PairGroupsAre(files, staged, listing, n - 1);
    }
  }

  lemma {:induction false} LoneGroupsAre(files: Files, staged: set<Path>, stuck: set<Path>, listing: seq<Path>, n: nat)
    requires n <= |listing| && forall p :: p in listing ==> p in files
    ensures forall g :: g in LoneGroups(files, staged, stuck, listing, n) <==>
              exists k :: 0 <= k < n && Lone(files, staged, stuck, listing[k]) && g == GroupFor(files, staged, listing[k])
  {
    if n == 0 {
    } else {
      LoneGroupsAre(files, staged, stuck, listing, n - 1);
    }
  }

  ghost predicate Lists(files: Files, staged: set<Path>, listing: seq<Path>) {
    forall p :: p in listing <==> p in files && p !in staged
  }

  lemma AllGroupsAre(files: Files, staged: set<Path>, stuck: set<Path>, listing: seq<Path>)
    requires Lists(files, staged, listing)
    ensures IsGrouping(files, staged, stuck, AllGroups(files, staged, stuck, listing))
  {
    PairGroupsAre(files, staged, listing, |listing|);
    LoneGroupsAre(files, staged, stuck, listing, |listing|);
    var groups := AllGroups(files, staged, stuck, listing);
    forall p | p in files && Head(files, staged, stuck, p) ensures GroupFor(files, staged, p) in groups {
      var k :| 0 <= k < |listing| && listing[k] == p;
    }
  }

  // ---------------------------------------------------------------- the tally

  function SizeSum(groups: seq<Group>): nat {
    if groups == [] then 0 else SizeSum(groups[..|groups| - 1]) + groups[|groups| - 1].size
  }

  lemma SizeSumMore(groups: seq<Group>, g: Group)
    ensures SizeSum(groups + [g]) == SizeSum(groups) + g.size
  {
    assert (groups + [g])[..|groups|] == groups;
  }

  // How often a file is counted, in bytes.
  function Load(files: Files, groups: seq<Group>, p: Path): nat
    requires p in files
  {
    if groups == [] then 0
    else Load(files, groups[..|groups| - 1], p) + if p in groups[|groups| - 1].paths then files[p].size else 0
  }

  function Loads(files: Files, groups: seq<Group>): map<Path, nat> {
    map p | p in files :: Load(files, groups, p)
  }

  lemma LoadMore(files: Files, groups: seq<Group>, g: Group, p: Path)
    requires p in files
    ensures Load(files, groups + [g], p) == Load(files, groups, p) + if p in g.paths then files[p].size else 0
  {
    assert (groups + [g])[..|groups|] == groups;
  }

  // One or two different files, and their sizes.
  predicate Weighed(files: Files, g: Group) {
    || (|g.paths| == 1 && g.paths[0] in files && g.size == files[g.paths[0]].size)
    || (&& |g.paths| == 2 && g.paths[0] in files && g.paths[1] in files && g.paths[0] != g.paths[1]
        && g.size == files[g.paths[0]].size + files[g.paths[1]].size)
  }

  lemma SumRaise(m: map<Path, nat>, p: Path, n: nat)
    requires p in m
    ensures Sum(m[p := m[p] + n]) == Sum(m) + n
  {
    SumPut(m, p, m[p] + n);
    SumDrop(m, p);
  }

  // One more group raises the load of its files and of no other.
  lemma LoadsRaised(files: Files, groups: seq<Group>, g: Group)
    ensures forall p :: p in files ==>
              Loads(files, groups + [g])[p] == Loads(files, groups)[p] + if p in g.paths then files[p].size else 0
  {
    forall p | p in files
      ensures Load(files, groups + [g], p) == Load(files, groups, p) + if p in g.paths then files[p].size else 0
    {
      LoadMore(files, groups, g, p);
    }
  }

  lemma LoadsOne(m: map<Path, nat>, m': map<Path, nat>, a: Path, n: nat)
    requires m'.Keys == m.Keys && a in m && forall p :: p in m ==> m'[p] == m[p] + if p == a then n else 0
    ensures Sum(m') == Sum(m) + n
  {
    SumRaise(m, a, n);
    assert m' == m[a := m[a] + n];
  }

  lemma LoadsTwo(m: map<Path, nat>, m': map<Path, nat>, a: Path, n: nat, b: Path, k: nat)
    requires m'.Keys == m.Keys && a in m && b in m && a != b
    requires forall p :: p in m ==> m'[p] == m[p] + if p == a then n else if p == b then k else 0
    ensures Sum(m') == Sum(m) + n + k
  {
    var mid := m[a := m[a] + n];
    SumRaise(m, a, n);
    LoadsOne(mid, m', b, k);
  }

  lemma LoadsMore(files: Files, groups: seq<Group>, g: Group)
    requires Weighed(files, g)
    ensures Sum(Loads(files, groups + [g])) == Sum(Loads(files, groups)) + g.size
  {
    var m, m' := Loads(files, groups), Loads(files, groups + [g]);
    LoadsRaised(files, groups, g);
    var a := g.paths[0];
    if |g.paths| == 1 {
      LoadsOne(m, m', a, files[a].size);
    } else {
      LoadsTwo(m, m', a, files[a].size, g.paths[1], files[g.paths[1]].size);
    }
  }

  lemma {:induction false} SumZero(m: map<Path, nat>)
    requires forall p :: p in m ==> m[p] == 0
    ensures Sum(m) == 0
    decreases |m|
  {
    if m == map[] {
    } else {
      var p :| p in m;
      SumTake(m, p);
      SumZero(m - {p});
    }
  }

  lemma {:induction false} LoadsAreTally(files: Files, groups: seq<Group>)
    requires forall g :: g in groups ==> Weighed(files, g)
    ensures Sum(Loads(files, groups)) == SizeSum(groups)
    decreases |groups|
  {
    if groups == [] {
      SumZero(Loads(files, groups));
    } else {
      var n := |groups| - 1;
      LoadsAreTally(files, groups[..n]);
      LoadsMore(files, groups[..n], groups[n]);
      assert groups[..n] + [groups[n]] == groups;
    }
  }

  lemma {:induction false} LegacyShorter(base: Name)
    ensures Legacy(base) != base
    decreases base
  {
    if base.Legacy? {
      LegacyShorter(base.base);
    }
  }

  lemma GroupsWeighed(files: Files, staged: set<Path>, stuck: set<Path>, groups: seq<Group>)
    requires IsGrouping(files, staged, stuck, groups)
    ensures forall g :: g in groups ==> Weighed(files, g)
  {
    forall g | g in groups ensures Weighed(files, g) {
      var p :| p in files && Head(files, staged, stuck, p) && g == GroupFor(files, staged, p);
      if p.Payload? && p.name.Legacy? {
        LegacyShorter(p.name.base);
      }
    }
  }

  // ---------------------------------------------------------------- counted more than once

  ghost predicate NoRepeats(groups: seq<Group>) {
    forall i, j :: 0 <= i < j < |groups| ==> groups[i] != groups[j]
  }

  lemma {:induction false} LoadNone(files: Files, groups: seq<Group>, p: Path)
    requires p in files && forall g :: g in groups ==> p !in g.paths
    ensures Load(files, groups, p) == 0
    decreases |groups|
  {
    if groups == [] {
    } else {
      LoadNone(files, groups[..|groups| - 1], p);
    }
  }

  lemma {:induction false} LoadSome(files: Files, groups: seq<Group>, p: Path, k: nat)
    requires p in files && k < |groups| && p in groups[k].paths
    ensures Load(files, groups, p) >= files[p].size
    decreases |groups|
  {
    if k < |groups| - 1 {
      LoadSome(files, groups[..|groups| - 1], p, k);
    }
  }

  lemma {:induction false} LoadTwice(files: Files, groups: seq<Group>, p: Path, j: nat, k: nat)
    requires p in files && j < k < |groups| && p in groups[j].paths && p in groups[k].paths
    ensures Load(files, groups, p) >= 2 * files[p].size
    decreases |groups|
  {
    if k < |groups| - 1 {
      LoadTwice(files, groups[..|groups| - 1], p, j, k);
    } else {
      LoadSome(files, groups[..|groups| - 1], p, j);
    }
  }

  lemma {:induction false} LoadOnce(files: Files, groups: seq<Group>, p: Path)
    requires p in files && forall j, k :: 0 <= j < k < |groups| ==> !(p in groups[j].paths && p in groups[k].paths)
    ensures Load(files, groups, p) <= files[p].size
    decreases |groups|
  {
    if groups == [] {
    } else {
      var n := |groups| - 1;
      if p in groups[n].paths {
        assert forall g :: g in groups[..n] ==> p !in g.paths;
        LoadNone(files, groups[..n], p);
      } else {
        LoadOnce(files, groups[..n], p);
      }
    }
  }

  // In two groups, or in one although it is gone as an orphan.
  predicate Repeated(files: Files, staged: set<Path>, stuck: set<Path>, p: Path) {
    || (exists h, h' :: h in files && h' in files && h != h' && Bundles(files, staged, stuck, h, p) && Bundles(files, staged, stuck, h', p))
    || (Orphaned(files, staged, p) && p !in stuck && exists h :: h in files && Bundles(files, staged, stuck, h, p))
  }

  // Every file with contents is counted as often as it is there.
  ghost predicate CountedOnce(files: Files, staged: set<Path>, stuck: set<Path>) {
    forall p :: p in files && files[p].size > 0 ==> !Repeated(files, staged, stuck, p)
  }

  lemma HeadOf(files: Files, staged: set<Path>, stuck: set<Path>, groups: seq<Group>, g: Group, p: Path) returns (h: Path)
    requires IsGrouping(files, staged, stuck, groups) && g in groups && p in g.paths
    ensures h in files && Bundles(files, staged, stuck, h, p) && g == GroupFor(files, staged, h)
  {
    h :| h in files && Head(files, staged, stuck, h) && g == GroupFor(files, staged, h);
  }

  lemma HeadIsLast(files: Files, staged: set<Path>, h: Path)
    requires h in files
    ensures var g := GroupFor(files, staged, h); g.paths != [] && g.paths[|g.paths| - 1] == h
  {
  }

  // A file that is there is in some group.
  lemma Covered(files: Files, staged: set<Path>, stuck: set<Path>, p: Path) returns (h: Path)
    requires p in WithoutOrphans(files, staged, stuck) && p !in staged
    ensures h in files && Bundles(files, staged, stuck, h, p)
  {
    if Tied(files, staged, p) && !Paired(files, staged, p) {
      h :| h in files && Paired(files, staged, h) && TargetOf(h, files[h]) == Some(p);
    } else {
      h := p;
    }
  }

  function There(files: Files, staged: set<Path>, stuck: set<Path>, p: Path): nat {
    if p in WithoutOrphans(files, staged, stuck) && p !in staged then files[p].size else 0
  }

  lemma LoadOfOne(files: Files, staged: set<Path>, stuck: set<Path>, groups: seq<Group>, p: Path, h: Path)
    requires IsGrouping(files, staged, stuck, groups) && p in files && h in files && Bundles(files, staged, stuck, h, p)
    ensures Load(files, groups, p) >= files[p].size
  {
    var k :| 0 <= k < |groups| && groups[k] == GroupFor(files, staged, h);
    LoadSome(files, groups, p, k);
  }

  lemma LoadAtLeast(files: Files, staged: set<Path>, stuck: set<Path>, groups: seq<Group>, p: Path)
    requires IsGrouping(files, staged, stuck, groups) && p in files
    ensures There(files, staged, stuck, p) <= Load(files, groups, p)
  {
    if p in WithoutOrphans(files, staged, stuck) && p !in staged {
      var h := Covered(files, staged, stuck, p);
      LoadOfOne(files, staged, stuck, groups, p, h);
    }
  }

  lemma LoadOfTwo(files: Files, staged: set<Path>, stuck: set<Path>, groups: seq<Group>, p: Path, h: Path, h': Path)
    requires IsGrouping(files, staged, stuck, groups) && p in files && h in files && h' in files && h != h'
    requires Bundles(files, staged, stuck, h, p) && Bundles(files, staged, stuck, h', p)
    ensures Load(files, groups, p) >= 2 * files[p].size
  {
    HeadIsLast(files, staged, h);
    HeadIsLast(files, staged, h');
    var j :| 0 <= j < |groups| && groups[j] == GroupFor(files, staged, h);
    var k :| 0 <= k < |groups| && groups[k] == GroupFor(files, staged, h');
    if j < k {
      LoadTwice(files, groups, p, j, k);
    } else {
      LoadTwice(files, groups, p, k, j);
    }
  }

  lemma LoadRepeated(files: Files, staged: set<Path>, stuck: set<Path>, groups: seq<Group>, p: Path)
    requires IsGrouping(files, staged, stuck, groups) && p in files && files[p].size > 0 && Repeated(files, staged, stuck, p)
    ensures Load(files, groups, p) > There(files, staged, stuck, p)
  {
    if h, h' :| h in files && h' in files && h != h' && Bundles(files, staged, stuck, h, p) && Bundles(files, staged, stuck, h', p) {
      LoadOfTwo(files, staged, stuck, groups, p, h, h');
    } else {
      var h :| h in files && Bundles(files, staged, stuck, h, p);
      LoadOfOne(files, staged, stuck, groups, p, h);
    }
  }

  lemma LoadSingle(files: Files, staged: set<Path>, stuck: set<Path>, groups: seq<Group>, p: Path)
    requires IsGrouping(files, staged, stuck, groups) && NoRepeats(groups) && p in files && !Repeated(files, staged, stuck, p)
    ensures Load(files, groups, p) <= There(files, staged, stuck, p)
  {
    if p in WithoutOrphans(files, staged, stuck) && p !in staged {
      forall j, k | 0 <= j < k < |groups| ensures !(p in groups[j].paths && p in groups[k].paths) {
        if p in groups[j].paths && p in groups[k].paths {
          var h := HeadOf(files, staged, stuck, groups, groups[j], p);
          var h' := HeadOf(files, staged, stuck, groups, groups[k], p);
        }
      }
      LoadOnce(files, groups, p);
    } else {
      forall g | g in groups ensures p !in g.paths {
        if p in g.paths {
          var h := HeadOf(files, staged, stuck, groups, g, p);
        }
      }
      LoadNone(files, groups, p);
    }
  }

  lemma {:induction false} SumSame(a: map<Path, nat>, b: map<Path, nat>)
    requires forall p :: p in a ==> p in b && a[p] <= b[p]
    ensures Sum(a) == Sum(b) <==> forall p :: p in b ==> b[p] == if p in a then a[p] else 0
    decreases |b|
  {
    if b == map[] {
      assert a == map[];
    } else {
      var p :| p in b;
      SumTake(b, p);
      SumAtMost(a - {p}, b - {p});
      SumDrop(a, p);
      SumSame(a - {p}, b - {p});
      assert forall q :: q in b <==> q == p || q in b - {p};
    }
  }

  /** The tally is never less than the bytes that are left once the orphans are gone, and equals them
      exactly if no file with contents is counted twice or counted although it is gone. */
  lemma TallyExactly(files: Files, staged: set<Path>, stuck: set<Path>, groups: seq<Group>)
    requires IsGrouping(files, staged, stuck, groups) && NoRepeats(groups)
    ensures SizeSum(groups) >= Bytes(WithoutOrphans(files, staged, stuck), staged)
    ensures SizeSum(groups) == Bytes(WithoutOrphans(files, staged, stuck), staged) <==> CountedOnce(files, staged, stuck)
  {
    GroupsWeighed(files, staged, stuck, groups);
    LoadsAreTally(files, groups);
    var a, b := Sizes(WithoutOrphans(files, staged, stuck), staged), Loads(files, groups);
    forall p | p in files ensures There(files, staged, stuck, p) <= b[p] {
      LoadAtLeast(files, staged, stuck, groups, p);
    }
    SumAtMost(a, b);
    SumSame(a, b);
    forall p | p in files
      ensures b[p] == There(files, staged, stuck, p) <==> !(files[p].size > 0 && Repeated(files, staged, stuck, p))
    {
      LoadEither(files, staged, stuck, groups, p);
    }
  }

  lemma LoadEither(files: Files, staged: set<Path>, stuck: set<Path>, groups: seq<Group>, p: Path)
    requires IsGrouping(files, staged, stuck, groups) && NoRepeats(groups) && p in files
    ensures Load(files, groups, p) == There(files, staged, stuck, p) <==> !(files[p].size > 0 && Repeated(files, staged, stuck, p))
  {
    LoadAtLeast(files, staged, stuck, groups, p);
    if !Repeated(files, staged, stuck, p) {
      LoadSingle(files, staged, stuck, groups, p);
    } else if files[p].size > 0 {
      LoadRepeated(files, staged, stuck, groups, p);
    } else {
      LoadWeightless(files, groups, p);
    }
  }

  lemma {:induction false} LoadWeightless(files: Files, groups: seq<Group>, p: Path)
    requires p in files && files[p].size == 0
    ensures Load(files, groups, p) == 0
    decreases |groups|
  {
    if groups == [] {
    } else {
      LoadWeightless(files, groups[..|groups| - 1], p);
    }
  }

  // Every sidecar has a payload of its own that is no sidecar itself.
  ghost predicate Simple(files: Files, staged: set<Path>) {
    && (forall p :: p in files && Paired(files, staged, p) ==> !SidecarShaped(TargetOf(p, files[p]).value))
    && (forall p, q :: p in files && q in files && Paired(files, staged, p) && Paired(files, staged, q) && p != q ==>
          TargetOf(p, files[p]) != TargetOf(q, files[q]))
  }

  /** What the cache itself leaves behind is counted once. */
  lemma SimpleCounted(files: Files, staged: set<Path>, stuck: set<Path>)
    requires Simple(files, staged)
    ensures CountedOnce(files, staged, stuck)
  {
    forall p | p in files ensures !Repeated(files, staged, stuck, p) {
      forall h, h' | h in files && h' in files && Bundles(files, staged, stuck, h, p) && Bundles(files, staged, stuck, h', p)
        ensures h == h'
      {
        assert h == p || (Paired(files, staged, h) && TargetOf(h, files[h]) == Some(p));
        assert h' == p || (Paired(files, staged, h') && TargetOf(h', files[h']) == Some(p));
      }
      if Orphaned(files, staged, p) && p !in stuck {
        forall h | h in files ensures !Bundles(files, staged, stuck, h, p) {
        }
      }
    }
  }

  // ---------------------------------------------------------------- what pairing takes

  // Grouped with p, or removed as the orphan p.
  predicate TakenWith(files: Files, staged: set<Path>, stuck: set<Path>, p: Path, x: Path)
    requires p in files
  {
    || (Paired(files, staged, p) && (x == p || TargetOf(p, files[p]) == Some(x)))
    || (Orphaned(files, staged, p) && p !in stuck && x == p)
  }

  predicate TakenBy(files: Files, staged: set<Path>, stuck: set<Path>, listing: seq<Path>, n: nat, x: Path)
    requires n <= |listing| && forall p :: p in listing ==> p in files
  {
    exists k :: 0 <= k < n && TakenWith(files, staged, stuck, listing[k], x)
  }

  // What is left over is on its own.
  lemma RestIsLone(files: Files, staged: set<Path>, stuck: set<Path>, listing: seq<Path>, x: Path)
    requires Lists(files, staged, listing) && x in listing
    ensures !TakenBy(files, staged, stuck, listing, |listing|, x) <==> Lone(files, staged, stuck, x)
  {
    var j :| 0 <= j < |listing| && listing[j] == x;
    if Tied(files, staged, x) {
      var p :| p in files && Paired(files, staged, p) && TargetOf(p, files[p]) == Some(x);
      assert p in listing;
      var k :| 0 <= k < |listing| && listing[k] == p;
      assert TakenWith(files, staged, stuck, listing[k], x);
    }
    assert Paired(files, staged, x) || (Orphaned(files, staged, x) && x !in stuck) ==> TakenWith(files, staged, stuck, listing[j], x);
  }

  lemma RestAreLone(files: Files, staged: set<Path>, stuck: set<Path>, listing: seq<Path>, paired: set<Path>)
    requires Lists(files, staged, listing)
    requires forall x :: x in paired <==> TakenBy(files, staged, stuck, listing, |listing|, x)
    ensures forall p :: p in listing ==> (p !in paired <==> Lone(files, staged, stuck, p))
  {
    forall p | p in listing ensures p !in paired <==> Lone(files, staged, stuck, p) {
      RestIsLone(files, staged, stuck, listing, p);
    }
  }

  // The files once the orphans among the first n are gone.
  function WithoutFirst(files: Files, staged: set<Path>, stuck: set<Path>, listing: seq<Path>, n: nat): Files
    requires n <= |listing|
  {
    map p | p in files && !(p in listing[..n] && Orphaned(files, staged, p) && p !in stuck) :: files[p]
  }

  lemma TakenOneMore(files: Files, staged: set<Path>, stuck: set<Path>, listing: seq<Path>, n: nat)
    requires n < |listing| && forall p :: p in listing ==> p in files
    ensures forall x :: TakenBy(files, staged, stuck, listing, n + 1, x)
              <==> TakenBy(files, staged, stuck, listing, n, x) || TakenWith(files, staged, stuck, listing[n], x)
  {
  }

  lemma WithoutOneMore(files: Files, staged: set<Path>, stuck: set<Path>, listing: seq<Path>, n: nat)
    requires n < |listing| && Distinct(listing) && listing[n] in files
    ensures var p := listing[n];
            var before, after := WithoutFirst(files, staged, stuck, listing, n), WithoutFirst(files, staged, stuck, listing, n + 1);
            && p in before
            && after == if Orphaned(files, staged, p) && p !in stuck then before - {p} else before
  {
    assert listing[..n + 1] == listing[..n] + [listing[n]];
  }

  // Pairing has come to file n of the listing, and these are the files, groups and tally.
  ghost predicate PairedTo(files: Files, staged: set<Path>, stuck: set<Path>, listing: seq<Path>, n: nat,
                           now: Files, groups: seq<Group>, total: nat, paired: set<Path>)
    requires n <= |listing| && forall p :: p in listing ==> p in files
  {
    && now == WithoutFirst(files, staged, stuck, listing, n)
    && groups == PairGroups(files, staged, listing, n) && total == SizeSum(groups)
    && forall x :: x in paired <==> TakenBy(files, staged, stuck, listing, n, x)
  }

  lemma PairStarts(files: Files, staged: set<Path>, stuck: set<Path>, listing: seq<Path>)
    requires forall p :: p in listing ==> p in files
    ensures PairedTo(files, staged, stuck, listing, 0, files, [], 0, {})
  {
    assert WithoutFirst(files, staged, stuck, listing, 0) == files;
  }

  lemma PairNext(files: Files, staged: set<Path>, stuck: set<Path>, listing: seq<Path>, n: nat,
                 now: Files, groups: seq<Group>, total: nat, paired: set<Path>)
    requires n < |listing| && Distinct(listing) && forall p :: p in listing ==> p in files
    requires PairedTo(files, staged, stuck, listing, n, now, groups, total, paired) && Paired(files, staged, listing[n])
    ensures var p := listing[n];
            var t := TargetOf(p, files[p]).value;
            var g := Group(files[p].used, files[t].size + files[p].size, [t, p]);
            PairedTo(files, staged, stuck, listing, n + 1, now, groups + [g], total + g.size, paired + {t, p})
  {
    TakenOneMore(files, staged, stuck, listing, n);
    WithoutOneMore(files, staged, stuck, listing, n);
    SizeSumMore(groups, GroupFor(files, staged, listing[n]));
  }

  lemma OrphanNext(files: Files, staged: set<Path>, stuck: set<Path>, listing: seq<Path>, n: nat,
                   now: Files, groups: seq<Group>, total: nat, paired: set<Path>)
    requires n < |listing| && Distinct(listing) && forall p :: p in listing ==> p in files
    requires PairedTo(files, staged, stuck, listing, n, now, groups, total, paired)
    requires Orphaned(files, staged, listing[n]) && listing[n] !in stuck
    ensures listing[n] in now
    ensures PairedTo(files, staged, stuck, listing, n + 1, now - {listing[n]}, groups, total, paired + {listing[n]})
  {
    TakenOneMore(files, staged, stuck, listing, n);
    WithoutOneMore(files, staged, stuck, listing, n);
  }

  lemma OtherNext(files: Files, staged: set<Path>, stuck: set<Path>, listing: seq<Path>, n: nat,
                  now: Files, groups: seq<Group>, total: nat, paired: set<Path>)
    requires n < |listing| && Distinct(listing) && forall p :: p in listing ==> p in files
    requires PairedTo(files, staged, stuck, listing, n, now, groups, total, paired)
    requires !Paired(files, staged, listing[n]) && (Orphaned(files, staged, listing[n]) ==> listing[n] in stuck)
    ensures PairedTo(files, staged, stuck, listing, n + 1, now, groups, total, paired)
  {
    TakenOneMore(files, staged, stuck, listing, n);
    WithoutOneMore(files, staged, stuck, listing, n);
  }

  lemma WithoutAll(files: Files, staged: set<Path>, stuck: set<Path>, listing: seq<Path>)
    requires Lists(files, staged, listing)
    ensures WithoutFirst(files, staged, stuck, listing, |listing|) == WithoutOrphans(files, staged, stuck)
  {
    assert listing[..|listing|] == listing;
  }

  // ---------------------------------------------------------------- no group twice

  predicate HeadsIn(groups: seq<Group>, listing: seq<Path>, n: nat)
    requires n <= |listing|
  {
    forall g :: g in groups ==> g.paths != [] && g.paths[|g.paths| - 1] in listing[..n]
  }

  lemma {:induction false} PairsOnce(files: Files, staged: set<Path>, listing: seq<Path>, n: nat)
    requires n <= |listing| && Distinct(listing) && forall p :: p in listing ==> p in files
    ensures NoRepeats(PairGroups(files, staged, listing, n)) && HeadsIn(PairGroups(files, staged, listing, n), listing, n)
  {
    if n == 0 {
    } else {
      PairsOnce(files, staged, listing, n - 1);
      assert listing[..n] == listing[..n - 1] + [listing[n - 1]];
      HeadIsLast(files, staged, listing[n - 1]);
    }
  }

  lemma {:induction false} LonesOnce(files: Files, staged: set<Path>, stuck: set<Path>, listing: seq<Path>, n: nat)
    requires n <= |listing| && Distinct(listing) && forall p :: p in listing ==> p in files
    ensures NoRepeats(LoneGroups(files, staged, stuck, listing, n)) && HeadsIn(LoneGroups(files, staged, stuck, listing, n), listing, n)
  {
    if n == 0 {
    } else {
      LonesOnce(files, staged, stuck, listing, n - 1);
      assert listing[..n] == listing[..n - 1] + [listing[n - 1]];
      HeadIsLast(files, staged, listing[n - 1]);
    }
  }

  lemma AllOnce(files: Files, staged: set<Path>, stuck: set<Path>, listing: seq<Path>)
    requires Distinct(listing) && forall p :: p in listing ==> p in files
    ensures NoRepeats(AllGroups(files, staged, stuck, listing))
  {
    PairsOnce(files, staged, listing, |listing|);
    LonesOnce(files, staged, stuck, listing, |listing|);
    PairGroupsAre(files, staged, listing, |listing|);
    LoneGroupsAre(files, staged, stuck, listing, |listing|);
    var pairs, lones := PairGroups(files, staged, listing, |listing|), LoneGroups(files, staged, stuck, listing, |listing|);
    forall g, g' | g in pairs && g' in lones ensures g != g' {
      assert |g.paths| == 2 && |g'.paths| == 1;
    }
    JoinOnce(pairs, lones);
  }

  lemma JoinOnce(a: seq<Group>, b: seq<Group>)
    requires NoRepeats(a) && NoRepeats(b) && forall g, g' :: g in a && g' in b ==> g != g'
    ensures NoRepeats(a + b)
  {
    forall i, j | 0 <= i < j < |a + b| ensures (a + b)[i] != (a + b)[j] {
      if i < |a| <= j {
        assert (a + b)[i] in a && (a + b)[j] in b;
      }
    }
  }

  // ---------------------------------------------------------------- what is counted too often

  // By how much the tally of the listed files exceeds what is left of them.
  ghost function Over(files: Files, staged: set<Path>, stuck: set<Path>, listing: seq<Path>): int
    requires Lists(files, staged, listing)
  {
    SizeSum(AllGroups(files, staged, stuck, listing)) - Bytes(WithoutOrphans(files, staged, stuck), staged)
  }

  /** Whatever the order of the listing, nothing is counted too seldom, and nothing too often exactly if
      no file with contents is in two groups, or in one although it is gone. */
  lemma OverExactly(files: Files, staged: set<Path>, stuck: set<Path>, listing: seq<Path>)
    requires Distinct(listing) && Lists(files, staged, listing)
    ensures Over(files, staged, stuck, listing) >= 0
    ensures Over(files, staged, stuck, listing) == 0 <==> CountedOnce(files, staged, stuck)
  {
    AllGroupsAre(files, staged, stuck, listing);
    AllOnce(files, staged, stuck, listing);
    TallyExactly(files, staged, stuck, AllGroups(files, staged, stuck, listing));
  }

  lemma OverIsNat(files: Files, staged: set<Path>, stuck: set<Path>, listing: seq<Path>)
    requires Distinct(listing) && Lists(files, staged, listing)
    ensures Over(files, staged, stuck, listing) >= 0
  {
    OverExactly(files, staged, stuck, listing);
  }
}

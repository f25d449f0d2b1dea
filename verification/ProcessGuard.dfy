/**
 Which processes belong to a supervised child: bounded search of a process snapshot, what is
 remembered over a run of snapshots, and who is signalled.
 */
module ProcessGuard {

  type Pid = int

  datatype Identity = Identity(pid: Pid, parent: Pid, group: int, started: string)

  type Snapshot = map<Pid, Identity>

  // Snapshots list each process under its own pid.
  predicate Indexed(snap: Snapshot) {
    forall p :: p in snap ==> snap[p].pid == p
  }

  const MAX_CAPTURED: nat := 4096

  // ---------------------------------------------------------------- reachability

  // A parent-to-child path inside the snapshot, starting at a root.
  predicate IsPath(snap: Snapshot, roots: set<Pid>, path: seq<Pid>) {
    && |path| >= 1 && path[0] in roots
    && forall i {:trigger path[i]} :: 0 < i < |path| ==> path[i] in snap && snap[path[i]].parent == path[i - 1]
  }

  ghost predicate Reaches(snap: Snapshot, roots: set<Pid>, p: Pid) {
    exists path :: IsPath(snap, roots, path) && path[|path| - 1] == p
  }

  lemma ReachesChild(snap: Snapshot, roots: set<Pid>, p: Pid)
    requires p in snap && Reaches(snap, roots, snap[p].parent)
    ensures Reaches(snap, roots, p)
  {
    var path :| IsPath(snap, roots, path) && path[|path| - 1] == snap[p].parent;
    assert IsPath(snap, roots, path + [p]);
    assert (path + [p])[|path + [p]| - 1] == p;
  }

  lemma ReachesRoot(snap: Snapshot, roots: set<Pid>, p: Pid)
    requires p in roots
    ensures Reaches(snap, roots, p)
  {
    assert IsPath(snap, roots, [p]) && [p][|[p]| - 1] == p;
  }

  // Whatever contains the roots and is closed under children contains all that is reachable.
  lemma {:induction false} ClosedHolds(snap: Snapshot, roots: set<Pid>, seen: set<Pid>, path: seq<Pid>)
    requires roots <= seen && IsPath(snap, roots, path)
    requires forall p :: p in snap && snap[p].parent in seen ==> p in seen
    ensures path[|path| - 1] in seen
    decreases |path|
  {
    if |path| == 1 {
    } else {
      var front := path[..|path| - 1];
      assert IsPath(snap, roots, front);
      ClosedHolds(snap, roots, seen, front);
      assert path[|path| - 1] in snap;
    }
  }

  // ---------------------------------------------------------------- the bounded search

  ghost predicate ChildrenOf(snap: Snapshot, p: Pid, kids: seq<Identity>) {
    && (forall k :: k in kids ==> k.pid in snap && snap[k.pid] == k && k.parent == p)
    && (forall q :: q in snap && snap[q].parent == p ==> snap[q] in kids)
  }

  ghost predicate FiledUnder(snap: Snapshot, children: map<Pid, seq<Identity>>) {
    forall p, k :: p in children && k in children[p] ==> k.pid in snap && snap[k.pid] == k && k.parent == p
  }

  ghost predicate Filed(snap: Snapshot, children: map<Pid, seq<Identity>>, q: Pid)
    requires q in snap
  {
    snap[q].parent in children && snap[q] in children[snap[q].parent]
  }

  lemma NonEmpty(s: set<Pid>)
    requires s != {}
    ensures exists p :: p in s
  {
    if forall p: int :: p !in s {
      assert false;
    }
  }

  method Pick(s: set<Pid>) returns (p: Pid)
    requires s != {}
    ensures p in s
  {
    NonEmpty(s);
    p :| p in s;
  }

  method IndexChildren(snap: Snapshot) returns (children: map<Pid, seq<Identity>>)
    requires Indexed(snap)
    ensures forall p :: p in children ==> ChildrenOf(snap, p, children[p])
    ensures forall q :: q in snap ==> snap[q].parent in children
  {
    children := map[];
    var left := snap.Keys;
    while left != {}
      invariant left <= snap.Keys
      invariant FiledUnder(snap, children)
      invariant forall q :: q in snap && q !in left ==> Filed(snap, children, q)
      decreases |left|
    {
      var q := Pick(left);
      var p := snap[q].parent;
      children := children[p := (if p in children then children[p] else []) + [snap[q]]];
      left := left - {q};
    }
    forall p | p in children ensures ChildrenOf(snap, p, children[p]) {
      assert forall q :: q in snap && snap[q].parent == p ==> Filed(snap, children, q);
    }
  }

  // What the search returns: no root, nobody twice, only reachable processes, at most the bound,
  // and below the bound every reachable one.
  ghost predicate Found(snap: Snapshot, roots: set<Pid>, found: seq<Identity>) {
    && (forall i :: 0 <= i < |found| ==>
          found[i].pid in snap && snap[found[i].pid] == found[i] && found[i].pid !in roots && Reaches(snap, roots, found[i].pid))
    && (forall i, j :: 0 <= i < j < |found| ==> found[i].pid != found[j].pid)
    && |found| <= MAX_CAPTURED
  }

  ghost predicate FoundAll(snap: Snapshot, roots: set<Pid>, found: seq<Identity>) {
    forall p :: p in snap && p !in roots && Reaches(snap, roots, p) ==> snap[p] in found
  }

  // The children of everyone seen are seen, except for those still pending or in `open`.
  ghost predicate Closed(snap: Snapshot, seen: set<Pid>, pending: seq<Pid>, open: set<Pid>) {
    forall p :: p in snap && snap[p].parent in seen && snap[p].parent !in pending && snap[p].parent !in open ==> p in seen
  }

  ghost predicate SeenOk(snap: Snapshot, roots: set<Pid>, seen: set<Pid>, pending: seq<Pid>, found: seq<Identity>) {
    && roots <= seen
    && (forall p :: p in seen && p !in roots ==> p in snap && snap[p] in found)
    && (forall i :: 0 <= i < |found| ==> found[i].pid in seen)
    && (forall p :: p in pending ==> p in seen)
    && (forall p :: p in seen ==> Reaches(snap, roots, p))
  }

  lemma VisitOne(snap: Snapshot, roots: set<Pid>, p: Pid, kid: Identity, seen: set<Pid>, pending: seq<Pid>, found: seq<Identity>)
    requires SeenOk(snap, roots, seen, pending, found) && Found(snap, roots, found) && |found| < MAX_CAPTURED
    requires kid.pid in snap && snap[kid.pid] == kid && kid.parent == p && p in seen && kid.pid !in seen
    ensures SeenOk(snap, roots, seen + {kid.pid}, pending + [kid.pid], found + [kid])
    ensures Found(snap, roots, found + [kid])
  {
    ReachesChild(snap, roots, kid.pid);
  }

  lemma ClosedOne(snap: Snapshot, p: Pid, kid: Pid, seen: set<Pid>, pending: seq<Pid>)
    requires Closed(snap, seen, pending, {p})
    ensures Closed(snap, seen + {kid}, pending + [kid], {p})
  {
  }

  // What visiting has added so far: only processes of the snapshot, and nothing pending without
  // having been seen anew.
  ghost predicate Grown(snap: Snapshot, seen0: set<Pid>, pending0: seq<Pid>, seen: set<Pid>, pending: seq<Pid>) {
    seen0 <= seen && (seen == seen0 ==> pending == pending0) && seen - seen0 <= snap.Keys
  }

  lemma GrownOne(snap: Snapshot, seen0: set<Pid>, pending0: seq<Pid>, seen: set<Pid>, pending: seq<Pid>, kid: Pid)
    requires Grown(snap, seen0, pending0, seen, pending) && kid in snap && kid !in seen
    ensures Grown(snap, seen0, pending0, seen + {kid}, pending + [kid])
  {
  }

  // The search between two processes.
  datatype Frontier = Frontier(seen: set<Pid>, pending: seq<Pid>, found: seq<Identity>)

  function VisitKid(f: Frontier, kid: Identity): Frontier {
    if |f.found| >= MAX_CAPTURED || kid.pid in f.seen then f
    else Frontier(f.seen + {kid.pid}, f.pending + [kid.pid], f.found + [kid])
  }

  // The first i children visited.
  function VisitKids(f: Frontier, kids: seq<Identity>, i: nat): Frontier
    requires i <= |kids|
  {
    if i == 0 then f else VisitKid(VisitKids(f, kids, i - 1), kids[i - 1])
  }

  ghost predicate Visiting(snap: Snapshot, roots: set<Pid>, p: Pid, f0: Frontier, f: Frontier) {
    && SeenOk(snap, roots, f.seen, f.pending, f.found) && Found(snap, roots, f.found)
    && Closed(snap, f.seen, f.pending, {p})
    && Grown(snap, f0.seen, f0.pending, f.seen, f.pending)
  }

  lemma VisitKidKeeps(snap: Snapshot, roots: set<Pid>, p: Pid, f0: Frontier, f: Frontier, kid: Identity)
    requires Visiting(snap, roots, p, f0, f) && p in f.seen
    requires kid.pid in snap && snap[kid.pid] == kid && kid.parent == p
    ensures Visiting(snap, roots, p, f0, VisitKid(f, kid))
  {
    if |f.found| < MAX_CAPTURED && kid.pid !in f.seen {
      VisitOne(snap, roots, p, kid, f.seen, f.pending, f.found);
      ClosedOne(snap, p, kid.pid, f.seen, f.pending);
      GrownOne(snap, f0.seen, f0.pending, f.seen, f.pending, kid.pid);
    }
  }

  lemma {:induction false} VisitKidsKeeps(snap: Snapshot, roots: set<Pid>, p: Pid, f0: Frontier, kids: seq<Identity>, i: nat)
    requires Visiting(snap, roots, p, f0, f0) && p in f0.seen && ChildrenOf(snap, p, kids) && i <= |kids|
    ensures Visiting(snap, roots, p, f0, VisitKids(f0, kids, i))
  {
    if i == 0 {
    } else {
      VisitKidsKeeps(snap, roots, p, f0, kids, i - 1);
      assert kids[i - 1] in kids;
      VisitKidKeeps(snap, roots, p, f0, VisitKids(f0, kids, i - 1), kids[i - 1]);
    }
  }

  lemma {:induction false} KidsSeen(f: Frontier, kids: seq<Identity>, i: nat, k: nat)
    requires k < i <= |kids| && |VisitKids(f, kids, i).found| < MAX_CAPTURED
    ensures kids[k].pid in VisitKids(f, kids, i).seen
  {
    if k == i - 1 {
    } else {
      KidsSeen(f, kids, i - 1, k);
    }
  }

  lemma {:induction false} Saturated(f: Frontier, kids: seq<Identity>, i: nat, n: nat)
    requires i <= n <= |kids| && |VisitKids(f, kids, i).found| >= MAX_CAPTURED
    ensures VisitKids(f, kids, n) == VisitKids(f, kids, i)
  {
    if i == n {
    } else {
      Saturated(f, kids, i, n - 1);
    }
  }

  // Visits one process's children, up to the bound.
  method VisitChildren(kids: seq<Identity>, f0: Frontier) returns (f: Frontier)
    ensures f == VisitKids(f0, kids, |kids|)
  {
    f := f0;
    var i := 0;
    while i < |kids| && |f.found| < MAX_CAPTURED
      invariant 0 <= i <= |kids|
      invariant f == VisitKids(f0, kids, i)
    {
      if kids[i].pid !in f.seen {
        f := Frontier(f.seen + {kids[i].pid}, f.pending + [kids[i].pid], f.found + [kids[i]]);
      }
      i := i + 1;
    }
    if i < |kids| {
      Saturated(f0, kids, i, |kids|);
    }
  }

  // What visiting all children of a seen process gives the search.
  lemma VisitedKeeps(snap: Snapshot, roots: set<Pid>, p: Pid, kids: seq<Identity>, f0: Frontier)
    requires Indexed(snap) && Visiting(snap, roots, p, f0, f0) && p in f0.seen && ChildrenOf(snap, p, kids)
    ensures var f := VisitKids(f0, kids, |kids|);
            && SeenOk(snap, roots, f.seen, f.pending, f.found) && Found(snap, roots, f.found)
            && Grown(snap, f0.seen, f0.pending, f.seen, f.pending)
            && (|f.found| < MAX_CAPTURED ==> Closed(snap, f.seen, f.pending, {}))
  {
    VisitKidsKeeps(snap, roots, p, f0, kids, |kids|);
    var f := VisitKids(f0, kids, |kids|);
    if |f.found| < MAX_CAPTURED {
      forall k | 0 <= k < |kids| ensures kids[k].pid in f.seen {
        KidsSeen(f0, kids, |kids|, k);
      }
      ClosedDone(snap, p, kids, f.seen, f.pending);
    }
  }

  lemma ClosedDone(snap: Snapshot, p: Pid, kids: seq<Identity>, seen: set<Pid>, pending: seq<Pid>)
    requires Indexed(snap) && ChildrenOf(snap, p, kids) && Closed(snap, seen, pending, {p})
    requires forall k :: 0 <= k < |kids| ==> kids[k].pid in seen
    ensures Closed(snap, seen, pending, {})
  {
  }

  // The search between two processes, all children of everybody else visited below the bound.
  ghost predicate Searching(snap: Snapshot, roots: set<Pid>, f: Frontier) {
    && SeenOk(snap, roots, f.seen, f.pending, f.found) && Found(snap, roots, f.found)
    && (|f.found| < MAX_CAPTURED ==> Closed(snap, f.seen, f.pending, {}))
  }

  lemma SearchStarts(snap: Snapshot, rootList: seq<Pid>)
    ensures var roots := set p | p in rootList; Searching(snap, roots, Frontier(roots, rootList, []))
  {
    var roots := set p | p in rootList;
    forall p | p in roots ensures Reaches(snap, roots, p) {
      ReachesRoot(snap, roots, p);
    }
  }

  function Popped(f: Frontier): Frontier
    requires f.pending != []
  {
    f.(pending := f.pending[..|f.pending| - 1])
  }

  // Taking the last pending process leaves only its own children to visit.
  lemma SearchPops(snap: Snapshot, roots: set<Pid>, f: Frontier)
    requires Searching(snap, roots, f) && f.pending != [] && |f.found| < MAX_CAPTURED
    ensures var p := f.pending[|f.pending| - 1]; p in f.seen && Visiting(snap, roots, p, Popped(f), Popped(f))
  {
    var p := f.pending[|f.pending| - 1];
    assert forall q :: q in f.pending ==> q in Popped(f).pending || q == p;
  }

  // A process without children leaves nothing to visit.
  lemma SearchSkips(snap: Snapshot, roots: set<Pid>, f: Frontier)
    requires Searching(snap, roots, f) && f.pending != [] && |f.found| < MAX_CAPTURED
    requires forall q :: q in snap ==> snap[q].parent != f.pending[|f.pending| - 1]
    ensures Searching(snap, roots, Popped(f))
  {
    SearchPops(snap, roots, f);
  }

  lemma SearchEnds(snap: Snapshot, roots: set<Pid>, f: Frontier)
    requires Searching(snap, roots, f) && f.pending == [] && |f.found| < MAX_CAPTURED
    ensures FoundAll(snap, roots, f.found)
  {
    forall p | p in snap && p !in roots && Reaches(snap, roots, p) ensures snap[p] in f.found {
      var path :| IsPath(snap, roots, path) && path[|path| - 1] == p;
      ClosedHolds(snap, roots, f.seen, path);
    }
  }

  lemma Shrinks(all: set<Pid>, a: set<Pid>, b: set<Pid>)
    requires a <= b && b - a <= all
    ensures |all - b| < |all - a| || a == b
  {
    if a != b {
      assert all - a == (all - b) + (b - a);
      assert b - a != {};
    }
  }

  method Descendants(rootList: seq<Pid>, snap: Snapshot) returns (found: seq<Identity>)
    requires Indexed(snap)
    ensures var roots := set p | p in rootList; Found(snap, roots, found)
    ensures var roots := set p | p in rootList; |found| < MAX_CAPTURED ==> FoundAll(snap, roots, found)
  {
    ghost var roots := set p | p in rootList;
    var children := IndexChildren(snap);
    var f := Frontier((set p | p in rootList), rootList, []);
    SearchStarts(snap, rootList);
    while f.pending != [] && |f.found| < MAX_CAPTURED
      invariant Searching(snap, roots, f)
      decreases |snap.Keys - f.seen|, |f.pending|
    {
      var p := f.pending[|f.pending| - 1];
      if p in children {
        SearchPops(snap, roots, f);
        VisitedKeeps(snap, roots, p, children[p], Popped(f));
        ghost var before := f.seen;
        f := VisitChildren(children[p], Popped(f));
        Shrinks(snap.Keys, before, f.seen);
      } else {
        SearchSkips(snap, roots, f);
        f := Popped(f);
      }
    }
    if |f.found| < MAX_CAPTURED {
      SearchEnds(snap, roots, f);
    }
    found := f.found;
  }

  // ---------------------------------------------------------------- tracking over snapshots

  // One look at the process table.
  datatype Moment = Moment(snap: Snapshot, alive: bool)

  type Known = map<Pid, Identity>

  predicate Matches(id: Identity, snap: Snapshot) {
    id.pid in snap && snap[id.pid].started == id.started
  }

  // The search starts from the child while it lives, and from every remembered process that is
  // still the same one.
  function Roots(child: Pid, known: Known, m: Moment): set<Pid> {
    (if m.alive then {child} else {}) + (set p | p in known && Matches(known[p], m.snap))
  }

  predicate InGroup(child: Pid, group: int, snap: Snapshot, p: Pid) {
    p in snap && p != child && snap[p].group == group
  }

  ghost predicate Attributable(child: Pid, group: int, known: Known, m: Moment, p: Pid) {
    || InGroup(child, group, m.snap, p)
    || (p in m.snap && p !in Roots(child, known, m) && Reaches(m.snap, Roots(child, known, m), p))
  }

  /** What one round of tracking promises: nobody is forgotten, no start marker changes, every new
      or updated record is a process of this snapshot that belongs to the child, the record stays
      bounded, and below the bound everybody who belongs to the child is in it. */
  ghost predicate Tracks(child: Pid, group: int, known: Known, m: Moment, known': Known) {
    && Indexed(known')
    && (forall p :: p in known ==> p in known' && known'[p].started == known[p].started)
    && (forall p :: p in known' && !(p in known && known'[p] == known[p]) ==>
          p in m.snap && known'[p] == m.snap[p] && Attributable(child, group, known, m, p))
    && (|known| <= MAX_CAPTURED ==> |known'| <= MAX_CAPTURED)
    && (|known'| < MAX_CAPTURED ==>
          forall p :: Attributable(child, group, known, m, p) && (p in known ==> Matches(known[p], m.snap)) ==>
            p in known' && known'[p] == m.snap[p])
  }

  // Members of the child's process group, up to the bound.
  method GroupMembers(child: Pid, group: int, snap: Snapshot) returns (found: map<Pid, Identity>)
    requires Indexed(snap)
    ensures forall p :: p in found ==> InGroup(child, group, snap, p) && found[p] == snap[p]
    ensures |found| < MAX_CAPTURED ==> forall p :: InGroup(child, group, snap, p) ==> p in found
  {
    found := map[];
    var left := snap.Keys;
    while left != {} && |found| < MAX_CAPTURED
      invariant left <= snap.Keys
      invariant forall p :: p in found ==> InGroup(child, group, snap, p) && found[p] == snap[p]
      invariant forall p :: InGroup(child, group, snap, p) && p !in left ==> p in found
      decreases |left|
    {
      var p := Pick(left);
      if p != child && snap[p].group == group {
        found := found[p := snap[p]];
      }
      left := left - {p};
    }
  }

  // The group's members as they are, and others that were found.
  ghost predicate Merged(all: map<Pid, Identity>, group: map<Pid, Identity>, found: seq<Identity>) {
    && (forall p :: p in group ==> p in all && all[p] == group[p])
    && (forall p :: p in all && p !in group ==> all[p] in found && all[p].pid == p)
  }

  lemma MergedOne(all: map<Pid, Identity>, group: map<Pid, Identity>, found: seq<Identity>, id: Identity)
    requires Merged(all, group, found) && id in found && id.pid !in all
    ensures Merged(all[id.pid := id], group, found)
  {
  }

  // Adds what the search found, up to the bound.
  method AddFound(found: seq<Identity>, group: map<Pid, Identity>) returns (all: map<Pid, Identity>)
    ensures Merged(all, group, found)
    ensures |all| < MAX_CAPTURED ==> forall k :: 0 <= k < |found| ==> found[k].pid in all
  {
    all := group;
    var i := 0;
    while i < |found|
      invariant 0 <= i <= |found|
      invariant Merged(all, group, found)
      invariant forall k :: 0 <= k < i ==> found[k].pid in all
    {
      if found[i].pid !in all {
        MergedOne(all, group, found, found[i]);
        all := all[found[i].pid := found[i]];
      }
      i := i + 1;
      if |all| >= MAX_CAPTURED {
        break;
      }
    }
  }

  // Remembers what was discovered; a record under a recycled pid is left alone.
  method Remember(known0: Known, found: map<Pid, Identity>) returns (known: Known)
    requires Indexed(known0) && Indexed(found)
    ensures Indexed(known)
    ensures forall p :: p in known0 ==> p in known && known[p].started == known0[p].started
    ensures forall p :: p in known && !(p in known0 && known[p] == known0[p]) ==> p in found && known[p] == found[p]
    ensures |known0| <= MAX_CAPTURED ==> |known| <= MAX_CAPTURED
    ensures |known| < MAX_CAPTURED ==>
              forall p :: p in found && (p in known0 ==> known0[p].started == found[p].started) ==> p in known && known[p] == found[p]
  {
    known := known0;
    var left := found.Keys;
    while left != {} && |known| < MAX_CAPTURED
      invariant left <= found.Keys && Indexed(known)
      invariant forall p :: p in known0 ==> p in known && known[p].started == known0[p].started
      invariant forall p :: p in known && !(p in known0 && known[p] == known0[p]) ==> p in found && p !in left && known[p] == found[p]
      invariant |known0| <= MAX_CAPTURED ==> |known| <= MAX_CAPTURED
      invariant forall p :: p in found && p !in left && (p in known0 ==> known0[p].started == found[p].started) ==>
                  p in known && known[p] == found[p]
      decreases |left|
    {
      var p := Pick(left);
      if p !in known || known[p].started == found[p].started {
        known := known[p := found[p]];
      }
      left := left - {p};
    }
  }

  function RootList(child: Pid, matching: seq<Pid>, alive: bool): seq<Pid> {
    (if alive then [child] else []) + matching
  }

  method MatchingKnown(known: Known, snap: Snapshot) returns (pids: seq<Pid>)
    requires Indexed(known)
    ensures forall p :: p in pids <==> p in known && Matches(known[p], snap)
  {
    pids := [];
    var left := known.Keys;
    while left != {}
      invariant left <= known.Keys
      invariant forall p :: p in pids <==> p in known && p !in left && Matches(known[p], snap)
      decreases |left|
    {
      var p := Pick(left);
      if Matches(known[p], snap) {
        pids := pids + [p];
      }
      left := left - {p};
    }
  }

  // Everything discovered in one round belongs to the child.
  ghost predicate Belong(child: Pid, group: int, known: Known, m: Moment, all: map<Pid, Identity>) {
    forall p :: p in all ==> p in m.snap && all[p] == m.snap[p] && Attributable(child, group, known, m, p)
  }

  ghost predicate BelongAll(child: Pid, group: int, known: Known, m: Moment, all: map<Pid, Identity>) {
    forall p :: Attributable(child, group, known, m, p) ==> p in all
  }

  method Discover(child: Pid, group: int, known: Known, m: Moment) returns (all: map<Pid, Identity>)
    requires Indexed(known) && Indexed(m.snap)
    ensures Belong(child, group, known, m, all)
    ensures |all| < MAX_CAPTURED ==> BelongAll(child, group, known, m, all)
  {
    var matching := MatchingKnown(known, m.snap);
    var rootList := RootList(child, matching, m.alive);
    RootsAre(child, known, m, matching);
    var members := GroupMembers(child, group, m.snap);
    var found := Descendants(rootList, m.snap);
    all := AddFound(found, members);
    DiscoveredBelong(child, group, known, m, members, found, all);
    if |all| < MAX_CAPTURED {
      DiscoveredAll(child, group, known, m, members, found, all);
    }
  }

  lemma RootsAre(child: Pid, known: Known, m: Moment, matching: seq<Pid>)
    requires forall p :: p in matching <==> p in known && Matches(known[p], m.snap)
    ensures (set p | p in RootList(child, matching, m.alive)) == Roots(child, known, m)
  {
    forall p: Pid ensures p in RootList(child, matching, m.alive) <==> p in Roots(child, known, m) {
    }
  }

  lemma DiscoveredBelong(child: Pid, group: int, known: Known, m: Moment, members: map<Pid, Identity>,
                         found: seq<Identity>, all: map<Pid, Identity>)
    requires forall p :: p in members ==> InGroup(child, group, m.snap, p) && members[p] == m.snap[p]
    requires Found(m.snap, Roots(child, known, m), found)
    requires forall p :: p in all ==> (p in members && all[p] == members[p]) || (p !in members && all[p] in found && all[p].pid == p)
    ensures Belong(child, group, known, m, all)
  {
  }

  lemma DiscoveredAll(child: Pid, group: int, known: Known, m: Moment, members: map<Pid, Identity>,
                      found: seq<Identity>, all: map<Pid, Identity>)
    requires |all| < MAX_CAPTURED && Indexed(m.snap)
    requires |members| < MAX_CAPTURED ==> forall p :: InGroup(child, group, m.snap, p) ==> p in members
    requires Found(m.snap, Roots(child, known, m), found)
    requires |found| < MAX_CAPTURED ==> FoundAll(m.snap, Roots(child, known, m), found)
    requires forall p :: p in members ==> p in all
    requires forall k :: 0 <= k < |found| ==> found[k].pid in all
    ensures BelongAll(child, group, known, m, all)
  {
    CapacityLeft(members, all);
    FoundFits(found, all);
  }

  method TrackChildProcesses(child: Pid, group: int, known: Known, m: Moment) returns (known': Known)
    requires Indexed(known) && Indexed(m.snap)
    ensures Tracks(child, group, known, m, known')
  {
    var all := Discover(child, group, known, m);
    known' := Remember(known, all);
    if |known'| < MAX_CAPTURED {
      CapacityLeft(all, known');
    }
  }

  lemma CapacityLeft(a: map<Pid, Identity>, b: Snapshot)
    requires forall p :: p in a ==> p in b
    ensures |a| <= |b|
  {
    forall p: Pid | p in a.Keys ensures p in b.Keys {
    }
    Smaller(a.Keys, b.Keys);
  }

  lemma Smaller(a: set<Pid>, b: set<Pid>)
    requires a <= b
    ensures |a| <= |b|
  {
    assert b == a + (b - a);
  }

  lemma {:induction false} FoundFits(found: seq<Identity>, snap: Snapshot)
    requires forall i :: 0 <= i < |found| ==> found[i].pid in snap
    requires forall i, j :: 0 <= i < j < |found| ==> found[i].pid != found[j].pid
    ensures |found| <= |snap|
    decreases |found|
  {
    if found == [] {
    } else {
      var n := |found| - 1;
      FoundFits(found[..n], snap - {found[n].pid});
    }
  }
}

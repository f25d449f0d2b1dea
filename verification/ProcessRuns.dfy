/**
 Over any run of snapshots: every remembered process is attributed to the child, its start marker
 never changes, and signals reach only processes that still match.
 */
module ProcessRuns {
  import opened ProcessGuard

  // A process the search may start from: the living child, or a process attributed earlier that
  // is still the same one.
  ghost predicate RootOf(child: Pid, group: int, before: seq<Moment>, m: Moment, r: Pid)
    decreases |before|, 1
  {
    (m.alive && r == child)
    || exists past: Identity :: Attributed(child, group, before, past) && past.pid == r && Matches(past, m.snap)
  }

  /** Attributed to the child by the snapshots alone: a member of its process group in one of them,
      or at the end of a parent chain inside one of them that starts at the living child or at a
      process attributed by an earlier one. */
  ghost predicate Attributed(child: Pid, group: int, moments: seq<Moment>, id: Identity)
    decreases |moments|, 0
  {
    moments != [] &&
    var n := |moments| - 1;
    var m := moments[n];
    || Attributed(child, group, moments[..n], id)
    || (&& id.pid in m.snap && m.snap[id.pid] == id
        && (|| InGroup(child, group, m.snap, id.pid)
            || exists path :: |path| >= 2 && path[|path| - 1] == id.pid && IsPath(m.snap, {path[0]}, path)
                              && RootOf(child, group, moments[..n], m, path[0])))
  }

  // A run: the record after each round of tracking.
  ghost predicate Follows(child: Pid, group: int, knowns: seq<Known>, moments: seq<Moment>) {
    && |knowns| == |moments| + 1
    && knowns[0] == map[]
    && forall i {:trigger moments[i]} :: 0 <= i < |moments| ==> Tracks(child, group, knowns[i], moments[i], knowns[i + 1])
  }

  ghost predicate AllAttributed(child: Pid, group: int, known: Known, moments: seq<Moment>) {
    forall p :: p in known ==> Attributed(child, group, moments, known[p])
  }

  lemma KnownRoots(child: Pid, group: int, known: Known, m: Moment, before: seq<Moment>, r: Pid)
    requires Indexed(known) && AllAttributed(child, group, known, before) && r in Roots(child, known, m)
    ensures RootOf(child, group, before, m, r)
  {
  }

  lemma RoundAttributes(child: Pid, group: int, known: Known, m: Moment, known': Known, before: seq<Moment>, p: Pid)
    requires Indexed(known) && Tracks(child, group, known, m, known') && AllAttributed(child, group, known, before)
    requires p in known'
    ensures Attributed(child, group, before + [m], known'[p])
  {
    var moments := before + [m];
    assert moments[..|moments| - 1] == before;
    if !(p in known && known'[p] == known[p]) && !InGroup(child, group, m.snap, p) {
      var roots := Roots(child, known, m);
      var path :| IsPath(m.snap, roots, path) && path[|path| - 1] == p;
      assert IsPath(m.snap, {path[0]}, path);
      KnownRoots(child, group, known, m, before, path[0]);
    }
  }

  lemma RoundAllAttributed(child: Pid, group: int, known: Known, m: Moment, known': Known, before: seq<Moment>)
    requires Indexed(known) && Tracks(child, group, known, m, known') && AllAttributed(child, group, known, before)
    ensures AllAttributed(child, group, known', before + [m])
  {
    forall p | p in known' ensures Attributed(child, group, before + [m], known'[p]) {
      RoundAttributes(child, group, known, m, known', before, p);
    }
  }

  lemma {:induction false} RunAttributes(child: Pid, group: int, knowns: seq<Known>, moments: seq<Moment>)
    requires Follows(child, group, knowns, moments)
    ensures Indexed(knowns[|moments|]) && AllAttributed(child, group, knowns[|moments|], moments)
    decreases |moments|
  {
    if moments == [] {
    } else {
      var n := |moments| - 1;
      var before, m := moments[..n], moments[n];
      FollowsPrefix(child, group, knowns, moments);
      assert Tracks(child, group, knowns[n], m, knowns[n + 1]);
      RunAttributes(child, group, knowns[..n + 1], before);
      assert before + [m] == moments;
      RoundAllAttributed(child, group, knowns[n], m, knowns[n + 1], before);
    }
  }

  // No pid is recycled: none changes its start marker from one snapshot to another.
  ghost predicate NoRecycling(moments: seq<Moment>) {
    forall i, j, p :: 0 <= i < j < |moments| && p in moments[i].snap && p in moments[j].snap ==>
      moments[i].snap[p].started == moments[j].snap[p].started
  }

  // Nobody under the child's own pid belongs to the child.
  ghost predicate ChildApart(child: Pid, group: int, moments: seq<Moment>) {
    forall id: Identity :: Attributed(child, group, moments, id) ==> id.pid != child
  }

  lemma {:induction false} AttributedSeen(child: Pid, group: int, moments: seq<Moment>, id: Identity) returns (i: nat)
    requires Attributed(child, group, moments, id)
    ensures i < |moments| && id.pid in moments[i].snap && moments[i].snap[id.pid] == id
    decreases |moments|
  {
    var n := |moments| - 1;
    if Attributed(child, group, moments[..n], id) {
      i := AttributedSeen(child, group, moments[..n], id);
    } else {
      i := n;
    }
  }

  // Remembered: under its pid, with its start marker.
  predicate Remembered(known: Known, id: Identity) {
    id.pid in known && known[id.pid].started == id.started
  }

  ghost predicate AllRemembered(child: Pid, group: int, known: Known, moments: seq<Moment>) {
    forall id: Identity :: Attributed(child, group, moments, id) ==> Remembered(known, id)
  }

  // Without recycling, a record under a pid of the snapshot is the record of that process.
  lemma StillMatches(child: Pid, group: int, known: Known, moments: seq<Moment>, p: Pid)
    requires moments != [] && NoRecycling(moments) && Indexed(known)
    requires AllAttributed(child, group, known, moments[..|moments| - 1])
    requires p in known && p in moments[|moments| - 1].snap
    ensures Matches(known[p], moments[|moments| - 1].snap)
  {
    var i := AttributedSeen(child, group, moments[..|moments| - 1], known[p]);
    assert moments[..|moments| - 1][i] == moments[i];
  }

  lemma RootsKnown(child: Pid, group: int, known: Known, m: Moment, before: seq<Moment>, r: Pid)
    requires Indexed(known) && AllRemembered(child, group, known, before) && RootOf(child, group, before, m, r)
    ensures r in Roots(child, known, m)
  {
    if !(m.alive && r == child) {
      var past: Identity :| Attributed(child, group, before, past) && past.pid == r && Matches(past, m.snap);
      assert Remembered(known, past);
    }
  }

  // What the last snapshot attributes, the round that reads it records.
  lemma RoundRemembers(child: Pid, group: int, known: Known, known': Known, moments: seq<Moment>, id: Identity)
    requires moments != [] && NoRecycling(moments) && Indexed(known) && |known'| < MAX_CAPTURED
    requires var n := |moments| - 1;
             && AllAttributed(child, group, known, moments[..n]) && AllRemembered(child, group, known, moments[..n])
             && Tracks(child, group, known, moments[n], known')
    requires ChildApart(child, group, moments) && Attributed(child, group, moments, id)
    ensures Remembered(known', id)
  {
    var n := |moments| - 1;
    var m, p := moments[n], id.pid;
    if !Attributed(child, group, moments[..n], id) {
      if p in known {
        StillMatches(child, group, known, moments, p);
      } else if !InGroup(child, group, m.snap, p) {
        var path :| |path| >= 2 && path[|path| - 1] == p && IsPath(m.snap, {path[0]}, path)
                    && RootOf(child, group, moments[..n], m, path[0]);
        RootsKnown(child, group, known, m, moments[..n], path[0]);
        assert IsPath(m.snap, Roots(child, known, m), path);
        assert Attributable(child, group, known, m, p);
      }
    }
  }

  lemma FollowsPrefix(child: Pid, group: int, knowns: seq<Known>, moments: seq<Moment>)
    requires Follows(child, group, knowns, moments) && moments != []
    ensures Follows(child, group, knowns[..|moments|], moments[..|moments| - 1])
  {
    var n := |moments| - 1;
    forall i | 0 <= i < n ensures Tracks(child, group, knowns[..n + 1][i], moments[..n][i], knowns[..n + 1][i + 1]) {
      assert Tracks(child, group, knowns[i], moments[i], knowns[i + 1]);
    }
  }

  /** The converse: in a run without recycled pids whose record stays below its bound, every process
      the snapshots attribute to the child is remembered. */
  lemma {:induction false} RunRemembers(child: Pid, group: int, knowns: seq<Known>, moments: seq<Moment>)
    requires Follows(child, group, knowns, moments) && NoRecycling(moments) && ChildApart(child, group, moments)
    requires |knowns[|moments|]| < MAX_CAPTURED
    ensures AllRemembered(child, group, knowns[|moments|], moments)
    decreases |moments|
  {
    if moments == [] {
    } else {
      var n := |moments| - 1;
      var known, known' := knowns[n], knowns[n + 1];
      FollowsPrefix(child, group, knowns, moments);
      assert Tracks(child, group, known, moments[n], known');
      CapacityLeft(known, known');
      RunAttributes(child, group, knowns[..n + 1], moments[..n]);
      RunRemembers(child, group, knowns[..n + 1], moments[..n]);
      forall id: Identity | Attributed(child, group, moments, id) ensures Remembered(known', id) {
        RoundRemembers(child, group, known, known', moments, id);
      }
    }
  }

  /** Nobody is forgotten and no start marker ever changes. */
  lemma {:induction false} MarkersFixed(child: Pid, group: int, knowns: seq<Known>, moments: seq<Moment>, i: nat, j: nat, p: Pid)
    requires Follows(child, group, knowns, moments) && i <= j <= |moments| && p in knowns[i]
    ensures p in knowns[j] && knowns[j][p].started == knowns[i][p].started
    decreases j
  {
    if i == j {
    } else {
      MarkersFixed(child, group, knowns, moments, i, j - 1, p);
      assert Tracks(child, group, knowns[j - 1], moments[j - 1], knowns[j]);
    }
  }

  // The record never outgrows its bound.
  lemma {:induction false} RecordBounded(child: Pid, group: int, knowns: seq<Known>, moments: seq<Moment>, i: nat)
    requires Follows(child, group, knowns, moments) && i <= |moments|
    ensures |knowns[i]| <= MAX_CAPTURED
    decreases i
  {
    if i == 0 {
    } else {
      RecordBounded(child, group, knowns, moments, i - 1);
      assert Tracks(child, group, knowns[i - 1], moments[i - 1], knowns[i]);
    }
  }

  // ---------------------------------------------------------------- signals

  function Survivors(ids: seq<Identity>, snap: Snapshot): (r: seq<Identity>)
    ensures forall id :: id in r <==> id in ids && Matches(id, snap)
  {
    if ids == [] then []
    else (if Matches(ids[0], snap) then [ids[0]] else []) + Survivors(ids[1..], snap)
  }

  // Signals each survivor but the guard and its parent; `sent` is who got one.
  method SignalIdentities(ids: seq<Identity>, snap: Snapshot, guardian: Pid, parent: Pid) returns (sent: seq<Pid>)
    ensures forall p :: p in sent <==>
              p != guardian && p != parent && exists id :: id in ids && id.pid == p && Matches(id, snap)
  {
    sent := [];
    var survivors := Survivors(ids, snap);
    var i := 0;
    while i < |survivors|
      invariant 0 <= i <= |survivors|
      invariant forall p :: p in sent <==>
                  p != guardian && p != parent && exists k :: 0 <= k < i && survivors[k].pid == p
    {
      if survivors[i].pid != guardian && survivors[i].pid != parent {
        sent := sent + [survivors[i].pid];
      }
      i := i + 1;
    }
    forall id | id in ids && Matches(id, snap) && id.pid != guardian && id.pid != parent ensures id.pid in sent {
      var k := SurvivorPid(ids, snap, id);
    }
    forall k | 0 <= k < |survivors| ensures survivors[k] in ids && Matches(survivors[k], snap) {
      assert survivors[k] in survivors;
    }
  }

  lemma SurvivorPid(ids: seq<Identity>, snap: Snapshot, id: Identity) returns (k: nat)
    requires id in ids && Matches(id, snap)
    ensures k < |Survivors(ids, snap)| && Survivors(ids, snap)[k] == id
  {
    var s := Survivors(ids, snap);
    assert id in s;
    k :| 0 <= k < |s| && s[k] == id;
  }

  /** A process that is signalled from the record of a run is, by its start marker, one the
      snapshots attribute to the child. */
  lemma SignalsAttributed(child: Pid, group: int, knowns: seq<Known>, moments: seq<Moment>, ids: seq<Identity>, snap: Snapshot, p: Pid)
    requires Follows(child, group, knowns, moments)
    requires forall id :: id in ids ==> id.pid in knowns[|moments|] && knowns[|moments|][id.pid] == id
    requires exists id :: id in ids && id.pid == p && Matches(id, snap)
    ensures exists id :: Attributed(child, group, moments, id) && id.pid == p && p in snap && snap[p].started == id.started
  {
    RunAttributes(child, group, knowns, moments);
    var id :| id in ids && id.pid == p && Matches(id, snap);
    assert Attributed(child, group, moments, knowns[|moments|][p]);
  }
}

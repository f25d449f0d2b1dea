/**
 The files of the attachment cache, their byte accounting, and what an eviction pass may do.
 */
module CacheFiles {
  import opened Wrappers

  // One attachment's directory.
  type Entry = nat

  // A payload name: an ordinary one, the name of the metadata file, or one with the suffix of a
  // legacy sidecar.
  datatype Name = Plain(n: nat) | MetaName | Legacy(base: Name)

  datatype Path =
    | Payload(entry: Entry, name: Name)
    | Meta(entry: Entry)
    | Download(entry: Entry, n: nat)
    | MetaTemp(entry: Entry, n: nat)
    | Stray(n: nat)

  // `used` is the modification time; `names` is the payload name a sidecar's contents give.
  datatype File = File(inode: nat, size: nat, used: nat, names: Option<Name>)

  type Files = map<Path, File>

  const META_MAX: nat := 4096
  const SCAN_LIMIT: nat := 4096
  const RECOVERY_PASSES: nat := 8

  // ---------------------------------------------------------------- sums

  ghost function Sum(m: map<Path, nat>): nat
    decreases |m|
  {
    if m == map[] then 0
    else
      var p :| p in m;
      m[p] + Sum(m - {p})
  }

  lemma {:induction false} SumTake(m: map<Path, nat>, p: Path)
    requires p in m
    ensures Sum(m) == m[p] + Sum(m - {p})
    decreases |m|
  {
    var q :| q in m && Sum(m) == m[q] + Sum(m - {q});
    if p == q {
    } else {
      SumTake(m - {q}, p);
      SumTake(m - {p}, q);
      assert m - {q} - {p} == m - {p} - {q};
    }
  }

  lemma {:induction false} SumAtMost(a: map<Path, nat>, b: map<Path, nat>)
    requires forall p :: p in a ==> p in b && a[p] <= b[p]
    ensures Sum(a) <= Sum(b)
    decreases |a|
  {
    if a == map[] {
    } else {
      var p :| p in a;
      SumTake(a, p);
      SumTake(b, p);
      SumAtMost(a - {p}, b - {p});
    }
  }

  lemma SumPut(m: map<Path, nat>, p: Path, n: nat)
    ensures Sum(m[p := n]) == Sum(m - {p}) + n
  {
    SumTake(m[p := n], p);
    assert m[p := n] - {p} == m - {p};
  }

  lemma SumDrop(m: map<Path, nat>, p: Path)
    ensures Sum(m - {p}) == Sum(m) - if p in m then m[p] else 0
  {
    if p in m {
      SumTake(m, p);
    } else {
      assert m - {p} == m;
    }
  }

  function Sizes(files: Files, aside: set<Path>): map<Path, nat> {
    map p | p in files && p !in aside :: files[p].size
  }

  ghost function Bytes(files: Files, aside: set<Path>): nat {
    Sum(Sizes(files, aside))
  }

  // Dropping one counted file frees its size.
  lemma BytesDrop(files: Files, aside: set<Path>, p: Path)
    requires p in files
    ensures Bytes(files - {p}, aside) == Bytes(files, aside) - if p in aside then 0 else files[p].size
  {
    SumDrop(Sizes(files, aside), p);
    assert Sizes(files - {p}, aside) == Sizes(files, aside) - {p};
  }

  // Counting one more file adds at most its size.
  lemma BytesTally(files: Files, aside: set<Path>, p: Path, size: nat)
    requires p in files ==> files[p].size <= size
    ensures Bytes(files, aside - {p}) <= Bytes(files, aside) + size
  {
    SumDrop(Sizes(files, aside - {p}), p);
    assert Sizes(files, aside - {p}) - {p} == Sizes(files, aside + {p});
    SumAtMost(Sizes(files, aside + {p}), Sizes(files, aside));
  }

  lemma BytesFewer(a: Files, b: Files, aside: set<Path>, aside': set<Path>)
    requires forall p :: p in a ==> p in b && a[p] == b[p]
    requires aside <= aside'
    ensures Bytes(a, aside') <= Bytes(b, aside)
  {
    SumAtMost(Sizes(a, aside'), Sizes(b, aside));
  }

  // ---------------------------------------------------------------- what a pass may do

  predicate SidecarShaped(p: Path) {
    p.Meta? || (p.Payload? && !p.name.Plain?)
  }

  // A payload whose name is not taken for a sidecar.
  predicate Steady(p: Path) {
    p.Payload? && p.name.Plain?
  }

  predicate Leftover(p: Path) {
    p.Download? || p.MetaTemp?
  }

  // The payload a sidecar belongs to.
  function TargetOf(p: Path, f: File): Option<Path> {
    match p
    case Meta(e) => if f.names.Some? then Some(Payload(e, f.names.value)) else None
    case Payload(e, name) => if name.Legacy? then Some(Payload(e, name.base)) else None
    case _ => None
  }

  predicate Pinned(pins: map<Path, nat>, p: Path) {
    p in pins && pins[p] > 0
  }

  ghost predicate Within(a: Files, b: Files) {
    forall p :: p in a ==> p in b && a[p] == b[p]
  }

  /** What every pass promises, successful or not: it only removes files, and never one being
      staged, one under a live lease or the protected one, names shaped like a sidecar aside. */
  ghost predicate Spares(files: Files, files': Files, pins: map<Path, nat>, staged: set<Path>, protected: Option<Path>) {
    && Within(files', files)
    && (forall p :: p in files && p in staged ==> p in files')
    && (forall p :: p in files && Steady(p) && (Pinned(pins, p) || protected == Some(p)) ==> p in files')
  }

  // In use: under a live lease, or the payload the pass was asked to protect.
  predicate Held(pins: map<Path, nat>, protected: Option<Path>, p: Path) {
    p.Payload? && (Pinned(pins, p) || protected == Some(p))
  }

  // Named like a sidecar, and without a counted payload to belong to.
  predicate Unpaired(files: Files, aside: set<Path>, p: Path)
    requires p in files
  {
    && SidecarShaped(p)
    && var target := TargetOf(p, files[p]);
       target.None? || target.value !in files || target.value in aside
  }

  /** Which payloads in use a pass loses: none unless it got as far as grouping, and then exactly
      those named like a sidecar whose own payload is missing, staging files and files the file
      system will not remove aside. */
  ghost predicate Loses(files: Files, files': Files, pins: map<Path, nat>, staged: set<Path>, stuck: set<Path>,
                        protected: Option<Path>, grouped: bool)
  {
    forall p :: p in files && Held(pins, protected, p) ==>
                  (p !in files' <==> grouped && Unpaired(files, staged, p) && p !in staged && p !in stuck)
  }

  ghost predicate Distinct(s: seq<Path>) {
    forall i, j :: 0 <= i < j < |s| ==> s[i] != s[j]
  }
}

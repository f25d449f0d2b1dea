/**
 Retiring a settled transaction: `finish`, cut anywhere and repeated, ends with neither a live
 nor a retired transaction directory and leaves links and configurations alone.
 */
module ActivationFinish {
  import opened Wrappers
  import opened ActivationDisk
  import opened ActivationJournal
  import opened ActivationTree
  import opened ActivationFiles
  import opened ActivationSteps
  import opened ActivationCommands
  import opened ActivationRollback

  // ---------------------------------------------------------------- removing directories

  predicate SubTxn(x': Txn, x: Txn) {
    && (x'.manifest.None? || x'.manifest == x.manifest)
    && (x'.parked.None? || x'.parked == x.parked)
    && x'.backups.Keys <= x.backups.Keys
    && (forall k :: k in x'.backups ==> x'.backups[k] == x.backups[k])
  }

  // Every directory but the live one can be swept: a parked entry is a directory.
  predicate Tidy(txns: map<TxnName, Txn>) {
    forall n :: n in txns && !n.Active? && txns[n].parked.Some? ==> txns[n].parked.value.Dir?
  }

  predicate AllChildren(cs: seq<Child>) {
    Journal in cs && Backup(Env) in cs && Backup(Service) in cs && Parked in cs
  }

  // The directories after some children of some of them are gone.
  ghost predicate Swept(w: World, w': World) {
    && w' == w.(txns := w'.txns)
    && w'.txns.Keys <= w.txns.Keys
    && (forall n :: n in w'.txns ==> SubTxn(w'.txns[n], w.txns[n]))
    && (Active in w.txns ==> Active in w'.txns && w'.txns[Active] == w.txns[Active])
  }

  lemma SweptTrans(a: World, b: World, c: World)
    requires Swept(a, b) && Swept(b, c)
    ensures Swept(a, c)
  {
  }

  lemma SweptTidy(w: World, w': World)
    requires Swept(w, w') && Tidy(w.txns)
    ensures Tidy(w'.txns)
  {
  }

  lemma {:induction false} RemoveChildrenSweeps(w: World, name: TxnName, cs: seq<Child>, fuel: nat)
    requires Tidy(w.txns) && !name.Active? && name in w.txns
    ensures var r := RemoveChildren(w, name, cs, fuel);
            && Swept(w, r.w) && name in r.w.txns
            && (r.Halted? ==> r.why == PowerLoss)
            && (r.Live? ==> forall c :: c in cs ==> !Holds(r.w.txns[name], c))
            && (fuel >= |cs| ==> r.Live? && r.fuel >= fuel - |cs|)
    decreases |cs|
  {
    if cs == [] {
    } else {
      if !Holds(w.txns[name], cs[0]) {
        RemoveChildrenSweeps(w, name, cs[1..], fuel);
        var r := RemoveChildren(w, name, cs[1..], fuel);
        assert SubTxn(r.w.txns[name], w.txns[name]);
        NotHeldAfter(w.txns[name], r.w.txns[name], cs[0]);
      } else if fuel > 0 {
        var w1 := w.WithTxn(name, Without(w.txns[name], cs[0]));
        assert Swept(w, w1);
        SweptTidy(w, w1);
        RemoveChildrenSweeps(w1, name, cs[1..], fuel - 1);
        var r := RemoveChildren(w1, name, cs[1..], fuel - 1);
        SweptTrans(w, w1, r.w);
        assert SubTxn(r.w.txns[name], w1.txns[name]);
        NotHeldAfter(w1.txns[name], r.w.txns[name], cs[0]);
      }
    }
  }

  lemma NotHeldAfter(x: Txn, x': Txn, c: Child)
    requires SubTxn(x', x) && !Holds(x, c)
    ensures !Holds(x', c)
  {
  }

  lemma RemoveDirectorySweeps(w: World, name: TxnName, cs: seq<Child>, fuel: nat)
    requires Tidy(w.txns) && !name.Active? && AllChildren(cs)
    ensures var r := RemoveDirectory(w, name, cs, fuel);
            && Swept(w, r.w)
            && (r.Halted? ==> r.why == PowerLoss)
            && (r.Live? ==> name !in r.w.txns)
            && (fuel >= |cs| + 1 ==> r.Live? && r.fuel >= fuel - |cs| - 1)
  {
    if name in w.txns {
      RemoveChildrenSweeps(w, name, cs, fuel);
      var r := RemoveChildren(w, name, cs, fuel);
      if r.Live? {
        var x := r.w.txns[name];
        assert !Holds(x, Journal) && !Holds(x, Backup(Env)) && !Holds(x, Backup(Service)) && !Holds(x, Parked);
        NoBackups(x.backups);
        var w1 := r.w.(txns := r.w.txns - {name});
        assert Swept(r.w, w1);
        SweptTrans(w, r.w, w1);
      }
    }
  }

  lemma NoBackups(b: map<Kind, string>)
    requires Env !in b && Service !in b
    ensures b == map[]
  {
    forall k: Kind ensures k !in b {
      match k
      case Env =>
      case Service =>
    }
  }

  function SweepCost(scan: Scan): nat {
    |scan.dirs| * (|scan.children| + 1)
  }

  lemma {:induction false} SweepSweeps(w: World, scan: Scan, fuel: nat)
    requires Tidy(w.txns) && AllChildren(scan.children)
    ensures var r := Sweep(w, scan, fuel);
            && Swept(w, r.w)
            && (r.Halted? ==> r.why == PowerLoss)
            && (r.Live? ==> forall n :: n in scan.dirs && !n.Active? ==> n !in r.w.txns)
            && (fuel >= SweepCost(scan) ==> r.Live? && r.fuel >= fuel - SweepCost(scan))
    decreases |scan.dirs|
  {
    if scan.dirs == [] {
    } else {
      var rest := scan.(dirs := scan.dirs[1..]);
      var c := |scan.children| + 1;
      assert SweepCost(scan) == SweepCost(rest) + c by {
        assert |scan.dirs| * c == (|scan.dirs| - 1) * c + c;
      }
      if scan.dirs[0].Active? {
        SweepSweeps(w, rest, fuel);
      } else {
        RemoveDirectorySweeps(w, scan.dirs[0], scan.children, fuel);
        var r := RemoveDirectory(w, scan.dirs[0], scan.children, fuel);
        SweptTidy(w, r.w);
        if r.Live? {
          SweepSweeps(r.w, rest, r.fuel);
          SweptTrans(w, r.w, Sweep(r.w, rest, r.fuel).w);
        }
      }
    }
  }

  // ---------------------------------------------------------------- the states of finishing

  // Nothing but the candidate itself is the candidate's directory.
  predicate CandidateDistinct(m: Manifest) {
    && (m.prior.Some? ==> m.prior.value.inode != m.candidate.inode)
    && (m.previousRelease.Some? ==> m.previousRelease.value.inode != m.candidate.inode)
  }

  predicate Settling(w: World, m: Manifest) {
    && Terminal(m.phase)
    && Accepts(w.tree, w.files, m, None, m.phase.RollbackHealthy?)
    && FilesOk(w.files, w.next, m)
    && m.rollbackFrom.Some? == RollbackPhase(m.phase)
    && (m.rollbackFrom.Some? ==> PreCommit(m.rollbackFrom.value))
  }

  // The transaction is still live.
  ghost predicate LiveTxn(w: World, m: Manifest) {
    && Active in w.txns && Retired(m.id) !in w.txns
    && var x := w.txns[Active];
       && x.manifest == Some(m) && BackedUp(x, m)
       && (x.parked.Some? ==>
             m.phase.RollbackHealthy? && x.parked.value.Dir? && CandidatePath(w.tree, m).None?)
  }

  // Only its retired directory is left, possibly half removed.
  ghost predicate RetiredTxn(w: World, m: Manifest) {
    && Active !in w.txns && Retired(m.id) in w.txns
    && var x := w.txns[Retired(m.id)];
       && (x.manifest.None? || x.manifest == Some(m))
       && (forall k: Kind :: k in x.backups ==> m.original.At(k).Some? && x.backups[k] == m.original.At(k).value.bytes)
       && (x.parked.Some? ==> m.phase.RollbackHealthy?)
       && (m.phase.RollbackHealthy? ==> CandidatePath(w.tree, m).None?)
  }

  ghost predicate GoneTxn(w: World, m: Manifest) {
    Active !in w.txns && Retired(m.id) !in w.txns
  }

  ghost predicate Finishing(w: World, m: Manifest) {
    && Tidy(w.txns) && Settling(w, m)
    && (LiveTxn(w, m) || RetiredTxn(w, m) || GoneTxn(w, m))
  }

  // Links and configurations stay; the tree loses at most the candidate.
  ghost predicate Untouching(w: World, w': World, m: Manifest) {
    && (forall p :: !Matches(w.tree, p, m.candidate) ==> Get(w'.tree, p) == Get(w.tree, p))
    && (m.phase.Committed? ==> w'.tree == w.tree)
    && w'.files.env.config == w.files.env.config
    && w'.files.service.config == w.files.service.config
  }

  lemma UntouchingTrans(a: World, b: World, c: World, m: Manifest)
    requires Untouching(a, b, m) && Untouching(b, c, m)
    ensures Untouching(a, c, m)
  {
  }

  // ---------------------------------------------------------------- parking the candidate

  // Taking the candidate away disturbs neither link.
  lemma ParkingAccepted(t: Tree, t': Tree, f: Files, m: Manifest, p: Path)
    requires m.phase.RollbackHealthy? && CandidateDistinct(m) && Accepts(t, f, m, None, true)
    requires Matches(t, p, m.candidate) && t' == t - {p} && p != Current && p != Previous
    ensures Accepts(t', f, m, None, true)
  {
  }

  lemma ParkOnce(t: Tree, m: Manifest, p: Path)
    requires OneNamePerDirectory(t) && Matches(t, p, m.candidate)
    ensures CandidatePath(t - {p}, m).None?
  {
  }

  lemma ParkStep(w: World, m: Manifest, fuel: nat)
    requires Finishing(w, m) && LiveTxn(w, m) && m.phase.RollbackHealthy?
    requires CandidateDistinct(m) && OneNamePerDirectory(w.tree)
    requires InReleases(m.candidate.source) && InReleases(m.candidate.target)
    ensures var r := ParkCandidate(w, m, Active, fuel);
            && Finishing(r.w, m) && LiveTxn(r.w, m) && Untouching(w, r.w, m) && OneNamePerDirectory(r.w.tree)
            && (r.Halted? ==> r.why == PowerLoss)
            && (r.Live? ==> CandidatePath(r.w.tree, m).None?)
            && (fuel >= 1 ==> r.Live? && r.fuel >= fuel - 1)
  {
    var p := CandidatePath(w.tree, m);
    var r := ParkCandidate(w, m, Active, fuel);
    if p.Some? && r.Live? {
      ParkingAccepted(w.tree, r.w.tree, w.files, m, p.value);
      ParkOnce(w.tree, m, p.value);
      StillBackedUp(w.txns[Active], m, r.w.txns[Active], m);
    }
  }

  // ---------------------------------------------------------------- discarding staging

  lemma SettledNow(w: World, m: Manifest)
    requires Settling(w, m)
    ensures RollbackPhase(m.phase) || Settled(w.files, m)
  {
  }

  lemma SettlingFiles(w: World, f: Files, m: Manifest)
    requires Settling(w, m) && FilesOk(f, w.next, m)
    requires f.env.config == w.files.env.config && f.service.config == w.files.service.config
    ensures Settling(w.(files := f), m)
  {
    ConfigReadable(f, w.next, m, Env);
    ConfigReadable(f, w.next, m, Service);
  }

  lemma DiscardStep(w: World, m: Manifest, fuel: nat)
    requires Settling(w, m)
    ensures var r := CleanupStaging(w, m, fuel);
            && r.w == w.(files := r.w.files) && Settling(r.w, m) && Untouching(w, r.w, m)
            && (r.Halted? ==> r.why == PowerLoss)
            && (fuel >= 4 ==> r.Live? && r.fuel >= fuel - 4)
  {
    SettledNow(w, m);
    CleanupStagingKeeps(w, m, fuel);
    SettlingFiles(w, CleanupStaging(w, m, fuel).w.files, m);
  }

  // ---------------------------------------------------------------- retiring

  lemma SweepFinishing(w: World, w': World, m: Manifest)
    requires Finishing(w, m) && Active !in w.txns && Swept(w, w')
    ensures Finishing(w', m) && Active !in w'.txns && Untouching(w, w', m)
  {
    SweptTidy(w, w');
    var n := Retired(m.id);
    if n in w'.txns {
      var x', x := w'.txns[n], w.txns[n];
      assert SubTxn(x', x);
      forall k: Kind | k in x'.backups
        ensures m.original.At(k).Some? && x'.backups[k] == m.original.At(k).value.bytes
      {
        assert k in x.backups;
      }
    }
  }

  lemma RetireStep(w: World, m: Manifest, name: TxnName, scan: Scan, fuel: nat)
    requires Finishing(w, m) && AllChildren(scan.children) && Retired(m.id) in scan.dirs
    requires name == Active ==> LiveTxn(w, m) && (m.phase.RollbackHealthy? ==> CandidatePath(w.tree, m).None?)
    requires name != Active ==> name == Retired(m.id) && RetiredTxn(w, m) && Load(w, name) == Loaded(m)
    ensures var r := Retire(w, m, m.id, name, scan, fuel);
            && Finishing(r.w, m) && Untouching(w, r.w, m)
            && (r.Halted? ==> r.why == PowerLoss)
            && (r.Live? ==> GoneTxn(r.w, m))
            && (fuel >= SweepCost(scan) + 1 ==> r.Live?)
  {
    assert name in w.txns && ExpectedContents(w.txns[name], m) by {
      if name != Active {
        var x := w.txns[name];
        assert !BackupMissing(x, m, Env) && !BackupMissing(x, m, Service);
      }
    }
    if name == Active {
      if fuel == 0 { return; }
      var w1 := w.(txns := (w.txns - {name})[Retired(m.id) := w.txns[name]]);
      assert RetiredTxn(w1, m) by {
        forall k: Kind | k in w1.txns[Retired(m.id)].backups
          ensures m.original.At(k).Some? && w1.txns[Retired(m.id)].backups[k] == m.original.At(k).value.bytes
        {
          assert k in w.txns[Active].backups;
        }
      }
      assert Tidy(w1.txns);
      SweepSweeps(w1, scan, fuel - 1);
      SweepFinishing(w1, Sweep(w1, scan, fuel - 1).w, m);
    } else {
      SweepSweeps(w, scan, fuel);
      SweepFinishing(w, Sweep(w, scan, fuel).w, m);
    }
  }

  // ---------------------------------------------------------------- finish

  // The caller's side of a finish: the candidate is its own directory, directories have one name.
  ghost predicate FinishReady(w: World, m: Manifest) {
    && Finishing(w, m)
    && (m.phase.Committed? || (CandidateDistinct(m) && OneNamePerDirectory(w.tree)))
    && InReleases(m.candidate.source) && InReleases(m.candidate.target)
  }

  function FinishCost(scan: Scan): nat {
    6 + SweepCost(scan)
  }

  ghost predicate FinishPost(w: World, m: Manifest, scan: Scan, fuel: nat, r: Run) {
    && FinishReady(r.w, m) && Untouching(w, r.w, m)
    && (r.Halted? ==> r.why == PowerLoss)
    && (r.Live? ==> GoneTxn(r.w, m))
    && (fuel >= FinishCost(scan) ==> r.Live?)
  }

  lemma FinishLive(w: World, m: Manifest, scan: Scan, fuel: nat)
    requires FinishReady(w, m) && LiveTxn(w, m) && AllChildren(scan.children) && Retired(m.id) in scan.dirs
    ensures FinishPost(w, m, scan, fuel, FinishFrom(w, m, m.id, Active, scan, fuel))
  {
    assert Accepts(w.tree, w.files, m, w.txns[Active].parked, m.phase.RollbackHealthy?);
    var r1 := if m.phase.RollbackHealthy? then ParkCandidate(w, m, Active, fuel) else Live(w, fuel);
    if m.phase.RollbackHealthy? { ParkStep(w, m, fuel); }
    assert Untouching(w, r1.w, m);
    if r1.Live? {
      DiscardStep(r1.w, m, r1.fuel);
      var r2 := CleanupStaging(r1.w, m, r1.fuel);
      UntouchingTrans(w, r1.w, r2.w, m);
      if r2.Live? {
        RetireStep(r2.w, m, Active, scan, r2.fuel);
        RetireKeepsTree(r2.w, m, Active, scan, r2.fuel);
        UntouchingTrans(w, r2.w, Retire(r2.w, m, m.id, Active, scan, r2.fuel).w, m);
      }
    }
  }

  lemma RetireKeepsTree(w: World, m: Manifest, name: TxnName, scan: Scan, fuel: nat)
    ensures Retire(w, m, m.id, name, scan, fuel).w.tree == w.tree
  {
    if name in w.txns && ExpectedContents(w.txns[name], m) {
      if name == Retired(m.id) {
        SweepKeeps(w, scan, fuel);
      } else if Retired(m.id) !in w.txns && fuel > 0 {
        SweepKeeps(w.(txns := (w.txns - {name})[Retired(m.id) := w.txns[name]]), scan, fuel - 1);
      }
    }
  }

  lemma FinishRetired(w: World, m: Manifest, scan: Scan, fuel: nat)
    requires FinishReady(w, m) && RetiredTxn(w, m) && AllChildren(scan.children) && Retired(m.id) in scan.dirs
    requires Load(w, Retired(m.id)) == Loaded(m)
    ensures FinishPost(w, m, scan, fuel, FinishFrom(w, m, m.id, Retired(m.id), scan, fuel))
  {
    var name := Retired(m.id);
    assert Accepts(w.tree, w.files, m, w.txns[name].parked, m.phase.RollbackHealthy?);
    DiscardStep(w, m, fuel);
    var r := CleanupStaging(w, m, fuel);
    if r.Live? {
      assert Load(r.w, name) == Loaded(m);
      RetireStep(r.w, m, name, scan, r.fuel);
      RetireKeepsTree(r.w, m, name, scan, r.fuel);
      UntouchingTrans(w, r.w, Retire(r.w, m, m.id, name, scan, r.fuel).w, m);
    }
  }

  lemma LoadsHalfRemoved(w: World, m: Manifest)
    requires RetiredTxn(w, m) && Settling(w, m)
    ensures Load(w, Retired(m.id)) == Loaded(m) || Load(w, Retired(m.id)) == NotFound
  {
  }

  lemma ScanCost(scan: Scan)
    requires scan.dirs != []
    ensures SweepCost(scan) >= |scan.children| + 1
  {
  }

  lemma LiveLoads(w: World, m: Manifest)
    requires LiveTxn(w, m) && Settling(w, m)
    ensures Load(w, Active) == Loaded(m)
  {
    var x := w.txns[Active];
    assert !BackupMissing(x, m, Env) && !BackupMissing(x, m, Service);
    assert !BackupChanged(x, m, Env) && !BackupChanged(x, m, Service);
  }

  // One finish, cut anywhere.
  lemma FinishStep(w: World, m: Manifest, scan: Scan, fuel: nat)
    requires FinishReady(w, m) && AllChildren(scan.children) && Retired(m.id) in scan.dirs
    ensures FinishPost(w, m, scan, fuel, Finish(w, m.id, scan, fuel))
  {
    if LiveTxn(w, m) {
      LiveLoads(w, m);
      FinishLive(w, m, scan, fuel);
    } else if RetiredTxn(w, m) {
      LoadsHalfRemoved(w, m);
      if Load(w, Retired(m.id)) == NotFound {
        RemoveDirectorySweeps(w, Retired(m.id), scan.children, fuel);
        SweepFinishing(w, RemoveDirectory(w, Retired(m.id), scan.children, fuel).w, m);
        ScanCost(scan);
      } else {
        FinishRetired(w, m, scan, fuel);
      }
    }
  }

  function FinishAttempts(w: World, id: string, cuts: seq<(Scan, nat)>): World
    decreases |cuts|
  {
    if cuts == [] then w else FinishAttempts(Finish(w, id, cuts[0].0, cuts[0].1).w, id, cuts[1..])
  }

  /** `finish` is idempotent.  From a committed or rolled-back transaction, cut after any step and
      rerun with the same id any number of times, it ends with neither a live nor a retired
      directory, without touching links or configurations. */
  lemma {:induction false} FinishIdempotent(w: World, m: Manifest, cuts: seq<(Scan, nat)>, scan: Scan, fuel: nat)
    requires FinishReady(w, m)
    requires forall c :: c in cuts ==> AllChildren(c.0.children) && Retired(m.id) in c.0.dirs
    requires AllChildren(scan.children) && Retired(m.id) in scan.dirs && fuel >= FinishCost(scan)
    ensures var r := Finish(FinishAttempts(w, m.id, cuts), m.id, scan, fuel);
            r.Live? && GoneTxn(r.w, m) && Untouching(w, r.w, m)
    decreases |cuts|
  {
    if cuts == [] {
      FinishStep(w, m, scan, fuel);
    } else {
      FinishStep(w, m, cuts[0].0, cuts[0].1);
      var w1 := Finish(w, m.id, cuts[0].0, cuts[0].1).w;
      FinishIdempotent(w1, m, cuts[1..], scan, fuel);
      UntouchingTrans(w, w1, Finish(FinishAttempts(w1, m.id, cuts[1..]), m.id, scan, fuel).w, m);
    }
  }

  // ---------------------------------------------------------------- reaching a settled transaction

  lemma FitsOneName(t: Tree, parked: Option<Node>, o: Origin, s: Shape)
    requires OriginOk(o) && Fits(t, parked, o, s) && Backward(o, s)
    ensures OneNamePerDirectory(t)
  {
    forall p, q | p in t && q in t && t[p].Dir? && t[q].Dir? && t[p].inode == t[q].inode
      ensures p == q
    {
      assert Get(t, p) == Expected(o, s, p);
      assert Get(t, q) == Expected(o, s, q);
      if o.m.prior.Some? && (s.priorMoved || !s.candidate.AtSource?) { TwoDirectories(o, s); }
    }
  }

  // Every settled transaction a run reaches can be finished.
  lemma SettledIsFinishing(w: World, o: Origin, s: Shape)
    requires OriginOk(o) && InvAt(w, o, s) && Terminal(ManifestOf(w).phase)
    requires Tidy(w.txns) && Retired(o.m.id) !in w.txns
    ensures var m := ManifestOf(w);
            && Finishing(w, m) && LiveTxn(w, m) && InReleases(m.candidate.source) && InReleases(m.candidate.target)
            && (m.phase.RollbackHealthy? ==> OneNamePerDirectory(w.tree))
            && (m.phase.RollbackHealthy? && s.candidate.AtSource? ==> CandidatePath(w.tree, m) == Some(m.candidate.source))
  {
    var m := ManifestOf(w);
    if m.phase.RollbackHealthy? {
      FitsOneName(w.tree, w.txns[Active].parked, o, s);
    }
    assert Get(w.tree, m.candidate.source) == Expected(o, s, m.candidate.source);
    if s.candidate.InPark? {
      assert Get(w.tree, m.candidate.target) == Expected(o, s, m.candidate.target);
      assert Get(w.tree, RetiredCandidate(m.id)) == Expected(o, s, RetiredCandidate(m.id));
      TwoDirectories(o, s);
    } else {
      AllowanceMonotone(w.tree, w.files, m, w.txns[Active].parked);
    }
  }

  lemma AllowanceMonotone(t: Tree, f: Files, m: Manifest, parked: Option<Node>)
    requires Accepts(t, f, m, parked, false)
    ensures Accepts(t, f, m, None, true)
    ensures parked.None? ==> Accepts(t, f, m, None, false)
  {
  }

  /** After a rollback, a candidate that is also the prior or the previous release makes an
      interrupted finish impossible to repeat: parking it takes that release away. */
  lemma SharedCandidateStrands(w: World, m: Manifest, scan: Scan, scan': Scan, fuel: nat)
    requires LiveTxn(w, m) && Settling(w, m) && m.phase.RollbackHealthy? && OneNamePerDirectory(w.tree)
    requires CandidatePath(w.tree, m).Some?
    requires || (m.prior.Some? && m.prior.value.inode == m.candidate.inode && m.prior.value.version == m.candidate.version)
             || (m.previousRelease.Some? && m.previousRelease.value.inode == m.candidate.inode
                 && m.previousRelease.value.version == m.candidate.version)
    ensures var w1 := Finish(w, m.id, scan, 1).w;
            Finish(w1, m.id, scan', fuel) == Refuse(w1, JournalMismatch)
  {
    LiveLoads(w, m);
    var p := CandidatePath(w.tree, m).value;
    var w1 := w.WithTree(w.tree - {p}).WithTxn(Active, w.txns[Active].(parked := Get(w.tree, p)));
    assert ParkCandidate(w, m, Active, 1) == Live(w1, 0);
    assert w.txns[Active].parked.None?;
    SharedCandidateGone(w.tree, m, p);
    FinishStopsAfterPark(w, m, scan, w1);
    FinishRefused(w1, m, scan', fuel);
  }

  ghost predicate Repeatable(w: World, m: Manifest, scan: Scan, fuel: nat, cuts: seq<(Scan, nat)>) {
    (forall c :: c in cuts ==> AllChildren(c.0.children) && Retired(m.id) in c.0.dirs) ==>
      Finish(FinishAttempts(w, m.id, cuts), m.id, scan, fuel).Live?
  }

  lemma SharedDirectory(t: Tree, m: Manifest)
    requires OneNamePerDirectory(t) && PriorLocated(t, m) && OriginalPrevious(t, m)
    requires CandidatePath(t, m).Some? && !CandidateDistinct(m)
    ensures || (m.prior.Some? && m.prior.value.inode == m.candidate.inode && m.prior.value.version == m.candidate.version)
            || (m.previousRelease.Some? && m.previousRelease.value.inode == m.candidate.inode
                && m.previousRelease.value.version == m.candidate.version)
  {
  }

  /** After a rollback whose candidate is still in place, `finish` can be cut anywhere and repeated if
      and only if the candidate's directory is neither the prior nor the previous release. */
  lemma FinishExactly(w: World, m: Manifest, scan: Scan, fuel: nat)
    requires Finishing(w, m) && LiveTxn(w, m) && m.phase.RollbackHealthy? && OneNamePerDirectory(w.tree)
    requires InReleases(m.candidate.source) && InReleases(m.candidate.target)
    requires CandidatePath(w.tree, m).Some?
    requires AllChildren(scan.children) && Retired(m.id) in scan.dirs && fuel >= FinishCost(scan)
    ensures CandidateDistinct(m) <==> forall cuts :: Repeatable(w, m, scan, fuel, cuts)
  {
    if CandidateDistinct(m) {
      forall cuts: seq<(Scan, nat)> ensures Repeatable(w, m, scan, fuel, cuts) {
        if forall c :: c in cuts ==> AllChildren(c.0.children) && Retired(m.id) in c.0.dirs {
          FinishIdempotent(w, m, cuts, scan, fuel);
        }
      }
    } else {
      SharedDirectory(w.tree, m);
      SharedCandidateStrands(w, m, scan, scan, fuel);
      var cuts := [(scan, 1)];
      assert FinishAttempts(w, m.id, cuts) == Finish(w, m.id, scan, 1).w;
      assert !Repeatable(w, m, scan, fuel, cuts);
    }
  }

  // Retiring a live directory needs nothing of the tree.
  lemma RetireRuns(w: World, m: Manifest, scan: Scan, fuel: nat)
    requires Tidy(w.txns) && LiveTxn(w, m) && m.phase.RollbackHealthy?
    requires AllChildren(scan.children) && Retired(m.id) in scan.dirs && fuel >= SweepCost(scan) + 1
    ensures var r := Retire(w, m, m.id, Active, scan, fuel); r.Live? && GoneTxn(r.w, m)
  {
    var w1 := w.(txns := (w.txns - {Active})[Retired(m.id) := w.txns[Active]]);
    assert Retire(w, m, m.id, Active, scan, fuel) == Sweep(w1, scan, fuel - 1);
    assert Tidy(w1.txns);
    SweepSweeps(w1, scan, fuel - 1);
  }

  // After a rollback, `finish` takes the candidate's directory away for good.
  lemma FinishTakes(w: World, m: Manifest, scan: Scan, fuel: nat)
    requires Finishing(w, m) && LiveTxn(w, m) && m.phase.RollbackHealthy? && OneNamePerDirectory(w.tree)
    requires CandidatePath(w.tree, m).Some? && fuel >= FinishCost(scan)
    requires AllChildren(scan.children) && Retired(m.id) in scan.dirs
    ensures var r := Finish(w, m.id, scan, fuel);
            r.Live? && GoneTxn(r.w, m) && r.w.tree == w.tree - {CandidatePath(w.tree, m).value}
  {
    LiveLoads(w, m);
    var p := CandidatePath(w.tree, m).value;
    var r1 := ParkCandidate(w, m, Active, fuel);
    ParkOnce(w.tree, m, p);
    StillBackedUp(w.txns[Active], m, r1.w.txns[Active], m);
    CleanupStagingKeeps(r1.w, m, r1.fuel);
    var r2 := CleanupStaging(r1.w, m, r1.fuel);
    RetireRuns(r2.w, m, scan, r2.fuel);
    RetireKeepsTree(r2.w, m, Active, scan, r2.fuel);
  }

  /** What `finish` costs after a rollback whose candidate is still in place: it completes and removes
      the candidate's directory, and the restored prior release and the target of `previous` survive
      it if and only if neither of them is that directory. */
  lemma FinishKeepsReleases(w: World, m: Manifest, scan: Scan, fuel: nat)
    requires Finishing(w, m) && LiveTxn(w, m) && m.phase.RollbackHealthy? && OneNamePerDirectory(w.tree)
    requires InReleases(m.candidate.source) && InReleases(m.candidate.target)
    requires CandidatePath(w.tree, m).Some? && fuel >= FinishCost(scan)
    requires AllChildren(scan.children) && Retired(m.id) in scan.dirs
    ensures var r := Finish(w, m.id, scan, fuel);
            && r.Live? && GoneTxn(r.w, m)
            && (CandidateDistinct(m) <==> PriorLocated(r.w.tree, m) && OriginalPrevious(r.w.tree, m))
  {
    FinishTakes(w, m, scan, fuel);
    if CandidateDistinct(m) {
      FinishStep(w, m, scan, fuel);
    } else {
      SharedDirectory(w.tree, m);
      SharedCandidateGone(w.tree, m, CandidatePath(w.tree, m).value);
    }
  }

  lemma FinishStopsAfterPark(w: World, m: Manifest, scan: Scan, w1: World)
    requires Active in w.txns && Load(w, Active) == Loaded(m) && m.phase.RollbackHealthy?
    requires Accepts(w.tree, w.files, m, w.txns[Active].parked, true)
    requires ParkCandidate(w, m, Active, 1) == Live(w1, 0) && Active in w1.txns
    ensures Finish(w, m.id, scan, 1).w == w1
  {
    IdleWithoutFuel(w1, m, scan);
  }

  lemma FinishRefused(w: World, m: Manifest, scan: Scan, fuel: nat)
    requires Active in w.txns && Load(w, Active) == Loaded(m) && m.phase.RollbackHealthy?
    requires !PriorLocated(w.tree, m) || !OriginalPrevious(w.tree, m)
    ensures Finish(w, m.id, scan, fuel) == Refuse(w, JournalMismatch)
  {
  }

  lemma SharedCandidateGone(t: Tree, m: Manifest, p: Path)
    requires OneNamePerDirectory(t) && Matches(t, p, m.candidate)
    requires || (m.prior.Some? && m.prior.value.inode == m.candidate.inode && m.prior.value.version == m.candidate.version)
             || (m.previousRelease.Some? && m.previousRelease.value.inode == m.candidate.inode
                 && m.previousRelease.value.version == m.candidate.version)
    ensures !PriorLocated(t - {p}, m) || !OriginalPrevious(t - {p}, m)
  {
  }

  lemma IdleWithoutFuel(w: World, m: Manifest, scan: Scan)
    requires Active in w.txns
    ensures CleanupStaging(w, m, 0).w == w
    ensures Retire(w, m, m.id, Active, scan, 0).w == w
  {
  }

}

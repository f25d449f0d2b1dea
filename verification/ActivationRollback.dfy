/**
 Whole runs: from `begin`, any commands, each cut anywhere and repeated at will.

 The main theorems say exactly when an interrupted activation can always be rolled back to
 the state `begin` captured, and exactly when replacing a configuration is harmless.
 */
module ActivationRollback {
  import opened Wrappers
  import opened ActivationDisk
  import opened ActivationJournal
  import opened ActivationTree
  import opened ActivationFiles
  import opened ActivationSteps
  import opened ActivationCommands

  // ---------------------------------------------------------------- runs

  datatype Command =
    | DoRecord(a: RecordArgs)
    | DoReplace(k: Kind, mode: Mode)
    | DoActivate
    | DoRestore
    | DoDraft(k: Kind, bytes: string)

  // One invocation: who issues it, what it asks, and after how many steps power is lost.
  datatype Issue = Issue(id: string, command: Command, fuel: nat)

  function Exec(w: World, i: Issue): World {
    match i.command
    case DoRecord(a) => Record(w, i.id, a, i.fuel).w
    case DoReplace(k, mode) => ReplaceConfig(w, i.id, k, mode, i.fuel).w
    case DoActivate => ActivateFiles(w, i.id, i.fuel).w
    case DoRestore => RestoreFiles(w, i.id, i.fuel).w
    case DoDraft(k, bytes) => PlaceDraft(w, k, bytes)
  }

  function RunAll(w: World, log: seq<Issue>): World
    decreases |log|
  {
    if log == [] then w else RunAll(Exec(w, log[0]), log[1..])
  }

  predicate Careful(w: World, i: Issue) {
    i.command.DoReplace? ==>
      && Active in w.txns && w.txns[Active].manifest.Some?
      && SafeReplace(w.files, ManifestOf(w), i.command.k, i.command.mode)
  }

  predicate CarefulRun(w: World, log: seq<Issue>)
    decreases |log|
  {
    log != [] ==> Careful(w, log[0]) && CarefulRun(Exec(w, log[0]), log[1..])
  }

  lemma StrangerRefused(w: World, o: Origin, s: Shape, i: Issue)
    requires InvAt(w, o, s) && i.id != o.m.id && !i.command.DoDraft?
    ensures Exec(w, i) == w
  {
    Opens(w, o, s, true);
    assert Open(w, i.id, true).Closed? && Open(w, i.id, false).Closed?;
  }

  lemma ExecKeeps(w: World, o: Origin, s: Shape, i: Issue) returns (s': Shape)
    requires OriginOk(o) && InvAt(w, o, s) && Careful(w, i)
    ensures InvAt(Exec(w, i), o, s')
  {
    s' := s;
    if i.command.DoDraft? {
      DraftStep(w, o, s, i.command.k, i.command.bytes);
    } else if i.id != o.m.id {
      StrangerRefused(w, o, s, i);
    } else {
      match i.command
      case DoRecord(a) => RecordStep(w, o, s, a, i.fuel);
      case DoReplace(k, mode) => ReplaceStep(w, o, s, k, mode, i.fuel);
      case DoActivate => s' := ActivateStep(w, o, s, i.fuel);
      case DoRestore => s' := RestoreStep(w, o, s, i.fuel);
    }
  }

  lemma {:induction false} RunKeeps(w: World, o: Origin, s: Shape, log: seq<Issue>) returns (s': Shape)
    requires OriginOk(o) && InvAt(w, o, s) && CarefulRun(w, log)
    ensures InvAt(RunAll(w, log), o, s')
    decreases |log|
  {
    s' := s;
    if log == [] {
    } else {
      s' := ExecKeeps(w, o, s, log[0]);
      s' := RunKeeps(Exec(w, log[0]), o, s', log[1..]);
    }
  }

  // ---------------------------------------------------------------- begin

  // A disk no activation of this id has touched: directories have one name, file names one
  // inode each, and the staging names, which contain the fresh id, do not exist.
  ghost predicate Untouched(w: World) {
    && OneNamePerDirectory(w.tree)
    && NamesOk(w.files, w.next)
    && (forall k: Kind :: w.files.At(k).draft.None? && w.files.At(k).publication.None?)
  }

  lemma {:induction false} SweepKeeps(w: World, scan: Scan, fuel: nat)
    ensures Sweep(w, scan, fuel).w.tree == w.tree
    ensures Sweep(w, scan, fuel).w.files == w.files
    ensures Sweep(w, scan, fuel).w.next == w.next
    decreases |scan.dirs|
  {
    if scan.dirs == [] {
    } else {
      var rest := scan.(dirs := scan.dirs[1..]);
      if scan.dirs[0].Active? {
        SweepKeeps(w, rest, fuel);
      } else {
        RemoveKeeps(w, scan.dirs[0], scan.children, fuel);
        var r := RemoveDirectory(w, scan.dirs[0], scan.children, fuel);
        if r.Live? { SweepKeeps(r.w, rest, r.fuel); }
      }
    }
  }

  lemma {:induction false} RemoveKeeps(w: World, name: TxnName, cs: seq<Child>, fuel: nat)
    ensures var r := RemoveChildren(w, name, cs, fuel); r.w.tree == w.tree && r.w.files == w.files && r.w.next == w.next
    decreases |cs|
  {
    if cs == [] || name !in w.txns {
    } else {
      if !Holds(w.txns[name], cs[0]) {
        RemoveKeeps(w, name, cs[1..], fuel);
      } else if fuel > 0 {
        RemoveKeeps(w.WithTxn(name, Without(w.txns[name], cs[0])), name, cs[1..], fuel - 1);
      }
    }
  }

  lemma CaptureTree(t: Tree, f: Files, a: BeginArgs)
    requires OneNamePerDirectory(t) && Capture(t, f, a).Some?
    ensures ValidTree(Origin(t, f, Capture(t, f, a).value))
  {
  }

  lemma CaptureFiles(t: Tree, f: Files, a: BeginArgs, next: nat)
    requires NamesOk(f, next) && Capture(t, f, a).Some?
    requires forall k: Kind :: f.At(k).draft.None? && f.At(k).publication.None?
    ensures FilesOk(f, next, Capture(t, f, a).value)
  {
  }

  lemma CaptureBackups(f: Files, t: Tree, a: BeginArgs, parked: Option<Node>)
    requires Capture(t, f, a).Some?
    ensures BackedUp(Txn(Capture(t, f, a), Backups(f), parked), Capture(t, f, a).value)
  {
  }

  ghost function Begun(w0: World, w: World): Origin
    requires Active in w.txns && w.txns[Active].manifest.Some?
  {
    Origin(w0.tree, w0.files, ManifestOf(w))
  }

  // What a successful `begin` establishes, recoverable or not.
  lemma BeginCaptures(w0: World, a: BeginArgs, scan: Scan, fuel: nat)
    requires Untouched(w0) && Begin(w0, a, scan, fuel).Live?
    ensures var w := Begin(w0, a, scan, fuel).w;
            && Active in w.txns && Capture(w0.tree, w0.files, a).Some?
            && w.txns[Active] == Txn(Capture(w0.tree, w0.files, a), Backups(w0.files), None)
            && w.tree == w0.tree && w.files == w0.files && w.next == w0.next
            && Accepts(w.tree, w.files, ManifestOf(w), None, false)
            && ManifestOf(w).phase.Prepared? && ManifestOf(w).id == a.id
            && ValidTree(Begun(w0, w))
  {
    SweepKeeps(w0, scan, fuel);
    CaptureTree(w0.tree, w0.files, a);
  }

  lemma BeginEstablishes(w0: World, a: BeginArgs, scan: Scan, fuel: nat)
    requires Untouched(w0) && Begin(w0, a, scan, fuel).Live?
    requires Capture(w0.tree, w0.files, a).Some? ==> Recoverable(w0.tree, Capture(w0.tree, w0.files, a).value)
    ensures var w := Begin(w0, a, scan, fuel).w;
            && Active in w.txns && w.txns[Active].manifest.Some?
            && OriginOk(Begun(w0, w)) && InvAt(w, Begun(w0, w), START)
  {
    BeginCaptures(w0, a, scan, fuel);
    CaptureFiles(w0.tree, w0.files, a, w0.next);
    CaptureBackups(w0.files, w0.tree, a, None);
    var w := Begin(w0, a, scan, fuel).w;
    forall p ensures Get(w.tree, p) == Expected(Begun(w0, w), START, p) {
    }
  }

  // ---------------------------------------------------------------- rollback from anywhere

  // From here a rollback is accepted and its uninterrupted run completes.
  ghost predicate RollbackCompletes(w: World, id: string, o: Origin) {
    && Record(w, id, TO_ROLLBACK, 1).Live?
    && RestoreFiles(Record(w, id, TO_ROLLBACK, 1).w, id, 10).Live?
    && Restored(o, RestoreFiles(Record(w, id, TO_ROLLBACK, 1).w, id, 10).w)
  }

  lemma PendingRollsBack(w: World, o: Origin, s: Shape)
    requires OriginOk(o) && InvAt(w, o, s) && PreCommit(ManifestOf(w).phase)
    ensures RollbackCompletes(w, o.m.id, o)
  {
    RollbackAmends(ManifestOf(w));
    RollbackAccepted(w, o, s, TO_ROLLBACK, 1);
    var s' := RestoreStep(Record(w, o.m.id, TO_ROLLBACK, 1).w, o, s, 10);
  }

  const ROLLED_BACK := RecordArgs(RolledBack, None, None, None, None)

  lemma UndoneAccepted(t: Tree, parked: Option<Node>, o: Origin, s: Shape, m: Manifest)
    requires OriginOk(o) && Fits(t, parked, o, s) && SameTransaction(o.m, m) && Undone(o, s)
    requires m.phase.RolledBack?
    ensures PriorLocated(t, m) && CurrentAccepted(t, m, true) && PreviousAccepted(t, m)
  {
    assert Get(t, Current) == Expected(o, s, Current);
    PriorFound(t, parked, o, s, m);
    PreviousFound(t, parked, o, s, m.(phase := RollingBack));
    assert OriginalPrevious(t, m);
  }

  // A finished restore can be recorded.
  lemma RestoredRecords(w: World, o: Origin, s: Shape)
    requires OriginOk(o) && InvAt(w, o, s) && ManifestOf(w).phase.RollingBack?
    requires Undone(o, s) && Restored(o, w)
    ensures Record(w, o.m.id, ROLLED_BACK, 1).Live?
  {
    Opens(w, o, s, true);
    var m := ManifestOf(w);
    var m' := m.(phase := RolledBack);
    assert Amend(m, ROLLED_BACK) == Some(m');
    UndoneAccepted(w.tree, w.txns[Active].parked, o, s, m');
    FilesAcrossPhases(w.files, w.next, m, m');
    PristineAccepted(w.files, w.next, m');
  }

  /** Rollback from anywhere.  After `begin` on a recoverable layout and any careful commands,
      each cut after any step and repeated any number of times: before the commit,
      `record(rolling-back)` is accepted; while rolling back, `restore-files` is only ever
      stopped by power loss, ten steps complete it, the disk is then exactly as `begin`
      captured it, and that can be recorded. */
  lemma RollbackFromAnywhere(w0: World, a: BeginArgs, scan: Scan, fuel0: nat, log: seq<Issue>, fuel: nat)
    requires Untouched(w0) && Begin(w0, a, scan, fuel0).Live?
    requires Capture(w0.tree, w0.files, a).Some? ==> Recoverable(w0.tree, Capture(w0.tree, w0.files, a).value)
    requires CarefulRun(Begin(w0, a, scan, fuel0).w, log)
    ensures var w1 := Begin(w0, a, scan, fuel0).w;
            var w := RunAll(w1, log);
            && Active in w1.txns && w1.txns[Active].manifest.Some?
            && Active in w.txns && w.txns[Active].manifest.Some?
            && var o := Begun(w0, w1);
               && (PreCommit(ManifestOf(w).phase) ==> RollbackCompletes(w, a.id, o))
               && (ManifestOf(w).phase.RollingBack? ==>
                     var run := RestoreFiles(w, a.id, fuel);
                     && (run.Halted? ==> run.why == PowerLoss)
                     && (fuel >= 10 ==> run.Live?)
                     && (run.Live? ==> Restored(o, run.w) && Record(run.w, a.id, ROLLED_BACK, 1).Live?))
  {
    BeginCaptures(w0, a, scan, fuel0);
    BeginEstablishes(w0, a, scan, fuel0);
    var w1 := Begin(w0, a, scan, fuel0).w;
    var o := Begun(w0, w1);
    var s := RunKeeps(w1, o, START, log);
    var w := RunAll(w1, log);
    if PreCommit(ManifestOf(w).phase) {
      PendingRollsBack(w, o, s);
    }
    if ManifestOf(w).phase.RollingBack? {
      var s' := RestoreStep(w, o, s, fuel);
      if RestoreFiles(w, a.id, fuel).Live? {
        RestoredRecords(RestoreFiles(w, a.id, fuel).w, o, s');
      }
    }
  }

  // ---------------------------------------------------------------- layouts that strand the journal

  // Validation refuses the disk even when a missing candidate is allowed.
  predicate Stranded(w: World, id: string) {
    Open(w, id, true).Closed?
  }

  lemma StrandedRefusesAll(w: World, i: Issue)
    requires Stranded(w, i.id) && !i.command.DoDraft?
    ensures Exec(w, i) == w
  {
    assert Open(w, i.id, false).Closed?;
  }

  const TO_LINKING := RecordArgs(Linking, None, None, None, None)

  // Right after `begin`, linking may start.
  lemma LinkingStarts(w: World, o: Origin)
    requires ValidTree(o) && Active in w.txns && w.txns[Active] == Txn(Some(o.m), Backups(w.files), None)
    requires w.tree == o.tree && w.files == o.files && o.m.phase.Prepared? && o.m.rollbackFrom.None?
    requires Load(w, Active) == Loaded(o.m) && Accepts(w.tree, w.files, o.m, None, false)
    ensures Record(w, o.m.id, TO_LINKING, 1)
            == Live(w.WithTxn(Active, w.txns[Active].(manifest := Some(o.m.(phase := Linking)))), 0)
    ensures Accepts(w.tree, w.files, o.m.(phase := Linking), None, false)
  {
    var m' := o.m.(phase := Linking);
    assert Amend(o.m, TO_LINKING) == Some(m');
    assert OriginalCurrent(w.tree, m') && OriginalPrevious(w.tree, m');
  }

  // The prior release moves away from a `current` or `previous` that names it.
  lemma PriorMoveStrands(o: Origin, m: Manifest, t: Tree)
    requires ValidTree(o) && SameTransaction(o.m, m) && m.phase.Linking?
    requires PriorMoveHappens(o.tree, m) && t == Move(o.tree, m.prior.value.source, m.prior.value.target)
    requires || (m.current.Symlink? && m.current.text != Spelled(m.releaseDir))
             || (m.previousRelease.Some? && m.previousRelease.value.source == m.prior.value.source)
    ensures !CurrentAccepted(t, m, true) || !PreviousAccepted(t, m)
  {
  }

  // The candidate moves away from a prior release or a `previous` that is the candidate itself.
  lemma CandidateMoveStrands(o: Origin, m: Manifest, t: Tree)
    requires ValidTree(o) && SameTransaction(o.m, m) && m.phase.Linking?
    requires PriorMoveHappens(o.tree, m) && m.current.Symlink? ==> m.current.text == Spelled(m.releaseDir)
    requires CandidateMoveHappens(o.tree, m)
    requires m.candidate.source in Displaced(o.tree, m)
    requires t == Move(Displaced(o.tree, m), m.candidate.source, m.candidate.target)
    requires || (m.prior.Some? && m.prior.value.source == m.candidate.source)
             || (m.previousRelease.Some? && m.previousRelease.value.source == m.candidate.source)
    ensures !PriorLocated(t, m) || !PreviousAccepted(t, m)
  {
  }

  // The tree once the prior release is out of the way.
  function Displaced(t: Tree, m: Manifest): Tree {
    if Moves(m) && m.prior.value.source in t then Move(t, m.prior.value.source, m.prior.value.target) else t
  }

  lemma ActivateOnce(w: World, m: Manifest, id: string)
    requires Open(w, id, false) == Opened(m) && m.phase.Linking? && PriorMoveHappens(w.tree, m)
    requires Matches(w.tree, m.prior.value.source, m.prior.value)
    ensures ActivateFiles(w, id, 1).w == w.WithTree(Move(w.tree, m.prior.value.source, m.prior.value.target))
  {
  }

  lemma ActivateCandidate(w: World, o: Origin, m: Manifest, id: string)
    requires Open(w, id, false) == Opened(m) && m.phase.Linking? && SameTransaction(o.m, m)
    requires ValidTree(o) && w.tree == o.tree && CandidateMoveHappens(w.tree, m)
    requires PriorMoveHappens(o.tree, m) && m.current.Symlink? ==> m.current.text == Spelled(m.releaseDir)
    ensures m.candidate.source in Displaced(w.tree, m)
    ensures ActivateFiles(w, id, if Moves(m) then 2 else 1).w
            == w.WithTree(Move(Displaced(w.tree, m), m.candidate.source, m.candidate.target))
  {
    var w1 := w.WithTree(Displaced(w.tree, m));
    var c := m.candidate;
    assert MovePrior(w, m, if Moves(m) then 2 else 1) == Live(w1, 1);
    assert Matches(w1.tree, c.source, c);
    assert !Matches(w1.tree, c.target, c);
    assert c.target !in w1.tree;
    var w2 := w1.WithTree(Move(w1.tree, c.source, c.target));
    assert MoveCandidate(w1, m, 1) == Live(w2, 0);
    assert TakeLinks(w2, m, 0).w == w2;
  }

  // A layout that is not recoverable has a two-command run no further command is accepted after.
  lemma StrandingRun(w: World, o: Origin) returns (log: seq<Issue>)
    requires ValidTree(o) && Active in w.txns && w.txns[Active] == Txn(Some(o.m), Backups(w.files), None)
    requires w.tree == o.tree && w.files == o.files && o.m.phase.Prepared? && o.m.rollbackFrom.None?
    requires Load(w, Active) == Loaded(o.m) && Accepts(w.tree, w.files, o.m, None, false)
    requires BackedUp(w.txns[Active], o.m)
    requires !Recoverable(o.tree, o.m)
    ensures CarefulRun(w, log)
    ensures Stranded(RunAll(w, log), o.m.id)
    ensures var w' := RunAll(w, log);
            Active in w'.txns && w'.txns[Active].manifest.Some? && PreCommit(ManifestOf(w').phase)
  {
    LinkingStarts(w, o);
    var m := o.m.(phase := Linking);
    var w1 := w.WithTxn(Active, w.txns[Active].(manifest := Some(m)));
    assert Open(w1, o.m.id, false) == Opened(m) by {
      StillBackedUp(w.txns[Active], o.m, w1.txns[Active], m);
      assert !BackupMissing(w1.txns[Active], m, Env) && !BackupMissing(w1.txns[Active], m, Service);
    }
    var prior := PriorMoveHappens(o.tree, m)
                 && ((m.current.Symlink? && m.current.text != Spelled(m.releaseDir))
                     || (m.previousRelease.Some? && m.previousRelease.value.source == m.prior.value.source));
    var n := if prior || !Moves(m) then 1 else 2;
    var i0, i1 := Issue(o.m.id, DoRecord(TO_LINKING), 1), Issue(o.m.id, DoActivate, n);
    var w2 := Exec(w1, i1);
    if prior {
      ActivateOnce(w1, m, o.m.id);
      PriorMoveStrands(o, m, w2.tree);
    } else {
      ActivateCandidate(w1, o, m, o.m.id);
      CandidateMoveStrands(o, m, w2.tree);
    }
    assert w2.txns == w1.txns && w2.files == w1.files;
    assert Load(w2, Active) == Load(w1, Active);
    log := [i0, i1];
    TwoIssues(w, i0, i1);
  }

  lemma TwoIssues(w: World, i0: Issue, i1: Issue)
    ensures RunAll(w, [i0, i1]) == Exec(Exec(w, i0), i1)
    ensures CarefulRun(w, [i0, i1]) <==> Careful(w, i0) && Careful(Exec(w, i0), i1)
  {
    var w1 := Exec(w, i0);
    assert [i0, i1][1..] == [i1] && [i1][1..] == [];
    assert RunAll(w1, [i1]) == RunAll(Exec(w1, i1), []);
    assert CarefulRun(w1, [i1]) <==> Careful(w1, i1) && CarefulRun(Exec(w1, i1), []);
  }

  ghost predicate CanRollBack(w1: World, id: string, o: Origin, log: seq<Issue>) {
    CarefulRun(w1, log) ==>
      var w := RunAll(w1, log);
      && Active in w.txns && w.txns[Active].manifest.Some?
      && (PreCommit(ManifestOf(w).phase) ==> RollbackCompletes(w, id, o))
  }

  /** Exactly the recoverable layouts can be rolled back from everywhere.  On any other layout
      that `begin` accepts, two commands and one power loss leave a journal whose rollback is
      refused. */
  lemma RecoverableExactly(w0: World, a: BeginArgs, scan: Scan, fuel: nat)
    requires Untouched(w0) && Begin(w0, a, scan, fuel).Live?
    ensures var w1 := Begin(w0, a, scan, fuel).w;
            && Active in w1.txns && w1.txns[Active].manifest.Some?
            && var o := Begun(w0, w1);
               Recoverable(w0.tree, o.m) <==> forall log :: CanRollBack(w1, a.id, o, log)
  {
    BeginCaptures(w0, a, scan, fuel);
    var w1 := Begin(w0, a, scan, fuel).w;
    var o := Begun(w0, w1);
    if Recoverable(w0.tree, o.m) {
      BeginEstablishes(w0, a, scan, fuel);
      forall log ensures CanRollBack(w1, a.id, o, log) {
        if CarefulRun(w1, log) {
          var s := RunKeeps(w1, o, START, log);
          if PreCommit(ManifestOf(RunAll(w1, log)).phase) {
            PendingRollsBack(RunAll(w1, log), o, s);
          }
        }
      }
    } else {
      CaptureBackups(w0.files, w0.tree, a, None);
      assert Load(w1, Active) == Loaded(o.m) by {
        assert !BackupMissing(w1.txns[Active], o.m, Env) && !BackupMissing(w1.txns[Active], o.m, Service);
      }
      var log := StrandingRun(w1, o);
      assert !CanRollBack(w1, a.id, o, log);
    }
  }
}

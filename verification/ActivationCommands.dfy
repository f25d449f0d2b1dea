/**
 The remaining commands keep the invariant too: restoring files, recording a phase,
 replacing a configuration and placing a draft.
 */
module ActivationCommands {
  import opened Wrappers
  import opened ActivationDisk
  import opened ActivationJournal
  import opened ActivationTree
  import opened ActivationFiles
  import opened ActivationSteps

  // ---------------------------------------------------------------- changing files under a journal

  // Same tree, possibly another manifest and other files.
  predicate FileStep(w: World, w': World, m': Manifest) {
    && Active in w.txns && Active in w'.txns
    && w'.tree == w.tree && w.next <= w'.next
    && w'.txns[Active] == w.txns[Active].(manifest := Some(m'))
  }

  predicate SamePhase(m: Manifest, m': Manifest) {
    SameTransaction(m, m') && m'.phase == m.phase && m'.rollbackFrom == m.rollbackFrom
  }

  // Validation of the tree does not read what a configuration change rewrites.
  lemma TreeStillAccepted(t: Tree, parked: Option<Node>, m: Manifest, m': Manifest)
    requires SamePhase(m, m')
    requires PriorLocated(t, m) && CandidateLocated(t, m, parked) && CurrentAccepted(t, m, false) && PreviousAccepted(t, m)
    ensures PriorLocated(t, m') && CandidateLocated(t, m', parked) && CurrentAccepted(t, m', false) && PreviousAccepted(t, m')
  {
  }

  lemma FilesReaccept(w: World, o: Origin, s: Shape, w': World, m': Manifest)
    requires InvAt(w, o, s) && FileStep(w, w', m') && SamePhase(ManifestOf(w), m')
    requires FilesOk(w'.files, w'.next, m')
    requires ConfigsAccepted(w'.files, m')
    ensures InvAt(w', o, s)
  {
    TreeStillAccepted(w.tree, w.txns[Active].parked, ManifestOf(w), m');
    StillBackedUp(w.txns[Active], ManifestOf(w), w'.txns[Active], m');
  }

  lemma HistoryAccepted(f: Files, next: nat, m: Manifest)
    requires FilesOk(f, next, m) && HistoryConfigs(m.phase)
    ensures ConfigsAccepted(f, m)
  {
    ConfigReadable(f, next, m, Env);
    ConfigReadable(f, next, m, Service);
  }

  lemma PristineAccepted(f: Files, next: nat, m: Manifest)
    requires FilesOk(f, next, m) && PristineConfigs(m.phase)
    requires MetaAt(f, Env) == m.original.env && MetaAt(f, Service) == m.original.service
    ensures ConfigsAccepted(f, m)
  {
  }

  // ---------------------------------------------------------------- restore-files

  /** The disk as `begin` found it: both links, every release, both configurations and no
      staging name.  Only the candidate may be elsewhere than it was. */
  ghost predicate Restored(o: Origin, w: World) {
    var c := o.m.candidate;
    && (forall p :: p != c.source && p != c.target ==> Get(w.tree, p) == Get(o.tree, p))
    && (|| (Get(w.tree, c.source) == Get(o.tree, c.source) && Get(w.tree, c.target) == Get(o.tree, c.target))
        || (Get(w.tree, c.source) == None && Get(w.tree, c.target) == Get(o.tree, c.source) && Get(o.tree, c.target) == None)
        || (Get(w.tree, c.source) == None && Get(w.tree, c.target) == Get(o.tree, c.target)
            && Active in w.txns && w.txns[Active].parked == Get(o.tree, c.source)))
    && MetaAt(w.files, Env) == o.m.original.env && MetaAt(w.files, Service) == o.m.original.service
    && (forall k: Kind :: w.files.At(k).draft.None? && w.files.At(k).publication.None?)
  }

  lemma UndoneTree(w: World, o: Origin, s: Shape)
    requires OriginOk(o) && InvAt(w, o, s) && Undone(o, s)
    requires MetaAt(w.files, Env) == o.m.original.env && MetaAt(w.files, Service) == o.m.original.service
    requires forall k: Kind :: w.files.At(k).draft.None? && w.files.At(k).publication.None?
    ensures Restored(o, w)
  {
    forall p ensures Get(w.tree, p) == Expected(o, s, p) {
    }
    assert Get(w.tree, o.m.candidate.source) == Expected(o, s, o.m.candidate.source);
    assert Get(w.tree, o.m.candidate.target) == Expected(o, s, o.m.candidate.target);
  }

  ghost predicate RestoredOne(w: World, o: Origin, s: Shape, m: Manifest, k: Kind, fuel: nat, run: Run) {
    && FileStep(w, run.w, m) && InvAt(run.w, o, s)
    && run.w.files == w.files.Put(k, w.files.At(k).(config := run.w.files.At(k).config))
    && (run.Halted? ==> run.why == PowerLoss)
    && (run.Live? ==> MetaAt(run.w.files, k) == m.original.At(k))
    && (fuel >= 1 ==> run.Live? && run.fuel >= fuel - 1)
  }

  lemma RestoreConfigStep(w: World, o: Origin, s: Shape, m: Manifest, k: Kind, fuel: nat)
    requires InvAt(w, o, s) && m == ManifestOf(w) && m.phase.RollingBack?
    ensures RestoredOne(w, o, s, m, k, fuel, RestoreConfig(w, m, k, fuel))
  {
    RestoreConfigKeeps(w, m, k, fuel);
    var r := RestoreConfig(w, m, k, fuel);
    HistoryAccepted(r.w.files, r.w.next, m);
    FilesReaccept(w, o, s, r.w, m);
  }

  lemma RestoreConfigsStep(w: World, o: Origin, s: Shape, m: Manifest, fuel: nat)
    requires InvAt(w, o, s) && m == ManifestOf(w) && m.phase.RollingBack?
    ensures var run := RestoreConfigs(w, m, fuel);
            && FileStep(w, run.w, m) && InvAt(run.w, o, s)
            && (run.Halted? ==> run.why == PowerLoss)
            && (run.Live? ==> MetaAt(run.w.files, Env) == m.original.env && MetaAt(run.w.files, Service) == m.original.service)
            && (forall k: Kind :: run.w.files.At(k) == w.files.At(k).(config := run.w.files.At(k).config))
            && (fuel >= 2 ==> run.Live?)
  {
    RestoreConfigStep(w, o, s, m, Env, fuel);
    var r := RestoreConfig(w, m, Env, fuel);
    if r.Live? {
      RestoreConfigStep(r.w, o, s, m, Service, r.fuel);
    }
  }

  lemma CleanupStep(w: World, o: Origin, s: Shape, m: Manifest, fuel: nat)
    requires InvAt(w, o, s) && m == ManifestOf(w) && m.phase.RollingBack?
    ensures var run := CleanupStaging(w, m, fuel);
            && FileStep(w, run.w, m) && InvAt(run.w, o, s)
            && (run.Halted? ==> run.why == PowerLoss)
            && (run.Live? ==> forall k: Kind :: run.w.files.At(k).draft.None? && run.w.files.At(k).publication.None?)
            && (fuel >= 4 ==> run.Live? && run.fuel >= fuel - 4)
  {
    CleanupStagingKeeps(w, m, fuel);
    var r := CleanupStaging(w, m, fuel);
    HistoryAccepted(r.w.files, r.w.next, m);
    FilesReaccept(w, o, s, r.w, m);
  }

  // The configurations come back once the tree has.
  lemma RestoreRestStep(w: World, o: Origin, s: Shape, m: Manifest, fuel: nat) returns (run: Run)
    requires OriginOk(o) && InvAt(w, o, s) && m == ManifestOf(w) && m.phase.RollingBack? && Undone(o, s)
    ensures var r := CleanupStaging(w, m, fuel);
            run == if r.Live? then RestoreConfigs(r.w, m, r.fuel) else r
    ensures InvAt(run.w, o, s) && ManifestOf(run.w) == m
    ensures run.Halted? ==> run.why == PowerLoss
    ensures fuel >= 6 ==> run.Live?
    ensures run.Live? ==> Restored(o, run.w)
  {
    CleanupStep(w, o, s, m, fuel);
    run := CleanupStaging(w, m, fuel);
    if run.Live? {
      var w1 := run.w;
      RestoreConfigsStep(w1, o, s, m, run.fuel);
      run := RestoreConfigs(w1, m, run.fuel);
      if run.Live? {
        UndoneTree(run.w, o, s);
      }
    }
  }

  // Cut anywhere, restoring leaves a pending rollback; ten steps always finish it.
  lemma RestoreStep(w: World, o: Origin, s: Shape, fuel: nat) returns (s': Shape)
    requires OriginOk(o) && InvAt(w, o, s)
    ensures InvAt(RestoreFiles(w, o.m.id, fuel).w, o, s')
    ensures ManifestOf(RestoreFiles(w, o.m.id, fuel).w) == ManifestOf(w)
    ensures !s.priorMoved ==> s'.candidate == s.candidate
    ensures ManifestOf(w).phase.RollingBack? ==>
              var run := RestoreFiles(w, o.m.id, fuel);
              && (run.Halted? ==> run.why == PowerLoss)
              && (fuel >= 10 ==> run.Live?)
              && (run.Live? ==> Restored(o, run.w) && Undone(o, s'))
  {
    s' := s;
    Opens(w, o, s, true);
    var m := ManifestOf(w);
    if !m.phase.RollingBack? { return; }
    s' := RestoreTreeStep(w, o, s, m, fuel);
    var r1 := RestoreTree(w, m, fuel);
    if r1.Live? {
      var run := RestoreRestStep(r1.w, o, s', m, r1.fuel);
      assert RestoreFiles(w, o.m.id, fuel) == run;
    }
  }

  // ---------------------------------------------------------------- record

  // `record` changes only the phase, its rollback origin, the Hub binding, the guard and the flag.
  predicate SameFiling(m: Manifest, m': Manifest) {
    SameTransaction(m, m') && m'.desired == m.desired && m'.observed == m.observed
  }

  lemma NewPhaseKeeps(m: Manifest, phase: Phase)
    requires m.rollbackFrom.Some? == RollbackPhase(m.phase)
    requires m.rollbackFrom.Some? ==> PreCommit(m.rollbackFrom.value)
    requires NewPhase(m, phase).Some?
    ensures var m' := NewPhase(m, phase).value;
            && SameFiling(m, m') && m'.phase == phase && m'.hub == m.hub && m'.guard == m.guard
            && m'.rollbackFrom.Some? == RollbackPhase(phase)
            && (m'.rollbackFrom.Some? ==> PreCommit(m'.rollbackFrom.value))
            && (RollbackPhase(m.phase) ==> RollbackPhase(phase))
  {
  }

  lemma BindKeeps(m: Manifest, before: Phase, a: RecordArgs)
    ensures BindHub(m, before, a).Some? ==>
              SameFiling(m, BindHub(m, before, a).value) && SamePhase(m, BindHub(m, before, a).value)
    ensures BindGuard(m, a).Some? ==> SameFiling(m, BindGuard(m, a).value) && SamePhase(m, BindGuard(m, a).value)
  {
  }

  lemma AmendKeeps(m: Manifest, a: RecordArgs)
    requires m.rollbackFrom.Some? == RollbackPhase(m.phase)
    requires m.rollbackFrom.Some? ==> PreCommit(m.rollbackFrom.value)
    requires Amend(m, a).Some?
    ensures var m' := Amend(m, a).value;
            && SameFiling(m, m') && m'.phase == a.phase
            && m'.rollbackFrom.Some? == RollbackPhase(m'.phase)
            && (m'.rollbackFrom.Some? ==> PreCommit(m'.rollbackFrom.value))
            && (RollbackPhase(m.phase) ==> RollbackPhase(m'.phase))
  {
    NewPhaseKeeps(m, a.phase);
    var m1 := NewPhase(m, a.phase).value;
    BindKeeps(m1, m.phase, a);
    BindKeeps(BindHub(m1, m.phase, a).value, m.phase, a);
  }

  // Ignoring a missing candidate accepts nothing more once the candidate is found.
  lemma AllowanceUnused(t: Tree, m: Manifest)
    requires CurrentAccepted(t, m, true) && RollbackPhase(m.phase)
    ensures CurrentAccepted(t, m, false)
  {
  }

  lemma FilesAcrossPhases(f: Files, next: nat, m: Manifest, m': Manifest)
    requires FilesOk(f, next, m) && SameTransaction(m, m')
    requires m'.desired == m.desired && m'.observed == m.observed
    requires RollbackPhase(m.phase) ==> RollbackPhase(m'.phase)
    ensures FilesOk(f, next, m')
  {
  }

  lemma RecordWrites(w: World, o: Origin, s: Shape, m': Manifest)
    requires OriginOk(o) && InvAt(w, o, s) && SameTransaction(ManifestOf(w), m')
    requires m'.desired == ManifestOf(w).desired && m'.observed == ManifestOf(w).observed
    requires m'.rollbackFrom.Some? == RollbackPhase(m'.phase)
    requires m'.rollbackFrom.Some? ==> PreCommit(m'.rollbackFrom.value)
    requires RollbackPhase(ManifestOf(w).phase) ==> RollbackPhase(m'.phase)
    requires Accepts(w.tree, w.files, m', w.txns[Active].parked, RollbackPhase(m'.phase))
    ensures InvAt(w.WithTxn(Active, w.txns[Active].(manifest := Some(m'))), o, s)
  {
    var m := ManifestOf(w);
    if RollbackPhase(m'.phase) {
      if !RollbackPhase(m.phase) { ForwardIsBackward(o, s); }
      CandidateFound(w.tree, w.txns[Active].parked, o, s, m');
      AllowanceUnused(w.tree, m');
    }
    FilesAcrossPhases(w.files, w.next, m, m');
    StillBackedUp(w.txns[Active], m, w.txns[Active], m');
  }

  lemma RecordStep(w: World, o: Origin, s: Shape, a: RecordArgs, fuel: nat)
    requires OriginOk(o) && InvAt(w, o, s)
    ensures InvAt(Record(w, o.m.id, a, fuel).w, o, s)
    ensures Record(w, o.m.id, a, fuel).Live? ==> Amend(ManifestOf(w), a) == Some(ManifestOf(Record(w, o.m.id, a, fuel).w))
    ensures Record(w, o.m.id, a, fuel).Halted? ==> Record(w, o.m.id, a, fuel).w == w
    ensures Record(w, o.m.id, a, fuel).w.files == w.files
  {
    Opens(w, o, s, RollbackPhase(a.phase));
    if Record(w, o.m.id, a, fuel).Live? {
      AmendKeeps(ManifestOf(w), a);
      RecordWrites(w, o, s, Amend(ManifestOf(w), a).value);
    }
  }

  const TO_ROLLBACK := RecordArgs(RollingBack, None, None, None, None)

  // From every pending activation before the commit, `record(rolling-back)` is accepted.
  lemma RollbackAccepted(w: World, o: Origin, s: Shape, a: RecordArgs, fuel: nat)
    requires OriginOk(o) && InvAt(w, o, s) && PreCommit(ManifestOf(w).phase)
    requires a.phase.RollingBack? && Amend(ManifestOf(w), a).Some? && fuel >= 1
    ensures Record(w, o.m.id, a, fuel).Live?
    ensures ManifestOf(Record(w, o.m.id, a, fuel).w).phase.RollingBack?
    ensures InvAt(Record(w, o.m.id, a, fuel).w, o, s)
  {
    Opens(w, o, s, true);
    var m := ManifestOf(w);
    var m' := Amend(m, a).value;
    AmendKeeps(m, a);
    ForwardIsBackward(o, s);
    TreeAccepted(w.tree, w.txns[Active].parked, o, s, m', true);
    FilesAcrossPhases(w.files, w.next, m, m');
    HistoryAccepted(w.files, w.next, m');
    RecordStep(w, o, s, a, fuel);
  }

  lemma RollbackAmends(m: Manifest)
    requires PreCommit(m.phase)
    ensures Amend(m, TO_ROLLBACK) == Some(m.(phase := RollingBack, rollbackFrom := Some(m.phase)))
  {
  }

  // ---------------------------------------------------------------- replace-config

  /** A configuration replacement that cannot strand the journal, whatever cuts it.

      A draft that was already given its mode keeps that mode.  While the candidate starts no
      new draft may be published.  In the phases that expect the captured configuration only
      an identical file may be. */
  predicate SafeReplace(f: Files, m: Manifest, k: Kind, mode: Mode) {
    PreCommit(m.phase) && DesiredMode(k, mode) ==>
      var s := f.At(k);
      var d := m.desired.At(k);
      var starts := s.draft.Some? && s.publication.None?;
      var resumes := s.publication.Some? && d.Some? && d.value.mode == mode;
      && (starts ==> s.draft.value.mode in {M600, mode})
      && (!PristineConfigs(m.phase) && !HistoryConfigs(m.phase) ==> !starts)
      && (PristineConfigs(m.phase) && starts ==> m.original.At(k) == Some(Meta(s.draft.value.bytes, mode)))
      && (PristineConfigs(m.phase) && resumes ==> m.original.At(k) == Some(Meta(d.value.bytes, d.value.mode)))
  }

  // A finished publication: the destination is the journaled inode, under no other name.
  ghost predicate Completed(f: Files, k: Kind, d: Desired) {
    ConfigMatches(f, k, d) && f.At(k).publication.None?
  }

  lemma SettledConfigs(w: World, o: Origin, s: Shape, k: Kind)
    requires InvAt(w, o, s)
    requires !PristineConfigs(ManifestOf(w).phase) && !HistoryConfigs(ManifestOf(w).phase)
    ensures w.files.At(k).publication.None?
    ensures ManifestOf(w).desired.At(k).Some? && ConfigMatches(w.files, k, ManifestOf(w).desired.At(k).value)
  {
  }

  // Accepting the files after one destination may have become `d`.
  lemma PublishedAccepted(w: World, o: Origin, s: Shape, f': Files, m': Manifest, k: Kind, d: Desired)
    requires InvAt(w, o, s) && SamePhase(ManifestOf(w), m') && FilesOk(f', w.next, m')
    requires PristineConfigs(m'.phase) || HistoryConfigs(m'.phase)
    requires f'.At(Twin(k)).config == w.files.At(Twin(k)).config
    requires f'.At(k).config == w.files.At(k).config || f'.At(k).config == Some(FileOf(d))
    requires PristineConfigs(m'.phase) ==>
               m'.original.At(k) == Some(Meta(d.bytes, d.mode)) || f'.At(k).config == w.files.At(k).config
    ensures ConfigsAccepted(f', m')
  {
    if HistoryConfigs(m'.phase) {
      HistoryAccepted(f', w.next, m');
    } else {
      assert MetaAt(f', k) == m'.original.At(k);
      assert MetaAt(f', Twin(k)) == m'.original.At(Twin(k));
      PristineAccepted(f', w.next, m');
    }
  }

  ghost predicate ResumePost(w: World, o: Origin, s: Shape, k: Kind, d: Desired, fuel: nat, run: Run) {
    && InvAt(w, o, s) && InvAt(run.w, o, s) && ManifestOf(run.w) == ManifestOf(w)
    && (run.w.files.At(k).config == w.files.At(k).config || run.w.files.At(k).config == Some(FileOf(d)))
    && run.w.files.At(Twin(k)) == w.files.At(Twin(k))
    && (run.Halted? ==> run.why == PowerLoss)
    && (run.Live? ==> Completed(run.w.files, k, d))
    && (fuel >= 2 ==> run.Live?)
  }

  lemma ResumeStep(w: World, o: Origin, s: Shape, k: Kind, d: Desired, fuel: nat)
    requires OriginOk(o) && InvAt(w, o, s) && PreCommit(ManifestOf(w).phase)
    requires w.files.At(k).publication.Some? && ManifestOf(w).desired.At(k) == Some(d)
    requires PristineConfigs(ManifestOf(w).phase) ==> ManifestOf(w).original.At(k) == Some(Meta(d.bytes, d.mode))
    ensures ResumePost(w, o, s, k, d, fuel, Publish(w, k, d, fuel))
  {
    var m := ManifestOf(w);
    if !PristineConfigs(m.phase) && !HistoryConfigs(m.phase) { SettledConfigs(w, o, s, k); }
    PublishKeeps(w, k, d, m, fuel);
    var run := Publish(w, k, d, fuel);
    assert run.w.files == w.files.Put(k, run.w.files.At(k));
    PublishedAccepted(w, o, s, run.w.files, m, k, d);
    FilesReaccept(w, o, s, run.w, m);
  }

  // The manifest after the write-ahead.
  function Intended(w: World, k: Kind, d: Desired): Manifest
    requires Active in w.txns && w.txns[Active].manifest.Some?
  {
    Intend(ManifestOf(w), k, d)
  }

  ghost predicate Startable(w: World, o: Origin, s: Shape, k: Kind, d: Desired) {
    && InvAt(w, o, s)
    && var m := ManifestOf(w);
       && PreCommit(m.phase) && DesiredMode(k, d.mode)
       && (PristineConfigs(m.phase) || HistoryConfigs(m.phase))
       && w.files.At(k).publication.None? && w.files.At(k).draft.Some?
       && w.files.At(k).draft.value.mode in {M600, d.mode}
       && d.inode == w.files.At(k).draft.value.inode && d.bytes == w.files.At(k).draft.value.bytes
  }

  lemma StageManifest(w: World, o: Origin, s: Shape, k: Kind, d: Desired)
    requires Startable(w, o, s, k, d)
    ensures InvAt(w.WithTxn(Active, w.txns[Active].(manifest := Some(Intended(w, k, d)))), o, s)
  {
    var m' := Intended(w, k, d);
    IntendKeeps(w.files, w.next, ManifestOf(w), k, d);
    PublishedAccepted(w, o, s, w.files, m', k, d);
    FilesReaccept(w, o, s, w.WithTxn(Active, w.txns[Active].(manifest := Some(m'))), m');
  }

  lemma StageFiles(w: World, o: Origin, s: Shape, k: Kind, d: Desired)
    requires Startable(w, o, s, k, d) && ManifestOf(w).desired.At(k) == Some(d)
    ensures Chmod(w.files, d.inode, d.mode) == w.files.Put(k, w.files.At(k).(draft := Some(FileOf(d))))
    ensures InvAt(w.WithSlot(k, w.files.At(k).(draft := Some(FileOf(d)))), o, s)
    ensures InvAt(w.WithSlot(k, w.files.At(k).(draft := Some(FileOf(d)), publication := Some(FileOf(d)))), o, s)
  {
    var m := ManifestOf(w);
    var w1 := w.WithSlot(k, w.files.At(k).(draft := Some(FileOf(d))));
    ChmodKeeps(w.files, w.next, m, k, d);
    PublishedAccepted(w, o, s, w1.files, m, k, d);
    FilesReaccept(w, o, s, w1, m);
    var w2 := w.WithSlot(k, w.files.At(k).(draft := Some(FileOf(d)), publication := Some(FileOf(d))));
    SecureKeeps(w1.files, w.next, m, k, d);
    assert w2.files == w1.files.Put(k, w1.files.At(k).(publication := w1.files.At(k).draft));
    PublishedAccepted(w, o, s, w2.files, m, k, d);
    FilesReaccept(w, o, s, w2, m);
  }

  ghost predicate StagePost(w: World, o: Origin, s: Shape, k: Kind, d: Desired, fuel: nat, run: Run) {
    && InvAt(w, o, s) && InvAt(run.w, o, s)
    && (run.w == w || ManifestOf(run.w) == Intended(w, k, d))
    && run.w.files.At(k).config == w.files.At(k).config
    && run.w.files.At(Twin(k)) == w.files.At(Twin(k))
    && (run.Halted? ==> run.why == PowerLoss)
    && (run.Live? ==> run.w.files.At(k).publication.Some? && ManifestOf(run.w) == Intended(w, k, d))
    && (fuel >= 3 ==> run.Live? && run.fuel >= fuel - 3)
  }

  lemma StageStep(w: World, o: Origin, s: Shape, k: Kind, d: Desired, fuel: nat)
    requires Startable(w, o, s, k, d)
    ensures StagePost(w, o, s, k, d, fuel, Stage(w, ManifestOf(w), k, d, fuel))
  {
    if fuel > 0 {
      StageManifest(w, o, s, k, d);
      var w1 := w.WithTxn(Active, w.txns[Active].(manifest := Some(Intended(w, k, d))));
      StageFiles(w1, o, s, k, d);
      var w2 := w1.WithSlot(k, w1.files.At(k).(draft := Some(FileOf(d))));
      var w3 := w1.WithSlot(k, w1.files.At(k).(draft := Some(FileOf(d)), publication := Some(FileOf(d))));
      StageRuns(w, k, d, fuel, w1, w2, w3);
    }
  }

  // Where staging can stand, by the power it has.
  lemma StageRuns(w: World, k: Kind, d: Desired, fuel: nat, w1: World, w2: World, w3: World)
    requires Active in w.txns && w.txns[Active].manifest.Some? && w.files.At(k).draft.Some?
    requires w1 == w.WithTxn(Active, w.txns[Active].(manifest := Some(Intended(w, k, d))))
    requires Chmod(w.files, d.inode, d.mode) == w.files.Put(k, w.files.At(k).(draft := Some(FileOf(d))))
    requires w2 == w1.WithSlot(k, w1.files.At(k).(draft := Some(FileOf(d))))
    requires w3 == w1.WithSlot(k, w1.files.At(k).(draft := Some(FileOf(d)), publication := Some(FileOf(d))))
    requires fuel > 0
    ensures Stage(w, ManifestOf(w), k, d, fuel)
            == if fuel == 1 then Halted(w1, PowerLoss) else if fuel == 2 then Halted(w2, PowerLoss) else Live(w3, fuel - 3)
  {
  }

  ghost predicate ReplacePost(w: World, o: Origin, s: Shape, k: Kind, mode: Mode, fuel: nat, run: Run) {
    && InvAt(w, o, s) && InvAt(run.w, o, s)
    && SamePhase(ManifestOf(w), ManifestOf(run.w))
    && run.w.files.At(Twin(k)) == w.files.At(Twin(k))
    && (|| run.w.files.At(k).config == w.files.At(k).config
        || (ManifestOf(run.w).desired.At(k).Some?
            && run.w.files.At(k).config == Some(FileOf(ManifestOf(run.w).desired.At(k).value))))
    && DigestAt(run.w.files, k) in ManifestOf(run.w).observed.At(k)
    && (run.Live? ==> ManifestOf(run.w).desired.At(k).Some? && Completed(run.w.files, k, ManifestOf(run.w).desired.At(k).value)
                      && ManifestOf(run.w).desired.At(k).value.mode == mode)
  }

  // A run that changed nothing.
  lemma ReplaceIdle(w: World, o: Origin, s: Shape, k: Kind, mode: Mode, fuel: nat, run: Run)
    requires InvAt(w, o, s) && run.w == w
    requires run.Live? ==>
               var d := ManifestOf(w).desired.At(k);
               d.Some? && d.value.mode == mode && Completed(w.files, k, d.value)
    ensures ReplacePost(w, o, s, k, mode, fuel, run)
  {
  }

  lemma ReplaceResumes(w: World, o: Origin, s: Shape, k: Kind, d: Desired, fuel: nat)
    requires OriginOk(o) && InvAt(w, o, s) && PreCommit(ManifestOf(w).phase)
    requires w.files.At(k).publication.Some? && ManifestOf(w).desired.At(k) == Some(d)
    requires PristineConfigs(ManifestOf(w).phase) ==> ManifestOf(w).original.At(k) == Some(Meta(d.bytes, d.mode))
    ensures ReplacePost(w, o, s, k, d.mode, fuel, Publish(w, k, d, fuel))
  {
    ResumeStep(w, o, s, k, d, fuel);
    assert KindOk(w.files, w.next, ManifestOf(w), k);
  }

  /** Cut after any step, the destination holds its prior file or the journaled one, whose
      digest the history already names, and the journal is still valid. */
  lemma ReplaceStep(w: World, o: Origin, s: Shape, k: Kind, mode: Mode, fuel: nat)
    requires OriginOk(o) && InvAt(w, o, s) && SafeReplace(w.files, ManifestOf(w), k, mode)
    ensures ReplacePost(w, o, s, k, mode, fuel, ReplaceConfig(w, o.m.id, k, mode, fuel))
  {
    Opens(w, o, s, false);
    var m := ManifestOf(w);
    var slot, d := w.files.At(k), m.desired.At(k);
    var run := ReplaceConfig(w, o.m.id, k, mode, fuel);
    if PreCommit(m.phase) && DesiredMode(k, mode) && slot.publication.Some? && d.Some? && d.value.mode == mode {
      ReplaceResumes(w, o, s, k, d.value, fuel);
    } else if PreCommit(m.phase) && DesiredMode(k, mode) && slot.publication.None? && slot.draft.Some? {
      StartStep(w, o, s, k, Desired(slot.draft.value.inode, slot.draft.value.bytes, mode), fuel);
    } else {
      assert run.w == w;
      ReplaceIdle(w, o, s, k, mode, fuel, run);
    }
  }

  lemma StartStep(w: World, o: Origin, s: Shape, k: Kind, d: Desired, fuel: nat)
    requires OriginOk(o) && Startable(w, o, s, k, d)
    requires PristineConfigs(ManifestOf(w).phase) ==> ManifestOf(w).original.At(k) == Some(Meta(d.bytes, d.mode))
    ensures ReplacePost(w, o, s, k, d.mode, fuel, ReplaceConfig(w, o.m.id, k, d.mode, fuel))
    ensures fuel >= 5 ==> ReplaceConfig(w, o.m.id, k, d.mode, fuel).Live?
                          && ManifestOf(ReplaceConfig(w, o.m.id, k, d.mode, fuel).w).desired == ManifestOf(w).desired.Put(k, Some(d))
  {
    Opens(w, o, s, false);
    var m := ManifestOf(w);
    StageStep(w, o, s, k, d, fuel);
    var r := Stage(w, m, k, d, fuel);
    LoneDraft(w.files, w.next, m, k);
    if r.Live? {
      ResumeStep(r.w, o, s, k, d, r.fuel);
    }
  }

  lemma LoneDraft(f: Files, next: nat, m: Manifest, k: Kind)
    requires FilesOk(f, next, m) && f.At(k).draft.Some? && f.At(k).publication.None?
    ensures LinkCount(f, f.At(k).draft.value.inode) == 1
    ensures !SharedWritable(f.At(k).draft.value.mode)
  {
  }

  // ---------------------------------------------------------------- placing a draft

  lemma DraftStep(w: World, o: Origin, s: Shape, k: Kind, bytes: string)
    requires OriginOk(o) && InvAt(w, o, s)
    ensures InvAt(PlaceDraft(w, k, bytes), o, s)
  {
    var m := ManifestOf(w);
    var w' := PlaceDraft(w, k, bytes);
    PlaceDraftKeeps(w, m, k, bytes);
    ConfigReadable(w'.files, w'.next, m, Env);
    ConfigReadable(w'.files, w'.next, m, Service);
    FilesReaccept(w, o, s, w', m);
  }
}

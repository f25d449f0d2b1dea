/**
 Replacing a configuration: interrupted publications resume to the same file, their staging
 can always be discarded, and the replacements that never strand the journal are exactly the
 safe ones.
 */
module ActivationPublication {
  import opened Wrappers
  import opened ActivationDisk
  import opened ActivationJournal
  import opened ActivationTree
  import opened ActivationFiles
  import opened ActivationSteps
  import opened ActivationCommands
  import opened ActivationRollback

  // ---------------------------------------------------------------- resuming

  // The file a replacement is to publish.
  function Goal(s: Slot, d: Option<Desired>, mode: Mode): Option<Desired> {
    if s.publication.Some? || s.draft.None? then d
    else Some(Desired(s.draft.value.inode, s.draft.value.bytes, mode))
  }

  // No further draft waits behind a secured publication.
  predicate Alone(s: Slot) {
    s.publication.Some? && s.draft.Some? ==> s.draft == s.publication
  }

  ghost predicate Publishing(w: World, o: Origin, s: Shape, k: Kind, goal: Desired) {
    && OriginOk(o) && InvAt(w, o, s)
    && var m := ManifestOf(w);
       && PreCommit(m.phase) && DesiredMode(k, goal.mode)
       && Alone(w.files.At(k)) && Goal(w.files.At(k), m.desired.At(k), goal.mode) == Some(goal)
       && SafeReplace(w.files, m, k, goal.mode)
  }

  lemma SecuredPublishes(w: World, o: Origin, s: Shape, k: Kind, d: Desired, fuel: nat)
    requires Publishing(w, o, s, k, d) && w.files.At(k).publication.Some?
    ensures Publishing(Publish(w, k, d, fuel).w, o, s, k, d)
    ensures fuel >= 2 ==> Publish(w, k, d, fuel).Live? && Completed(Publish(w, k, d, fuel).w.files, k, d)
    ensures ManifestOf(Publish(w, k, d, fuel).w) == ManifestOf(w)
  {
    ResumeStep(w, o, s, k, d, fuel);
    SecuredShapes(w, ManifestOf(w), k, d, fuel);
  }

  // A publication stops at the slot it found, at the slot without its draft, or published.
  lemma SecuredShapes(w: World, m: Manifest, k: Kind, d: Desired, fuel: nat)
    requires FilesOk(w.files, w.next, m) && !RollbackPhase(m.phase)
    requires w.files.At(k).publication.Some? && m.desired.At(k) == Some(d)
    ensures var s := w.files.At(k);
            var s' := Publish(w, k, d, fuel).w.files.At(k);
            s' == s || s' == Unaliased(s, d) || s' == Published(Unaliased(s, d))
  {
  }

  // Journaling the intent keeps the goal.
  lemma IntentKeepsGoal(w: World, o: Origin, s: Shape, k: Kind, d: Desired)
    requires Publishing(w, o, s, k, d) && w.files.At(k).publication.None? && w.files.At(k).draft.Some?
    ensures Startable(w, o, s, k, d)
    ensures var w1 := w.WithTxn(Active, w.txns[Active].(manifest := Some(Intended(w, k, d))));
            Publishing(w1, o, s, k, d) && ManifestOf(w1).desired.At(k) == Some(d)
  {
    StageManifest(w, o, s, k, d);
  }

  // So do giving the draft its mode and securing it.
  lemma FilesKeepGoal(w: World, o: Origin, s: Shape, k: Kind, d: Desired)
    requires Publishing(w, o, s, k, d) && w.files.At(k).publication.None? && w.files.At(k).draft.Some?
    requires ManifestOf(w).desired.At(k) == Some(d)
    ensures Chmod(w.files, d.inode, d.mode) == w.files.Put(k, w.files.At(k).(draft := Some(FileOf(d))))
    ensures Publishing(w.WithSlot(k, w.files.At(k).(draft := Some(FileOf(d)))), o, s, k, d)
    ensures Publishing(w.WithSlot(k, w.files.At(k).(draft := Some(FileOf(d)), publication := Some(FileOf(d)))), o, s, k, d)
  {
    assert Startable(w, o, s, k, d);
    StageFiles(w, o, s, k, d);
  }

  // The steps of staging, cut anywhere.
  lemma StageRuns(w: World, m: Manifest, k: Kind, d: Desired, fuel: nat)
    requires Active in w.txns
    requires Chmod(w.files, d.inode, d.mode) == w.files.Put(k, w.files.At(k).(draft := Some(FileOf(d))))
    ensures var w1 := w.WithTxn(Active, w.txns[Active].(manifest := Some(Intend(m, k, d))));
            Stage(w, m, k, d, fuel) ==
              if fuel == 0 then Halted(w, PowerLoss)
              else if fuel == 1 then Halted(w1, PowerLoss)
              else if fuel == 2 then Halted(w1.WithSlot(k, w.files.At(k).(draft := Some(FileOf(d)))), PowerLoss)
              else Live(w1.WithSlot(k, w.files.At(k).(draft := Some(FileOf(d)), publication := Some(FileOf(d)))), fuel - 3)
  {
  }

  lemma StagingKeepsGoal(w: World, o: Origin, s: Shape, k: Kind, d: Desired, fuel: nat)
    requires Publishing(w, o, s, k, d) && w.files.At(k).publication.None? && w.files.At(k).draft.Some?
    ensures var r := Stage(w, ManifestOf(w), k, d, fuel);
            && Publishing(r.w, o, s, k, d)
            && (r.Live? ==> r.w.files.At(k).publication.Some? && ManifestOf(r.w).desired.At(k) == Some(d))
            && (fuel >= 3 ==> r.Live? && r.fuel >= fuel - 3)
  {
    IntentKeepsGoal(w, o, s, k, d);
    var w1 := w.WithTxn(Active, w.txns[Active].(manifest := Some(Intended(w, k, d))));
    FilesKeepGoal(w1, o, s, k, d);
    StageRuns(w, ManifestOf(w), k, d, fuel);
  }

  ghost predicate GoalKept(o: Origin, s: Shape, k: Kind, d: Desired, fuel: nat, r: Run) {
    && Publishing(r.w, o, s, k, d)
    && (fuel >= 5 ==> r.Live?)
    && (r.Live? ==> Completed(r.w.files, k, d) && ManifestOf(r.w).desired.At(k) == Some(d))
  }

  lemma CutDrafted(w: World, o: Origin, s: Shape, k: Kind, d: Desired, fuel: nat)
    requires Publishing(w, o, s, k, d) && w.files.At(k).publication.None? && w.files.At(k).draft.Some?
    ensures var r := Stage(w, ManifestOf(w), k, d, fuel);
            GoalKept(o, s, k, d, fuel, if r.Live? then Publish(r.w, k, d, r.fuel) else r)
  {
    StagingKeepsGoal(w, o, s, k, d, fuel);
    var r := Stage(w, ManifestOf(w), k, d, fuel);
    if r.Live? {
      SecuredPublishes(r.w, o, s, k, d, r.fuel);
      ResumeStep(r.w, o, s, k, d, r.fuel);
    }
  }

  lemma CutSecured(w: World, o: Origin, s: Shape, k: Kind, d: Desired, fuel: nat)
    requires Publishing(w, o, s, k, d) && w.files.At(k).publication.Some?
    ensures GoalKept(o, s, k, d, fuel, Publish(w, k, d, fuel))
  {
    SecuredPublishes(w, o, s, k, d, fuel);
    ResumeStep(w, o, s, k, d, fuel);
  }

  // Cut anywhere, a replacement keeps its goal; left alone it reaches it.
  lemma CutKeepsGoal(w: World, o: Origin, s: Shape, k: Kind, d: Desired, fuel: nat)
    requires Publishing(w, o, s, k, d)
    ensures GoalKept(o, s, k, d, fuel, ReplaceConfig(w, o.m.id, k, d.mode, fuel))
  {
    Opens(w, o, s, false);
    var m := ManifestOf(w);
    if w.files.At(k).publication.Some? {
      CutSecured(w, o, s, k, d, fuel);
    } else if w.files.At(k).draft.Some? {
      LoneDraft(w.files, w.next, m, k);
      CutDrafted(w, o, s, k, d, fuel);
    } else {
      assert KindOk(w.files, w.next, m, k);
      ConfigReadable(w.files, w.next, m, k);
    }
  }

  function Attempts(w: World, id: string, k: Kind, mode: Mode, cuts: seq<nat>): World
    decreases |cuts|
  {
    if cuts == [] then w else Attempts(ReplaceConfig(w, id, k, mode, cuts[0]).w, id, k, mode, cuts[1..])
  }

  /** However often a replacement is cut, and wherever, the next uninterrupted run with the same
      kind and mode publishes the very inode an uninterrupted first run would have. */
  lemma {:induction false} PublicationResumes(w: World, o: Origin, s: Shape, k: Kind, d: Desired, cuts: seq<nat>, fuel: nat)
    requires Publishing(w, o, s, k, d) && fuel >= 5
    ensures var w' := Attempts(w, o.m.id, k, d.mode, cuts);
            var r := ReplaceConfig(w', o.m.id, k, d.mode, fuel);
            && r.Live? && Completed(r.w.files, k, d)
            && Completed(ReplaceConfig(w, o.m.id, k, d.mode, fuel).w.files, k, d)
            && InvAt(r.w, o, s) && ManifestOf(r.w).desired.At(k) == Some(d)
    decreases |cuts|
  {
    CutKeepsGoal(w, o, s, k, d, fuel);
    if cuts == [] {
    } else {
      CutKeepsGoal(w, o, s, k, d, cuts[0]);
      PublicationResumes(ReplaceConfig(w, o.m.id, k, d.mode, cuts[0]).w, o, s, k, d, cuts[1..], fuel);
    }
  }

  // From every crash point of every command, the staging names can be discarded.
  lemma StagingDiscards(w: World, m: Manifest, fuel: nat)
    requires FilesOk(w.files, w.next, m) && fuel >= 4
    ensures var r := CleanupStaging(w, m, fuel);
            && r.Live?
            && r.w.files == Pair(Slot(w.files.env.config, None, None), Slot(w.files.service.config, None, None))
  {
    CleanupKindKeeps(w, m, Env, fuel);
    var r := CleanupKind(w, m, Env, fuel);
    DiscardKeepsService(w.files, w.next, m);
    CleanupKindKeeps(r.w, m.(phase := RollingBack), Service, r.fuel);
    assert CleanupKind(r.w, m.(phase := RollingBack), Service, r.fuel) == CleanupKind(r.w, m, Service, r.fuel);
  }

  lemma DiscardKeepsService(f: Files, next: nat, m: Manifest)
    requires FilesOk(f, next, m)
    ensures FilesOk(f.Put(Env, Slot(f.env.config, None, None)), next, m.(phase := RollingBack))
  {
    var m' := m.(phase := RollingBack);
    FilesAcrossPhases(f, next, m, m');
    TrimKeeps(f, next, m', Env, Slot(f.env.config, None, None));
  }

  // ---------------------------------------------------------------- exactly the safe replacements

  lemma CleanupRefuses(w: World, m: Manifest, k: Kind, fuel: nat)
    requires w.files.At(k).draft.Some? && !w.files.At(k).draft.value.mode.M600?
    requires m.desired.At(k).Some? && w.files.At(k).draft.value != FileOf(m.desired.At(k).value)
    ensures CleanupStaging(w, m, fuel).Halted?
  {
  }

  lemma ReturnPriorKeepsFiles(w: World, m: Manifest, fuel: nat)
    requires Active in w.txns
    ensures ReturnPrior(w, m, fuel).w.files == w.files && Active in ReturnPrior(w, m, fuel).w.txns
  {
  }

  lemma RestoreLinksKeepsFiles(w: World, m: Manifest, fuel: nat)
    ensures RestoreCurrent(w, m, fuel).w.files == w.files
    ensures RestorePrevious(w, m, fuel).w.files == w.files
  {
  }

  lemma RestoreTreeKeepsFiles(w: World, m: Manifest, fuel: nat)
    requires Active in w.txns
    ensures RestoreTree(w, m, fuel).w.files == w.files
  {
    ReturnPriorKeepsFiles(w, m, fuel);
    var r1 := ReturnPrior(w, m, fuel);
    if r1.Live? {
      RestoreLinksKeepsFiles(r1.w, m, r1.fuel);
      var r2 := RestoreCurrent(r1.w, m, r1.fuel);
      if r2.Live? {
        RestoreLinksKeepsFiles(r2.w, m, r2.fuel);
      }
    }
  }

  lemma RestoreRefuses(w: World, id: string, k: Kind, fuel: nat)
    requires Active in w.txns && w.txns[Active].manifest.Some?
    requires w.files.At(k).draft.Some? && !w.files.At(k).draft.value.mode.M600?
    requires ManifestOf(w).desired.At(k).Some? && w.files.At(k).draft.value != FileOf(ManifestOf(w).desired.At(k).value)
    ensures RestoreFiles(w, id, fuel).Halted?
  {
    var m := ManifestOf(w);
    RestoreTreeKeepsFiles(w, m, fuel);
    var r1 := RestoreTree(w, m, fuel);
    if r1.Live? {
      CleanupRefuses(r1.w, m, k, r1.fuel);
    }
    assert Open(w, id, true).Opened? ==> Open(w, id, true).m == m;
  }

  // Re-journaling a draft that already has another mode makes its restore impossible.
  lemma ModeChangeStrands(w: World, o: Origin, s: Shape, k: Kind, mode: Mode)
    requires OriginOk(o) && InvAt(w, o, s) && PreCommit(ManifestOf(w).phase) && DesiredMode(k, mode)
    requires w.files.At(k).publication.None? && w.files.At(k).draft.Some?
    requires w.files.At(k).draft.value.mode != M600 && w.files.At(k).draft.value.mode != mode
    ensures !RollbackCompletes(ReplaceConfig(w, o.m.id, k, mode, 1).w, o.m.id, o)
  {
    Opens(w, o, s, false);
    LoneDraft(w.files, w.next, ManifestOf(w), k);
    var d := Desired(w.files.At(k).draft.value.inode, w.files.At(k).draft.value.bytes, mode);
    var w1 := w.WithTxn(Active, w.txns[Active].(manifest := Some(Intended(w, k, d))));
    assert ReplaceConfig(w, o.m.id, k, mode, 1).w == w1;
    var r := Record(w1, o.m.id, TO_ROLLBACK, 1);
    if r.Live? {
      assert r.w.files == w1.files && ManifestOf(r.w).desired == ManifestOf(w1).desired;
      RestoreRefuses(r.w, o.m.id, k, 10);
    }
  }

  // While the candidate starts, journaling a new draft invalidates the destination at once.
  lemma LateDraftStrands(w: World, o: Origin, s: Shape, k: Kind, mode: Mode)
    requires OriginOk(o) && InvAt(w, o, s) && PreCommit(ManifestOf(w).phase) && DesiredMode(k, mode)
    requires !PristineConfigs(ManifestOf(w).phase) && !HistoryConfigs(ManifestOf(w).phase)
    requires w.files.At(k).publication.None? && w.files.At(k).draft.Some?
    ensures Stranded(ReplaceConfig(w, o.m.id, k, mode, 1).w, o.m.id)
  {
    Opens(w, o, s, false);
    LoneDraft(w.files, w.next, ManifestOf(w), k);
    SettledConfigs(w, o, s, k);
    var d := Desired(w.files.At(k).draft.value.inode, w.files.At(k).draft.value.bytes, mode);
    var m1 := Intended(w, k, d);
    assert ReplaceConfig(w, o.m.id, k, mode, 1).w == w.WithTxn(Active, w.txns[Active].(manifest := Some(m1)));
    assert w.files.At(k).config != Some(FileOf(d));
    assert !ConfigsAccepted(w.files, m1);
  }

  // Where the captured configuration is expected, publishing another one is refused afterwards.
  lemma EarlyPublishStrands(w: World, o: Origin, s: Shape, k: Kind, d: Desired)
    requires OriginOk(o) && InvAt(w, o, s) && PreCommit(ManifestOf(w).phase) && PristineConfigs(ManifestOf(w).phase)
    requires w.files.At(k).publication.Some? && ManifestOf(w).desired.At(k) == Some(d)
    requires ManifestOf(w).original.At(k) != Some(Meta(d.bytes, d.mode))
    ensures forall fuel :: fuel >= 2 ==> Stranded(Publish(w, k, d, fuel).w, o.m.id)
  {
    var m := ManifestOf(w);
    forall fuel: nat | fuel >= 2 ensures Stranded(Publish(w, k, d, fuel).w, o.m.id) {
      PublishKeeps(w, k, d, m, fuel);
      var r := Publish(w, k, d, fuel);
      assert r.w.txns == w.txns;
      assert MetaAt(r.w.files, k) == Some(Meta(d.bytes, d.mode));
      assert !ConfigsAccepted(r.w.files, m);
    }
  }

  lemma EarlyDraftStrands(w: World, o: Origin, s: Shape, k: Kind, d: Desired)
    requires OriginOk(o) && Startable(w, o, s, k, d) && PristineConfigs(ManifestOf(w).phase)
    requires ManifestOf(w).original.At(k) != Some(Meta(d.bytes, d.mode))
    ensures Stranded(ReplaceConfig(w, o.m.id, k, d.mode, 5).w, o.m.id)
  {
    Opens(w, o, s, false);
    LoneDraft(w.files, w.next, ManifestOf(w), k);
    StageStep(w, o, s, k, d, 5);
    var r := Stage(w, ManifestOf(w), k, d, 5);
    EarlyPublishStrands(r.w, o, s, k, d);
  }

  lemma StrandedCannotRollBack(w: World, id: string, o: Origin)
    requires Stranded(w, id)
    ensures !RollbackCompletes(w, id, o)
  {
  }

  /** A replacement can be cut anywhere without endangering rollback if and only if it is safe. */
  lemma SafeExactly(w: World, o: Origin, s: Shape, k: Kind, mode: Mode)
    requires OriginOk(o) && InvAt(w, o, s) && PreCommit(ManifestOf(w).phase)
    ensures SafeReplace(w.files, ManifestOf(w), k, mode)
            <==> forall fuel: nat :: RollbackCompletes(ReplaceConfig(w, o.m.id, k, mode, fuel).w, o.m.id, o)
  {
    var m, slot := ManifestOf(w), w.files.At(k);
    if SafeReplace(w.files, m, k, mode) {
      forall fuel: nat ensures RollbackCompletes(ReplaceConfig(w, o.m.id, k, mode, fuel).w, o.m.id, o) {
        ReplaceStep(w, o, s, k, mode, fuel);
        PendingRollsBack(ReplaceConfig(w, o.m.id, k, mode, fuel).w, o, s);
      }
    } else {
      var fuel := UnsafeStrands(w, o, s, k, mode);
      assert !RollbackCompletes(ReplaceConfig(w, o.m.id, k, mode, fuel).w, o.m.id, o);
    }
  }

  lemma UnsafeStrands(w: World, o: Origin, s: Shape, k: Kind, mode: Mode) returns (fuel: nat)
    requires OriginOk(o) && InvAt(w, o, s) && PreCommit(ManifestOf(w).phase)
    requires !SafeReplace(w.files, ManifestOf(w), k, mode)
    ensures !RollbackCompletes(ReplaceConfig(w, o.m.id, k, mode, fuel).w, o.m.id, o)
  {
    var m, slot := ManifestOf(w), w.files.At(k);
    if slot.publication.Some? {
      fuel := 2;
      Opens(w, o, s, false);
      EarlyPublishStrands(w, o, s, k, m.desired.At(k).value);
      StrandedCannotRollBack(ReplaceConfig(w, o.m.id, k, mode, fuel).w, o.m.id, o);
    } else if slot.draft.value.mode != M600 && slot.draft.value.mode != mode {
      fuel := 1;
      ModeChangeStrands(w, o, s, k, mode);
    } else if !PristineConfigs(m.phase) && !HistoryConfigs(m.phase) {
      fuel := 1;
      LateDraftStrands(w, o, s, k, mode);
      StrandedCannotRollBack(ReplaceConfig(w, o.m.id, k, mode, fuel).w, o.m.id, o);
    } else {
      fuel := 5;
      EarlyDraftStrands(w, o, s, k, Desired(slot.draft.value.inode, slot.draft.value.bytes, mode));
      StrandedCannotRollBack(ReplaceConfig(w, o.m.id, k, mode, fuel).w, o.m.id, o);
    }
  }
}

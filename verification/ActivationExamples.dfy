/**
 Concrete layouts.

 A same-version reinstall.  With `current` spelled as the absolute release path it can always be
 rolled back; with the same link spelled relatively, `begin` accepts it and a run strands it.  On the
 absolute one, careless configuration replacements strand the journal.

 A candidate staged in the directory `previous` names, while its release directory is taken: after a
 rollback, `finish` removes what `previous` names.
 */
module ActivationExamples {
  import opened Wrappers
  import opened ActivationDisk
  import opened ActivationJournal
  import opened ActivationTree
  import opened ActivationFiles
  import opened ActivationSteps
  import opened ActivationCommands
  import opened ActivationRollback
  import opened ActivationFinish
  import opened ActivationPhases
  import opened ActivationRuns

  const INSTALLED := Release("1")
  const STAGED := Release("1-new")
  const QUARANTINE := Release("1-old")

  function Reinstall(spelling: nat): World {
    World(map[Current := Link(Text(INSTALLED, spelling)), INSTALLED := Dir(1, "1"), STAGED := Dir(2, "1")],
          Pair(Slot(None, None, None), Slot(None, None, None)), map[], 0)
  }

  const ARGS := BeginArgs("a", 0, "1", INSTALLED, STAGED, Some(INSTALLED), Some(QUARANTINE))

  lemma ThreeReleases()
    ensures INSTALLED != STAGED && INSTALLED != QUARANTINE && STAGED != QUARANTINE
  {
    assert |"1"| == 1 && "1-new"[2] != "1-old"[2];
  }

  lemma ReinstallCaptures(spelling: nat)
    ensures var m := Capture(Reinstall(spelling).tree, Reinstall(spelling).files, ARGS);
            && m.Some? && (Recoverable(Reinstall(spelling).tree, m.value) <==> spelling == 0)
            && Accepts(Reinstall(spelling).tree, Reinstall(spelling).files, m.value, None, false)
  {
    ThreeReleases();
  }

  lemma ReinstallBegins(spelling: nat)
    ensures Untouched(Reinstall(spelling)) && Begin(Reinstall(spelling), ARGS, Scan([], []), 2).Live?
    ensures var m := Capture(Reinstall(spelling).tree, Reinstall(spelling).files, ARGS);
            m.Some? && (Recoverable(Reinstall(spelling).tree, m.value) <==> spelling == 0)
  {
    ReinstallCaptures(spelling);
    assert Sweep(Reinstall(spelling), Scan([], []), 2) == Live(Reinstall(spelling), 2);
  }

  lemma RelativeLinkStrands()
    ensures var w1 := Begin(Reinstall(1), ARGS, Scan([], []), 2).w;
            && Active in w1.txns && w1.txns[Active].manifest.Some?
            && exists log :: !CanRollBack(w1, ARGS.id, Begun(Reinstall(1), w1), log)
  {
    ReinstallBegins(1);
    RecoverableExactly(Reinstall(1), ARGS, Scan([], []), 2);
    BeginCaptures(Reinstall(1), ARGS, Scan([], []), 2);
  }

  lemma AbsoluteLinkRecovers()
    ensures var w1 := Begin(Reinstall(0), ARGS, Scan([], []), 2).w;
            && Active in w1.txns && w1.txns[Active].manifest.Some?
            && forall log :: CanRollBack(w1, ARGS.id, Begun(Reinstall(0), w1), log)
  {
    ReinstallBegins(0);
    RecoverableExactly(Reinstall(0), ARGS, Scan([], []), 2);
    BeginCaptures(Reinstall(0), ARGS, Scan([], []), 2);
  }

  lemma ReinstallStartable()
    ensures ActivationRuns.Startable(Reinstall(0), ARGS, Scan([], []), 2)
    ensures CandidateMoveHappens(Reinstall(0).tree, Capture(Reinstall(0).tree, Reinstall(0).files, ARGS).value)
  {
    ReinstallBegins(0);
  }

  // A first draft, replaced right after `begin`, strands the reinstall.
  lemma EarlyReplacementStrands()
    ensures var w1 := Begin(Reinstall(0), ARGS, Scan([], []), 2).w;
            Stranded(ReplaceConfig(PlaceDraft(w1, Env, []), ARGS.id, Env, M600, 5).w, ARGS.id)
  {
    ReinstallStartable();
    EarlyRun(Reinstall(0), ARGS, Scan([], []), 2, Env, []);
  }

  // So does a draft journaled while the candidate starts.
  lemma LateReplacementStrands()
    ensures var w1 := Begin(Reinstall(0), ARGS, Scan([], []), 2).w;
            exists log :: CarefulRun(w1, log) && Stranded(ReplaceConfig(RunAll(w1, log), ARGS.id, Env, M600, 1).w, ARGS.id)
  {
    ReinstallStartable();
    var log := LateRun(Reinstall(0), ARGS, Scan([], []), 2, Env, []);
  }

  // A changed mode makes its rollback impossible.
  lemma ModeReplacementStrands()
    ensures var w1 := Begin(Reinstall(0), ARGS, Scan([], []), 2).w;
            && Active in w1.txns && w1.txns[Active].manifest.Some?
            && exists log :: CarefulRun(w1, log)
                             && !RollbackCompletes(ReplaceConfig(RunAll(w1, log), ARGS.id, Service, M600, 1).w, ARGS.id,
                                                   Begun(Reinstall(0), w1))
  {
    ReinstallStartable();
    var log := ModeRun(Reinstall(0), ARGS, Scan([], []), 2, []);
  }

  // And a run of accepted commands makes fourteen phase changes.
  lemma ReinstallChangesFourteenTimes()
    ensures var w1 := Begin(Reinstall(0), ARGS, Scan([], []), 2).w;
            JournalOf(w1).Some? && exists log :: CarefulRun(w1, log) && PhaseChanges(w1, log) == 14
  {
    ReinstallStartable();
    var log := FourteenChanges(Reinstall(0), ARGS, Scan([], []), 2);
  }

  // ---------------------------------------------------------------- a candidate `previous` names

  const RUNNING := Release("2")

  const SHARED := World(
    map[Current := Link(Spelled(RUNNING)), Previous := Link(Spelled(STAGED)), RUNNING := Dir(1, "2"),
        STAGED := Dir(2, "1"), INSTALLED := Dir(3, "1")],
    Pair(Slot(None, None, None), Slot(None, None, None)), map[], 0)

  const SHARED_ARGS := BeginArgs("a", 0, "1", INSTALLED, STAGED, Some(RUNNING), Some(RUNNING))

  const CHILDREN := [Journal, Backup(Env), Backup(Service), Parked]

  lemma SharedBegins()
    ensures ActivationRuns.Startable(SHARED, SHARED_ARGS, Scan([], CHILDREN), 2)
    ensures Vacant(SHARED, SHARED_ARGS.id) && AllChildren(CHILDREN)
    ensures !CandidateDistinct(Capture(SHARED.tree, SHARED.files, SHARED_ARGS).value)
  {
  }

  lemma SharedCandidateLost()
    ensures var w1 := Begin(SHARED, SHARED_ARGS, Scan([], CHILDREN), 2).w;
            && Active in w1.txns && w1.txns[Active].manifest.Some?
            && var scan := Scan([Retired(SHARED_ARGS.id)], CHILDREN);
               var o := Begun(SHARED, w1);
               exists log :: Restored(o, RunAll(w1, log))
                             && var r := Finish(RunAll(w1, log), SHARED_ARGS.id, scan, FinishCost(scan));
                                r.Live? && !(PriorLocated(r.w.tree, o.m) && OriginalPrevious(r.w.tree, o.m))
  {
    SharedBegins();
    var scan := Scan([Retired(SHARED_ARGS.id)], CHILDREN);
    var log := SharedRun(SHARED, SHARED_ARGS, Scan([], CHILDREN), 2, scan, FinishCost(scan));
  }
}

/**
 Runs that exist: from `begin`, accepted commands lead a recoverable activation through every phase
 up to a healthy candidate and back, and into the states where a careless command strands it.
 */
module ActivationRuns {
  import opened Wrappers
  import opened ActivationDisk
  import opened ActivationJournal
  import opened ActivationTree
  import opened ActivationFiles
  import opened ActivationSteps
  import opened ActivationCommands
  import opened ActivationRollback
  import opened ActivationPublication
  import opened ActivationFinish
  import opened ActivationPhases

  // ---------------------------------------------------------------- extending a run

  // Where a run has got to.
  datatype Stop = Stop(log: seq<Issue>, w: World, s: Shape)

  ghost predicate Reached(w1: World, o: Origin, at: Stop, phase: Phase, changes: nat) {
    && at.w == RunAll(w1, at.log) && CarefulRun(w1, at.log)
    && InvAt(at.w, o, at.s) && ManifestOf(at.w).phase == phase
    && JournalOf(w1).Some? && PhaseChanges(w1, at.log) == changes
  }

  lemma {:induction false} Extended(w: World, log: seq<Issue>, i: Issue)
    requires JournalOf(w).Some?
    ensures RunAll(w, log + [i]) == Exec(RunAll(w, log), i)
    ensures CarefulRun(w, log + [i]) <==> CarefulRun(w, log) && Careful(RunAll(w, log), i)
    ensures JournalOf(RunAll(w, log)).Some? && JournalOf(RunAll(w, log + [i])).Some?
    ensures PhaseChanges(w, log + [i]) == PhaseChanges(w, log)
              + if JournalOf(RunAll(w, log + [i])).value.phase != JournalOf(RunAll(w, log)).value.phase then 1 else 0
    decreases |log|
  {
    if log == [] {
      ExecWrites(w, i);
      assert log + [i] == [i] && [i][1..] == [];
      assert CarefulRun(Exec(w, i), []) && PhaseChanges(Exec(w, i), []) == 0;
    } else {
      ExecWrites(w, log[0]);
      assert (log + [i])[1..] == log[1..] + [i];
      Extended(Exec(w, log[0]), log[1..], i);
    }
  }

  lemma Onward(w1: World, o: Origin, at: Stop, phase: Phase, n: nat, i: Issue, s': Shape)
    requires Reached(w1, o, at, phase, n) && Careful(at.w, i) && InvAt(Exec(at.w, i), o, s')
    ensures var phase' := ManifestOf(Exec(at.w, i)).phase;
            Reached(w1, o, Stop(at.log + [i], Exec(at.w, i), s'), phase', n + if phase' != phase then 1 else 0)
  {
    Extended(w1, at.log, i);
  }

  // ---------------------------------------------------------------- recording a phase

  function To(q: Phase): RecordArgs {
    RecordArgs(q, None, None, None, None)
  }

  function Advanced(m: Manifest, q: Phase): Manifest {
    m.(phase := q, rollbackFrom := if q.RollingBack? then Some(m.phase) else m.rollbackFrom)
  }

  lemma AdvancedAmends(m: Manifest, q: Phase)
    requires Follows(m.phase, q)
    ensures Amend(m, To(q)) == Some(Advanced(m, q))
  {
  }

  lemma RecordOn(w1: World, o: Origin, at: Stop, phase: Phase, n: nat, q: Phase) returns (next: Stop)
    requires OriginOk(o) && Reached(w1, o, at, phase, n) && Follows(phase, q)
    requires Accepts(at.w.tree, at.w.files, Advanced(ManifestOf(at.w), q), at.w.txns[Active].parked, RollbackPhase(q))
    ensures Reached(w1, o, next, q, n + 1)
    ensures next.s == at.s && next.w.tree == at.w.tree && next.w.files == at.w.files
    ensures ManifestOf(next.w) == Advanced(ManifestOf(at.w), q)
  {
    var i := Issue(o.m.id, DoRecord(To(q)), 1);
    Opens(at.w, o, at.s, RollbackPhase(q));
    AdvancedAmends(ManifestOf(at.w), q);
    RecordStep(at.w, o, at.s, To(q), 1);
    Onward(w1, o, at, phase, n, i, at.s);
    next := Stop(at.log + [i], Exec(at.w, i), at.s);
  }

  // ---------------------------------------------------------------- with every link taken

  // The phases that expect both links to be taken.
  predicate Activated(p: Phase) {
    !p.Prepared? && !p.Guarded? && !p.Linking? && !RollbackPhase(p)
  }

  lemma TakenAccepted(w: World, o: Origin, s: Shape, m: Manifest)
    requires OriginOk(o) && InvAt(w, o, s) && FullyTaken(o, s) && SameTransaction(o.m, m) && Activated(m.phase)
    ensures PriorLocated(w.tree, m) && CandidateLocated(w.tree, m, w.txns[Active].parked)
    ensures CurrentAccepted(w.tree, m, false) && PreviousAccepted(w.tree, m)
  {
    assert Get(w.tree, Current) == Expected(o, s, Current);
    assert Get(w.tree, m.releaseDir) == Expected(o, s, m.releaseDir);
    assert Get(w.tree, Previous) == Expected(o, s, Previous);
    if m.prior.Some? {
      assert Get(w.tree, m.prior.value.target) == Expected(o, s, m.prior.value.target);
      assert Get(w.tree, m.prior.value.source) == Expected(o, s, m.prior.value.source);
      TwoDirectories(o, s);
    }
  }

  // The configurations `begin` captured are still in place.
  predicate Original(w: World, m: Manifest) {
    MetaAt(w.files, Env) == m.original.env && MetaAt(w.files, Service) == m.original.service
  }

  lemma AdvancedFiles(w: World, o: Origin, s: Shape, q: Phase)
    requires InvAt(w, o, s) && Follows(ManifestOf(w).phase, q)
    ensures FilesOk(w.files, w.next, Advanced(ManifestOf(w), q))
  {
  }

  lemma ForwardOn(w1: World, o: Origin, at: Stop, phase: Phase, n: nat, q: Phase) returns (next: Stop)
    requires OriginOk(o) && Reached(w1, o, at, phase, n) && Follows(phase, q) && Activated(q)
    requires FullyTaken(o, at.s)
    requires HistoryConfigs(q) || (PristineConfigs(q) && Original(at.w, o.m))
    ensures Reached(w1, o, next, q, n + 1)
    ensures next.s == at.s && next.w.tree == at.w.tree && next.w.files == at.w.files
    ensures ManifestOf(next.w) == Advanced(ManifestOf(at.w), q)
  {
    var m := Advanced(ManifestOf(at.w), q);
    TakenAccepted(at.w, o, at.s, m);
    AdvancedFiles(at.w, o, at.s, q);
    if HistoryConfigs(q) {
      HistoryAccepted(at.w.files, at.w.next, m);
    } else {
      PristineAccepted(at.w.files, at.w.next, m);
    }
    next := RecordOn(w1, o, at, phase, n, q);
  }

  // ---------------------------------------------------------------- up to the candidate's authority

  predicate Early(p: Phase) {
    p.Prepared? || p.Guarded?
  }

  lemma EarlyAccepted(t: Tree, f: Files, m: Manifest, parked: Option<Node>, q: Phase)
    requires Accepts(t, f, m, parked, false) && Early(m.phase) && Follows(m.phase, q) && (q.Guarded? || q.Linking?)
    ensures Accepts(t, f, Advanced(m, q), parked, false)
  {
    assert OriginalCurrent(t, Advanced(m, q)) && OriginalPrevious(t, Advanced(m, q));
  }

  // A layout whose activation completes when left alone.
  ghost predicate Startable(w0: World, a: BeginArgs, scan: Scan, fuel: nat) {
    && Untouched(w0) && Begin(w0, a, scan, fuel).Live? && Capture(w0.tree, w0.files, a).Some?
    && Recoverable(w0.tree, Capture(w0.tree, w0.files, a).value)
  }

  lemma Starts(w0: World, a: BeginArgs, scan: Scan, fuel: nat) returns (o: Origin, at: Stop)
    requires Startable(w0, a, scan, fuel)
    ensures var w1 := Begin(w0, a, scan, fuel).w;
            && Active in w1.txns && w1.txns[Active].manifest.Some?
            && o == Begun(w0, w1) && OriginOk(o) && o.m.id == a.id && o.m == Capture(w0.tree, w0.files, a).value
            && at == Stop([], w1, START) && Reached(w1, o, at, Prepared, 0) && Original(w1, o.m)
            && w1.files == w0.files && ManifestOf(w1) == o.m
  {
    BeginCaptures(w0, a, scan, fuel);
    BeginEstablishes(w0, a, scan, fuel);
    var w1 := Begin(w0, a, scan, fuel).w;
    o := Begun(w0, w1);
    at := Stop([], w1, START);
  }

  lemma ActivateOn(w1: World, o: Origin, at: Stop, n: nat) returns (next: Stop)
    requires OriginOk(o) && Reached(w1, o, at, Linking, n) && CandidateMoveHappens(o.tree, o.m)
    ensures Reached(w1, o, next, Linking, n) && FullyTaken(o, next.s)
    ensures next.w.files == at.w.files && ManifestOf(next.w) == ManifestOf(at.w)
  {
    var s' := ActivateStep(at.w, o, at.s, 4);
    var i := Issue(o.m.id, DoActivate, 4);
    Onward(w1, o, at, Linking, n, i, s');
    next := Stop(at.log + [i], Exec(at.w, i), s');
  }

  lemma LinkingRun(w1: World, o: Origin, at: Stop) returns (next: Stop)
    requires OriginOk(o) && Reached(w1, o, at, Prepared, 0)
    ensures Reached(w1, o, next, Linking, 2)
    ensures next.w.files == at.w.files && ManifestOf(next.w).desired == ManifestOf(at.w).desired
  {
    EarlyAccepted(at.w.tree, at.w.files, ManifestOf(at.w), at.w.txns[Active].parked, Guarded);
    next := RecordOn(w1, o, at, Prepared, 0, Guarded);
    EarlyAccepted(next.w.tree, next.w.files, ManifestOf(next.w), next.w.txns[Active].parked, Linking);
    next := RecordOn(w1, o, next, Guarded, 1, Linking);
  }

  lemma LinkedRun(w1: World, o: Origin, at: Stop) returns (next: Stop)
    requires OriginOk(o) && Reached(w1, o, at, Prepared, 0) && CandidateMoveHappens(o.tree, o.m)
    ensures Reached(w1, o, next, Linked, 3) && FullyTaken(o, next.s)
    ensures next.w.files == at.w.files && ManifestOf(next.w).desired == ManifestOf(at.w).desired
  {
    next := LinkingRun(w1, o, at);
    next := ActivateOn(w1, o, next, 2);
    next := ForwardOn(w1, o, next, Linking, 2, Linked);
  }

  // A way through phases whose configurations are the captured or recorded ones.
  predicate Walkable(phase: Phase, path: seq<Phase>)
    decreases |path|
  {
    path != [] ==>
      && Follows(phase, path[0]) && Activated(path[0])
      && (HistoryConfigs(path[0]) || PristineConfigs(path[0]))
      && Walkable(path[0], path[1..])
  }

  lemma {:induction false} Walk(w1: World, o: Origin, at: Stop, phase: Phase, n: nat, path: seq<Phase>) returns (next: Stop)
    requires OriginOk(o) && Reached(w1, o, at, phase, n) && Original(at.w, o.m) && FullyTaken(o, at.s)
    requires Walkable(phase, path)
    ensures Reached(w1, o, next, if path == [] then phase else path[|path| - 1], n + |path|)
    ensures FullyTaken(o, next.s) && next.w.files == at.w.files && ManifestOf(next.w).desired == ManifestOf(at.w).desired
    decreases |path|
  {
    if path == [] {
      next := at;
    } else {
      var step := ForwardOn(w1, o, at, phase, n, path[0]);
      next := Walk(w1, o, step, path[0], n + 1, path[1..]);
    }
  }

  const TO_AUTHORITY := [Stopping, Stopped, Fencing, Fenced, Authorizing, Authority]

  lemma AuthorityWalkable()
    ensures Walkable(Linked, TO_AUTHORITY)
  {
    assert TO_AUTHORITY[1..] == [Stopped, Fencing, Fenced, Authorizing, Authority];
    assert TO_AUTHORITY[1..][1..] == [Fencing, Fenced, Authorizing, Authority];
    assert TO_AUTHORITY[1..][1..][1..] == [Fenced, Authorizing, Authority];
    assert TO_AUTHORITY[1..][1..][1..][1..] == [Authorizing, Authority];
    assert TO_AUTHORITY[1..][1..][1..][1..][1..] == [Authority];
    assert Walkable(Authorizing, [Authority]);
    assert Walkable(Fenced, [Authorizing, Authority]);
    assert Walkable(Fencing, [Fenced, Authorizing, Authority]);
    assert Walkable(Stopped, [Fencing, Fenced, Authorizing, Authority]);
    assert Walkable(Stopping, [Stopped, Fencing, Fenced, Authorizing, Authority]);
  }

  // ---------------------------------------------------------------- publishing both configurations

  lemma DraftOn(w1: World, o: Origin, at: Stop, phase: Phase, n: nat, k: Kind, bytes: string) returns (next: Stop)
    requires OriginOk(o) && Reached(w1, o, at, phase, n)
    ensures Reached(w1, o, next, phase, n) && next.s == at.s && next.w == PlaceDraft(at.w, k, bytes)
    ensures ManifestOf(next.w) == ManifestOf(at.w)
  {
    var i := Issue(o.m.id, DoDraft(k, bytes), 0);
    DraftStep(at.w, o, at.s, k, bytes);
    Onward(w1, o, at, phase, n, i, at.s);
    next := Stop(at.log + [i], Exec(at.w, i), at.s);
  }

  lemma PublishOn(w1: World, o: Origin, at: Stop, phase: Phase, n: nat, k: Kind, bytes: string, mode: Mode) returns (next: Stop, d: Desired)
    requires OriginOk(o) && Reached(w1, o, at, phase, n) && PreCommit(phase) && HistoryConfigs(phase) && DesiredMode(k, mode)
    requires at.w.files.At(k).draft.None? && at.w.files.At(k).publication.None?
    ensures Reached(w1, o, next, phase, n) && next.s == at.s && d == Desired(at.w.next, bytes, mode)
    ensures next.w.files.At(Twin(k)) == at.w.files.At(Twin(k)) && Completed(next.w.files, k, d)
    ensures ManifestOf(next.w).desired == ManifestOf(at.w).desired.Put(k, Some(d))
  {
    var drafted := DraftOn(w1, o, at, phase, n, k, bytes);
    d := Desired(at.w.next, bytes, mode);
    next := ReplaceOn(w1, o, drafted, phase, n, k, d);
  }

  lemma ReplaceOn(w1: World, o: Origin, at: Stop, phase: Phase, n: nat, k: Kind, d: Desired) returns (next: Stop)
    requires OriginOk(o) && Reached(w1, o, at, phase, n) && PreCommit(phase) && HistoryConfigs(phase) && DesiredMode(k, d.mode)
    requires at.w.files.At(k).draft == Some(File(d.inode, d.bytes, M600)) && at.w.files.At(k).publication.None?
    ensures Reached(w1, o, next, phase, n) && next.s == at.s
    ensures next.w.files.At(Twin(k)) == at.w.files.At(Twin(k)) && Completed(next.w.files, k, d)
    ensures ManifestOf(next.w).desired == ManifestOf(at.w).desired.Put(k, Some(d))
  {
    StartStep(at.w, o, at.s, k, d, 5);
    var i := Issue(o.m.id, DoReplace(k, d.mode), 5);
    Onward(w1, o, at, phase, n, i, at.s);
    next := Stop(at.log + [i], Exec(at.w, i), at.s);
  }

  // A published configuration stays published while the other one is.
  lemma StaysPublished(w: World, w': World, o: Origin, s: Shape, k: Kind, d: Desired)
    requires InvAt(w', o, s) && Completed(w.files, k, d) && w'.files.At(k) == w.files.At(k)
    ensures Completed(w'.files, k, d)
  {
    assert KindOk(w'.files, w'.next, ManifestOf(w'), k);
    ConfigReadable(w'.files, w'.next, ManifestOf(w'), k);
  }

  // The contents and modes the two configurations are to have.
  datatype Wanted = Wanted(env: string, service: string, mode: Mode)

  predicate Configured(f: Files, c: Wanted) {
    MetaAt(f, Env) == Some(Meta(c.env, M600)) && MetaAt(f, Service) == Some(Meta(c.service, c.mode))
  }

  lemma BothPublished(w1: World, o: Origin, at: Stop, phase: Phase, n: nat, c: Wanted) returns (next: Stop)
    requires OriginOk(o) && Reached(w1, o, at, phase, n) && PreCommit(phase) && HistoryConfigs(phase) && DesiredMode(Service, c.mode)
    requires forall k: Kind :: at.w.files.At(k).draft.None? && at.w.files.At(k).publication.None?
    ensures Reached(w1, o, next, phase, n) && next.s == at.s && Configured(next.w.files, c)
    ensures ConfigsAccepted(next.w.files, Advanced(ManifestOf(next.w), CandidateStarting))
  {
    var mid, d := PublishOn(w1, o, at, phase, n, Env, c.env, M600);
    next := OtherPublished(w1, o, mid, phase, n, d, c);
  }

  lemma OtherPublished(w1: World, o: Origin, at: Stop, phase: Phase, n: nat, d: Desired, c: Wanted) returns (next: Stop)
    requires OriginOk(o) && Reached(w1, o, at, phase, n) && PreCommit(phase) && HistoryConfigs(phase) && DesiredMode(Service, c.mode)
    requires Completed(at.w.files, Env, d) && ManifestOf(at.w).desired.env == Some(d) && d.bytes == c.env && d.mode == M600
    requires at.w.files.service.draft.None? && at.w.files.service.publication.None?
    ensures Reached(w1, o, next, phase, n) && next.s == at.s && Configured(next.w.files, c)
    ensures ConfigsAccepted(next.w.files, Advanced(ManifestOf(next.w), CandidateStarting))
  {
    var d';
    next, d' := PublishOn(w1, o, at, phase, n, Service, c.service, c.mode);
    StaysPublished(at.w, next.w, o, next.s, Env, d);
  }

  lemma StartingRun(w1: World, o: Origin, at: Stop, phase: Phase, n: nat, c: Wanted) returns (next: Stop)
    requires OriginOk(o) && Reached(w1, o, at, phase, n) && (phase.Linked? || phase.Authority?) && FullyTaken(o, at.s)
    requires DesiredMode(Service, c.mode)
    requires forall k: Kind :: at.w.files.At(k).draft.None? && at.w.files.At(k).publication.None?
    ensures Reached(w1, o, next, CandidateStarting, n + 1) && FullyTaken(o, next.s) && Configured(next.w.files, c)
  {
    next := BothPublished(w1, o, at, phase, n, c);
    TakenAccepted(next.w, o, next.s, Advanced(ManifestOf(next.w), CandidateStarting));
    next := RecordOn(w1, o, next, phase, n, CandidateStarting);
  }

  // The phases that expect the desired configurations.
  predicate Desiring(p: Phase) {
    p.CandidateStarting? || p.CandidateHealthy? || CommitPhase(p)
  }

  lemma DesiringAccepted(f: Files, m: Manifest, q: Phase)
    requires ConfigsAccepted(f, m) && Desiring(m.phase) && Desiring(q)
    ensures ConfigsAccepted(f, Advanced(m, q))
  {
  }

  lemma DesiredOn(w1: World, o: Origin, at: Stop, phase: Phase, n: nat, q: Phase) returns (next: Stop)
    requires OriginOk(o) && Reached(w1, o, at, phase, n) && FullyTaken(o, at.s)
    requires Desiring(phase) && Desiring(q) && Follows(phase, q)
    ensures Reached(w1, o, next, q, n + 1) && next.s == at.s && next.w.files == at.w.files
  {
    TakenAccepted(at.w, o, at.s, Advanced(ManifestOf(at.w), q));
    DesiringAccepted(at.w.files, ManifestOf(at.w), q);
    next := RecordOn(w1, o, at, phase, n, q);
  }

  // ---------------------------------------------------------------- and back

  lemma SettleAccepted(t: Tree, f: Files, m: Manifest, parked: Option<Node>)
    requires Accepts(t, f, m, parked, false) && m.phase.RolledBack?
    ensures Accepts(t, f, Advanced(m, RollbackHealthy), parked, true)
  {
  }

  lemma RollbackOn(w1: World, o: Origin, at: Stop, phase: Phase, n: nat) returns (next: Stop)
    requires OriginOk(o) && Reached(w1, o, at, phase, n) && PreCommit(phase)
    ensures Reached(w1, o, next, RollingBack, n + 1) && next.s == at.s
  {
    RollbackAmends(ManifestOf(at.w));
    RollbackAccepted(at.w, o, at.s, TO_ROLLBACK, 1);
    var i := Issue(o.m.id, DoRecord(TO_ROLLBACK), 1);
    Onward(w1, o, at, phase, n, i, at.s);
    next := Stop(at.log + [i], Exec(at.w, i), at.s);
  }

  lemma RestoreOn(w1: World, o: Origin, at: Stop, n: nat) returns (next: Stop)
    requires OriginOk(o) && Reached(w1, o, at, RollingBack, n)
    ensures Reached(w1, o, next, RollingBack, n) && Undone(o, next.s) && Restored(o, next.w)
    ensures !at.s.priorMoved ==> next.s.candidate == at.s.candidate
  {
    var s' := RestoreStep(at.w, o, at.s, 10);
    var i := Issue(o.m.id, DoRestore, 10);
    Onward(w1, o, at, RollingBack, n, i, s');
    next := Stop(at.log + [i], Exec(at.w, i), s');
  }

  lemma RolledBackOn(w1: World, o: Origin, at: Stop, n: nat) returns (next: Stop)
    requires OriginOk(o) && Reached(w1, o, at, RollingBack, n) && Undone(o, at.s) && Restored(o, at.w)
    ensures Reached(w1, o, next, RolledBack, n + 1) && next.s == at.s && Restored(o, next.w)
  {
    RestoredRecords(at.w, o, at.s);
    RecordStep(at.w, o, at.s, ROLLED_BACK, 1);
    var i := Issue(o.m.id, DoRecord(ROLLED_BACK), 1);
    Onward(w1, o, at, RollingBack, n, i, at.s);
    next := Stop(at.log + [i], Exec(at.w, i), at.s);
  }

  lemma SettleOn(w1: World, o: Origin, at: Stop, n: nat) returns (next: Stop)
    requires OriginOk(o) && Reached(w1, o, at, RolledBack, n) && Restored(o, at.w)
    ensures Reached(w1, o, next, RollbackHealthy, n + 1) && next.s == at.s && Restored(o, next.w)
  {
    SettleAccepted(at.w.tree, at.w.files, ManifestOf(at.w), at.w.txns[Active].parked);
    next := RecordOn(w1, o, at, RolledBack, n, RollbackHealthy);
  }

  // From any phase before the commit, back to a settled rollback.
  lemma BackRun(w1: World, o: Origin, at: Stop, phase: Phase, n: nat) returns (next: Stop)
    requires OriginOk(o) && Reached(w1, o, at, phase, n) && PreCommit(phase)
    ensures Reached(w1, o, next, RollbackHealthy, n + 3) && Restored(o, next.w)
    ensures !at.s.priorMoved ==> next.s.candidate == at.s.candidate
  {
    next := RollbackOn(w1, o, at, phase, n);
    next := RestoreOn(w1, o, next, n + 1);
    next := RolledBackOn(w1, o, next, n + 1);
    next := SettleOn(w1, o, next, n + 2);
  }

  // ---------------------------------------------------------------- whole runs

  lemma AuthorityRun(w0: World, a: BeginArgs, scan: Scan, fuel: nat) returns (o: Origin, at: Stop)
    requires Startable(w0, a, scan, fuel) && CandidateMoveHappens(w0.tree, Capture(w0.tree, w0.files, a).value)
    ensures var w1 := Begin(w0, a, scan, fuel).w;
            && JournalOf(w1).Some? && o == Begun(w0, w1) && OriginOk(o) && o.m.id == a.id
            && Reached(w1, o, at, Authority, 9) && FullyTaken(o, at.s)
            && (forall k: Kind :: at.w.files.At(k).draft.None? && at.w.files.At(k).publication.None?)
  {
    o, at := Starts(w0, a, scan, fuel);
    var w1 := Begin(w0, a, scan, fuel).w;
    at := LinkedRun(w1, o, at);
    AuthorityWalkable();
    at := Walk(w1, o, at, Linked, 3, TO_AUTHORITY);
  }

  lemma StartedRun(w0: World, a: BeginArgs, scan: Scan, fuel: nat) returns (o: Origin, at: Stop)
    requires Startable(w0, a, scan, fuel) && CandidateMoveHappens(w0.tree, Capture(w0.tree, w0.files, a).value)
    ensures var w1 := Begin(w0, a, scan, fuel).w;
            && JournalOf(w1).Some? && o == Begun(w0, w1) && OriginOk(o) && o.m.id == a.id
            && Reached(w1, o, at, CandidateStarting, 10) && FullyTaken(o, at.s)
  {
    o, at := AuthorityRun(w0, a, scan, fuel);
    at := StartingRun(Begin(w0, a, scan, fuel).w, o, at, Authority, 9, Wanted([], [], M600));
  }

  /** The bound on phase changes is reached: every recoverable layout whose activation completes has a
      careful run of accepted commands from `begin` with fourteen of them, which ends with everything
      restored. */
  lemma FourteenChanges(w0: World, a: BeginArgs, scan: Scan, fuel: nat) returns (log: seq<Issue>)
    requires Startable(w0, a, scan, fuel) && CandidateMoveHappens(w0.tree, Capture(w0.tree, w0.files, a).value)
    ensures var w1 := Begin(w0, a, scan, fuel).w;
            && JournalOf(w1).Some? && CarefulRun(w1, log)
            && PhaseChanges(w1, log) == 14 && Restored(Begun(w0, w1), RunAll(w1, log))
  {
    var o, at := StartedRun(w0, a, scan, fuel);
    at := HealthyAndBack(Begin(w0, a, scan, fuel).w, o, at, 10);
    log := at.log;
  }

  lemma HealthyAndBack(w1: World, o: Origin, at: Stop, n: nat) returns (next: Stop)
    requires OriginOk(o) && Reached(w1, o, at, CandidateStarting, n) && FullyTaken(o, at.s)
    ensures Reached(w1, o, next, RollbackHealthy, n + 4) && Restored(o, next.w)
  {
    next := DesiredOn(w1, o, at, CandidateStarting, n, CandidateHealthy);
    next := BackRun(w1, o, next, CandidateHealthy, n + 1);
  }

  // ---------------------------------------------------------------- runs a careless replacement strands

  /** On every recoverable layout a first draft with other contents than the captured configuration,
      replaced right after `begin`, strands the journal. */
  lemma EarlyRun(w0: World, a: BeginArgs, scan: Scan, fuel: nat, k: Kind, bytes: string)
    requires Startable(w0, a, scan, fuel)
    requires MetaAt(w0.files, k) != Some(Meta(bytes, M600))
    ensures var w1 := Begin(w0, a, scan, fuel).w;
            Stranded(ReplaceConfig(PlaceDraft(w1, k, bytes), a.id, k, M600, 5).w, a.id)
  {
    var o, at := Starts(w0, a, scan, fuel);
    EarlyDraft(Begin(w0, a, scan, fuel).w, o, at, k, bytes);
  }

  lemma EarlyDraft(w1: World, o: Origin, at: Stop, k: Kind, bytes: string)
    requires OriginOk(o) && Reached(w1, o, at, Prepared, 0)
    requires at.w.files.At(k).draft.None? && at.w.files.At(k).publication.None?
    requires ManifestOf(at.w).original.At(k) != Some(Meta(bytes, M600))
    ensures Stranded(ReplaceConfig(PlaceDraft(at.w, k, bytes), o.m.id, k, M600, 5).w, o.m.id)
  {
    var next := DraftOn(w1, o, at, Prepared, 0, k, bytes);
    EarlyDraftStrands(next.w, o, next.s, k, Desired(at.w.next, bytes, M600));
  }

  /** On every recoverable layout whose activation completes, a careful run reaches the start of the
      candidate; a draft journaled there strands the journal at its first step. */
  lemma LateRun(w0: World, a: BeginArgs, scan: Scan, fuel: nat, k: Kind, bytes: string) returns (log: seq<Issue>)
    requires Startable(w0, a, scan, fuel) && CandidateMoveHappens(w0.tree, Capture(w0.tree, w0.files, a).value)
    ensures var w1 := Begin(w0, a, scan, fuel).w;
            CarefulRun(w1, log) && Stranded(ReplaceConfig(RunAll(w1, log), a.id, k, M600, 1).w, a.id)
  {
    var o, at := StartedRun(w0, a, scan, fuel);
    SettledConfigs(at.w, o, at.s, k);
    log := LateDraft(Begin(w0, a, scan, fuel).w, o, at, k, bytes);
  }

  lemma LateDraft(w1: World, o: Origin, at: Stop, k: Kind, bytes: string) returns (log: seq<Issue>)
    requires OriginOk(o) && Reached(w1, o, at, CandidateStarting, 10) && at.w.files.At(k).publication.None?
    ensures CarefulRun(w1, log) && Stranded(ReplaceConfig(RunAll(w1, log), o.m.id, k, M600, 1).w, o.m.id)
  {
    var next := DraftOn(w1, o, at, CandidateStarting, 10, k, bytes);
    LateEnds(w1, o, next, k);
    log := next.log;
  }

  lemma LateEnds(w1: World, o: Origin, at: Stop, k: Kind)
    requires OriginOk(o) && Reached(w1, o, at, CandidateStarting, 10)
    requires at.w.files.At(k).publication.None? && at.w.files.At(k).draft.Some?
    ensures Stranded(ReplaceConfig(at.w, o.m.id, k, M600, 1).w, o.m.id)
  {
    LateDraftStrands(at.w, o, at.s, k, M600);
  }

  /** On every such layout: a service draft given mode 644 by a replacement that is cut before it is
      secured, and then replaced with mode 600, cannot be rolled back. */
  lemma ModeRun(w0: World, a: BeginArgs, scan: Scan, fuel: nat, bytes: string) returns (log: seq<Issue>)
    requires Startable(w0, a, scan, fuel) && CandidateMoveHappens(w0.tree, Capture(w0.tree, w0.files, a).value)
    ensures var w1 := Begin(w0, a, scan, fuel).w;
            && Active in w1.txns && w1.txns[Active].manifest.Some? && CarefulRun(w1, log)
            && !RollbackCompletes(ReplaceConfig(RunAll(w1, log), a.id, Service, M600, 1).w, a.id, Begun(w0, w1))
  {
    var o, at := AuthorityRun(w0, a, scan, fuel);
    log := ModeDraft(Begin(w0, a, scan, fuel).w, o, at, bytes);
  }

  lemma ModeDraft(w1: World, o: Origin, at: Stop, bytes: string) returns (log: seq<Issue>)
    requires OriginOk(o) && Reached(w1, o, at, Authority, 9)
    requires at.w.files.service.draft.None? && at.w.files.service.publication.None?
    ensures CarefulRun(w1, log)
    ensures !RollbackCompletes(ReplaceConfig(RunAll(w1, log), o.m.id, Service, M600, 1).w, o.m.id, o)
  {
    var next := DraftOn(w1, o, at, Authority, 9, Service, bytes);
    next := CutAfterMode(w1, o, next, Desired(at.w.next, bytes, M644));
    ModeEnds(w1, o, next);
    log := next.log;
  }

  lemma ModeEnds(w1: World, o: Origin, at: Stop)
    requires OriginOk(o) && Reached(w1, o, at, Authority, 9)
    requires at.w.files.service.publication.None? && at.w.files.service.draft.Some? && at.w.files.service.draft.value.mode == M644
    ensures !RollbackCompletes(ReplaceConfig(at.w, o.m.id, Service, M600, 1).w, o.m.id, o)
  {
    ModeChangeStrands(at.w, o, at.s, Service, M600);
  }

  // The replacement journals its intent, gives the draft its mode, and loses power.
  lemma CutAfterMode(w1: World, o: Origin, at: Stop, d: Desired) returns (next: Stop)
    requires OriginOk(o) && Reached(w1, o, at, Authority, 9) && d.mode == M644
    requires at.w.files.service.publication.None? && at.w.files.service.draft == Some(File(d.inode, d.bytes, M600))
    ensures Reached(w1, o, next, Authority, 9) && next.s == at.s
    ensures next.w.files.service.publication.None? && next.w.files.service.draft == Some(FileOf(d))
  {
    ModeCut(at.w, o, at.s, d);
    StartStep(at.w, o, at.s, Service, d, 2);
    var i := Issue(o.m.id, DoReplace(Service, M644), 2);
    Onward(w1, o, at, Authority, 9, i, at.s);
    next := Stop(at.log + [i], Exec(at.w, i), at.s);
  }

  lemma ModeCut(w: World, o: Origin, s: Shape, d: Desired)
    requires InvAt(w, o, s) && ManifestOf(w).phase.Authority? && d.mode == M644
    requires w.files.service.publication.None? && w.files.service.draft == Some(File(d.inode, d.bytes, M600))
    ensures ReplaceConfig(w, o.m.id, Service, M644, 2).w.files.service == w.files.service.(draft := Some(FileOf(d)))
  {
    Opens(w, o, s, false);
    var m := ManifestOf(w);
    LoneDraft(w.files, w.next, m, Service);
    IntendKeeps(w.files, w.next, m, Service, d);
    ChmodKeeps(w.files, w.next, Intend(m, Service, d), Service, d);
  }

  // ---------------------------------------------------------------- reaching a finish

  // No directory of an earlier transaction stands in the way.
  predicate Vacant(w: World, id: string) {
    Tidy(w.txns) && Retired(id) !in w.txns
  }

  lemma BeginVacant(w0: World, a: BeginArgs, scan: Scan, fuel: nat)
    requires Begin(w0, a, scan, fuel).Live? && Vacant(w0, a.id) && AllChildren(scan.children)
    ensures Vacant(Begin(w0, a, scan, fuel).w, a.id)
  {
    SweepSweeps(w0, scan, fuel);
    SweptTidy(w0, Sweep(w0, scan, fuel).w);
  }

  lemma RunVacant(w: World, log: seq<Issue>, id: string)
    requires JournalOf(w).Some? && Vacant(w, id)
    ensures Vacant(RunAll(w, log), id)
  {
    RunConfined(w, log);
    var w' := RunAll(w, log);
    forall n | n in w'.txns && !n.Active? ensures n in w.txns && w'.txns[n] == w.txns[n] {
      assert n in w'.txns - {Active};
    }
    assert Retired(id) in w'.txns ==> Retired(id) in w'.txns - {Active};
  }

  /** Every run from `begin` that settles is ready for a repeatable finish: after a commit always, after
      a rollback if the candidate is neither the prior nor the previous release. */
  lemma SettledRunIsReady(w0: World, a: BeginArgs, scan: Scan, fuel: nat, log: seq<Issue>)
    requires Startable(w0, a, scan, fuel) && Vacant(w0, a.id) && AllChildren(scan.children)
    requires CarefulRun(Begin(w0, a, scan, fuel).w, log)
    ensures var w := RunAll(Begin(w0, a, scan, fuel).w, log);
            && Active in w.txns && w.txns[Active].manifest.Some?
            && (Terminal(ManifestOf(w).phase) && (ManifestOf(w).phase.RollbackHealthy? ==> CandidateDistinct(ManifestOf(w))) ==>
                  FinishReady(w, ManifestOf(w)))
  {
    var o, at := Starts(w0, a, scan, fuel);
    var w1 := Begin(w0, a, scan, fuel).w;
    BeginVacant(w0, a, scan, fuel);
    RunVacant(w1, log, a.id);
    var s := RunKeeps(w1, o, START, log);
    if Terminal(ManifestOf(RunAll(w1, log)).phase) {
      SettledIsFinishing(RunAll(w1, log), o, s);
    }
  }

  /** On every recoverable layout whose candidate is the directory of the prior release or of
      `previous`: rolling back right after `begin` restores everything, and the `finish` that follows
      completes and takes that release away. */
  lemma SharedRun(w0: World, a: BeginArgs, scan: Scan, fuel: nat, scan': Scan, fuel': nat) returns (log: seq<Issue>)
    requires Startable(w0, a, scan, fuel) && Vacant(w0, a.id) && AllChildren(scan.children)
    requires !CandidateDistinct(Capture(w0.tree, w0.files, a).value)
    requires AllChildren(scan'.children) && Retired(a.id) in scan'.dirs && fuel' >= FinishCost(scan')
    ensures var w1 := Begin(w0, a, scan, fuel).w;
            var w := RunAll(w1, log);
            && Active in w1.txns && w1.txns[Active].manifest.Some? && Restored(Begun(w0, w1), w)
            && var r := Finish(w, a.id, scan', fuel');
               r.Live? && (!PriorLocated(r.w.tree, Begun(w0, w1).m) || !OriginalPrevious(r.w.tree, Begun(w0, w1).m))
  {
    var o, at := Starts(w0, a, scan, fuel);
    var w1 := Begin(w0, a, scan, fuel).w;
    BeginVacant(w0, a, scan, fuel);
    log := SharedFrom(w1, o, at, scan', fuel');
  }

  lemma SharedFrom(w1: World, o: Origin, at: Stop, scan: Scan, fuel: nat) returns (log: seq<Issue>)
    requires OriginOk(o) && Reached(w1, o, at, Prepared, 0) && at.s == START && Vacant(w1, o.m.id) && !CandidateDistinct(o.m)
    requires AllChildren(scan.children) && Retired(o.m.id) in scan.dirs && fuel >= FinishCost(scan)
    ensures Restored(o, RunAll(w1, log))
    ensures var r := Finish(RunAll(w1, log), o.m.id, scan, fuel);
            r.Live? && (!PriorLocated(r.w.tree, o.m) || !OriginalPrevious(r.w.tree, o.m))
  {
    var next := BackRun(w1, o, at, Prepared, 0);
    RunVacant(w1, next.log, o.m.id);
    FinishLoses(w1, o, next, scan, fuel);
    log := next.log;
  }

  lemma FinishLoses(w1: World, o: Origin, at: Stop, scan: Scan, fuel: nat)
    requires OriginOk(o) && Reached(w1, o, at, RollbackHealthy, 3) && at.s.candidate.AtSource? && Vacant(at.w, o.m.id)
    requires !CandidateDistinct(o.m)
    requires AllChildren(scan.children) && Retired(o.m.id) in scan.dirs && fuel >= FinishCost(scan)
    ensures var r := Finish(at.w, o.m.id, scan, fuel);
            r.Live? && (!PriorLocated(r.w.tree, o.m) || !OriginalPrevious(r.w.tree, o.m))
  {
    SettledIsFinishing(at.w, o, at.s);
    FinishKeepsReleases(at.w, ManifestOf(at.w), scan, fuel);
  }
}

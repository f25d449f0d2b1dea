/**
 Phase discipline of whole journal runs: how often the phase can change, which direction a run
 takes, and which bindings are written once.
 */
module ActivationPhases {
  import opened Wrappers
  import opened ActivationDisk
  import opened ActivationJournal
  import opened ActivationTree
  import opened ActivationCommands
  import opened ActivationRollback
  import opened ActivationPublication

  // ---------------------------------------------------------------- what a command may write

  function JournalOf(w: World): Option<Manifest> {
    if Active in w.txns then w.txns[Active].manifest else None
  }

  // Nothing but the live transaction's directory was touched.
  predicate Confined(w: World, w': World) {
    w'.txns - {Active} == w.txns - {Active}
  }

  // A manifest write is either a `record` or the write-ahead of a configuration.
  ghost predicate Written(m: Manifest, m': Manifest) {
    || m' == m
    || (exists a: RecordArgs :: Amend(m, a) == Some(m'))
    || (exists k: Kind, d: Desired :: m' == Intend(m, k, d))
  }

  lemma ActivateWritesNothing(w: World, id: string, fuel: nat)
    ensures ActivateFiles(w, id, fuel).w.txns == w.txns
  {
    var journal := Open(w, id, false);
    if journal.Opened? {
      var m := journal.m;
      var r1 := MovePrior(w, m, fuel);
      assert r1.w.txns == w.txns;
      if r1.Live? {
        var r2 := MoveCandidate(r1.w, m, r1.fuel);
        assert r2.w.txns == w.txns;
        if r2.Live? {
          assert TakeLinks(r2.w, m, r2.fuel).w.txns == w.txns;
        }
      }
    }
  }

  lemma RestoreTreeWritesNothing(w: World, m: Manifest, fuel: nat)
    requires Active in w.txns
    ensures JournalOf(RestoreTree(w, m, fuel).w) == JournalOf(w) && Confined(w, RestoreTree(w, m, fuel).w)
    ensures Active in RestoreTree(w, m, fuel).w.txns
  {
    ReturnPriorWritesNothing(w, m, fuel);
    var r1 := ReturnPrior(w, m, fuel);
    if r1.Live? {
      RestoreLinksWriteNothing(r1.w, m, r1.fuel);
      var r2 := RestoreCurrent(r1.w, m, r1.fuel);
      if r2.Live? {
        RestoreLinksWriteNothing(r2.w, m, r2.fuel);
      }
    }
  }

  lemma ReturnPriorWritesNothing(w: World, m: Manifest, fuel: nat)
    requires Active in w.txns
    ensures JournalOf(ReturnPrior(w, m, fuel).w) == JournalOf(w) && Confined(w, ReturnPrior(w, m, fuel).w)
    ensures Active in ReturnPrior(w, m, fuel).w.txns
  {
  }

  lemma RestoreLinksWriteNothing(w: World, m: Manifest, fuel: nat)
    ensures RestoreCurrent(w, m, fuel).w.txns == w.txns
    ensures RestorePrevious(w, m, fuel).w.txns == w.txns
  {
  }

  lemma CleanupWritesNothing(w: World, m: Manifest, fuel: nat)
    ensures CleanupStaging(w, m, fuel).w.txns == w.txns
  {
    assert CleanupKind(w, m, Env, fuel).w.txns == w.txns;
    var r := CleanupKind(w, m, Env, fuel);
    if r.Live? {
      assert CleanupKind(r.w, m, Service, r.fuel).w.txns == w.txns;
    }
  }

  lemma ConfigsWriteNothing(w: World, m: Manifest, fuel: nat)
    ensures RestoreConfigs(w, m, fuel).w.txns == w.txns
  {
  }

  lemma RestoreWritesNothing(w: World, id: string, fuel: nat)
    ensures JournalOf(RestoreFiles(w, id, fuel).w) == JournalOf(w) && Confined(w, RestoreFiles(w, id, fuel).w)
  {
    var journal := Open(w, id, true);
    if journal.Opened? && journal.m.phase.RollingBack? && Active in w.txns {
      var m := journal.m;
      RestoreTreeWritesNothing(w, m, fuel);
      var r1 := RestoreTree(w, m, fuel);
      if r1.Live? {
        CleanupWritesNothing(r1.w, m, r1.fuel);
        var r2 := CleanupStaging(r1.w, m, r1.fuel);
        if r2.Live? {
          ConfigsWriteNothing(r2.w, m, r2.fuel);
          assert RestoreFiles(w, id, fuel) == RestoreConfigs(r2.w, m, r2.fuel);
        } else {
          assert RestoreFiles(w, id, fuel) == r2;
        }
      } else {
        assert RestoreFiles(w, id, fuel) == r1;
      }
    }
  }

  ghost predicate Writes(w: World, w': World) {
    JournalOf(w).Some? ==> JournalOf(w').Some? && Written(JournalOf(w).value, JournalOf(w').value) && Confined(w, w')
  }

  lemma PublishWritesNothing(w: World, k: Kind, d: Desired, fuel: nat)
    ensures Publish(w, k, d, fuel).w.txns == w.txns
  {
  }

  lemma StageWrites(w: World, m: Manifest, k: Kind, d: Desired, fuel: nat)
    requires JournalOf(w) == Some(m)
    ensures Writes(w, Stage(w, m, k, d, fuel).w)
  {
  }

  // Starting a replacement writes its intent and nothing else.
  lemma StartWrites(w: World, m: Manifest, k: Kind, d: Desired, fuel: nat)
    requires JournalOf(w) == Some(m)
    ensures var r := Stage(w, m, k, d, fuel);
            Writes(w, (if r.Live? then Publish(r.w, k, d, r.fuel) else r).w)
  {
    StageWrites(w, m, k, d, fuel);
    var r := Stage(w, m, k, d, fuel);
    if r.Live? { PublishWritesNothing(r.w, k, d, r.fuel); }
  }

  // What replacing comes to: nothing, publishing what is staged, or starting from a draft.
  lemma ReplaceCases(w: World, id: string, k: Kind, mode: Mode, fuel: nat)
    ensures var journal, s, r := Open(w, id, false), w.files.At(k), ReplaceConfig(w, id, k, mode, fuel);
            || r.w == w
            || (journal.Opened? && journal.m.desired.At(k).Some? && r == Publish(w, k, journal.m.desired.At(k).value, fuel))
            || (journal.Opened? && s.draft.Some?
                && var d := Desired(s.draft.value.inode, s.draft.value.bytes, mode);
                   var r1 := Stage(w, journal.m, k, d, fuel);
                   r == if r1.Live? then Publish(r1.w, k, d, r1.fuel) else r1)
  {
  }

  lemma OpenedJournal(w: World, id: string)
    ensures Open(w, id, false).Opened? ==> JournalOf(w) == Some(Open(w, id, false).m)
  {
  }

  lemma ReplaceWrites(w: World, id: string, k: Kind, mode: Mode, fuel: nat)
    ensures Writes(w, ReplaceConfig(w, id, k, mode, fuel).w)
  {
    ReplaceCases(w, id, k, mode, fuel);
    OpenedJournal(w, id);
    var journal := Open(w, id, false);
    if journal.Opened? {
      var m, s := journal.m, w.files.At(k);
      if m.desired.At(k).Some? {
        PublishWritesNothing(w, k, m.desired.At(k).value, fuel);
      }
      if s.draft.Some? {
        StartWrites(w, m, k, Desired(s.draft.value.inode, s.draft.value.bytes, mode), fuel);
      }
    }
  }

  lemma RecordWritesOne(w: World, id: string, a: RecordArgs, fuel: nat)
    ensures Writes(w, Record(w, id, a, fuel).w)
  {
  }

  lemma ExecWrites(w: World, i: Issue)
    requires JournalOf(w).Some?
    ensures JournalOf(Exec(w, i)).Some? && Written(JournalOf(w).value, JournalOf(Exec(w, i)).value)
    ensures Confined(w, Exec(w, i))
  {
    match i.command
    case DoRecord(a) => RecordWritesOne(w, i.id, a, i.fuel);
    case DoReplace(k, mode) => ReplaceWrites(w, i.id, k, mode, i.fuel);
    case DoActivate => ActivateWritesNothing(w, i.id, i.fuel);
    case DoRestore => RestoreWritesNothing(w, i.id, i.fuel);
    case DoDraft(k, bytes) =>
  }

  lemma {:induction false} RunConfined(w: World, log: seq<Issue>)
    requires JournalOf(w).Some?
    ensures Confined(w, RunAll(w, log))
    decreases |log|
  {
    if log == [] {
    } else {
      ExecWrites(w, log[0]);
      RunConfined(Exec(w, log[0]), log[1..]);
    }
  }

  // ---------------------------------------------------------------- one write

  // The longest way a run can still go.
  function Rank(p: Phase): nat {
    match p
    case Prepared => 14 case Guarded => 13 case Linking => 12 case Linked => 11
    case Stopping => 10 case Stopped => 9 case Fencing => 8 case Fenced => 7
    case Authorizing => 6 case Authority => 5 case CandidateStarting => 4 case CandidateHealthy => 3
    case RollingBack => 2 case RolledBack => 1 case RollbackHealthy => 0
    case Committing => 1 case Committed => 0
  }

  predicate OriginNoted(m: Manifest) {
    && m.rollbackFrom.Some? == RollbackPhase(m.phase)
    && (m.rollbackFrom.Some? ==> PreCommit(m.rollbackFrom.value))
  }

  // What one write keeps.
  predicate Disciplined(m: Manifest, m': Manifest) {
    && (m'.phase == m.phase || Rank(m'.phase) < Rank(m.phase))
    && (CommitPhase(m.phase) ==> CommitPhase(m'.phase))
    && (RollbackPhase(m.phase) ==> RollbackPhase(m'.phase))
    && (m.rollbackFrom.Some? ==> m'.rollbackFrom == m.rollbackFrom)
    && (m.hub.Some? ==> m'.hub.Some? && m'.hub.value.binding == m.hub.value.binding)
    && (m.hub.Some? && m'.hub != m.hub ==> m.phase.Fencing? && !m'.phase.Fencing?)
    && (m.guard.Some? ==> m'.guard == m.guard)
  }

  lemma RankFalls(p: Phase, q: Phase)
    requires Follows(p, q)
    ensures Rank(q) < Rank(p)
    ensures CommitPhase(p) ==> CommitPhase(q)
    ensures RollbackPhase(p) ==> RollbackPhase(q)
    ensures q.RollingBack? ==> PreCommit(p)
  {
  }

  lemma NewPhaseDisciplined(m: Manifest, p: Phase)
    requires OriginNoted(m) && NewPhase(m, p).Some?
    ensures OriginNoted(NewPhase(m, p).value) && Disciplined(m, NewPhase(m, p).value)
    ensures NewPhase(m, p).value.phase == p && NewPhase(m, p).value.hub == m.hub && NewPhase(m, p).value.guard == m.guard
  {
    if p != m.phase { RankFalls(m.phase, p); }
  }

  // Binding the Hub touches nothing else, and rewrites the fence coordinates only on leaving fencing.
  lemma BindHubDisciplined(m: Manifest, from: Phase, a: RecordArgs)
    requires BindHub(m, from, a).Some?
    ensures var m' := BindHub(m, from, a).value;
            && m'.phase == m.phase && m'.rollbackFrom == m.rollbackFrom && m'.guard == m.guard
            && (m.hub.Some? ==> m'.hub.Some? && m'.hub.value.binding == m.hub.value.binding)
            && (m.hub.Some? && m'.hub != m.hub ==> from.Fencing? && !a.phase.Fencing?)
  {
  }

  lemma BindGuardDisciplined(m: Manifest, a: RecordArgs)
    requires BindGuard(m, a).Some?
    ensures var m' := BindGuard(m, a).value;
            && m'.phase == m.phase && m'.rollbackFrom == m.rollbackFrom && m'.hub == m.hub
            && (m.guard.Some? ==> m'.guard == m.guard)
  {
  }

  lemma AmendDisciplined(m: Manifest, a: RecordArgs)
    requires OriginNoted(m) && Amend(m, a).Some?
    ensures OriginNoted(Amend(m, a).value) && Disciplined(m, Amend(m, a).value)
  {
    NewPhaseDisciplined(m, a.phase);
    var m1 := NewPhase(m, a.phase).value;
    BindHubDisciplined(m1, m.phase, a);
    BindGuardDisciplined(BindHub(m1, m.phase, a).value, a);
  }

  lemma WriteDisciplined(m: Manifest, m': Manifest)
    requires OriginNoted(m) && Written(m, m')
    ensures OriginNoted(m') && Disciplined(m, m')
  {
    if m' != m && exists a: RecordArgs :: Amend(m, a) == Some(m') {
      var a: RecordArgs :| Amend(m, a) == Some(m');
      AmendDisciplined(m, a);
    }
  }

  // ---------------------------------------------------------------- whole runs

  function PhaseChanges(w: World, log: seq<Issue>): nat
    requires JournalOf(w).Some?
    decreases |log|
  {
    if log == [] then 0
    else
      ExecWrites(w, log[0]);
      var w1 := Exec(w, log[0]);
      (if JournalOf(w1).value.phase != JournalOf(w).value.phase then 1 else 0) + PhaseChanges(w1, log[1..])
  }

  // Rewrites of a Hub binding that was already there.
  function FenceRewrites(w: World, log: seq<Issue>): nat
    requires JournalOf(w).Some?
    decreases |log|
  {
    if log == [] then 0
    else
      ExecWrites(w, log[0]);
      var w1 := Exec(w, log[0]);
      var m, m1 := JournalOf(w).value, JournalOf(w1).value;
      (if m.hub.Some? && m1.hub != m.hub then 1 else 0) + FenceRewrites(w1, log[1..])
  }

  // What no run undoes.
  predicate Lasting(m: Manifest, m': Manifest) {
    && (CommitPhase(m.phase) ==> CommitPhase(m'.phase))
    && (RollbackPhase(m.phase) ==> RollbackPhase(m'.phase))
    && (m.rollbackFrom.Some? ==> m'.rollbackFrom == m.rollbackFrom)
    && (m.hub.Some? ==> m'.hub.Some? && m'.hub.value.binding == m.hub.value.binding)
    && (m.guard.Some? ==> m'.guard == m.guard)
  }

  lemma {:induction false} RunLasts(w: World, log: seq<Issue>)
    requires JournalOf(w).Some? && OriginNoted(JournalOf(w).value)
    ensures var j := JournalOf(RunAll(w, log)); j.Some? && OriginNoted(j.value) && Lasting(JournalOf(w).value, j.value)
    decreases |log|
  {
    if log == [] {
    } else {
      ExecWrites(w, log[0]);
      var w1 := Exec(w, log[0]);
      WriteDisciplined(JournalOf(w).value, JournalOf(w1).value);
      RunLasts(w1, log[1..]);
    }
  }

  lemma {:induction false} PhaseCount(w: World, log: seq<Issue>)
    requires JournalOf(w).Some? && OriginNoted(JournalOf(w).value)
    ensures var j := JournalOf(RunAll(w, log)); j.Some? && PhaseChanges(w, log) + Rank(j.value.phase) <= Rank(JournalOf(w).value.phase)
    decreases |log|
  {
    if log == [] {
    } else {
      ExecWrites(w, log[0]);
      var w1 := Exec(w, log[0]);
      WriteDisciplined(JournalOf(w).value, JournalOf(w1).value);
      PhaseCount(w1, log[1..]);
    }
  }

  lemma {:induction false} FenceCount(w: World, log: seq<Issue>)
    requires JournalOf(w).Some? && OriginNoted(JournalOf(w).value)
    ensures FenceRewrites(w, log) <= (if Rank(JournalOf(w).value.phase) >= Rank(Fencing) then 1 else 0)
    decreases |log|
  {
    if log == [] {
    } else {
      ExecWrites(w, log[0]);
      var w1 := Exec(w, log[0]);
      WriteDisciplined(JournalOf(w).value, JournalOf(w1).value);
      FenceCount(w1, log[1..]);
    }
  }

  /** Every journal run makes at most fourteen phase changes; a run that entered the commit never
      rolls back and one that entered the rollback never commits; the rollback origin is set
      exactly in the rollback phases, names a phase before the commit and never changes; the
      Hub binding and the guard are written once, and the fence coordinates are rewritten at
      most once, by the write that leaves fencing. */
  lemma PhaseDiscipline(w: World, log: seq<Issue>)
    requires JournalOf(w).Some? && OriginNoted(JournalOf(w).value)
    ensures JournalOf(RunAll(w, log)).Some?
    ensures var m, m' := JournalOf(w).value, JournalOf(RunAll(w, log)).value;
            && OriginNoted(m') && Lasting(m, m')
            && PhaseChanges(w, log) + Rank(m'.phase) <= Rank(m.phase) <= 14
            && FenceRewrites(w, log) <= (if Rank(m.phase) >= Rank(Fencing) then 1 else 0)
  {
    RunLasts(w, log);
    PhaseCount(w, log);
    FenceCount(w, log);
  }
}

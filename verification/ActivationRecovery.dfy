/**
 The installer object driven through power cuts: whole runs of commands, rollback, configuration
 replacement and finish, each repeated until one attempt has power enough.
 */
module ActivationRecovery {
  import opened Wrappers
  import opened ActivationDisk
  import opened ActivationJournal
  import opened ActivationTree
  import opened ActivationFiles
  import opened ActivationSteps
  import opened ActivationCommands
  import opened ActivationRollback
  import opened ActivationPublication
  import opened ActivationFinish
  import opened ActivationInstaller

  // ---------------------------------------------------------------- runs of commands

  // One command with the power it gets.
  method Issued(x: Installer, i: Issue)
    modifies x
    ensures x.View() == Exec(old(x.View()), i)
  {
    var s;
    x.fuel := i.fuel;
    match i.command
    case DoRecord(a) => s := x.RecordPhase(i.id, a);
    case DoReplace(k, mode) => s := x.ReplaceConfiguration(i.id, k, mode);
    case DoActivate => s := x.Activate(i.id);
    case DoRestore => s := x.Restore(i.id);
    case DoDraft(k, bytes) =>
      if x.files.At(k).draft.None? {
        x.files := x.files.Put(k, x.files.At(k).(draft := Some(File(x.next, bytes, M600))));
        x.next := x.next + 1;
      }
  }

  /** Any careful commands, each cut anywhere: the disk stays a pending activation of its origin. */
  method IssueAll(x: Installer, log: seq<Issue>, ghost o: Origin, ghost s: Shape) returns (ghost s': Shape)
    requires OriginOk(o) && InvAt(x.View(), o, s) && CarefulRun(x.View(), log)
    modifies x
    ensures x.View() == RunAll(old(x.View()), log) && InvAt(x.View(), o, s')
  {
    s' := RunKeeps(x.View(), o, s, log);
    var n := 0;
    while n < |log|
      invariant 0 <= n <= |log|
      invariant RunAll(x.View(), log[n..]) == RunAll(old(x.View()), log)
    {
      assert log[n..][1..] == log[n + 1..] && log[n..][0] == log[n];
      Issued(x, log[n]);
      n := n + 1;
    }
    assert log[n..] == [];
  }

  // ---------------------------------------------------------------- rolling back

  // One attempt: record the rollback if it is not recorded yet, then restore.
  method RollBackOnce(x: Installer, id: string, power: nat, ghost o: Origin, ghost s: Shape) returns (status: Status, ghost s': Shape)
    requires OriginOk(o) && id == o.m.id && InvAt(x.View(), o, s)
    requires PreCommit(ManifestOf(x.View()).phase) || ManifestOf(x.View()).phase.RollingBack?
    modifies x
    ensures InvAt(x.View(), o, s')
    ensures PreCommit(ManifestOf(x.View()).phase) || ManifestOf(x.View()).phase.RollingBack?
    ensures status.Done? ==> Restored(o, x.View())
    ensures status.Ended? ==> status.why == PowerLoss
    ensures power >= 11 ==> status.Done?
  {
    x.fuel := power;
    s' := s;
    status := Done;
    if !ManifestOf(x.View()).phase.RollingBack? {
      RollbackTaken(x.View(), o, s, x.fuel);
      status := x.RecordPhase(id, TO_ROLLBACK);
      if status.Ended? {
        return;
      }
    }
    s' := RestoreStep(x.View(), o, s, x.fuel);
    status := x.Restore(id);
  }

  // Recording the rollback needs one step and can only be stopped by power loss.
  lemma RollbackTaken(w: World, o: Origin, s: Shape, fuel: nat)
    requires OriginOk(o) && InvAt(w, o, s) && PreCommit(ManifestOf(w).phase)
    ensures var r := Record(w, o.m.id, TO_ROLLBACK, fuel);
            && InvAt(r.w, o, s)
            && (r.Halted? ==> r.why == PowerLoss && r.w == w)
            && (r.Live? ==> ManifestOf(r.w).phase.RollingBack? && r.fuel == fuel - 1)
            && (fuel >= 1 ==> r.Live?)
  {
    RollbackAmends(ManifestOf(w));
    RollbackAccepted(w, o, s, TO_ROLLBACK, fuel + 1);
    RecordStep(w, o, s, TO_ROLLBACK, fuel);
  }

  /** Rollback on the object: however often and wherever the attempts are cut, only power loss stops
      them; the first attempt with eleven steps of power restores exactly what `begin` captured. */
  method RollBack(x: Installer, id: string, power: seq<nat>, ghost o: Origin, ghost s: Shape) returns (status: Status, ghost s': Shape)
    requires OriginOk(o) && id == o.m.id && InvAt(x.View(), o, s)
    requires PreCommit(ManifestOf(x.View()).phase) || ManifestOf(x.View()).phase.RollingBack?
    modifies x
    ensures InvAt(x.View(), o, s')
    ensures status.Done? ==> Restored(o, x.View())
    ensures status.Ended? ==> status.why == PowerLoss
    ensures (exists n :: 0 <= n < |power| && power[n] >= 11) ==> status.Done?
    decreases |power|
  {
    if power == [] {
      status, s' := Ended(PowerLoss), s;
    } else {
      status, s' := RollBackOnce(x, id, power[0], o, s);
      if status.Ended? {
        status, s' := RollBack(x, id, power[1..], o, s');
      }
    }
  }

  /** The whole way on the object: `begin` on a recoverable layout, any careful commands cut anywhere
      that stop before the commit, and rollback attempts of which one has power enough, end with the
      disk as `begin` found it. */
  method BeginAndRollBack(x: Installer, a: BeginArgs, scan: Scan, log: seq<Issue>, power: seq<nat>) returns (began: Status, status: Status)
    requires Untouched(x.View())
    requires var m := Capture(x.tree, x.files, a); m.Some? ==> Recoverable(x.tree, m.value)
    requires var r := Begin(x.View(), a, scan, x.fuel);
             r.Live? ==> CarefulRun(r.w, log) && Pending(RunAll(r.w, log))
    requires exists n :: 0 <= n < |power| && power[n] >= 11
    modifies x
    ensures began.Done? ==>
              var w := old(Begin(x.View(), a, scan, x.fuel)).w;
              && Active in w.txns && w.txns[Active].manifest.Some?
              && status.Done? && Restored(Begun(old(x.View()), w), x.View())
  {
    ghost var w0 := x.View();
    ghost var power0 := x.fuel;
    began := x.BeginTransaction(a, scan);
    status := began;
    if began.Done? {
      BeginCaptures(w0, a, scan, power0);
      BeginEstablishes(w0, a, scan, power0);
      ghost var o := Begun(w0, x.View());
      ghost var s := IssueAll(x, log, o, START);
      status, s := RollBack(x, a.id, power, o, s);
    }
  }

  // The journal has neither committed nor finished rolling back.
  predicate Pending(w: World) {
    Active in w.txns && w.txns[Active].manifest.Some? ==>
      PreCommit(w.txns[Active].manifest.value.phase) || w.txns[Active].manifest.value.phase.RollingBack?
  }

  // ---------------------------------------------------------------- replacing a configuration

  method ReplaceOnce(x: Installer, id: string, k: Kind, mode: Mode, power: nat, ghost o: Origin, ghost s: Shape, ghost d: Desired)
    returns (status: Status)
    requires Publishing(x.View(), o, s, k, d) && id == o.m.id && mode == d.mode
    modifies x
    ensures Publishing(x.View(), o, s, k, d)
    ensures status.Done? ==> Completed(x.files, k, d)
    ensures power >= 5 ==> status.Done?
  {
    x.fuel := power;
    ghost var r := ReplaceConfig(x.View(), id, k, mode, x.fuel);
    CutKeepsGoal(x.View(), o, s, k, d, x.fuel);
    status := x.ReplaceConfiguration(id, k, mode);
    assert x.View() == r.w;
  }

  /** Replacement on the object: however often the attempts are cut, the first one with five steps of
      power publishes the very file the first attempt meant to. */
  method ReplaceUntilDone(x: Installer, id: string, k: Kind, mode: Mode, power: seq<nat>,
                          ghost o: Origin, ghost s: Shape, ghost d: Desired)
    returns (status: Status)
    requires Publishing(x.View(), o, s, k, d) && id == o.m.id && mode == d.mode
    modifies x
    ensures Publishing(x.View(), o, s, k, d)
    ensures status.Done? ==> Completed(x.files, k, d)
    ensures (exists n :: 0 <= n < |power| && power[n] >= 5) ==> status.Done?
    decreases |power|
  {
    if power == [] {
      status := Ended(PowerLoss);
    } else {
      status := ReplaceOnce(x, id, k, mode, power[0], o, s, d);
      if status.Ended? {
        status := ReplaceUntilDone(x, id, k, mode, power[1..], o, s, d);
      }
    }
  }

  // ---------------------------------------------------------------- finishing

  method FinishOnce(x: Installer, id: string, scan: Scan, power: nat, ghost m: Manifest) returns (status: Status)
    requires FinishReady(x.View(), m) && id == m.id && AllChildren(scan.children) && Retired(id) in scan.dirs
    modifies x
    ensures FinishReady(x.View(), m) && Untouching(old(x.View()), x.View(), m)
    ensures status.Done? ==> GoneTxn(x.View(), m)
    ensures status.Ended? ==> status.why == PowerLoss
    ensures power >= FinishCost(scan) ==> status.Done?
  {
    x.fuel := power;
    ghost var r := Finish(x.View(), id, scan, x.fuel);
    FinishStep(x.View(), m, scan, x.fuel);
    status := x.FinishTransaction(id, scan);
    assert x.View() == r.w;
  }

  /** Finish on the object: only power loss stops it, the first attempt with power enough leaves
      neither directory, and links and configurations stay as they were. */
  method FinishUntilDone(x: Installer, id: string, scan: Scan, power: seq<nat>, ghost m: Manifest) returns (status: Status)
    requires FinishReady(x.View(), m) && id == m.id && AllChildren(scan.children) && Retired(id) in scan.dirs
    modifies x
    ensures FinishReady(x.View(), m) && Untouching(old(x.View()), x.View(), m)
    ensures status.Done? ==> GoneTxn(x.View(), m)
    ensures status.Ended? ==> status.why == PowerLoss
    ensures (exists n :: 0 <= n < |power| && power[n] >= FinishCost(scan)) ==> status.Done?
    decreases |power|
  {
    if power == [] {
      status := Ended(PowerLoss);
    } else {
      status := FinishOnce(x, id, scan, power[0], m);
      if status.Ended? {
        ghost var w := x.View();
        status := FinishUntilDone(x, id, scan, power[1..], m);
        UntouchingTrans(old(x.View()), w, x.View(), m);
      }
    }
  }
}

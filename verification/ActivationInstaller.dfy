/**
 The installer's commands as it executes them: each method changes the disk one step at a time
 and is proved to do exactly what the command's function says, wherever power is lost.
 */
module ActivationInstaller {
  import opened Wrappers
  import opened ActivationDisk
  import opened ActivationJournal

  datatype Status = Done | Ended(why: Halt) {
    predicate IsFailure() {
      Ended?
    }

    function PropagateFailure(): Status
      requires Ended?
    {
      this
    }
  }

  class Installer {
    var tree: Tree
    var files: Files
    var txns: map<TxnName, Txn>
    var next: nat
    var fuel: nat  // steps left before power is lost

    function View(): World
      reads this
    {
      World(tree, files, txns, next)
    }

    // The disk and the status are those of the run.
    ghost predicate Did(run: Run, s: Status)
      reads this
    {
      match s
      case Done => run == Live(View(), fuel)
      case Ended(why) => run == Halted(View(), why)
    }

    constructor (w: World, power: nat)
      ensures View() == w && fuel == power
    {
      tree, files, txns, next, fuel := w.tree, w.files, w.txns, w.next, power;
    }

    // Spend one step of power.
    method Tick() returns (s: Status)
      modifies this`fuel
      ensures if old(fuel) == 0 then s == Ended(PowerLoss) && fuel == 0 else s == Done && fuel == old(fuel) - 1
    {
      if fuel == 0 {
        return Ended(PowerLoss);
      }
      fuel := fuel - 1;
      return Done;
    }

    // ------------------------------------------------------------ single steps

    method RenameEntry(a: Path, b: Path) returns (s: Status)
      modifies this`tree, this`fuel
      ensures Did(old(Rename(View(), a, b, fuel)), s)
      ensures s.Done? ==> Get(tree, b) == Get(old(tree), a) && Get(old(tree), b) == None && a !in tree
      ensures s.Done? ==> forall p :: p != a && p != b ==> Get(tree, p) == Get(old(tree), p)
      ensures s.Ended? ==> tree == old(tree)
      ensures s.Done? <==> a in old(tree) && b !in old(tree) && old(fuel) > 0
    {
      if a !in tree {
        return Ended(Refused(NoSuchFile));
      }
      if b in tree {
        return Ended(Refused(DirectoryNotEmpty));
      }
      :- Tick();
      tree := Move(tree, a, b);
      return Done;
    }

    method ReplaceSymlink(p: Path, text: Text) returns (s: Status)
      modifies this`tree, this`fuel
      ensures Did(old(Relink(View(), p, text, fuel)), s)
      ensures s.Done? ==> Get(tree, p) == Some(Link(text)) && forall q :: q != p ==> Get(tree, q) == Get(old(tree), q)
      ensures s.Ended? ==> tree == old(tree)
      ensures s.Done? <==> !(p in old(tree) && old(tree)[p].Dir?) && old(fuel) > 0
    {
      if p in tree && tree[p].Dir? {
        return Ended(Refused(IsADirectory));
      }
      :- Tick();
      tree := tree[p := Link(text)];
      return Done;
    }

    method UnlinkEntry(p: Path) returns (s: Status)
      modifies this`tree, this`fuel
      ensures Did(old(Unlink(View(), p, fuel)), s)
    {
      s := Done;
      :- Tick();
      tree := tree - {p};
      return Done;
    }

    method ReplaceManifest(m: Manifest) returns (s: Status)
      requires Active in txns
      modifies this`txns, this`fuel
      ensures Did(old(WriteManifest(View(), m, fuel)), s)
    {
      s := Done;
      :- Tick();
      txns := txns[Active := txns[Active].(manifest := Some(m))];
      return Done;
    }

    // ------------------------------------------------------------ record

    method RecordPhase(id: string, a: RecordArgs) returns (s: Status)
      modifies this`txns, this`fuel
      ensures Did(old(Record(View(), id, a, fuel)), s)
    {
      var allowMissing := RollbackPhase(a.phase);
      var journal := Open(View(), id, allowMissing);
      if journal.Closed? {
        return Ended(Refused(journal.why));
      }
      var amended := Amend(journal.m, a);
      if amended.None? {
        return Ended(Refused(InvalidRecord));
      }
      if Active !in txns || !Accepts(tree, files, amended.value, txns[Active].parked, allowMissing) {
        return Ended(Refused(PhaseMismatch));
      }
      s := ReplaceManifest(amended.value);
    }

    // ------------------------------------------------------------ replace-config

    method PublishStaged(k: Kind, d: Desired) returns (s: Status)
      modifies this`files, this`fuel
      ensures Did(old(Publish(View(), k, d, fuel)), s)
    {
      var publication := files.At(k).publication;
      if publication.None? {
        return Ended(Refused(NoPublication));
      }
      if !StagingSafe(files, publication.value) || publication.value != FileOf(d) {
        return Ended(Refused(PublicationChanged));
      }
      if files.At(k).draft.Some? && files.At(k).draft.value.inode == d.inode {
        :- Tick();
        files := files.Put(k, files.At(k).(draft := None));
      }
      :- Tick();
      files := files.Put(k, files.At(k).(config := publication, publication := None));
      if !ConfigMatches(files, k, d) {
        return Ended(Refused(PublicationChanged));
      }
      return Done;
    }

    method StageDraft(m: Manifest, k: Kind, d: Desired) returns (s: Status)
      requires Active in txns
      modifies this`files, this`txns, this`fuel
      ensures Did(old(Stage(View(), m, k, d, fuel)), s)
    {
      s := Done;
      :- ReplaceManifest(Intend(m, k, d));
      :- Tick();
      files := Chmod(files, d.inode, d.mode);
      :- Tick();
      files := files.Put(k, files.At(k).(publication := files.At(k).draft));
      return Done;
    }

    method ReplaceConfiguration(id: string, k: Kind, mode: Mode) returns (s: Status)
      modifies this`files, this`txns, this`fuel
      ensures Did(old(ReplaceConfig(View(), id, k, mode, fuel)), s)
    {
      var journal := Open(View(), id, false);
      if journal.Closed? {
        return Ended(Refused(journal.why));
      }
      var m := journal.m;
      var slot, d := files.At(k), m.desired.At(k);
      if !PreCommit(m.phase) {
        return Ended(Refused(WrongPhase));
      }
      if !DesiredMode(k, mode) {
        return Ended(Refused(InvalidMode));
      }
      if slot.draft.None? {
        if d.None? || d.value.mode != mode {
          return Ended(Refused(NoDraft));
        }
        if slot.publication.None? {
          if !ConfigMatches(files, k, d.value) {
            return Ended(Refused(PublicationIncomplete));
          }
          return Done;
        }
        s := PublishStaged(k, d.value);
        return;
      }
      if slot.publication.Some? {
        if d.None? || d.value.mode != mode {
          return Ended(Refused(PublicationPathTaken));
        }
        s := PublishStaged(k, d.value);
        return;
      }
      if LinkCount(files, slot.draft.value.inode) != 1 || SharedWritable(slot.draft.value.mode) || Active !in txns {
        return Ended(Refused(StagingUnsafe));
      }
      var desired := Desired(slot.draft.value.inode, slot.draft.value.bytes, mode);
      :- StageDraft(m, k, desired);
      s := PublishStaged(k, desired);
    }

    // ------------------------------------------------------------ activate-files

    method DisplacePrior(m: Manifest) returns (s: Status)
      modifies this`tree, this`fuel
      ensures Did(old(MovePrior(View(), m, fuel)), s)
    {
      if !Moves(m) {
        return Done;
      }
      var r := m.prior.value;
      if Matches(tree, r.source, r) {
        if r.target in tree {
          return Ended(Refused(QuarantineTaken));
        }
        s := RenameEntry(r.source, r.target);
      } else if Matches(tree, r.target, r) {
        return Done;
      } else {
        return Ended(Refused(NoPriorRelease));
      }
    }

    method InstallCandidate(m: Manifest) returns (s: Status)
      modifies this`tree, this`fuel
      ensures Did(old(MoveCandidate(View(), m, fuel)), s)
    {
      var c := m.candidate;
      if !Matches(tree, c.target, c) {
        if !Matches(tree, c.source, c) {
          return Ended(Refused(NoCandidate));
        }
        if c.target in tree {
          return Ended(Refused(CandidateDestinationTaken));
        }
        :- RenameEntry(c.source, c.target);
      }
      return Done;
    }

    method Activate(id: string) returns (s: Status)
      modifies this`tree, this`fuel
      ensures Did(old(ActivateFiles(View(), id, fuel)), s)
    {
      var journal := Open(View(), id, false);
      if journal.Closed? {
        return Ended(Refused(journal.why));
      }
      var m := journal.m;
      if !m.phase.Linking? {
        return Ended(Refused(WrongPhase));
      }
      :- DisplacePrior(m);
      :- InstallCandidate(m);
      if m.prior.Some? {
        :- ReplaceSymlink(Previous, Spelled(m.prior.value.target));
      }
      :- ReplaceSymlink(Current, Spelled(m.releaseDir));
      if !Matches(tree, m.candidate.target, m.candidate) {
        return Ended(Refused(CandidateChanged));
      }
      return Done;
    }

    // ------------------------------------------------------------ restore-files

    method ClearPrior(m: Manifest) returns (s: Status)
      requires Moves(m) && Active in txns
      modifies this`tree, this`txns, this`fuel
      ensures Did(old(ClearPriorPath(View(), m, fuel)), s)
    {
      var source, c := m.prior.value.source, m.candidate;
      if source !in tree {
        return Done;
      }
      if tree[source].Link? && source.Current? {
        s := UnlinkEntry(source);
        return;
      }
      if !Matches(tree, source, c) {
        return Ended(Refused(CandidateChanged));
      }
      if txns[Active].parked != Some(Dir(c.inode, c.version)) {
        if txns[Active].parked.Some? {
          return Ended(Refused(RetirementPathTaken));
        }
        :- Tick();
        txns := txns[Active := txns[Active].(parked := Some(tree[source]))];
        tree := tree - {source};
      }
      return Done;
    }

    method BringPriorBack(m: Manifest) returns (s: Status)
      requires Active in txns
      modifies this`tree, this`txns, this`fuel
      ensures Did(old(ReturnPrior(View(), m, fuel)), s)
    {
      if Moves(m) && !Matches(tree, m.prior.value.source, m.prior.value) {
        if !Matches(tree, m.prior.value.target, m.prior.value) {
          return Ended(Refused(NoPriorRelease));
        }
        :- ClearPrior(m);
        :- RenameEntry(m.prior.value.target, m.prior.value.source);
      }
      return Done;
    }

    method RestoreCurrentLink(m: Manifest) returns (s: Status)
      modifies this`tree, this`fuel
      ensures Did(old(RestoreCurrent(View(), m, fuel)), s)
    {
      match m.current {
        case Symlink(text) =>
          s := ReplaceSymlink(Current, text);
        case Missing =>
          if Current in tree {
            if !tree[Current].Link? {
              return Ended(Refused(LinkChanged));
            }
            :- UnlinkEntry(Current);
          }
          return Done;
        case Directory =>
          if Current in tree && tree[Current].Dir? {
            return Done;
          }
          if Current in tree && tree[Current].Plain? {
            return Ended(Refused(LinkChanged));
          }
          if m.prior.None? {
            return Ended(Refused(NoPriorRelease));
          }
          if Current in tree {
            :- UnlinkEntry(Current);
          }
          s := RenameEntry(m.prior.value.target, Current);
      }
    }

    method RestorePreviousLink(m: Manifest) returns (s: Status)
      modifies this`tree, this`fuel
      ensures Did(old(RestorePrevious(View(), m, fuel)), s)
    {
      if m.previous.Symlink? {
        s := ReplaceSymlink(Previous, m.previous.text);
        return;
      }
      if Previous in tree {
        if !tree[Previous].Link? {
          return Ended(Refused(LinkChanged));
        }
        :- UnlinkEntry(Previous);
      }
      return Done;
    }

    method DiscardStaging(m: Manifest, k: Kind) returns (s: Status)
      modifies this`files, this`fuel
      ensures Did(old(CleanupKind(View(), m, k, fuel)), s)
    {
      var slot, d := files.At(k), m.desired.At(k);
      if slot.publication.Some? && !StagingSafe(files, slot.publication.value) {
        return Ended(Refused(StagingUnsafe));
      }
      if slot.draft.Some? {
        if !StagingSafe(files, slot.draft.value) {
          return Ended(Refused(StagingUnsafe));
        }
        if !DraftDiscardable(files, k, d) {
          return Ended(Refused(DraftChanged));
        }
        :- Tick();
        files := files.Put(k, slot.(draft := None));
      }
      if slot.publication.Some? {
        if d.None? || slot.publication.value != FileOf(d.value) {
          return Ended(Refused(PublicationChanged));
        }
        :- Tick();
        files := files.Put(k, files.At(k).(publication := None));
      }
      return Done;
    }

    method RestoreConfiguration(m: Manifest, k: Kind) returns (s: Status)
      requires Active in txns
      modifies this`files, this`next, this`fuel
      ensures Did(old(RestoreConfig(View(), m, k, fuel)), s)
    {
      var slot := files.At(k);
      if m.original.At(k).None? {
        if slot.config.Some? {
          :- Tick();
          files := files.Put(k, slot.(config := None));
        }
        return Done;
      }
      if k !in txns[Active].backups {
        return Ended(Refused(NoBackup));
      }
      :- Tick();
      files := files.Put(k, slot.(config := Some(File(next, txns[Active].backups[k], m.original.At(k).value.mode))));
      next := next + 1;
      return Done;
    }

    method RestoreLinks(m: Manifest) returns (s: Status)
      requires Active in txns
      modifies this`tree, this`txns, this`fuel
      ensures Did(old(RestoreTree(View(), m, fuel)), s)
    {
      s := Done;
      :- BringPriorBack(m);
      :- RestoreCurrentLink(m);
      s := RestorePreviousLink(m);
    }

    method RestoreBothConfigurations(m: Manifest) returns (s: Status)
      modifies this`files, this`next, this`fuel
      ensures Did(old(RestoreConfigs(View(), m, fuel)), s)
    {
      if Active !in txns {
        return Ended(Refused(NoTransaction));
      }
      :- RestoreConfiguration(m, Env);
      s := RestoreConfiguration(m, Service);
    }

    method Restore(id: string) returns (s: Status)
      modifies this
      ensures Did(old(RestoreFiles(View(), id, fuel)), s)
    {
      var journal := Open(View(), id, true);
      if journal.Closed? {
        return Ended(Refused(journal.why));
      }
      var m := journal.m;
      if !m.phase.RollingBack? || Active !in txns {
        return Ended(Refused(WrongPhase));
      }
      :- RestoreLinks(m);
      :- DiscardStaging(m, Env);
      :- DiscardStaging(m, Service);
      s := RestoreBothConfigurations(m);
    }

    // ------------------------------------------------------------ finish

    method RemoveTransactionChildren(name: TxnName, cs: seq<Child>) returns (s: Status)
      requires name in txns
      modifies this`txns, this`fuel
      ensures Did(old(RemoveChildren(View(), name, cs, fuel)), s)
      ensures name in txns
    {
      var i := 0;
      while i < |cs|
        invariant 0 <= i <= |cs| && name in txns
        invariant tree == old(tree) && files == old(files) && next == old(next)
        invariant RemoveChildren(View(), name, cs[i..], fuel) == old(RemoveChildren(View(), name, cs, fuel))
      {
        assert cs[i..][1..] == cs[i + 1..];
        if Holds(txns[name], cs[i]) {
          if cs[i].Parked? && !txns[name].parked.value.Dir? {
            return Ended(Refused(UnsafeCandidate));
          }
          :- Tick();
          txns := txns[name := Without(txns[name], cs[i])];
        }
        i := i + 1;
      }
      return Done;
    }

    method RemoveTransactionDirectory(name: TxnName, cs: seq<Child>) returns (s: Status)
      modifies this`txns, this`fuel
      ensures Did(old(RemoveDirectory(View(), name, cs, fuel)), s)
    {
      if name !in txns {
        return Done;
      }
      :- RemoveTransactionChildren(name, cs);
      if txns[name] != Txn(None, map[], None) {
        return Ended(Refused(DirectoryNotEmpty));
      }
      :- Tick();
      txns := txns - {name};
      return Done;
    }

    method SweepRetired(scan: Scan) returns (s: Status)
      modifies this`txns, this`fuel
      ensures Did(old(Sweep(View(), scan, fuel)), s)
    {
      var i := 0;
      while i < |scan.dirs|
        invariant 0 <= i <= |scan.dirs|
        invariant tree == old(tree) && files == old(files) && next == old(next)
        invariant Sweep(View(), scan.(dirs := scan.dirs[i..]), fuel) == old(Sweep(View(), scan, fuel))
      {
        assert scan.dirs[i..][1..] == scan.dirs[i + 1..];
        if !scan.dirs[i].Active? {
          :- RemoveTransactionDirectory(scan.dirs[i], scan.children);
        }
        i := i + 1;
      }
      return Done;
    }

    method Park(m: Manifest, name: TxnName) returns (s: Status)
      requires name in txns
      modifies this`tree, this`txns, this`fuel
      ensures Did(old(ParkCandidate(View(), m, name, fuel)), s)
      ensures name in txns
    {
      var p := CandidatePath(tree, m);
      if p.Some? {
        if txns[name].parked.Some? {
          return Ended(Refused(RetirementPathTaken));
        }
        :- Tick();
        txns := txns[name := txns[name].(parked := Get(tree, p.value))];
        tree := tree - {p.value};
      }
      return Done;
    }

    method RetireDirectory(m: Manifest, id: string, name: TxnName, scan: Scan) returns (s: Status)
      modifies this`txns, this`fuel
      ensures Did(old(Retire(View(), m, id, name, scan, fuel)), s)
    {
      if name !in txns || !ExpectedContents(txns[name], m) {
        return Ended(Refused(UnexpectedContents));
      }
      if name != Retired(id) {
        if Retired(id) in txns {
          return Ended(Refused(RetirementPathTaken));
        }
        :- Tick();
        txns := (txns - {name})[Retired(id) := txns[name]];
      }
      s := SweepRetired(scan);
    }

    method FinishDirectory(m: Manifest, id: string, name: TxnName, scan: Scan) returns (s: Status)
      requires name in txns
      modifies this
      ensures Did(old(FinishFrom(View(), m, id, name, scan, fuel)), s)
    {
      if m.id != id {
        return Ended(Refused(ForeignTransaction));
      }
      if !Accepts(tree, files, m, txns[name].parked, m.phase.RollbackHealthy?) {
        return Ended(Refused(JournalMismatch));
      }
      if !Terminal(m.phase) {
        return Ended(Refused(WrongPhase));
      }
      if m.phase.RollbackHealthy? {
        :- Park(m, name);
      }
      :- DiscardStaging(m, Env);
      :- DiscardStaging(m, Service);
      s := RetireDirectory(m, id, name, scan);
    }

    method FinishTransaction(id: string, scan: Scan) returns (s: Status)
      modifies this
      ensures Did(old(Finish(View(), id, scan, fuel)), s)
    {
      if Active in txns {
        var loaded := Load(View(), Active);
        if !loaded.Loaded? {
          return Ended(Refused(Unsettled));
        }
        s := FinishDirectory(loaded.m, id, Active, scan);
        return;
      }
      if Retired(id) !in txns {
        return Done;
      }
      var loaded := Load(View(), Retired(id));
      match loaded {
        case Loaded(m) => s := FinishDirectory(m, id, Retired(id), scan);
        case NotFound => s := RemoveTransactionDirectory(Retired(id), scan.children);
        case Corrupt => return Ended(Refused(InvalidManifest));
      }
    }

    // ------------------------------------------------------------ begin

    method BeginTransaction(a: BeginArgs, scan: Scan) returns (s: Status)
      modifies this`txns, this`fuel
      ensures Did(old(Begin(View(), a, scan, fuel)), s)
    {
      s := Done;
      :- SweepRetired(scan);
      if Active in txns {
        return Ended(Refused(AlreadyPending));
      }
      var captured := Capture(tree, files, a);
      if captured.None? || Staging(a.token) in txns {
        return Ended(Refused(LayoutUnsupported));
      }
      var x := Txn(captured, Backups(files), None);
      if !Accepts(tree, files, captured.value, None, false) {
        return Ended(Refused(LayoutChanged));
      }
      :- Tick();
      txns := txns[Staging(a.token) := x];
      :- Tick();
      txns := (txns - {Staging(a.token)})[Active := x];
      return Done;
    }
  }
}

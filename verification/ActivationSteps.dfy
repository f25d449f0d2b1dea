/**
 The invariant of a pending activation and why every command keeps it, wherever it is cut.
 */
module ActivationSteps {
  import opened Wrappers
  import opened ActivationDisk
  import opened ActivationJournal
  import opened ActivationTree
  import opened ActivationFiles

  ghost predicate OriginOk(o: Origin) {
    ValidTree(o) && Recoverable(o.tree, o.m)
  }

  ghost predicate Journaled(x: Txn, o: Origin) {
    && x.manifest.Some?
    && var m := x.manifest.value;
       && SameTransaction(o.m, m)
       && BackedUp(x, m)
       && m.rollbackFrom.Some? == RollbackPhase(m.phase)
       && (m.rollbackFrom.Some? ==> PreCommit(m.rollbackFrom.value))
  }

  ghost predicate ShapeOk(o: Origin, phase: Phase, s: Shape) {
    if RollbackPhase(phase) then Backward(o, s) else Forward(o, s)
  }

  /** What every crash of every command leaves true: the journal belongs to the transaction,
      the tree has one of the shapes of the current direction, the files are staged soundly,
      and validation accepts the disk. */
  ghost predicate InvAt(w: World, o: Origin, s: Shape) {
    && Active in w.txns && Journaled(w.txns[Active], o)
    && var x := w.txns[Active];
       var m := x.manifest.value;
       && Fits(w.tree, x.parked, o, s)
       && ShapeOk(o, m.phase, s)
       && FilesOk(w.files, w.next, m)
       && Accepts(w.tree, w.files, m, x.parked, false)
  }

  function ManifestOf(w: World): Manifest
    requires Active in w.txns && w.txns[Active].manifest.Some?
  {
    w.txns[Active].manifest.value
  }

  lemma Opens(w: World, o: Origin, s: Shape, allowMissing: bool)
    requires InvAt(w, o, s)
    ensures Load(w, Active) == Loaded(ManifestOf(w))
    ensures Accepts(w.tree, w.files, ManifestOf(w), w.txns[Active].parked, allowMissing)
    ensures Open(w, o.m.id, allowMissing) == Opened(ManifestOf(w))
  {
    var x, m := w.txns[Active], ManifestOf(w);
    assert !BackupMissing(x, m, Env) && !BackupMissing(x, m, Service);
    assert !BackupChanged(x, m, Env) && !BackupChanged(x, m, Service);
  }

  // ---------------------------------------------------------------- re-establishing the invariant

  // Only the tree and the parking place differ.
  predicate TreeStep(w: World, w': World) {
    && Active in w.txns && Active in w'.txns
    && w'.files == w.files && w'.next == w.next
    && w'.txns[Active] == w.txns[Active].(parked := w'.txns[Active].parked)
  }

  lemma TreeAccepted(t: Tree, parked: Option<Node>, o: Origin, s: Shape, m: Manifest, allowMissing: bool)
    requires OriginOk(o) && Fits(t, parked, o, s) && SameTransaction(o.m, m)
    requires (m.phase.Linking? && Forward(o, s)) || (m.phase.RollingBack? && Backward(o, s))
    ensures PriorLocated(t, m) && CandidateLocated(t, m, parked)
    ensures CurrentAccepted(t, m, allowMissing) && PreviousAccepted(t, m)
  {
    if m.phase.Linking? { ForwardIsBackward(o, s); }
    CandidateFound(t, parked, o, s, m);
    PriorFound(t, parked, o, s, m);
    CurrentFound(t, parked, o, s, m, allowMissing);
    PreviousFound(t, parked, o, s, m);
  }

  lemma Reaccept(w: World, o: Origin, s: Shape, w': World, s': Shape)
    requires OriginOk(o) && InvAt(w, o, s) && TreeStep(w, w')
    requires Fits(w'.tree, w'.txns[Active].parked, o, s')
    requires ManifestOf(w).phase.Linking? || ManifestOf(w).phase.RollingBack?
    requires ShapeOk(o, ManifestOf(w).phase, s')
    ensures InvAt(w', o, s')
  {
    TreeAccepted(w'.tree, w'.txns[Active].parked, o, s', ManifestOf(w), false);
    StillBackedUp(w.txns[Active], ManifestOf(w), w'.txns[Active], ManifestOf(w));
  }

  lemma StillBackedUp(x: Txn, m: Manifest, x': Txn, m': Manifest)
    requires BackedUp(x, m) && x'.backups == x.backups && m'.original == m.original
    ensures BackedUp(x', m')
  {
  }

  // ---------------------------------------------------------------- activate-files

  // The prior release and the candidate are different directories wherever both are involved.
  lemma TwoDirectories(o: Origin, s: Shape)
    requires OriginOk(o) && Possible(o, s) && o.m.prior.Some?
    requires s.priorMoved || !s.candidate.AtSource?
    ensures o.m.prior.value.source != o.m.candidate.source
    ensures o.m.prior.value.inode != o.m.candidate.inode
  {
  }

  lemma MovePriorStep(w: World, o: Origin, s: Shape, m: Manifest, fuel: nat) returns (s': Shape)
    requires OriginOk(o) && InvAt(w, o, s) && m == ManifestOf(w) && m.phase.Linking?
    ensures TreeStep(w, MovePrior(w, m, fuel).w)
    ensures InvAt(MovePrior(w, m, fuel).w, o, s')
    ensures MovePrior(w, m, fuel).Live? && Moves(m) ==> s'.priorMoved
    ensures MovePrior(w, m, fuel).Halted? && CandidateMoveHappens(o.tree, m) ==> MovePrior(w, m, fuel).why == PowerLoss
    ensures CandidateMoveHappens(o.tree, m) && fuel >= 1 ==>
              MovePrior(w, m, fuel).Live? && MovePrior(w, m, fuel).fuel >= fuel - 1
  {
    s' := s;
    if Moves(m) {
      var r := m.prior.value;
      ForwardIsBackward(o, s);
      PriorFound(w.tree, w.txns[Active].parked, o, s, m);
      assert Get(w.tree, r.target) == Expected(o, s, r.target);
      assert Get(w.tree, r.source) == Expected(o, s, r.source);
      if s.priorMoved {
        TwoDirectories(o, s);
      } else if r.target !in w.tree && fuel > 0 {
        s' := s.(priorMoved := true);
        var t := Move(w.tree, r.source, r.target);
        forall p ensures Get(t, p) == Expected(o, s', p) {
          assert Get(w.tree, p) == Expected(o, s, p);
        }
        Reaccept(w, o, s, w.WithTree(t), s');
      }
    }
  }

  lemma MoveCandidateStep(w: World, o: Origin, s: Shape, m: Manifest, fuel: nat) returns (s': Shape)
    requires OriginOk(o) && InvAt(w, o, s) && m == ManifestOf(w) && m.phase.Linking?
    requires Moves(m) ==> s.priorMoved
    ensures TreeStep(w, MoveCandidate(w, m, fuel).w)
    ensures InvAt(MoveCandidate(w, m, fuel).w, o, s')
    ensures MoveCandidate(w, m, fuel).Live? ==> s'.candidate.AtTarget? && (Moves(m) ==> s'.priorMoved)
    ensures MoveCandidate(w, m, fuel).Halted? && CandidateMoveHappens(o.tree, m) ==> MoveCandidate(w, m, fuel).why == PowerLoss
    ensures CandidateMoveHappens(o.tree, m) && fuel >= 1 ==>
              MoveCandidate(w, m, fuel).Live? && MoveCandidate(w, m, fuel).fuel >= fuel - 1
  {
    s' := s;
    var c := m.candidate;
    assert Get(w.tree, c.target) == Expected(o, s, c.target);
    assert Get(w.tree, c.source) == Expected(o, s, c.source);
    if s.candidate.AtSource? {
      if s.priorMoved { TwoDirectories(o, s); }
      if c.target !in w.tree && fuel > 0 {
        s' := s.(candidate := AtTarget);
        var t := Move(w.tree, c.source, c.target);
        forall p ensures Get(t, p) == Expected(o, s', p) {
          assert Get(w.tree, p) == Expected(o, s, p);
        }
        Reaccept(w, o, s, w.WithTree(t), s');
      }
    }
  }

  lemma TakePreviousStep(w: World, o: Origin, s: Shape, m: Manifest)
    requires OriginOk(o) && InvAt(w, o, s) && m == ManifestOf(w) && m.phase.Linking?
    requires s.candidate.AtTarget? && m.prior.Some?
    ensures !(Previous in w.tree && w.tree[Previous].Dir?)
    ensures InvAt(w.WithTree(w.tree[Previous := Link(Spelled(m.prior.value.target))]), o, s.(previousTaken := true))
  {
    assert Get(w.tree, Previous) == Expected(o, s, Previous);
    var t := w.tree[Previous := Link(Spelled(m.prior.value.target))];
    var s' := s.(previousTaken := true);
    forall p ensures Get(t, p) == Expected(o, s', p) {
      assert Get(w.tree, p) == Expected(o, s, p);
    }
    Reaccept(w, o, s, w.WithTree(t), s');
  }

  lemma TakeCurrentStep(w: World, o: Origin, s: Shape, m: Manifest)
    requires OriginOk(o) && InvAt(w, o, s) && m == ManifestOf(w) && m.phase.Linking?
    requires s.candidate.AtTarget? && (m.prior.Some? ==> s.previousTaken)
    ensures !(Current in w.tree && w.tree[Current].Dir?)
    ensures InvAt(w.WithTree(w.tree[Current := Link(Spelled(m.releaseDir))]), o, s.(current := Taken))
  {
    assert Get(w.tree, Current) == Expected(o, s, Current);
    var t := w.tree[Current := Link(Spelled(m.releaseDir))];
    var s' := s.(current := Taken);
    forall p ensures Get(t, p) == Expected(o, s', p) {
      assert Get(w.tree, p) == Expected(o, s, p);
    }
    Reaccept(w, o, s, w.WithTree(t), s');
  }

  ghost predicate FullyTaken(o: Origin, s: Shape) {
    s.candidate.AtTarget? && s.current.Taken? && (o.m.prior.Some? ==> s.previousTaken)
  }

  lemma TakeLinksStep(w: World, o: Origin, s: Shape, m: Manifest, fuel: nat) returns (s': Shape)
    requires OriginOk(o) && InvAt(w, o, s) && m == ManifestOf(w) && m.phase.Linking?
    requires s.candidate.AtTarget?
    ensures TreeStep(w, TakeLinks(w, m, fuel).w)
    ensures InvAt(TakeLinks(w, m, fuel).w, o, s')
    ensures TakeLinks(w, m, fuel).Live? ==> FullyTaken(o, s')
    ensures s'.candidate.AtTarget?
    ensures TakeLinks(w, m, fuel).Halted? ==> TakeLinks(w, m, fuel).why == PowerLoss
    ensures fuel >= 2 ==> TakeLinks(w, m, fuel).Live? && TakeLinks(w, m, fuel).fuel >= fuel - 2
  {
    s' := s;
    var w1, fuel1 := w, fuel;
    if m.prior.Some? {
      TakePreviousStep(w, o, s, m);
      if fuel == 0 { return; }
      s' := s.(previousTaken := true);
      w1 := w.WithTree(w.tree[Previous := Link(Spelled(m.prior.value.target))]);
      fuel1 := fuel - 1;
    }
    TakeCurrentStep(w1, o, s', m);
    if fuel1 > 0 {
      s' := s'.(current := Taken);
    }
  }

  lemma CandidateInPlace(w: World, o: Origin, s: Shape, m: Manifest)
    requires OriginOk(o) && InvAt(w, o, s) && m == ManifestOf(w) && s.candidate.AtTarget?
    ensures Matches(w.tree, m.candidate.target, m.candidate)
  {
    assert Get(w.tree, m.candidate.target) == Expected(o, s, m.candidate.target);
  }

  // Cut anywhere, activation leaves a pending activation; left alone it takes every link.
  lemma ActivateStep(w: World, o: Origin, s: Shape, fuel: nat) returns (s': Shape)
    requires OriginOk(o) && InvAt(w, o, s)
    ensures InvAt(ActivateFiles(w, o.m.id, fuel).w, o, s')
    ensures ManifestOf(ActivateFiles(w, o.m.id, fuel).w) == ManifestOf(w)
    ensures ActivateFiles(w, o.m.id, fuel).w.files == w.files
    ensures ActivateFiles(w, o.m.id, fuel).Live? ==> FullyTaken(o, s')
    ensures ManifestOf(w).phase.Linking? && CandidateMoveHappens(o.tree, o.m) && fuel >= 4 ==>
              ActivateFiles(w, o.m.id, fuel).Live?
  {
    s' := s;
    Opens(w, o, s, false);
    if ManifestOf(w).phase.Linking? {
      s' := ActivateTreeStep(w, o, s, ManifestOf(w), fuel);
    }
  }

  lemma ActivateTreeStep(w: World, o: Origin, s: Shape, m: Manifest, fuel: nat) returns (s': Shape)
    requires OriginOk(o) && InvAt(w, o, s) && m == ManifestOf(w) && m.phase.Linking?
    ensures TreeStep(w, ActivateTree(w, m, fuel).w)
    ensures InvAt(ActivateTree(w, m, fuel).w, o, s')
    ensures ActivateTree(w, m, fuel).Live? ==> FullyTaken(o, s')
    ensures CandidateMoveHappens(o.tree, o.m) && fuel >= 4 ==> ActivateTree(w, m, fuel).Live?
  {
    s' := MovePriorStep(w, o, s, m, fuel);
    var r1 := MovePrior(w, m, fuel);
    if r1.Live? {
      s' := MoveCandidateStep(r1.w, o, s', m, r1.fuel);
      var r2 := MoveCandidate(r1.w, m, r1.fuel);
      if r2.Live? {
        s' := TakeLinksStep(r2.w, o, s', m, r2.fuel);
        CandidateInPlace(TakeLinks(r2.w, m, r2.fuel).w, o, s', m);
      }
    }
  }

  // ---------------------------------------------------------------- restore-files: the tree

  // The shape once the prior release's own path is clear.
  function Cleared(s: Shape, m: Manifest): Shape
    requires Moves(m)
  {
    if m.prior.value.source.Current? then s.(current := Gone) else s.(candidate := InPark)
  }

  lemma ClearRuns(w: World, o: Origin, s: Shape, m: Manifest, fuel: nat)
    requires OriginOk(o) && InvAt(w, o, s) && m == ManifestOf(w) && m.phase.RollingBack?
    requires Moves(m) && s.priorMoved
    ensures var r := ClearPriorPath(w, m, fuel);
            && TreeStep(w, r.w)
            && (r.Halted? ==> r.why == PowerLoss)
            && (r.Live? ==> m.prior.value.source !in r.w.tree)
            && (m.prior.value.source !in w.tree || fuel == 0 ==> r.w == w)
            && (fuel >= 1 ==> r.Live? && r.fuel >= fuel - 1)
  {
    assert Get(w.tree, m.prior.value.source) == Expected(o, s, m.prior.value.source);
    TwoDirectories(o, s);
  }

  lemma ClearFits(w: World, o: Origin, s: Shape, m: Manifest, fuel: nat)
    requires OriginOk(o) && InvAt(w, o, s) && m == ManifestOf(w) && m.phase.RollingBack?
    requires Moves(m) && s.priorMoved && m.prior.value.source in w.tree && fuel > 0
    ensures var w' := ClearPriorPath(w, m, fuel).w;
            Active in w'.txns && Fits(w'.tree, w'.txns[Active].parked, o, Cleared(s, m)) && ShapeOk(o, m.phase, Cleared(s, m))
  {
    assert Get(w.tree, m.prior.value.source) == Expected(o, s, m.prior.value.source);
    TwoDirectories(o, s);
    forall p ensures Get(ClearPriorPath(w, m, fuel).w.tree, p) == Expected(o, Cleared(s, m), p) {
      assert Get(w.tree, p) == Expected(o, s, p);
    }
  }

  lemma ClearPriorStep(w: World, o: Origin, s: Shape, m: Manifest, fuel: nat) returns (s': Shape)
    requires OriginOk(o) && InvAt(w, o, s) && m == ManifestOf(w) && m.phase.RollingBack?
    requires Moves(m) && s.priorMoved
    ensures TreeStep(w, ClearPriorPath(w, m, fuel).w)
    ensures InvAt(ClearPriorPath(w, m, fuel).w, o, s') && s'.priorMoved
    ensures ClearPriorPath(w, m, fuel).Halted? ==> ClearPriorPath(w, m, fuel).why == PowerLoss
    ensures ClearPriorPath(w, m, fuel).Live? ==> m.prior.value.source !in ClearPriorPath(w, m, fuel).w.tree
    ensures fuel >= 1 ==> ClearPriorPath(w, m, fuel).Live? && ClearPriorPath(w, m, fuel).fuel >= fuel - 1
  {
    s' := s;
    ClearRuns(w, o, s, m, fuel);
    if m.prior.value.source in w.tree && fuel > 0 {
      s' := Cleared(s, m);
      ClearFits(w, o, s, m, fuel);
      Reaccept(w, o, s, ClearPriorPath(w, m, fuel).w, s');
    }
  }

  lemma ReturnPriorStep(w: World, o: Origin, s: Shape, m: Manifest, fuel: nat) returns (s': Shape)
    requires OriginOk(o) && InvAt(w, o, s) && m == ManifestOf(w) && m.phase.RollingBack?
    ensures TreeStep(w, ReturnPrior(w, m, fuel).w)
    ensures InvAt(ReturnPrior(w, m, fuel).w, o, s')
    ensures ReturnPrior(w, m, fuel).Halted? ==> ReturnPrior(w, m, fuel).why == PowerLoss
    ensures ReturnPrior(w, m, fuel).Live? ==> !s'.priorMoved
    ensures !s.priorMoved ==> s' == s
    ensures fuel >= 2 ==> ReturnPrior(w, m, fuel).Live? && ReturnPrior(w, m, fuel).fuel >= fuel - 2
  {
    s' := s;
    if s.priorMoved {
      var r := m.prior.value;
      PriorFound(w.tree, w.txns[Active].parked, o, s, m);
      assert Get(w.tree, r.source) == Expected(o, s, r.source);
      TwoDirectories(o, s);
      s' := ClearPriorStep(w, o, s, m, fuel);
      var c := ClearPriorPath(w, m, fuel);
      if c.Live? {
        PriorFound(c.w.tree, c.w.txns[Active].parked, o, s', m);
        if c.fuel > 0 {
          s' := PriorReturns(c.w, o, s', m);
        }
      }
    } else if Moves(m) {
      PriorFound(w.tree, w.txns[Active].parked, o, s, m);
    }
  }

  lemma PriorReturns(w: World, o: Origin, s: Shape, m: Manifest) returns (s': Shape)
    requires OriginOk(o) && InvAt(w, o, s) && m == ManifestOf(w) && m.phase.RollingBack?
    requires Moves(m) && s.priorMoved && m.prior.value.source !in w.tree && m.prior.value.target in w.tree
    ensures InvAt(w.WithTree(Move(w.tree, m.prior.value.target, m.prior.value.source)), o, s')
    ensures !s'.priorMoved
  {
    var r := m.prior.value;
    PriorFound(w.tree, w.txns[Active].parked, o, s, m);
    assert Get(w.tree, r.source) == Expected(o, s, r.source);
    s' := s.(priorMoved := false, current := if m.current.Directory? then Captured else s.current);
    var t := Move(w.tree, r.target, r.source);
    forall p ensures Get(t, p) == Expected(o, s', p) {
      assert Get(w.tree, p) == Expected(o, s, p);
    }
    Reaccept(w, o, s, w.WithTree(t), s');
  }

  lemma CurrentRuns(w: World, o: Origin, s: Shape, m: Manifest, fuel: nat)
    requires OriginOk(o) && InvAt(w, o, s) && m == ManifestOf(w) && m.phase.RollingBack? && !s.priorMoved
    ensures var r := RestoreCurrent(w, m, fuel);
            && TreeStep(w, r.w)
            && (r.Halted? ==> r.why == PowerLoss)
            && (r.Live? && r.w == w && (!m.current.Symlink? || fuel == 0) ==>
                  s.current.Captured? || (s.current.Gone? && m.current.Missing?))
            && (fuel >= 1 ==> r.Live? && r.fuel >= fuel - 1)
  {
    assert Get(w.tree, Current) == Expected(o, s, Current);
  }

  lemma CurrentFits(w: World, o: Origin, s: Shape, m: Manifest, fuel: nat)
    requires OriginOk(o) && InvAt(w, o, s) && m == ManifestOf(w) && m.phase.RollingBack? && !s.priorMoved
    requires RestoreCurrent(w, m, fuel).w != w || (m.current.Symlink? && fuel > 0)
    ensures var w' := RestoreCurrent(w, m, fuel).w;
            var s' := s.(current := if m.current.Missing? then Gone else Captured);
            Active in w'.txns && Fits(w'.tree, w'.txns[Active].parked, o, s') && ShapeOk(o, m.phase, s')
  {
    assert Get(w.tree, Current) == Expected(o, s, Current);
    var s' := s.(current := if m.current.Missing? then Gone else Captured);
    forall p ensures Get(RestoreCurrent(w, m, fuel).w.tree, p) == Expected(o, s', p) {
      assert Get(w.tree, p) == Expected(o, s, p);
    }
  }

  lemma RestoreCurrentStep(w: World, o: Origin, s: Shape, m: Manifest, fuel: nat) returns (s': Shape)
    requires OriginOk(o) && InvAt(w, o, s) && m == ManifestOf(w) && m.phase.RollingBack?
    requires !s.priorMoved
    ensures TreeStep(w, RestoreCurrent(w, m, fuel).w)
    ensures InvAt(RestoreCurrent(w, m, fuel).w, o, s') && !s'.priorMoved && s'.candidate == s.candidate
    ensures RestoreCurrent(w, m, fuel).Halted? ==> RestoreCurrent(w, m, fuel).why == PowerLoss
    ensures RestoreCurrent(w, m, fuel).Live? ==> s'.current.Captured? || (s'.current.Gone? && m.current.Missing?)
    ensures fuel >= 1 ==> RestoreCurrent(w, m, fuel).Live? && RestoreCurrent(w, m, fuel).fuel >= fuel - 1
  {
    s' := s;
    CurrentRuns(w, o, s, m, fuel);
    var w' := RestoreCurrent(w, m, fuel).w;
    if w' != w || (m.current.Symlink? && fuel > 0) {
      s' := s.(current := if m.current.Missing? then Gone else Captured);
      CurrentFits(w, o, s, m, fuel);
      Reaccept(w, o, s, w', s');
    }
  }

  // The tree with `previous` as it was captured.
  function Returned(t: Tree, m: Manifest): Tree {
    if m.previous.Symlink? then t[Previous := Link(m.previous.text)] else t - {Previous}
  }

  lemma PreviousRuns(w: World, o: Origin, s: Shape, m: Manifest, fuel: nat)
    requires OriginOk(o) && InvAt(w, o, s) && m == ManifestOf(w)
    ensures var r := RestorePrevious(w, m, fuel);
            && TreeStep(w, r.w) && r.w.txns == w.txns
            && (r.Halted? ==> r.why == PowerLoss && r.w == w)
            && (r.Live? ==> r.w.tree == Returned(w.tree, m))
            && (fuel >= 1 ==> r.Live? && r.fuel >= fuel - 1)
  {
    assert Get(w.tree, Previous) == Expected(o, s, Previous);
  }

  lemma PreviousFits(t: Tree, parked: Option<Node>, o: Origin, s: Shape)
    requires OriginOk(o) && Fits(t, parked, o, s)
    ensures Fits(Returned(t, o.m), parked, o, s.(previousTaken := false))
  {
    forall p ensures Get(Returned(t, o.m), p) == Expected(o, s.(previousTaken := false), p) {
      assert Get(t, p) == Expected(o, s, p);
    }
  }

  lemma RestorePreviousStep(w: World, o: Origin, s: Shape, m: Manifest, fuel: nat) returns (s': Shape)
    requires OriginOk(o) && InvAt(w, o, s) && m == ManifestOf(w) && m.phase.RollingBack?
    requires !s.priorMoved && (s.current.Captured? || (s.current.Gone? && m.current.Missing?))
    ensures TreeStep(w, RestorePrevious(w, m, fuel).w)
    ensures InvAt(RestorePrevious(w, m, fuel).w, o, s') && s'.candidate == s.candidate
    ensures RestorePrevious(w, m, fuel).Halted? ==> RestorePrevious(w, m, fuel).why == PowerLoss
    ensures RestorePrevious(w, m, fuel).Live? ==> Undone(o, s')
    ensures fuel >= 1 ==> RestorePrevious(w, m, fuel).Live? && RestorePrevious(w, m, fuel).fuel >= fuel - 1
  {
    s' := s;
    PreviousRuns(w, o, s, m, fuel);
    var run := RestorePrevious(w, m, fuel);
    if run.Live? {
      s' := s.(previousTaken := false);
      PreviousFits(w.tree, w.txns[Active].parked, o, s);
      Reaccept(w, o, s, run.w, s');
    }
  }

  lemma RestoreTreeStep(w: World, o: Origin, s: Shape, m: Manifest, fuel: nat) returns (s': Shape)
    requires OriginOk(o) && InvAt(w, o, s) && m == ManifestOf(w) && m.phase.RollingBack?
    ensures TreeStep(w, RestoreTree(w, m, fuel).w)
    ensures InvAt(RestoreTree(w, m, fuel).w, o, s')
    ensures RestoreTree(w, m, fuel).Halted? ==> RestoreTree(w, m, fuel).why == PowerLoss
    ensures RestoreTree(w, m, fuel).Live? ==> Undone(o, s')
    ensures !s.priorMoved ==> s'.candidate == s.candidate
    ensures fuel >= 4 ==> RestoreTree(w, m, fuel).Live? && RestoreTree(w, m, fuel).fuel >= fuel - 4
  {
    s' := ReturnPriorStep(w, o, s, m, fuel);
    var r1 := ReturnPrior(w, m, fuel);
    if r1.Live? {
      s' := RestoreCurrentStep(r1.w, o, s', m, r1.fuel);
      var r2 := RestoreCurrent(r1.w, m, r1.fuel);
      if r2.Live? {
        s' := RestorePreviousStep(r2.w, o, s', m, r2.fuel);
      }
    }
  }
}

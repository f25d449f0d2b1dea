/**
 What activation and rollback can make of the release tree.

 Every tree a crash can leave is described by a `Shape`: four independent facts about what
 has been moved or relinked since `begin`.  `Expected` rebuilds the whole tree from the
 captured one and the shape, so a shape says what every path holds, touched or not.
 */
module ActivationTree {
  import opened Wrappers
  import opened ActivationDisk
  import opened ActivationJournal

  // What `begin` saw, and the manifest it wrote.
  datatype Origin = Origin(tree: Tree, files: Files, m: Manifest)

  datatype CandidateAt = AtSource | AtTarget | InPark

  datatype CurrentIs = Captured | Taken | Gone

  datatype Shape = Shape(priorMoved: bool, candidate: CandidateAt, current: CurrentIs, previousTaken: bool)

  const START := Shape(false, AtSource, Captured, false)

  function CandidateDir(m: Manifest): Node {
    Dir(m.candidate.inode, m.candidate.version)
  }

  ghost function Expected(o: Origin, s: Shape, p: Path): Option<Node> {
    var m := o.m;
    if p == Current && s.current.Taken? then Some(Link(Spelled(m.releaseDir)))
    else if p == Current && s.current.Gone? then None
    else if p == Previous && s.previousTaken && m.prior.Some? then Some(Link(Spelled(m.prior.value.target)))
    else if p == m.releaseDir && s.candidate.AtTarget? then Some(CandidateDir(m))
    else if p == m.candidate.source && !s.candidate.AtSource? then None
    else if s.priorMoved && m.prior.Some? && p == m.prior.value.target then
      Some(Dir(m.prior.value.inode, m.prior.value.version))
    else if s.priorMoved && m.prior.Some? && p == m.prior.value.source then None
    else Get(o.tree, p)
  }

  ghost predicate Fits(t: Tree, parked: Option<Node>, o: Origin, s: Shape) {
    && (forall p :: Get(t, p) == Expected(o, s, p))
    && parked == (if s.candidate.InPark? then Some(CandidateDir(o.m)) else None)
  }

  // ---------------------------------------------------------------- the captured layout

  ghost predicate ValidCurrent(o: Origin) {
    var m := o.m;
    && LinkStateAt(o.tree, Current, true) == Some(m.current)
    && (m.prior.None? <==> m.current.Missing?)
    && (m.current.Symlink? ==> m.current.text.path == m.prior.value.source)
    && (m.current.Directory? ==> m.prior.value.source == Current)
  }

  ghost predicate ValidPrior(o: Origin) {
    o.m.prior.Some? ==>
      var r := o.m.prior.value;
      && Matches(o.tree, r.source, r)
      && InReleases(r.target)
      && (InReleases(r.source) || r.source.Current?)
  }

  ghost predicate ValidPrevious(o: Origin) {
    && LinkStateAt(o.tree, Previous, false) == Some(o.m.previous)
    && o.m.previousRelease == PreviousIdentity(o.tree)
    && (o.m.previousRelease.Some? ==> InReleases(o.m.previousRelease.value.source))
  }

  ghost predicate ValidTree(o: Origin) {
    var m := o.m;
    && OneNamePerDirectory(o.tree)
    && InReleases(m.releaseDir) && m.candidate.target == m.releaseDir
    && InReleases(m.candidate.source) && m.candidate.source != m.releaseDir
    && Matches(o.tree, m.candidate.source, m.candidate)
    && ValidPrior(o) && ValidCurrent(o) && ValidPrevious(o)
  }

  // The fields `begin` fixes for the whole transaction.
  predicate SameTransaction(a: Manifest, b: Manifest) {
    && a.id == b.id && a.releaseDir == b.releaseDir && a.candidate == b.candidate && a.prior == b.prior
    && a.current == b.current && a.previous == b.previous && a.previousRelease == b.previousRelease
    && a.original == b.original
  }

  // ---------------------------------------------------------------- when rollback can be promised

  // Activation will move the prior release out of the way.
  predicate PriorMoveHappens(t: Tree, m: Manifest) {
    Moves(m) && m.prior.value.target !in t
  }

  // The candidate's slot is free once the prior release has been moved.
  predicate SlotFree(t: Tree, m: Manifest) {
    if Moves(m) then
      m.releaseDir != m.prior.value.target && (m.releaseDir == m.prior.value.source || m.releaseDir !in t)
    else m.releaseDir !in t
  }

  predicate CandidateMoveHappens(t: Tree, m: Manifest) {
    (Moves(m) ==> m.prior.value.target !in t) && SlotFree(t, m)
  }

  /** The layouts from which an interrupted activation can always be rolled back.

      If the prior release moves, `current` must not resolve to it through any text but the
      candidate's own path, and `previous` must not resolve to it.  If the candidate moves,
      neither the prior release nor `previous` may be the candidate's directory. */
  predicate Recoverable(t: Tree, m: Manifest) {
    && (PriorMoveHappens(t, m) ==>
          && (m.current.Symlink? ==> m.current.text == Spelled(m.releaseDir))
          && (m.previousRelease.Some? ==> m.previousRelease.value.source != m.prior.value.source))
    && (CandidateMoveHappens(t, m) ==>
          && (m.prior.Some? ==> m.prior.value.source != m.candidate.source)
          && (m.previousRelease.Some? ==> m.previousRelease.value.source != m.candidate.source))
  }

  // ---------------------------------------------------------------- shapes activation and rollback reach

  ghost predicate Possible(o: Origin, s: Shape) {
    && (s.priorMoved ==> PriorMoveHappens(o.tree, o.m))
    && (!s.candidate.AtSource? ==> CandidateMoveHappens(o.tree, o.m))
    && (s.previousTaken ==> o.m.prior.Some?)
  }

  // The steps of activation happen in this order.
  ghost predicate Forward(o: Origin, s: Shape) {
    && Possible(o, s)
    && !s.candidate.InPark? && !s.current.Gone?
    && (s.candidate.AtTarget? && Moves(o.m) ==> s.priorMoved)
    && (s.previousTaken ==> s.candidate.AtTarget?)
    && (s.current.Taken? ==> s.candidate.AtTarget? && (o.m.prior.Some? ==> s.previousTaken))
  }

  predicate SameVersion(m: Manifest) {
    Moves(m) && m.prior.value.source == m.releaseDir
  }

  ghost predicate Backward(o: Origin, s: Shape) {
    var m := o.m;
    && Possible(o, s)
    && (s.candidate.InPark? ==> SameVersion(m))
    && (s.candidate.AtTarget? && SameVersion(m) ==> s.priorMoved)
    && (s.current.Gone? ==> m.current.Missing? || (m.current.Directory? && s.priorMoved))
    && (s.current.Taken? ==> !s.candidate.AtSource?)
    && (m.current.Directory? && !s.priorMoved ==> s.current.Captured?)
  }

  ghost predicate Undone(o: Origin, s: Shape) {
    && Backward(o, s)
    && !s.priorMoved && !s.previousTaken
    && (s.current.Captured? || (s.current.Gone? && o.m.current.Missing?))
  }

  lemma ForwardIsBackward(o: Origin, s: Shape)
    requires ValidTree(o) && Forward(o, s)
    ensures Backward(o, s)
  {
  }

  // ---------------------------------------------------------------- validation accepts every such tree

  lemma CandidateFound(t: Tree, parked: Option<Node>, o: Origin, s: Shape, m: Manifest)
    requires ValidTree(o) && Fits(t, parked, o, s) && SameTransaction(o.m, m)
    requires Forward(o, s) || Backward(o, s)
    requires Recoverable(o.tree, o.m)
    ensures CandidateLocated(t, m, parked)
  {
  }

  lemma PriorFound(t: Tree, parked: Option<Node>, o: Origin, s: Shape, m: Manifest)
    requires ValidTree(o) && Fits(t, parked, o, s) && SameTransaction(o.m, m)
    requires Backward(o, s) && Recoverable(o.tree, o.m)
    ensures PriorLocated(t, m)
    ensures m.prior.Some? && s.priorMoved ==> Matches(t, m.prior.value.target, m.prior.value)
    ensures m.prior.Some? && !s.priorMoved ==> Matches(t, m.prior.value.source, m.prior.value)
  {
  }

  lemma CurrentFound(t: Tree, parked: Option<Node>, o: Origin, s: Shape, m: Manifest, allowMissing: bool)
    requires ValidTree(o) && Fits(t, parked, o, s) && SameTransaction(o.m, m)
    requires Backward(o, s) && Recoverable(o.tree, o.m)
    requires m.phase.Linking? || m.phase.RollingBack?
    ensures CurrentAccepted(t, m, allowMissing)
  {
    assert Get(t, Current) == Expected(o, s, Current);
    assert Get(t, m.releaseDir) == Expected(o, s, m.releaseDir);
    PriorFound(t, parked, o, s, m);
  }

  lemma PreviousFound(t: Tree, parked: Option<Node>, o: Origin, s: Shape, m: Manifest)
    requires ValidTree(o) && Fits(t, parked, o, s) && SameTransaction(o.m, m)
    requires Backward(o, s) && Recoverable(o.tree, o.m)
    requires m.phase.Linking? ==> s.previousTaken ==> Moves(m) ==> s.priorMoved
    requires m.phase.Linking? || m.phase.RollingBack?
    ensures PreviousAccepted(t, m)
    ensures !s.previousTaken ==> OriginalPrevious(t, m)
  {
    assert Get(t, Previous) == Expected(o, s, Previous);
    PriorFound(t, parked, o, s, m);
    if !s.previousTaken && m.previousRelease.Some? {
      var q := m.previousRelease.value.source;
      assert Get(t, q) == Expected(o, s, q);
    }
  }
}

/**
 What the journal accepts and where that leads: exactly which layouts begin and which records are
 taken, and a run from `begin` to a committed and finished activation.
 */
module ActivationCommit {
  import opened Wrappers
  import opened ActivationDisk
  import opened ActivationJournal
  import opened ActivationTree
  import opened ActivationFiles
  import opened ActivationSteps
  import opened ActivationCommands
  import opened ActivationRollback
  import opened ActivationPublication
  import opened ActivationFinish
  import opened ActivationPhases
  import opened ActivationRuns

  // ---------------------------------------------------------------- the ways through the phases

  // The place of a phase on the way to the commit, or on the way back.
  function Place(p: Phase): int {
    match p
    case Prepared => 1 case Guarded => 2 case Linking => 3 case Linked => 4
    case Stopping => 5 case Stopped => 6 case Fencing => 7 case Fenced => 8
    case Authorizing => 9 case Authority => 10 case CandidateStarting => 11 case CandidateHealthy => 12
    case Committing => 13 case Committed => 14
    case RollingBack => -3 case RolledBack => -2 case RollbackHealthy => -1
  }

  // Phases a plain activation leaves out: no guard, nothing to stop, no fence.
  const SHORTCUTS := {(Prepared, Linking), (Linked, CandidateStarting), (Stopped, Fenced), (Stopped, Authorizing)}

  // One step along either way, a shortcut, or turning back while the candidate is not committed.
  predicate Leads(p: Phase, q: Phase) {
    || (Place(q) == Place(p) + 1 && Place(q) != 0)
    || (p, q) in SHORTCUTS
    || (q.RollingBack? && 1 <= Place(p) <= Place(CandidateHealthy))
  }

  // The Hub the record names is the one on disk, and is new, known, or refenced on leaving fencing.
  predicate HubAllowed(m: Manifest, a: RecordArgs) {
    a.hub.Some? ==>
      && a.fence.Some? && a.hub.value.1 in {None, a.fence}
      && (|| m.hub in {None, Some(Hub(a.hub.value.0, a.fence.value))}
          || (m.phase.Fencing? && a.phase in {Fenced, RollingBack} && m.hub.value.binding == a.hub.value.0))
  }

  predicate GuardAllowed(m: Manifest, a: RecordArgs) {
    a.guard.Some? ==> m.guard in {None, a.guard}
  }

  // The manifest with what the record notes.
  function Noted(m: Manifest, a: RecordArgs): Manifest {
    m.(phase := a.phase,
       rollbackFrom := if a.phase.RollingBack? && !m.phase.RollingBack? then Some(m.phase) else m.rollbackFrom,
       hub := if a.hub.Some? && a.fence.Some? then Some(Hub(a.hub.value.0, a.fence.value)) else m.hub,
       guard := if a.guard.Some? then a.guard else m.guard,
       authorityPending := if a.authority.Some? then a.authority.value else m.authorityPending)
  }

  predicate RecordAllowed(m: Manifest, a: RecordArgs) {
    && (a.phase == m.phase || Leads(m.phase, a.phase))
    && HubAllowed(m, a) && GuardAllowed(m, a)
    && (m.phase in {Committed, RollbackHealthy} ==> Noted(m, a) == m)
  }

  lemma LeadsExactly(p: Phase, q: Phase)
    ensures Leads(p, q) <==> Follows(p, q)
  {
  }

  lemma PhaseExactly(m: Manifest, q: Phase)
    ensures NewPhase(m, q).Some? <==> q == m.phase || Leads(m.phase, q)
    ensures NewPhase(m, q).Some? ==> NewPhase(m, q).value == Noted(m, RecordArgs(q, None, None, None, None))
  {
    LeadsExactly(m.phase, q);
  }

  lemma HubExactly(m: Manifest, before: Phase, a: RecordArgs)
    ensures BindHub(m, before, a).Some? <==> HubAllowed(m.(phase := before), a)
    ensures BindHub(m, before, a).Some? && a.hub.Some? ==> BindHub(m, before, a).value == m.(hub := Some(Hub(a.hub.value.0, a.fence.value)))
  {
  }

  lemma AmendsExactly(m: Manifest, a: RecordArgs)
    ensures Amend(m, a) == if RecordAllowed(m, a) then Some(Noted(m, a)) else None
  {
    PhaseExactly(m, a.phase);
    if NewPhase(m, a.phase).Some? {
      var m1 := NewPhase(m, a.phase).value;
      HubExactly(m1, m.phase, a);
      assert HubAllowed(m1.(phase := m.phase), a) == HubAllowed(m, a);
    }
  }

  /** Exactly which records are taken: the journal is this transaction's and fits the disk, the phase
      is the same or one the current phase leads to, Hub and guard agree with what was written before,
      a settled transaction learns nothing new, the disk fits what would be written, and power is left.
      Then exactly that is written; otherwise nothing. */
  lemma RecordExactly(w: World, id: string, a: RecordArgs, fuel: nat)
    ensures var r := Record(w, id, a, fuel);
            var journal := Open(w, id, RollbackPhase(a.phase));
            && (r.Live? <==>
                  && fuel > 0 && journal.Opened? && RecordAllowed(journal.m, a) && Active in w.txns
                  && Accepts(w.tree, w.files, Noted(journal.m, a), w.txns[Active].parked, RollbackPhase(a.phase)))
            && (r.Live? ==> r.fuel == fuel - 1
                            && r.w == w.WithTxn(Active, w.txns[Active].(manifest := Some(Noted(journal.m, a)))))
            && (r.Halted? ==> r.w == w)
  {
    var journal := Open(w, id, RollbackPhase(a.phase));
    if journal.Opened? {
      AmendsExactly(journal.m, a);
    }
  }

  // ---------------------------------------------------------------- the layouts that begin

  predicate DirectoryAt(t: Tree, p: Path) {
    p in t && t[p].Dir?
  }

  // What is installed: nothing, a directory from before there were links, or a linked release.
  predicate InstalledSupported(t: Tree, a: BeginArgs) {
    match Get(t, Current)
    case None => a.oldSource.None? && a.oldTarget.None?
    case Some(Dir(_, _)) => a.oldSource == Some(Current) && a.oldTarget.Some? && InReleases(a.oldTarget.value)
    case Some(Link(text)) =>
      && a.oldSource.Some? && InReleases(a.oldSource.value) && a.oldTarget.Some? && InReleases(a.oldTarget.value)
      && DirectoryAt(t, a.oldSource.value) && Get(t, text.path) == Get(t, a.oldSource.value)
    case Some(Plain) => false
  }

  // `previous` is missing, dangling, or a link to a release.
  predicate PreviousSupported(t: Tree) {
    match Get(t, Previous)
    case None => true
    case Some(Link(text)) => text.path !in t || (InReleases(text.path) && t[text.path].Dir?)
    case _ => false
  }

  // A configuration that exists has one name and a mode that can be put back.
  predicate ConfigSupported(f: Files, k: Kind) {
    var c := f.At(k).config;
    c.Some? ==>
      && LinkCount(f, c.value.inode) == 1 && !SharedWritable(c.value.mode)
      && (c.value.mode == M600 || (k == Service && c.value.mode in {M640, M644}))
  }

  // The candidate is unpacked beside the place it is meant for.
  predicate CandidateSupported(t: Tree, a: BeginArgs) {
    && a.releaseDir == Release(a.version) && InReleases(a.candidateSource) && a.candidateSource != a.releaseDir
    && DirectoryAt(t, a.candidateSource) && t[a.candidateSource].version == a.version
  }

  predicate Supported(t: Tree, f: Files, a: BeginArgs) {
    && CandidateSupported(t, a) && InstalledSupported(t, a) && PreviousSupported(t)
    && ConfigSupported(f, Env) && ConfigSupported(f, Service)
  }

  lemma CapturedExactly(t: Tree, f: Files, a: BeginArgs)
    ensures Capture(t, f, a).Some? <==> Supported(t, f, a)
  {
  }

  lemma CapturedAccepted(t: Tree, f: Files, a: BeginArgs)
    requires Capture(t, f, a).Some?
    ensures Accepts(t, f, Capture(t, f, a).value, None, false)
  {
  }

  /** Exactly when `begin` completes, from the disk alone: with power for the sweep and two more steps,
      over a scan that lists every directory, if and only if no transaction is pending and the layout is
      supported; then it leaves tree and configurations alone. */
  lemma BeginExactly(w: World, a: BeginArgs, scan: Scan, fuel: nat)
    requires Tidy(w.txns) && AllChildren(scan.children) && fuel >= SweepCost(scan) + 2
    requires forall n :: n in w.txns && !n.Active? ==> n in scan.dirs
    ensures var r := Begin(w, a, scan, fuel);
            && (r.Live? <==> Active !in w.txns && Supported(w.tree, w.files, a))
            && r.w.tree == w.tree && r.w.files == w.files
  {
    SweepSweeps(w, scan, fuel);
    SweepKeeps(w, scan, fuel);
    CapturedExactly(w.tree, w.files, a);
    if Capture(w.tree, w.files, a).Some? {
      CapturedAccepted(w.tree, w.files, a);
    }
  }

  // An ordinary installation: the candidate's place is free, and nothing in use is the candidate.  A
  // directory from before there were links is moved to a free place; a linked release stays.
  predicate Ordinary(t: Tree, a: BeginArgs) {
    && a.releaseDir !in t
    && (Previous in t && t[Previous].Link? ==> t[Previous].text.path != a.candidateSource)
    && match Get(t, Current)
       case Some(Dir(_, _)) => a.oldTarget.Some? && a.oldTarget.value !in t && a.oldTarget.value != a.releaseDir
       case Some(Link(_)) => a.oldTarget == a.oldSource && a.oldSource != Some(a.candidateSource)
       case _ => true
  }

  /** Every ordinary first installation, upgrade or adoption of a directory is recoverable, begins and
      can be activated, so that `CommitRun` applies to it. */
  lemma OrdinaryStarts(w: World, a: BeginArgs, scan: Scan, fuel: nat)
    requires Untouched(w) && Active !in w.txns && Supported(w.tree, w.files, a) && Ordinary(w.tree, a)
    requires Tidy(w.txns) && AllChildren(scan.children) && fuel >= SweepCost(scan) + 2
    requires forall n :: n in w.txns && !n.Active? ==> n in scan.dirs
    ensures ActivationRuns.Startable(w, a, scan, fuel)
    ensures CandidateMoveHappens(w.tree, Capture(w.tree, w.files, a).value)
  {
    BeginExactly(w, a, scan, fuel);
    CapturedExactly(w.tree, w.files, a);
    OrdinaryRecovers(w.tree, w.files, a);
  }

  lemma OrdinaryRecovers(t: Tree, f: Files, a: BeginArgs)
    requires Capture(t, f, a).Some? && Ordinary(t, a)
    ensures Recoverable(t, Capture(t, f, a).value) && CandidateMoveHappens(t, Capture(t, f, a).value)
  {
  }

  // ---------------------------------------------------------------- a release in use

  // Both links are taken, and the candidate and the prior release are where they point.
  predicate InUse(t: Tree, m: Manifest, captured: Tree) {
    && Get(t, Current) == Some(Link(Spelled(m.releaseDir)))
    && Get(t, m.releaseDir) == Some(Dir(m.candidate.inode, m.candidate.version))
    && (if m.prior.Some? then
          && Get(t, Previous) == Some(Link(Spelled(m.prior.value.target)))
          && Get(t, m.prior.value.target) == Some(Dir(m.prior.value.inode, m.prior.value.version))
        else Get(t, Previous) == Get(captured, Previous))
  }

  lemma TakenInUse(w: World, o: Origin, s: Shape)
    requires OriginOk(o) && InvAt(w, o, s) && FullyTaken(o, s)
    ensures InUse(w.tree, o.m, o.tree)
  {
    assert Get(w.tree, Current) == Expected(o, s, Current);
    assert Get(w.tree, o.m.releaseDir) == Expected(o, s, o.m.releaseDir);
    assert Get(w.tree, Previous) == Expected(o, s, Previous);
    if o.m.prior.Some? {
      assert Get(w.tree, o.m.prior.value.target) == Expected(o, s, o.m.prior.value.target);
      TwoDirectories(o, s);
    }
  }

  // ---------------------------------------------------------------- the ways to a started candidate

  // Without stopping anything, without a fence, with a fence already there, and the whole way.
  datatype Route = Direct | Unfenced | AlreadyFenced | Whole

  function AfterStop(route: Route): seq<Phase> {
    match route
    case AlreadyFenced => [Fenced, Authorizing, Authority]
    case Whole => [Fencing, Fenced, Authorizing, Authority]
    case _ => [Authorizing, Authority]
  }

  function PathOf(route: Route): seq<Phase> {
    if route.Direct? then [] else [Stopping, Stopped] + AfterStop(route)
  }

  lemma AfterStopWalkable(route: Route)
    ensures Walkable(Stopped, AfterStop(route))
  {
    assert [Authority][1..] == [];
    assert [Authorizing, Authority][1..] == [Authority];
    assert [Fenced, Authorizing, Authority][1..] == [Authorizing, Authority];
    assert [Fencing, Fenced, Authorizing, Authority][1..] == [Fenced, Authorizing, Authority];
    assert Walkable(Authorizing, [Authority]);
    assert Walkable(Fenced, [Authorizing, Authority]);
    assert Walkable(Fencing, [Fenced, Authorizing, Authority]);
  }

  lemma RouteWalkable(route: Route)
    ensures Walkable(Linked, PathOf(route))
    ensures !route.Direct? ==> PathOf(route) != [] && PathOf(route)[|PathOf(route)| - 1] == Authority
  {
    if !route.Direct? {
      AfterStopWalkable(route);
      var path := PathOf(route);
      assert path[1..] == [Stopped] + AfterStop(route) && path[1..][1..] == AfterStop(route);
      assert Walkable(Stopping, path[1..]);
    }
  }

  // ---------------------------------------------------------------- commit

  lemma RouteRun(w1: World, o: Origin, at: Stop, route: Route, c: Wanted) returns (next: Stop)
    requires OriginOk(o) && Reached(w1, o, at, Linked, 3) && Original(at.w, o.m) && FullyTaken(o, at.s)
    requires DesiredMode(Service, c.mode)
    requires forall k: Kind :: at.w.files.At(k).draft.None? && at.w.files.At(k).publication.None?
    ensures Reached(w1, o, next, CandidateStarting, |PathOf(route)| + 4) && FullyTaken(o, next.s) && Configured(next.w.files, c)
  {
    RouteWalkable(route);
    next := Walk(w1, o, at, Linked, 3, PathOf(route));
    next := StartingRun(w1, o, next, if route.Direct? then Linked else Authority, 3 + |PathOf(route)|, c);
  }

  lemma HealthyRun(w1: World, o: Origin, at: Stop, n: nat) returns (next: Stop)
    requires OriginOk(o) && Reached(w1, o, at, CandidateStarting, n) && FullyTaken(o, at.s)
    ensures Reached(w1, o, next, Committed, n + 3) && next.s == at.s && next.w.files == at.w.files
  {
    next := DesiredOn(w1, o, at, CandidateStarting, n, CandidateHealthy);
    next := DesiredOn(w1, o, next, CandidateHealthy, n + 1, Committing);
    next := DesiredOn(w1, o, next, Committing, n + 2, Committed);
  }

  lemma CommitFrom(w1: World, o: Origin, at: Stop, route: Route, c: Wanted) returns (next: Stop)
    requires OriginOk(o) && Reached(w1, o, at, Prepared, 0) && CandidateMoveHappens(o.tree, o.m) && Original(at.w, o.m)
    requires DesiredMode(Service, c.mode)
    requires forall k: Kind :: at.w.files.At(k).draft.None? && at.w.files.At(k).publication.None?
    ensures Reached(w1, o, next, Committed, |PathOf(route)| + 7) && InUse(next.w.tree, o.m, o.tree) && Configured(next.w.files, c)
  {
    next := LinkedRun(w1, o, at);
    next := RouteRun(w1, o, next, route, c);
    next := HealthyRun(w1, o, next, |PathOf(route)| + 4);
    TakenInUse(next.w, o, next.s);
  }

  lemma FinishCommitted(w: World, o: Origin, s: Shape, scan: Scan, fuel: nat)
    requires OriginOk(o) && InvAt(w, o, s) && ManifestOf(w).phase.Committed? && Vacant(w, o.m.id)
    requires AllChildren(scan.children) && Retired(o.m.id) in scan.dirs && fuel >= FinishCost(scan)
    ensures var r := Finish(w, o.m.id, scan, fuel);
            && r.Live? && Active !in r.w.txns && Retired(o.m.id) !in r.w.txns && r.w.tree == w.tree
            && r.w.files.env.config == w.files.env.config && r.w.files.service.config == w.files.service.config
  {
    SettledIsFinishing(w, o, s);
    FinishStep(w, ManifestOf(w), scan, fuel);
  }

  /** Activation does what it is for: every recoverable layout whose activation completes has, by each
      route and for any wanted configurations, a careful run of accepted commands from `begin` to
      committed; then the candidate is in use, the prior release is where `previous` points and the
      configurations are the wanted ones, and `finish` completes and leaves all of it in place. */
  lemma CommitRun(w0: World, a: BeginArgs, scan: Scan, fuel: nat, route: Route, c: Wanted, scan': Scan, fuel': nat)
    returns (log: seq<Issue>)
    requires ActivationRuns.Startable(w0, a, scan, fuel) && CandidateMoveHappens(w0.tree, Capture(w0.tree, w0.files, a).value)
    requires Vacant(w0, a.id) && AllChildren(scan.children) && DesiredMode(Service, c.mode)
    requires AllChildren(scan'.children) && Retired(a.id) in scan'.dirs && fuel' >= FinishCost(scan')
    ensures var w1 := Begin(w0, a, scan, fuel).w;
            && Active in w1.txns && w1.txns[Active].manifest.Some? && CarefulRun(w1, log)
            && var w, m := RunAll(w1, log), Capture(w0.tree, w0.files, a).value;
               && Active in w.txns && w.txns[Active].manifest.Some? && ManifestOf(w).phase.Committed?
               && InUse(w.tree, m, w0.tree) && Configured(w.files, c)
               && var r := Finish(w, a.id, scan', fuel');
                  && r.Live? && Active !in r.w.txns && Retired(a.id) !in r.w.txns
                  && InUse(r.w.tree, m, w0.tree) && Configured(r.w.files, c)
  {
    var o, at := Starts(w0, a, scan, fuel);
    var w1 := Begin(w0, a, scan, fuel).w;
    BeginVacant(w0, a, scan, fuel);
    var next := CommitFrom(w1, o, at, route, c);
    RunVacant(w1, next.log, a.id);
    FinishCommitted(next.w, o, next.s, scan', fuel');
    log := next.log;
  }
}

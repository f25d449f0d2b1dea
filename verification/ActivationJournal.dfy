/**
 The journal's phase graph, its validation of the disk, and its seven commands, each as a
 function of the world and of the fuel left before power is lost.
 */
module ActivationJournal {
  import opened Wrappers
  import opened ActivationDisk

  // ---------------------------------------------------------------- phases

  // The edges of the phase graph.
  predicate Follows(p: Phase, q: Phase) {
    match p
    case Prepared => q.Guarded? || q.Linking? || q.RollingBack?
    case Guarded => q.Linking? || q.RollingBack?
    case Linking => q.Linked? || q.RollingBack?
    case Linked => q.Stopping? || q.CandidateStarting? || q.RollingBack?
    case Stopping => q.Stopped? || q.RollingBack?
    case Stopped => q.Fencing? || q.Fenced? || q.Authorizing? || q.RollingBack?
    case Fencing => q.Fenced? || q.RollingBack?
    case Fenced => q.Authorizing? || q.RollingBack?
    case Authorizing => q.Authority? || q.RollingBack?
    case Authority => q.CandidateStarting? || q.RollingBack?
    case CandidateStarting => q.CandidateHealthy? || q.RollingBack?
    case CandidateHealthy => q.Committing? || q.RollingBack?
    case Committing => q.Committed?
    case Committed => false
    case RollingBack => q.RolledBack?
    case RolledBack => q.RollbackHealthy?
    case RollbackHealthy => false
  }

  predicate RollbackPhase(p: Phase) {
    p.RollingBack? || p.RolledBack? || p.RollbackHealthy?
  }

  predicate CommitPhase(p: Phase) {
    p.Committing? || p.Committed?
  }

  predicate PreCommit(p: Phase) {
    !RollbackPhase(p) && !CommitPhase(p)
  }

  predicate Terminal(p: Phase) {
    p.Committed? || p.RollbackHealthy?
  }

  // Phases in which the configuration files must still be the captured ones.
  predicate PristineConfigs(p: Phase) {
    || p.Prepared? || p.Guarded? || p.Linking? || p.Stopping? || p.Stopped? || p.Fencing?
    || p.RolledBack? || p.RollbackHealthy?
  }

  // Phases in which any configuration of the recorded history is accepted.
  predicate HistoryConfigs(p: Phase) {
    p.Linked? || p.Fenced? || p.Authorizing? || p.Authority? || p.RollingBack?
  }

  // ---------------------------------------------------------------- reading the disk

  predicate Matches(t: Tree, p: Path, r: Identity) {
    Get(t, p) == Some(Dir(r.inode, r.version))
  }

  predicate PointsTo(t: Tree, p: Path, r: Identity) {
    p in t && t[p].Link? && Matches(t, t[p].text.path, r)
  }

  // None when the path holds something unsupported.
  function LinkStateAt(t: Tree, p: Path, allowDirectory: bool): Option<LinkState> {
    if p !in t then Some(Missing)
    else match t[p]
      case Link(text) => Some(Symlink(text))
      case Dir(_, _) => if allowDirectory then Some(Directory) else None
      case Plain => None
  }

  predicate CandidateLocated(t: Tree, m: Manifest, parked: Option<Node>) {
    || Matches(t, m.candidate.source, m.candidate)
    || Matches(t, m.candidate.target, m.candidate)
    || Matches(t, RetiredCandidate(m.id), m.candidate)
    || parked == Some(Dir(m.candidate.inode, m.candidate.version))
  }

  predicate PriorLocated(t: Tree, m: Manifest) {
    m.prior.Some? ==>
      Matches(t, m.prior.value.source, m.prior.value) || Matches(t, m.prior.value.target, m.prior.value)
  }

  predicate OriginalCurrent(t: Tree, m: Manifest) {
    && LinkStateAt(t, Current, true) == Some(m.current)
    && (m.current.Missing?
        || (m.prior.Some?
            && ((m.current.Symlink? && PointsTo(t, Current, m.prior.value))
                || (m.current.Directory? && Matches(t, Current, m.prior.value)))))
  }

  predicate CurrentAccepted(t: Tree, m: Manifest, allowMissing: bool) {
    var state := LinkStateAt(t, Current, true);
    var isCandidate := state == Some(Symlink(Spelled(m.releaseDir)));
    var dangling := isCandidate && m.releaseDir !in t;
    var candidateValid := (isCandidate && PointsTo(t, Current, m.candidate)) || (allowMissing && dangling);
    && state.Some?
    && match m.phase
       case Prepared | Guarded | RolledBack | RollbackHealthy => OriginalCurrent(t, m)
       case Linking | RollingBack => OriginalCurrent(t, m) || candidateValid || state == Some(Missing) || dangling
       case _ => candidateValid
  }

  predicate OriginalPrevious(t: Tree, m: Manifest) {
    && LinkStateAt(t, Previous, false) == Some(m.previous)
    && (m.previousRelease.Some? ==> PointsTo(t, Previous, m.previousRelease.value))
  }

  predicate PreviousAccepted(t: Tree, m: Manifest) {
    var state := LinkStateAt(t, Previous, false);
    var isCandidate := m.prior.Some? && state == Some(Symlink(Spelled(m.prior.value.target)));
    var candidateValid :=
      if m.prior.None? then OriginalPrevious(t, m) else isCandidate && PointsTo(t, Previous, m.prior.value);
    var dangling := m.phase.RollingBack? && isCandidate && Matches(t, m.prior.value.source, m.prior.value);
    && state.Some?
    && match m.phase
       case Prepared | Guarded | RolledBack | RollbackHealthy => OriginalPrevious(t, m)
       case Linking | RollingBack => OriginalPrevious(t, m) || candidateValid || dangling || state == Some(Missing)
       case _ => candidateValid
  }

  // `_read_owned_regular` accepts the destination.
  predicate Readable(f: Files, k: Kind) {
    f.At(k).config.Some? ==>
      LinkCount(f, f.At(k).config.value.inode) == 1 && !SharedWritable(f.At(k).config.value.mode)
  }

  function MetaAt(f: Files, k: Kind): Option<Meta> {
    if f.At(k).config.Some? then Some(Meta(f.At(k).config.value.bytes, f.At(k).config.value.mode)) else None
  }

  function DigestAt(f: Files, k: Kind): Option<string> {
    if f.At(k).config.Some? then Some(f.At(k).config.value.bytes) else None
  }

  predicate RestorableMode(k: Kind, mode: Mode) {
    mode.M600? || (k.Service? && (mode.M640? || mode.M644?))
  }

  predicate DesiredMode(k: Kind, mode: Mode) {
    mode.M600? || (k.Service? && mode.M644?)
  }

  function FileOf(d: Desired): File {
    File(d.inode, d.bytes, d.mode)
  }

  predicate ConfigMatches(f: Files, k: Kind, d: Desired) {
    f.At(k).config == Some(FileOf(d)) && Readable(f, k)
  }

  predicate Recorded(f: Files, m: Manifest, k: Kind) {
    && DigestAt(f, k) in m.observed.At(k)
    && (f.At(k).config.Some? ==> RestorableMode(k, f.At(k).config.value.mode))
  }

  predicate ConfigsAccepted(f: Files, m: Manifest) {
    && Readable(f, Env) && Readable(f, Service)
    && if PristineConfigs(m.phase) then
         MetaAt(f, Env) == m.original.env && MetaAt(f, Service) == m.original.service
       else if HistoryConfigs(m.phase) then
         Recorded(f, m, Env) && Recorded(f, m, Service)
       else
         && m.desired.env.Some? && ConfigMatches(f, Env, m.desired.env.value)
         && m.desired.service.Some? && ConfigMatches(f, Service, m.desired.service.value)
  }

  // The validation every command runs before it acts.
  predicate Accepts(t: Tree, f: Files, m: Manifest, parked: Option<Node>, allowMissing: bool) {
    && PriorLocated(t, m)
    && (allowMissing || CandidateLocated(t, m, parked))
    && CurrentAccepted(t, m, allowMissing)
    && PreviousAccepted(t, m)
    && ConfigsAccepted(f, m)
  }

  datatype Loaded = Loaded(m: Manifest) | NotFound | Corrupt

  predicate BackupMissing(x: Txn, m: Manifest, k: Kind) {
    m.original.At(k).Some? && k !in x.backups
  }

  predicate BackupChanged(x: Txn, m: Manifest, k: Kind) {
    m.original.At(k).Some? && k in x.backups && x.backups[k] != m.original.At(k).value.bytes
  }

  function Load(w: World, name: TxnName): Loaded {
    if name !in w.txns || w.txns[name].manifest.None? then NotFound
    else
      var x := w.txns[name];
      var m := x.manifest.value;
      if (m.rollbackFrom.Some? != RollbackPhase(m.phase))
         || (m.rollbackFrom.Some? && !PreCommit(m.rollbackFrom.value)) then Corrupt
      else if BackupMissing(x, m, Env) then NotFound
      else if BackupChanged(x, m, Env) then Corrupt
      else if BackupMissing(x, m, Service) then NotFound
      else if BackupChanged(x, m, Service) then Corrupt
      else Loaded(m)
  }

  // Load the live journal for an owned command and validate it.
  datatype Opened = Opened(m: Manifest) | Closed(why: Reason)

  function Open(w: World, id: string, allowMissing: bool): Opened {
    match Load(w, Active)
    case NotFound => Closed(NoTransaction)
    case Corrupt => Closed(InvalidManifest)
    case Loaded(m) =>
      if m.id != id then Closed(ForeignTransaction)
      else if Active in w.txns && Accepts(w.tree, w.files, m, w.txns[Active].parked, allowMissing) then Opened(m)
      else Closed(JournalMismatch)
  }

  // ---------------------------------------------------------------- sweeping retired directories

  datatype Child = Journal | Backup(k: Kind) | Parked

  // The order in which a directory scan happens to yield names.
  datatype Scan = Scan(dirs: seq<TxnName>, children: seq<Child>)

  predicate Holds(x: Txn, c: Child) {
    match c
    case Journal => x.manifest.Some?
    case Backup(k) => k in x.backups
    case Parked => x.parked.Some?
  }

  function Without(x: Txn, c: Child): Txn {
    match c
    case Journal => x.(manifest := None)
    case Backup(k) => x.(backups := x.backups - {k})
    case Parked => x.(parked := None)
  }

  function RemoveChildren(w: World, name: TxnName, cs: seq<Child>, fuel: nat): Run
    decreases |cs|
  {
    if cs == [] || name !in w.txns then Live(w, fuel)
    else if !Holds(w.txns[name], cs[0]) then RemoveChildren(w, name, cs[1..], fuel)
    else if cs[0].Parked? && !w.txns[name].parked.value.Dir? then Refuse(w, UnsafeCandidate)
    else
      var (w, fuel) :- Step(w, fuel, w.WithTxn(name, Without(w.txns[name], cs[0])));
      RemoveChildren(w, name, cs[1..], fuel)
  }

  function RemoveDirectory(w: World, name: TxnName, cs: seq<Child>, fuel: nat): Run {
    var (w, fuel) :- RemoveChildren(w, name, cs, fuel);
    if name !in w.txns then Live(w, fuel)
    else if w.txns[name] != Txn(None, map[], None) then Refuse(w, DirectoryNotEmpty)
    else Step(w, fuel, w.(txns := w.txns - {name}))
  }

  function Sweep(w: World, scan: Scan, fuel: nat): Run
    decreases |scan.dirs|
  {
    if scan.dirs == [] then Live(w, fuel)
    else if scan.dirs[0].Active? then Sweep(w, scan.(dirs := scan.dirs[1..]), fuel)
    else
      var (w, fuel) :- RemoveDirectory(w, scan.dirs[0], scan.children, fuel);
      Sweep(w, scan.(dirs := scan.dirs[1..]), fuel)
  }

  // ---------------------------------------------------------------- begin

  datatype BeginArgs = BeginArgs(
    id: string,
    token: nat,
    version: string,
    releaseDir: Path,
    candidateSource: Path,
    oldSource: Option<Path>,
    oldTarget: Option<Path>)

  predicate PathsValid(a: BeginArgs) {
    && a.releaseDir == Release(a.version)
    && InReleases(a.candidateSource) && a.candidateSource != a.releaseDir
    && a.oldSource.Some? == a.oldTarget.Some?
    && (a.oldTarget.Some? ==> InReleases(a.oldTarget.value))
    && (a.oldSource.Some? ==> InReleases(a.oldSource.value) || a.oldSource.value.Current?)
  }

  predicate Capturable(f: Files, k: Kind) {
    f.At(k).config.Some? ==> Readable(f, k) && RestorableMode(k, f.At(k).config.value.mode)
  }

  function IdentityAt(t: Tree, source: Path, target: Path): Option<Identity> {
    if source in t && t[source].Dir? then Some(Identity(source, target, t[source].inode, t[source].version)) else None
  }

  // The release `previous` resolves to; a dangling link claims no identity.
  function PreviousIdentity(t: Tree): Option<Identity> {
    if Previous in t && t[Previous].Link? then IdentityAt(t, t[Previous].text.path, t[Previous].text.path) else None
  }

  predicate PreviousCapturable(t: Tree) {
    Previous in t ==>
      && t[Previous].Link?
      && var q := t[Previous].text.path;
         q in t ==> t[q].Dir? && InReleases(q)
  }

  predicate CurrentCapturable(t: Tree, a: BeginArgs, prior: Option<Identity>) {
    if Current !in t then a.oldSource.None?
    else
      && a.oldSource.Some? && prior.Some?
      && match t[Current]
         case Dir(_, _) => a.oldSource.value == Current && Matches(t, Current, prior.value)
         case Link(text) => Matches(t, text.path, prior.value)
         case Plain => false
  }

  function Capture(t: Tree, f: Files, a: BeginArgs): Option<Manifest> {
    if !PathsValid(a) || !Capturable(f, Env) || !Capturable(f, Service) then None
    else
      var prior := if a.oldSource.Some? then IdentityAt(t, a.oldSource.value, a.oldTarget.value) else None;
      var candidate := IdentityAt(t, a.candidateSource, a.releaseDir);
      var current := LinkStateAt(t, Current, true);
      if (a.oldSource.Some? && prior.None?) || candidate.None? || current.None? then None
      else if candidate.value.version != a.version || !CurrentCapturable(t, a, prior) || !PreviousCapturable(t) then None
      else
        var previous := LinkStateAt(t, Previous, false);
        Some(Manifest(a.id, a.releaseDir, candidate.value, prior, current.value, previous.value, PreviousIdentity(t),
                      Pair(MetaAt(f, Env), MetaAt(f, Service)),
                      Pair(None, None),
                      Pair([DigestAt(f, Env)], [DigestAt(f, Service)]),
                      Prepared, None, None, None, false))
  }

  function Backups(f: Files): map<Kind, string> {
    map k: Kind | k in {Env, Service} && f.At(k).config.Some? :: f.At(k).config.value.bytes
  }

  function Begin(w: World, a: BeginArgs, scan: Scan, fuel: nat): Run {
    var (w, fuel) :- Sweep(w, scan, fuel);
    if Active in w.txns then Refuse(w, AlreadyPending)
    else
      var captured := Capture(w.tree, w.files, a);
      if captured.None? || Staging(a.token) in w.txns then Refuse(w, LayoutUnsupported)
      else
        var x := Txn(captured, Backups(w.files), None);
        if !Accepts(w.tree, w.files, captured.value, None, false) then Refuse(w, LayoutChanged)
        else
          var (w, fuel) :- Step(w, fuel, w.WithTxn(Staging(a.token), x));
          Step(w, fuel, w.(txns := (w.txns - {Staging(a.token)})[Active := x]))
  }

  // ---------------------------------------------------------------- record

  datatype RecordArgs = RecordArgs(
    phase: Phase,
    hub: Option<(Binding, Option<Fence>)>,  // binding and expected fence coordinates
    fence: Option<Fence>,                   // the fence file found on disk
    guard: Option<Guard>,
    authority: Option<bool>)

  function NewPhase(m: Manifest, phase: Phase): Option<Manifest> {
    if phase == m.phase then Some(m)
    else if !Follows(m.phase, phase) then None
    else Some(m.(phase := phase, rollbackFrom := if phase.RollingBack? then Some(m.phase) else m.rollbackFrom))
  }

  function BindHub(m: Manifest, before: Phase, a: RecordArgs): Option<Manifest> {
    if a.hub.None? then Some(m)
    else if a.fence.None? || (a.hub.value.1.Some? && a.hub.value.1 != a.fence) then None
    else
      var hub := Hub(a.hub.value.0, a.fence.value);
      if m.hub.Some? && m.hub.value != hub
         && !(before.Fencing? && (a.phase.Fenced? || a.phase.RollingBack?) && m.hub.value.binding == hub.binding)
      then None
      else Some(m.(hub := Some(hub)))
  }

  function BindGuard(m: Manifest, a: RecordArgs): Option<Manifest> {
    if a.guard.None? then Some(m)
    else if m.guard.Some? && m.guard != a.guard then None
    else Some(m.(guard := a.guard))
  }

  // The manifest `record` writes, when its metadata rules allow one.
  function Amend(m: Manifest, a: RecordArgs): Option<Manifest> {
    var phased := NewPhase(m, a.phase);
    if phased.None? then None
    else
      var bound := BindHub(phased.value, m.phase, a);
      if bound.None? then None
      else
        var guarded := BindGuard(bound.value, a);
        if guarded.None? then None
        else
          var m' := if a.authority.Some? then guarded.value.(authorityPending := a.authority.value) else guarded.value;
          if Terminal(m.phase) && m' != m then None else Some(m')
  }

  function WriteManifest(w: World, m: Manifest, fuel: nat): Run
    requires Active in w.txns
  {
    Step(w, fuel, w.WithTxn(Active, w.txns[Active].(manifest := Some(m))))
  }

  function Record(w: World, id: string, a: RecordArgs, fuel: nat): Run {
    var allowMissing := RollbackPhase(a.phase);
    match Open(w, id, allowMissing)
    case Closed(why) => Refuse(w, why)
    case Opened(m) =>
      var m' := Amend(m, a);
      if m'.None? then Refuse(w, InvalidRecord)
      else if Active !in w.txns || !Accepts(w.tree, w.files, m'.value, w.txns[Active].parked, allowMissing) then
        Refuse(w, PhaseMismatch)
      else WriteManifest(w, m'.value, fuel)
  }

  // ---------------------------------------------------------------- replace-config

  // `_staged_config_metadata` accepts the name.
  predicate StagingSafe(f: Files, x: File) {
    LinkCount(f, x.inode) in {1, 2} && !SharedWritable(x.mode)
  }

  function Publish(w: World, k: Kind, d: Desired, fuel: nat): Run {
    var s := w.files.At(k);
    if s.publication.None? then Refuse(w, NoPublication)
    else if !StagingSafe(w.files, s.publication.value) || s.publication.value != FileOf(d) then
      Refuse(w, PublicationChanged)
    else
      var s := if s.draft.Some? && s.draft.value.inode == d.inode then s.(draft := None) else s;
      var (w, fuel) :- if s == w.files.At(k) then Live(w, fuel) else Step(w, fuel, w.WithSlot(k, s));
      var (w, fuel) :- Step(w, fuel, w.WithSlot(k, s.(config := s.publication, publication := None)));
      if ConfigMatches(w.files, k, d) then Live(w, fuel)
      else Refuse(w, PublicationChanged)
  }

  function Intend(m: Manifest, k: Kind, d: Desired): Manifest {
    var history := m.observed.At(k);
    m.(desired := m.desired.Put(k, Some(d)),
       observed := m.observed.Put(k, if Some(d.bytes) in history then history else history + [Some(d.bytes)]))
  }

  // Journal the intent for the draft, then secure it under a second name.
  function Stage(w: World, m: Manifest, k: Kind, d: Desired, fuel: nat): Run
    requires Active in w.txns
  {
    var (w, fuel) :- WriteManifest(w, Intend(m, k, d), fuel);
    var (w, fuel) :- Step(w, fuel, w.(files := Chmod(w.files, d.inode, d.mode)));
    Step(w, fuel, w.WithSlot(k, w.files.At(k).(publication := w.files.At(k).draft)))
  }

  function ReplaceConfig(w: World, id: string, k: Kind, mode: Mode, fuel: nat): Run {
    match Open(w, id, false)
    case Closed(why) => Refuse(w, why)
    case Opened(m) =>
      var s := w.files.At(k);
      var d := m.desired.At(k);
      if !PreCommit(m.phase) then Refuse(w, WrongPhase)
      else if !DesiredMode(k, mode) then Refuse(w, InvalidMode)
      else if s.draft.None? && (d.None? || d.value.mode != mode) then
        Refuse(w, NoDraft)
      else if s.publication.Some? then
        if d.None? || d.value.mode != mode then Refuse(w, PublicationPathTaken)
        else Publish(w, k, d.value, fuel)
      else if s.draft.None? then
        if ConfigMatches(w.files, k, d.value) then Live(w, fuel)
        else Refuse(w, PublicationIncomplete)
      else if LinkCount(w.files, s.draft.value.inode) != 1 || SharedWritable(s.draft.value.mode) || Active !in w.txns then
        Refuse(w, StagingUnsafe)
      else
        var desired := Desired(s.draft.value.inode, s.draft.value.bytes, mode);
        var (w, fuel) :- Stage(w, m, k, desired, fuel);
        Publish(w, k, desired, fuel)
  }

  // The caller creates a draft under a name that must not exist yet.
  function PlaceDraft(w: World, k: Kind, bytes: string): World {
    if w.files.At(k).draft.Some? then w
    else w.WithSlot(k, w.files.At(k).(draft := Some(File(w.next, bytes, M600)))).(next := w.next + 1)
  }

  // ---------------------------------------------------------------- activate-files

  function Rename(w: World, a: Path, b: Path, fuel: nat): Run {
    if a !in w.tree then Refuse(w, NoSuchFile)
    else if b in w.tree then Refuse(w, DirectoryNotEmpty)
    else Step(w, fuel, w.WithTree(Move(w.tree, a, b)))
  }

  function Relink(w: World, p: Path, text: Text, fuel: nat): Run {
    if p in w.tree && w.tree[p].Dir? then Refuse(w, IsADirectory)
    else Step(w, fuel, w.WithTree(w.tree[p := Link(text)]))
  }

  function Unlink(w: World, p: Path, fuel: nat): Run {
    Step(w, fuel, w.WithTree(w.tree - {p}))
  }

  predicate Moves(m: Manifest) {
    m.prior.Some? && m.prior.value.source != m.prior.value.target
  }

  function MovePrior(w: World, m: Manifest, fuel: nat): Run {
    if !Moves(m) then Live(w, fuel)
    else
      var r := m.prior.value;
      if Matches(w.tree, r.source, r) then
        if r.target in w.tree then Refuse(w, QuarantineTaken)
        else Rename(w, r.source, r.target, fuel)
      else if Matches(w.tree, r.target, r) then Live(w, fuel)
      else Refuse(w, NoPriorRelease)
  }

  function MoveCandidate(w: World, m: Manifest, fuel: nat): Run {
    var c := m.candidate;
    if Matches(w.tree, c.target, c) then Live(w, fuel)
    else if !Matches(w.tree, c.source, c) then Refuse(w, NoCandidate)
    else if c.target in w.tree then Refuse(w, CandidateDestinationTaken)
    else Rename(w, c.source, c.target, fuel)
  }

  function TakeLinks(w: World, m: Manifest, fuel: nat): Run {
    var (w, fuel) :-
      if m.prior.Some? then Relink(w, Previous, Spelled(m.prior.value.target), fuel) else Live(w, fuel);
    Relink(w, Current, Spelled(m.releaseDir), fuel)
  }

  function ActivateFiles(w: World, id: string, fuel: nat): Run {
    match Open(w, id, false)
    case Closed(why) => Refuse(w, why)
    case Opened(m) => if !m.phase.Linking? then Refuse(w, WrongPhase) else ActivateTree(w, m, fuel)
  }

  function ActivateTree(w: World, m: Manifest, fuel: nat): Run {
    var (w, fuel) :- MovePrior(w, m, fuel);
    var (w, fuel) :- MoveCandidate(w, m, fuel);
    var (w, fuel) :- TakeLinks(w, m, fuel);
    if Matches(w.tree, m.candidate.target, m.candidate) then Live(w, fuel)
    else Refuse(w, CandidateChanged)
  }

  // ---------------------------------------------------------------- restore-files

  // Clear the prior release's own path: a link at `current` is dropped, a candidate is parked.
  function ClearPriorPath(w: World, m: Manifest, fuel: nat): Run
    requires Moves(m) && Active in w.txns
  {
    var source := m.prior.value.source;
    var c := m.candidate;
    if source !in w.tree then Live(w, fuel)
    else if w.tree[source].Link? && source.Current? then Unlink(w, source, fuel)
    else if !Matches(w.tree, source, c) then Refuse(w, CandidateChanged)
    else if w.txns[Active].parked == Some(Dir(c.inode, c.version)) then Live(w, fuel)
    else if w.txns[Active].parked.Some? then Refuse(w, RetirementPathTaken)
    else
      Step(w, fuel, w.WithTree(w.tree - {source}).WithTxn(Active, w.txns[Active].(parked := Some(w.tree[source]))))
  }

  function ReturnPrior(w: World, m: Manifest, fuel: nat): Run
    requires Active in w.txns
  {
    if !Moves(m) || Matches(w.tree, m.prior.value.source, m.prior.value) then Live(w, fuel)
    else if !Matches(w.tree, m.prior.value.target, m.prior.value) then Refuse(w, NoPriorRelease)
    else
      var (w, fuel) :- ClearPriorPath(w, m, fuel);
      Rename(w, m.prior.value.target, m.prior.value.source, fuel)
  }

  function RestoreCurrent(w: World, m: Manifest, fuel: nat): Run {
    match m.current
    case Symlink(text) => Relink(w, Current, text, fuel)
    case Missing =>
      if Current !in w.tree then Live(w, fuel)
      else if !w.tree[Current].Link? then Refuse(w, LinkChanged)
      else Unlink(w, Current, fuel)
    case Directory =>
      if Current in w.tree && w.tree[Current].Dir? then Live(w, fuel)
      else if Current in w.tree && w.tree[Current].Plain? then Refuse(w, LinkChanged)
      else if m.prior.None? then Refuse(w, NoPriorRelease)
      else
        var (w, fuel) :- if Current in w.tree then Unlink(w, Current, fuel) else Live(w, fuel);
        Rename(w, m.prior.value.target, Current, fuel)
  }

  function RestorePrevious(w: World, m: Manifest, fuel: nat): Run {
    if m.previous.Symlink? then Relink(w, Previous, m.previous.text, fuel)
    else if Previous !in w.tree then Live(w, fuel)
    else if !w.tree[Previous].Link? then Refuse(w, LinkChanged)
    else Unlink(w, Previous, fuel)
  }

  predicate DraftDiscardable(f: Files, k: Kind, d: Option<Desired>)
    requires f.At(k).draft.Some?
  {
    var draft := f.At(k).draft.value;
    var publication := f.At(k).publication;
    || (d.Some? && draft == FileOf(d.value))
    || (&& LinkCount(f, draft.inode) == 1 && draft.mode.M600?
        && (d.Some? && publication.Some? ==> publication.value == FileOf(d.value)))
  }

  function CleanupKind(w: World, m: Manifest, k: Kind, fuel: nat): Run {
    var s := w.files.At(k);
    var d := m.desired.At(k);
    if s.publication.Some? && !StagingSafe(w.files, s.publication.value) then
      Refuse(w, StagingUnsafe)
    else if s.draft.Some? && !StagingSafe(w.files, s.draft.value) then
      Refuse(w, StagingUnsafe)
    else if s.draft.Some? && !DraftDiscardable(w.files, k, d) then
      Refuse(w, DraftChanged)
    else
      var (w, fuel) :- if s.draft.Some? then Step(w, fuel, w.WithSlot(k, s.(draft := None))) else Live(w, fuel);
      if s.publication.None? then Live(w, fuel)
      else if d.None? || s.publication.value != FileOf(d.value) then
        Refuse(w, PublicationChanged)
      else Step(w, fuel, w.WithSlot(k, w.files.At(k).(publication := None)))
  }

  function CleanupStaging(w: World, m: Manifest, fuel: nat): Run {
    var (w, fuel) :- CleanupKind(w, m, Env, fuel);
    CleanupKind(w, m, Service, fuel)
  }

  function RestoreConfig(w: World, m: Manifest, k: Kind, fuel: nat): Run
    requires Active in w.txns
  {
    var s := w.files.At(k);
    if m.original.At(k).None? then
      if s.config.None? then Live(w, fuel) else Step(w, fuel, w.WithSlot(k, s.(config := None)))
    else if k !in w.txns[Active].backups then Refuse(w, NoBackup)
    else
      var x := File(w.next, w.txns[Active].backups[k], m.original.At(k).value.mode);
      Step(w, fuel, w.WithSlot(k, s.(config := Some(x))).(next := w.next + 1))
  }

  function RestoreTree(w: World, m: Manifest, fuel: nat): Run
    requires Active in w.txns
  {
    var (w, fuel) :- ReturnPrior(w, m, fuel);
    var (w, fuel) :- RestoreCurrent(w, m, fuel);
    RestorePrevious(w, m, fuel)
  }

  function RestoreConfigs(w: World, m: Manifest, fuel: nat): Run {
    if Active !in w.txns then Refuse(w, NoTransaction)
    else
      var (w, fuel) :- RestoreConfig(w, m, Env, fuel);
      if Active !in w.txns then Refuse(w, NoTransaction)
      else RestoreConfig(w, m, Service, fuel)
  }

  function RestoreFiles(w: World, id: string, fuel: nat): Run {
    match Open(w, id, true)
    case Closed(why) => Refuse(w, why)
    case Opened(m) =>
      if !m.phase.RollingBack? || Active !in w.txns then Refuse(w, WrongPhase)
      else
        var (w, fuel) :- RestoreTree(w, m, fuel);
        var (w, fuel) :- CleanupStaging(w, m, fuel);
        RestoreConfigs(w, m, fuel)
  }

  // ---------------------------------------------------------------- finish

  function CandidatePath(t: Tree, m: Manifest): Option<Path> {
    if Matches(t, m.candidate.source, m.candidate) then Some(m.candidate.source)
    else if Matches(t, m.candidate.target, m.candidate) then Some(m.candidate.target)
    else if Matches(t, RetiredCandidate(m.id), m.candidate) then Some(RetiredCandidate(m.id))
    else None
  }

  function ParkCandidate(w: World, m: Manifest, name: TxnName, fuel: nat): Run
    requires name in w.txns
  {
    var p := CandidatePath(w.tree, m);
    if p.None? then Live(w, fuel)
    else if w.txns[name].parked.Some? then Refuse(w, RetirementPathTaken)
    else
      Step(w, fuel, w.WithTree(w.tree - {p.value}).WithTxn(name, w.txns[name].(parked := Get(w.tree, p.value))))
  }

  // Exactly the journal, the captured backups and, after a rollback, a parked candidate.
  predicate ExpectedContents(x: Txn, m: Manifest) {
    && x.manifest.Some?
    && (forall k: Kind :: k in x.backups <==> m.original.At(k).Some?)
    && (x.parked.Some? ==> m.phase.RollbackHealthy?)
  }

  function Retire(w: World, m: Manifest, id: string, name: TxnName, scan: Scan, fuel: nat): Run {
    if name !in w.txns || !ExpectedContents(w.txns[name], m) then
      Refuse(w, UnexpectedContents)
    else
      var (w, fuel) :-
        if name == Retired(id) then Live(w, fuel)
        else if Retired(id) in w.txns then Refuse(w, RetirementPathTaken)
        else Step(w, fuel, w.(txns := (w.txns - {name})[Retired(id) := w.txns[name]]));
      Sweep(w, scan, fuel)
  }

  function FinishFrom(w: World, m: Manifest, id: string, name: TxnName, scan: Scan, fuel: nat): Run
    requires name in w.txns
  {
    if m.id != id then Refuse(w, ForeignTransaction)
    else if !Accepts(w.tree, w.files, m, w.txns[name].parked, m.phase.RollbackHealthy?) then
      Refuse(w, JournalMismatch)
    else if !Terminal(m.phase) then Refuse(w, WrongPhase)
    else
      var (w, fuel) :- if m.phase.RollbackHealthy? then ParkCandidate(w, m, name, fuel) else Live(w, fuel);
      var (w, fuel) :- CleanupStaging(w, m, fuel);
      Retire(w, m, id, name, scan, fuel)
  }

  function Finish(w: World, id: string, scan: Scan, fuel: nat): Run {
    if Active in w.txns then
      match Load(w, Active)
      case Loaded(m) => FinishFrom(w, m, id, Active, scan, fuel)
      case _ => Refuse(w, Unsettled)
    else if Retired(id) !in w.txns then Live(w, fuel)
    else
      match Load(w, Retired(id))
      case Loaded(m) => FinishFrom(w, m, id, Retired(id), scan, fuel)
      case NotFound => RemoveDirectory(w, Retired(id), scan.children, fuel)
      case Corrupt => Refuse(w, InvalidManifest)
  }
}

/**
 The part of the file system that one release activation touches.

 Release directories and the `current`/`previous` links live in a tree of named nodes.  The
 two configuration files and their staging names live in a second map, because they are
 regular files with inodes, modes and hard links.  Transaction directories hold the journal.

 Every operation is a function of a world and of the number of file-system steps left
 before power is lost.  Cutting an operation after any step is running it with less fuel.
 */
module ActivationDisk {
  import opened Wrappers

  // ---------------------------------------------------------------- release tree

  // `current` and `previous` in the root, entries of `releases/` (one of them reserved for a
  // retired candidate), and any other path a link may name.
  datatype Path = Current | Previous | Release(name: string) | RetiredCandidate(id: string) | Elsewhere(n: nat)

  predicate InReleases(p: Path) {
    p.Release? || p.RetiredCandidate?
  }

  // A link text: the path it resolves to and how it is spelled; spelling 0 is `str(path)`.
  datatype Text = Text(path: Path, spelling: nat)

  function Spelled(p: Path): Text {
    Text(p, 0)
  }

  // A release directory is identified by its inode and the contents of its VERSION file.
  datatype Node = Dir(inode: nat, version: string) | Link(text: Text) | Plain

  type Tree = map<Path, Node>

  function Get(t: Tree, p: Path): Option<Node> {
    if p in t then Some(t[p]) else None
  }

  function Move(t: Tree, a: Path, b: Path): Tree
    requires a in t
  {
    (t - {a})[b := t[a]]
  }

  // A directory has exactly one name.
  ghost predicate OneNamePerDirectory(t: Tree) {
    forall p, q :: p in t && q in t && t[p].Dir? && t[q].Dir? && t[p].inode == t[q].inode ==> p == q
  }

  // ---------------------------------------------------------------- configuration files

  datatype Kind = Env | Service

  datatype Mode = M600 | M640 | M644 | Odd(bits: nat)

  // `mode & 0o022`
  predicate SharedWritable(m: Mode) {
    m.Odd? && ((m.bits / 16) % 2 == 1 || (m.bits / 2) % 2 == 1)
  }

  // Contents stand for their SHA-256 digests.
  datatype File = File(inode: nat, bytes: string, mode: Mode)

  datatype Pair<+T> = Pair(env: T, service: T) {
    function At(k: Kind): T {
      if k.Env? then env else service
    }

    function Put(k: Kind, v: T): Pair<T> {
      if k.Env? then this.(env := v) else this.(service := v)
    }
  }

  // The three names of one configuration file: the destination, the draft the caller
  // writes, and the secured hard link of a draft.
  datatype Slot = Slot(config: Option<File>, draft: Option<File>, publication: Option<File>)

  type Files = Pair<Slot>

  function Names(x: Option<File>, inode: nat): nat {
    if x.Some? && x.value.inode == inode then 1 else 0
  }

  function SlotLinks(s: Slot, inode: nat): nat {
    Names(s.config, inode) + Names(s.draft, inode) + Names(s.publication, inode)
  }

  // `st_nlink`
  function LinkCount(f: Files, inode: nat): nat {
    SlotLinks(f.env, inode) + SlotLinks(f.service, inode)
  }

  function ChmodName(x: Option<File>, inode: nat, mode: Mode): Option<File> {
    if x.Some? && x.value.inode == inode then Some(x.value.(mode := mode)) else x
  }

  function ChmodSlot(s: Slot, inode: nat, mode: Mode): Slot {
    Slot(ChmodName(s.config, inode, mode), ChmodName(s.draft, inode, mode), ChmodName(s.publication, inode, mode))
  }

  // A mode belongs to the inode and shows under all its names.
  function Chmod(f: Files, inode: nat, mode: Mode): Files {
    Pair(ChmodSlot(f.env, inode, mode), ChmodSlot(f.service, inode, mode))
  }

  // ---------------------------------------------------------------- the journal

  datatype Phase =
    | Prepared | Guarded | Linking | Linked | Stopping | Stopped | Fencing | Fenced
    | Authorizing | Authority | CandidateStarting | CandidateHealthy | Committing | Committed
    | RollingBack | RolledBack | RollbackHealthy

  // A captured release: where it is, where activation moves it, and which directory it is.
  datatype Identity = Identity(source: Path, target: Path, inode: nat, version: string)

  datatype LinkState = Missing | Symlink(text: Text) | Directory

  datatype Meta = Meta(bytes: string, mode: Mode)

  datatype Desired = Desired(inode: nat, bytes: string, mode: Mode)

  datatype Binding = Binding(kind: string, dataDir: string, hubId: string, host: string, operation: string, snapshot: string)

  datatype Fence = Fence(device: nat, inode: nat)

  datatype Hub = Hub(binding: Binding, fence: Fence)

  datatype Guard = Guard(id: string, device: nat, inode: nat)

  datatype Manifest = Manifest(
    id: string,
    releaseDir: Path,
    candidate: Identity,
    prior: Option<Identity>,
    current: LinkState,
    previous: LinkState,
    previousRelease: Option<Identity>,
    original: Pair<Option<Meta>>,
    desired: Pair<Option<Desired>>,
    observed: Pair<seq<Option<string>>>,
    phase: Phase,
    rollbackFrom: Option<Phase>,
    hub: Option<Hub>,
    guard: Option<Guard>,
    authorityPending: bool)

  datatype TxnName = Active | Retired(id: string) | Staging(n: nat)

  datatype Txn = Txn(manifest: Option<Manifest>, backups: map<Kind, string>, parked: Option<Node>)

  datatype World = World(tree: Tree, files: Files, txns: map<TxnName, Txn>, next: nat) {
    function WithTree(t: Tree): World {
      this.(tree := t)
    }

    function WithSlot(k: Kind, s: Slot): World {
      this.(files := files.Put(k, s))
    }

    function WithTxn(name: TxnName, t: Txn): World {
      this.(txns := txns[name := t])
    }
  }

  // ---------------------------------------------------------------- interruptible runs

  // Why a command refuses to go on.
  datatype Reason =
    | JournalMismatch | NoTransaction | InvalidManifest | ForeignTransaction | NoBackup
    | CandidateDestinationTaken | CandidateChanged | NoCandidate | RetirementPathTaken | WrongPhase
    | PublicationChanged | InvalidMode | PublicationIncomplete | NoPublication | StagingUnsafe
    | PublicationPathTaken | NoDraft | DraftChanged | PhaseMismatch | LayoutChanged
    | LayoutUnsupported | QuarantineTaken | NoPriorRelease | UnexpectedContents | Unsettled
    | InvalidRecord | AlreadyPending | LinkChanged | DirectoryNotEmpty | IsADirectory | NoSuchFile
    | UnsafeCandidate

  datatype Halt = PowerLoss | Refused(why: Reason)

  datatype Run = Live(w: World, fuel: nat) | Halted(w: World, why: Halt) {
    predicate IsFailure() {
      Halted?
    }

    function PropagateFailure(): Run
      requires Halted?
    {
      this
    }

    function Extract(): (World, nat)
      requires Live?
    {
      (w, fuel)
    }
  }

  function Refuse(w: World, why: Reason): Run {
    Halted(w, Refused(why))
  }

  // One atomic step from `w` to `w'`.
  function Step(w: World, fuel: nat, w': World): Run {
    if fuel == 0 then Halted(w, PowerLoss) else Live(w', fuel - 1)
  }
}

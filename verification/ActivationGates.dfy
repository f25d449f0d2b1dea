/**
 What a command demands of the journal and the disk before it changes anything, told from the world
 alone: whose transaction it is, in which phase, and in what state the files are.
 */
module ActivationGates {
  import opened Wrappers
  import opened ActivationDisk
  import opened ActivationJournal

  // ---------------------------------------------------------------- the journal

  const BEFORE_COMMIT := {Prepared, Guarded, Linking, Linked, Stopping, Stopped, Fencing, Fenced, Authorizing, Authority,
                          CandidateStarting, CandidateHealthy}

  const BACKWARD := {RollingBack, RolledBack, RollbackHealthy}

  // A configuration that was captured has its backup, unaltered.
  predicate BackupKept(x: Txn, m: Manifest, k: Kind) {
    m.original.At(k).Some? ==> k in x.backups && x.backups[k] == m.original.At(k).value.bytes
  }

  // The journal of a directory is whole: going back is noted exactly in the phases of a rollback, from
  // a phase before the commit, and every captured configuration has its backup.
  predicate Whole(x: Txn, m: Manifest) {
    && x.manifest == Some(m)
    && (m.phase in BACKWARD <==> m.rollbackFrom.Some?)
    && (m.rollbackFrom.Some? ==> m.rollbackFrom.value in BEFORE_COMMIT)
    && BackupKept(x, m, Env) && BackupKept(x, m, Service)
  }

  lemma LoadExactly(w: World, name: TxnName, m: Manifest)
    ensures Load(w, name) == Loaded(m) <==> name in w.txns && Whole(w.txns[name], m)
  {
  }

  /** A command gets to see a journal exactly if there is a live one, whole, of its own transaction, and
      the disk is as that journal's phase allows. */
  lemma OpenExactly(w: World, id: string, allowMissing: bool, m: Manifest)
    ensures Open(w, id, allowMissing) == Opened(m) <==>
              && Active in w.txns && Whole(w.txns[Active], m) && m.id == id
              && Accepts(w.tree, w.files, m, w.txns[Active].parked, allowMissing)
  {
    LoadExactly(w, Active, m);
    if Load(w, Active).Loaded? {
      LoadExactly(w, Active, Load(w, Active).m);
    }
  }

  // ---------------------------------------------------------------- replacing a configuration

  // A staging name that may be worked on: no more names than its twin's, writable by its owner alone.
  predicate Private(f: Files, x: File, names: nat) {
    1 <= LinkCount(f, x.inode) <= names && !SharedWritable(x.mode)
  }

  // A secured draft is published if it is the journaled file; a fresh one is secured if nobody else has
  // it; and with neither the file must be in place already.
  predicate Replaceable(f: Files, m: Manifest, k: Kind, mode: Mode) {
    && m.phase in BEFORE_COMMIT && (mode == M600 || (k == Service && mode == M644))
    && var s, d := f.At(k), m.desired.At(k);
       if s.publication.Some? then
         d.Some? && d.value.mode == mode && s.publication.value == FileOf(d.value) && Private(f, s.publication.value, 2)
       else if s.draft.Some? then Private(f, s.draft.value, 1)
       else d.Some? && d.value.mode == mode && s.config == Some(FileOf(d.value)) && Private(f, s.config.value, 1)
  }

  predicate RefusedAtOnce(r: Run, w: World) {
    r.Halted? && r.why.Refused? && r.w == w
  }

  lemma PublishBegins(w: World, k: Kind, d: Desired, fuel: nat)
    requires w.files.At(k).publication == Some(FileOf(d)) && Private(w.files, FileOf(d), 2)
    ensures !RefusedAtOnce(Publish(w, k, d, fuel), w)
  {
  }

  // Securing the draft gives it a second name, and only power loss stops that.
  lemma StageBegins(w: World, m: Manifest, k: Kind, d: Desired, fuel: nat)
    requires Active in w.txns && w.files.At(k).draft.Some? && w.files.At(k).draft.value.inode == d.inode
    ensures var r := Stage(w, m, k, d, fuel);
            if r.Halted? then r.why == PowerLoss
            else
              var s := r.w.files.At(k);
              s.publication.Some? && s.draft.Some? && s.draft.value.inode == d.inode
  {
  }

  // Publishing takes the draft's name or leaves the secured one.
  lemma PublishAfter(w: World, w': World, k: Kind, d: Desired, fuel: nat)
    requires w'.files.At(k).publication.Some? && w'.files.At(k).draft.Some? && w'.files.At(k).draft.value.inode == d.inode
    requires w.files.At(k).publication.None? && w.files.At(k).draft.Some?
    ensures !RefusedAtOnce(Publish(w', k, d, fuel), w)
  {
  }

  lemma SecureBegins(w: World, m: Manifest, k: Kind, d: Desired, fuel: nat)
    requires Active in w.txns && w.files.At(k).draft.Some? && w.files.At(k).draft.value.inode == d.inode
    requires w.files.At(k).publication.None?
    ensures var r := Stage(w, m, k, d, fuel);
            !RefusedAtOnce(if r.Live? then Publish(r.w, k, d, r.fuel) else r, w)
  {
    StageBegins(w, m, k, d, fuel);
    var r := Stage(w, m, k, d, fuel);
    if r.Live? {
      PublishAfter(w, r.w, k, d, r.fuel);
    }
  }

  lemma ReplaceBegins(w: World, id: string, k: Kind, mode: Mode, fuel: nat)
    requires Open(w, id, false).Opened? && Replaceable(w.files, Open(w, id, false).m, k, mode)
    ensures !RefusedAtOnce(ReplaceConfig(w, id, k, mode, fuel), w)
  {
    var m, s := Open(w, id, false).m, w.files.At(k);
    if s.publication.Some? {
      PublishBegins(w, k, m.desired.At(k).value, fuel);
    } else if s.draft.Some? {
      SecureBegins(w, m, k, Desired(s.draft.value.inode, s.draft.value.bytes, mode), fuel);
    }
  }

  lemma ReplaceRefused(w: World, id: string, k: Kind, mode: Mode, fuel: nat)
    requires Open(w, id, false).Opened? ==> !Replaceable(w.files, Open(w, id, false).m, k, mode)
    ensures RefusedAtOnce(ReplaceConfig(w, id, k, mode, fuel), w)
  {
  }

  /** Replacing a configuration is refused out of hand exactly unless the journal opens, the phase is
      before the commit, the mode is one the file may have, and the draft or the journaled file is in a
      state to be published. */
  lemma ReplaceExactly(w: World, id: string, k: Kind, mode: Mode, fuel: nat)
    ensures RefusedAtOnce(ReplaceConfig(w, id, k, mode, fuel), w) <==>
              var journal := Open(w, id, false); !(journal.Opened? && Replaceable(w.files, journal.m, k, mode))
  {
    if Open(w, id, false).Opened? && Replaceable(w.files, Open(w, id, false).m, k, mode) {
      ReplaceBegins(w, id, k, mode, fuel);
    } else {
      ReplaceRefused(w, id, k, mode, fuel);
    }
  }

  // ---------------------------------------------------------------- discarding staging names

  // What may be thrown away: the journaled file under either name, and a draft nobody has secured yet.
  predicate Discardable(f: Files, k: Kind, d: Option<Desired>) {
    var s := f.At(k);
    && (s.publication.Some? ==> d.Some? && s.publication.value == FileOf(d.value) && Private(f, s.publication.value, 2))
    && (s.draft.Some? ==>
          && Private(f, s.draft.value, 2)
          && ((d.Some? && s.draft.value == FileOf(d.value)) || (LinkCount(f, s.draft.value.inode) == 1 && s.draft.value.mode == M600)))
  }

  /** With power for both names, discarding them completes exactly if both may be thrown away; then both
      are gone and nothing else has changed. */
  lemma DiscardExactly(w: World, m: Manifest, k: Kind, fuel: nat)
    requires fuel >= 2
    ensures var r := CleanupKind(w, m, k, fuel);
            && (r.Live? <==> Discardable(w.files, k, m.desired.At(k)))
            && (r.Live? ==> r.w == w.WithSlot(k, w.files.At(k).(draft := None, publication := None)))
  {
  }

  // ---------------------------------------------------------------- the other commands

  // The run did something, or said it was done.
  predicate TookEffect(r: Run, w: World) {
    r.Live? || r.w != w
  }

  /** Files are activated only for the transaction's own id, while linking. */
  lemma ActivateGate(w: World, id: string, fuel: nat)
    requires TookEffect(ActivateFiles(w, id, fuel), w)
    ensures var journal := Open(w, id, false); journal.Opened? && journal.m.id == id && journal.m.phase == Linking
  {
  }

  /** Files are restored only for the transaction's own id, while rolling back. */
  lemma RestoreGate(w: World, id: string, fuel: nat)
    requires TookEffect(RestoreFiles(w, id, fuel), w)
    ensures var journal := Open(w, id, true); journal.Opened? && journal.m.id == id && journal.m.phase == RollingBack
  {
  }

  // The directory may be finished: settled, this transaction's, and the disk as it left it.
  predicate Finishable(w: World, name: TxnName, id: string, m: Manifest) {
    && name in w.txns && Whole(w.txns[name], m) && m.id == id && m.phase in {Committed, RollbackHealthy}
    && Accepts(w.tree, w.files, m, w.txns[name].parked, m.phase == RollbackHealthy)
  }

  /** A live transaction is finished only by its own id, once it is committed or healthy again; without
      one, only what this id retired earlier is, and with neither nothing happens. */
  lemma FinishGate(w: World, id: string, scan: Scan, fuel: nat)
    requires TookEffect(Finish(w, id, scan, fuel), w)
    ensures if Active in w.txns then exists m :: Finishable(w, Active, id, m)
            else Retired(id) !in w.txns || Load(w, Retired(id)) == NotFound || exists m :: Finishable(w, Retired(id), id, m)
    ensures Active !in w.txns && Retired(id) !in w.txns ==> Finish(w, id, scan, fuel) == Live(w, fuel)
  {
    var name := if Active in w.txns then Active else Retired(id);
    if Load(w, name).Loaded? {
      LoadExactly(w, name, Load(w, name).m);
      assert Finishable(w, name, id, Load(w, name).m);
    }
  }
}

/**
 The configuration files, their drafts and their secured publications: what every crash
 point of publishing, discarding and restoring them keeps true.
 */
module ActivationFiles {
  import opened Wrappers
  import opened ActivationDisk
  import opened ActivationJournal

  predicate Apart(x: Option<File>, y: Option<File>) {
    x.Some? && y.Some? ==> x.value.inode != y.value.inode
  }

  predicate Below(x: Option<File>, next: nat) {
    x.Some? ==> x.value.inode < next
  }

  // Within a slot only a draft and its own publication may share an inode.
  predicate SlotNames(s: Slot, next: nat) {
    && Below(s.config, next) && Below(s.draft, next) && Below(s.publication, next)
    && Apart(s.config, s.draft) && Apart(s.config, s.publication)
    && (Apart(s.draft, s.publication) || s.draft == s.publication)
  }

  predicate SlotApart(x: Option<File>, s: Slot) {
    Apart(x, s.config) && Apart(x, s.draft) && Apart(x, s.publication)
  }

  predicate SlotsApart(a: Slot, b: Slot) {
    SlotApart(a.config, b) && SlotApart(a.draft, b) && SlotApart(a.publication, b)
  }

  predicate NamesOk(f: Files, next: nat) {
    SlotNames(f.env, next) && SlotNames(f.service, next) && SlotsApart(f.env, f.service)
  }

  predicate DraftOk(s: Slot, d: Option<Desired>) {
    s.draft.Some? ==>
      && (s.draft.value.mode == M600 || (d.Some? && s.draft.value == FileOf(d.value)))
      && (d.Some? && s.draft.value.inode == d.value.inode ==> s.draft.value.bytes == d.value.bytes)
  }

  predicate PublicationOk(s: Slot, d: Option<Desired>) {
    s.publication.Some? ==> d.Some? && s.publication.value == FileOf(d.value)
  }

  // Until rollback, a journaled intent is drafted, secured or published.
  predicate IntentAlive(s: Slot, d: Option<Desired>) {
    d.Some? ==>
      || (s.draft.Some? && s.draft.value.inode == d.value.inode)
      || s.publication.Some?
      || s.config == Some(FileOf(d.value))
  }

  predicate SlotOk(s: Slot, d: Option<Desired>) {
    DraftOk(s, d) && PublicationOk(s, d)
  }

  // What the journal says about one kind.
  predicate JournalOk(next: nat, m: Manifest, k: Kind) {
    var d := m.desired.At(k);
    var original := m.original.At(k);
    && (d.Some? ==>
          DesiredMode(k, d.value.mode) && d.value.inode < next && Some(d.value.bytes) in m.observed.At(k))
    && (if original.Some? then
          Some(original.value.bytes) in m.observed.At(k) && RestorableMode(k, original.value.mode)
        else None in m.observed.At(k))
  }

  predicate KindOk(f: Files, next: nat, m: Manifest, k: Kind) {
    && SlotOk(f.At(k), m.desired.At(k))
    && Recorded(f, m, k)
    && (!RollbackPhase(m.phase) ==> IntentAlive(f.At(k), m.desired.At(k)))
    && JournalOk(next, m, k)
  }

  predicate FilesOk(f: Files, next: nat, m: Manifest) {
    NamesOk(f, next) && KindOk(f, next, m, Env) && KindOk(f, next, m, Service)
  }

  function Twin(k: Kind): Kind {
    if k.Env? then Service else Env
  }

  // ---------------------------------------------------------------- link counts

  lemma ConfigReadable(f: Files, next: nat, m: Manifest, k: Kind)
    requires NamesOk(f, next) && KindOk(f, next, m, k)
    ensures Readable(f, k)
  {
  }

  lemma StagingReadable(f: Files, next: nat, m: Manifest, k: Kind)
    requires NamesOk(f, next) && KindOk(f, next, m, k)
    ensures f.At(k).draft.Some? ==> StagingSafe(f, f.At(k).draft.value)
    ensures f.At(k).publication.Some? ==> StagingSafe(f, f.At(k).publication.value)
  {
  }

  // ---------------------------------------------------------------- changing one slot

  // Every file of the new slot was in the old one or is new on disk.
  predicate FromSlot(x: Option<File>, s: Slot, next: nat) {
    x.Some? ==>
      || !Apart(x, s.config) || !Apart(x, s.draft) || !Apart(x, s.publication)
      || x.value.inode >= next
  }

  predicate SlotAllowed(s: Slot, next: nat, m: Manifest, k: Kind) {
    && SlotNames(s, next)
    && SlotOk(s, m.desired.At(k))
    && (if s.config.Some? then
          Some(s.config.value.bytes) in m.observed.At(k) && RestorableMode(k, s.config.value.mode)
        else None in m.observed.At(k))
    && (!RollbackPhase(m.phase) ==> IntentAlive(s, m.desired.At(k)))
  }

  predicate SlotFrom(s': Slot, s: Slot, next: nat) {
    FromSlot(s'.config, s, next) && FromSlot(s'.draft, s, next) && FromSlot(s'.publication, s, next)
  }

  lemma SwapNames(f: Files, next: nat, k: Kind, s: Slot, next': nat)
    requires NamesOk(f, next) && next <= next' && SlotNames(s, next') && SlotFrom(s, f.At(k), next)
    ensures NamesOk(f.Put(k, s), next')
  {
  }

  // Rewriting one slot cannot disturb the other kind.
  lemma SlotSwap(f: Files, next: nat, m: Manifest, k: Kind, s: Slot, next': nat)
    requires FilesOk(f, next, m) && next <= next'
    requires SlotFrom(s, f.At(k), next) && SlotAllowed(s, next', m, k)
    ensures FilesOk(f.Put(k, s), next', m)
  {
    SwapNames(f, next, k, s, next');
    assert KindOk(f.Put(k, s), next', m, k);
    assert KindOk(f.Put(k, s), next', m, Twin(k));
  }

  // ---------------------------------------------------------------- publishing a secured draft

  ghost predicate PublishPost(w: World, k: Kind, d: Desired, m: Manifest, fuel: nat, run: Run) {
    && run.w == w.WithSlot(k, run.w.files.At(k))
    && FilesOk(run.w.files, w.next, m)
    && (run.w.files.At(k).config == w.files.At(k).config || run.w.files.At(k).config == Some(FileOf(d)))
    && (run.Halted? ==> run.why == PowerLoss)
    && (run.Live? ==> ConfigMatches(run.w.files, k, d) && run.w.files.At(k).publication.None?)
    && (fuel >= 2 ==> run.Live? && run.fuel >= fuel - 2)
  }

  function Unaliased(s: Slot, d: Desired): Slot {
    if s.draft.Some? && s.draft.value.inode == d.inode then s.(draft := None) else s
  }

  lemma PutTwice(w: World, k: Kind, a: Slot, b: Slot)
    ensures w.WithSlot(k, a).WithSlot(k, b) == w.WithSlot(k, b)
    ensures w.WithSlot(k, a).files.At(k) == a
  {
  }

  lemma PutSame(w: World, k: Kind)
    ensures w.WithSlot(k, w.files.At(k)) == w
  {
  }

  // The steps of a publication whose checks pass.
  lemma PublishRuns(w: World, k: Kind, d: Desired, fuel: nat)
    requires w.files.At(k).publication == Some(FileOf(d)) && StagingSafe(w.files, FileOf(d))
    requires var s := Unaliased(w.files.At(k), d);
             ConfigMatches(w.files.Put(k, Published(s)), k, d)
    ensures var s := Unaliased(w.files.At(k), d);
            var s2 := Published(s);
            var n := if s == w.files.At(k) then 1 else 2;
            Publish(w, k, d, fuel) ==
              if fuel >= n then Live(w.WithSlot(k, s2), fuel - n)
              else if fuel == 1 then Halted(w.WithSlot(k, s), PowerLoss)
              else Halted(w, PowerLoss)
  {
  }

  function Published(s: Slot): Slot {
    s.(config := s.publication, publication := None)
  }

  lemma UnaliasReady(f: Files, next: nat, m: Manifest, k: Kind, d: Desired)
    requires FilesOk(f, next, m) && !RollbackPhase(m.phase)
    requires f.At(k).publication.Some? && m.desired.At(k) == Some(d)
    ensures StagingSafe(f, FileOf(d))
    ensures FilesOk(f.Put(k, Unaliased(f.At(k), d)), next, m)
  {
    StagingReadable(f, next, m, k);
    SlotSwap(f, next, m, k, Unaliased(f.At(k), d), next);
  }

  lemma PublishReady(f: Files, next: nat, m: Manifest, k: Kind, d: Desired)
    requires FilesOk(f, next, m) && !RollbackPhase(m.phase)
    requires f.At(k).publication.Some? && m.desired.At(k) == Some(d)
    ensures FilesOk(f.Put(k, Published(Unaliased(f.At(k), d))), next, m)
    ensures ConfigMatches(f.Put(k, Published(Unaliased(f.At(k), d))), k, d)
  {
    var s := Published(Unaliased(f.At(k), d));
    assert SlotAllowed(s, next, m, k);
    SlotSwap(f, next, m, k, s, next);
    ConfigReadable(f.Put(k, s), next, m, k);
  }

  lemma PublishKeeps(w: World, k: Kind, d: Desired, m: Manifest, fuel: nat)
    requires FilesOk(w.files, w.next, m) && !RollbackPhase(m.phase)
    requires w.files.At(k).publication.Some? && m.desired.At(k) == Some(d)
    ensures PublishPost(w, k, d, m, fuel, Publish(w, k, d, fuel))
  {
    var s := Unaliased(w.files.At(k), d);
    UnaliasReady(w.files, w.next, m, k, d);
    PublishReady(w.files, w.next, m, k, d);
    assert PublicationOk(w.files.At(k), Some(d));
    PublishRuns(w, k, d, fuel);
    PutTwice(w, k, s, Published(s));
    PutTwice(w, k, Published(s), s);
    PutTwice(w, k, w.files.At(k), s);
  }

  // ---------------------------------------------------------------- journaling and securing a draft

  lemma IntendKeeps(f: Files, next: nat, m: Manifest, k: Kind, d: Desired)
    requires FilesOk(f, next, m) && f.At(k).draft.Some? && f.At(k).publication.None?
    requires DesiredMode(k, d.mode) && f.At(k).draft.value.mode in {M600, d.mode}
    requires d.inode == f.At(k).draft.value.inode && d.bytes == f.At(k).draft.value.bytes
    ensures FilesOk(f, next, Intend(m, k, d))
  {
  }

  lemma ChmodKeeps(f: Files, next: nat, m: Manifest, k: Kind, d: Desired)
    requires FilesOk(f, next, m) && f.At(k).draft.Some? && f.At(k).publication.None?
    requires m.desired.At(k) == Some(d) && f.At(k).draft.value.inode == d.inode
    ensures Chmod(f, d.inode, d.mode) == f.Put(k, f.At(k).(draft := Some(FileOf(d))))
    ensures FilesOk(Chmod(f, d.inode, d.mode), next, m)
  {
  }

  lemma SecureKeeps(f: Files, next: nat, m: Manifest, k: Kind, d: Desired)
    requires FilesOk(f, next, m) && f.At(k).publication.None?
    requires m.desired.At(k) == Some(d) && f.At(k).draft == Some(FileOf(d))
    ensures FilesOk(f.Put(k, f.At(k).(publication := f.At(k).draft)), next, m)
  {
  }

  lemma DraftReady(f: Files, next: nat, m: Manifest, k: Kind, bytes: string)
    requires FilesOk(f, next, m) && f.At(k).draft.None?
    ensures FilesOk(f.Put(k, f.At(k).(draft := Some(File(next, bytes, M600)))), next + 1, m)
  {
    var s := f.At(k).(draft := Some(File(next, bytes, M600)));
    assert SlotAllowed(s, next + 1, m, k);
    SlotSwap(f, next, m, k, s, next + 1);
  }

  lemma PlaceDraftKeeps(w: World, m: Manifest, k: Kind, bytes: string)
    requires FilesOk(w.files, w.next, m)
    ensures FilesOk(PlaceDraft(w, k, bytes).files, PlaceDraft(w, k, bytes).next, m)
    ensures forall j: Kind :: PlaceDraft(w, k, bytes).files.At(j).config == w.files.At(j).config
  {
    if w.files.At(k).draft.None? {
      var s := w.files.At(k).(draft := Some(File(w.next, bytes, M600)));
      DraftReady(w.files, w.next, m, k, bytes);
      assert PlaceDraft(w, k, bytes).files == w.files.Put(k, s);
    }
  }

  // ---------------------------------------------------------------- discarding staging names

  // A slot with only some of its staging names left.
  predicate Trimmed(s: Slot, s': Slot) {
    && s'.config == s.config
    && (s'.draft == s.draft || s'.draft.None?)
    && (s'.publication == s.publication || s'.publication.None?)
  }

  lemma TrimKeeps(f: Files, next: nat, m: Manifest, k: Kind, s: Slot)
    requires FilesOk(f, next, m) && Trimmed(f.At(k), s)
    requires RollbackPhase(m.phase) || IntentAlive(s, m.desired.At(k))
    ensures FilesOk(f.Put(k, s), next, m)
  {
  }

  ghost predicate CleanupPost(w: World, k: Kind, fuel: nat, run: Run) {
    && run.w == w.WithSlot(k, run.w.files.At(k))
    && Trimmed(w.files.At(k), run.w.files.At(k))
    && (run.Halted? ==> run.why == PowerLoss)
    && (run.Live? ==> run.w.files.At(k) == Slot(w.files.At(k).config, None, None))
    && (fuel >= 2 ==> run.Live? && run.fuel >= fuel - 2)
  }

  // The steps of a cleanup whose checks pass.
  lemma CleanupRuns(w: World, m: Manifest, k: Kind, fuel: nat)
    requires var s := w.files.At(k);
             && (s.draft.Some? ==> StagingSafe(w.files, s.draft.value) && DraftDiscardable(w.files, k, m.desired.At(k)))
             && (s.publication.Some? ==> StagingSafe(w.files, s.publication.value))
             && PublicationOk(s, m.desired.At(k))
    ensures CleanupPost(w, k, fuel, CleanupKind(w, m, k, fuel))
  {
  }

  lemma CleanupKindKeeps(w: World, m: Manifest, k: Kind, fuel: nat)
    requires FilesOk(w.files, w.next, m)
    ensures CleanupPost(w, k, fuel, CleanupKind(w, m, k, fuel))
  {
    StagingReadable(w.files, w.next, m, k);
    assert w.files.At(k).draft.Some? ==> DraftDiscardable(w.files, k, m.desired.At(k));
    CleanupRuns(w, m, k, fuel);
  }

  // A finished publication survives the loss of its staging names.
  predicate Settled(f: Files, m: Manifest) {
    forall k: Kind :: m.desired.At(k).Some? ==> f.At(k).config == Some(FileOf(m.desired.At(k).value))
  }

  ghost predicate CleanupAllPost(w: World, m: Manifest, fuel: nat, run: Run) {
    && run.w == w.(files := run.w.files)
    && FilesOk(run.w.files, w.next, m)
    && run.w.files.env.config == w.files.env.config
    && run.w.files.service.config == w.files.service.config
    && (run.Halted? ==> run.why == PowerLoss)
    && (run.Live? ==> run.w.files == Pair(Slot(w.files.env.config, None, None), Slot(w.files.service.config, None, None)))
    && (fuel >= 4 ==> run.Live? && run.fuel >= fuel - 4)
  }

  // `_cleanup_config_staging` succeeds from every crash point and leaves no staging name.
  lemma CleanupStagingKeeps(w: World, m: Manifest, fuel: nat)
    requires FilesOk(w.files, w.next, m)
    requires RollbackPhase(m.phase) || Settled(w.files, m)
    ensures CleanupAllPost(w, m, fuel, CleanupStaging(w, m, fuel))
  {
    CleanupKindKeeps(w, m, Env, fuel);
    var r := CleanupKind(w, m, Env, fuel);
    TrimKeeps(w.files, w.next, m, Env, r.w.files.env);
    assert r.w.files == w.files.Put(Env, r.w.files.env);
    if r.Live? {
      CleanupKindKeeps(r.w, m, Service, r.fuel);
      var r' := CleanupKind(r.w, m, Service, r.fuel);
      TrimKeeps(r.w.files, w.next, m, Service, r'.w.files.service);
      assert r'.w.files == r.w.files.Put(Service, r'.w.files.service);
    }
  }

  // ---------------------------------------------------------------- restoring a captured file

  // Exactly the captured configurations have a backup, and it holds their bytes.
  predicate BackedUp(x: Txn, m: Manifest) {
    forall k: Kind ::
      && (k in x.backups <==> m.original.At(k).Some?)
      && (k in x.backups ==> x.backups[k] == m.original.At(k).value.bytes)
  }

  ghost predicate RestoreConfigPost(w: World, m: Manifest, k: Kind, fuel: nat, run: Run) {
    && run.w == w.WithSlot(k, run.w.files.At(k)).(next := run.w.next)
    && FilesOk(run.w.files, run.w.next, m)
    && run.w.files.At(k) == w.files.At(k).(config := run.w.files.At(k).config)
    && (run.Halted? ==> run.why == PowerLoss)
    && (run.Live? ==> MetaAt(run.w.files, k) == m.original.At(k))
    && (fuel >= 1 ==> run.Live? && run.fuel >= fuel - 1)
  }

  function RestoredSlot(w: World, m: Manifest, k: Kind): Slot
    requires Active in w.txns && (m.original.At(k).Some? ==> k in w.txns[Active].backups)
  {
    w.files.At(k).(config :=
      if m.original.At(k).None? then None
      else Some(File(w.next, w.txns[Active].backups[k], m.original.At(k).value.mode)))
  }

  lemma RestoreReady(w: World, m: Manifest, k: Kind)
    requires Active in w.txns && FilesOk(w.files, w.next, m) && RollbackPhase(m.phase)
    requires m.original.At(k).Some? ==> k in w.txns[Active].backups
    requires m.original.At(k).Some? ==> w.txns[Active].backups[k] == m.original.At(k).value.bytes
    ensures FilesOk(w.files.Put(k, RestoredSlot(w, m, k)), w.next + 1, m)
    ensures m.original.At(k).None? ==> FilesOk(w.files.Put(k, RestoredSlot(w, m, k)), w.next, m)
  {
    var s := RestoredSlot(w, m, k);
    assert SlotAllowed(s, w.next + 1, m, k);
    SlotSwap(w.files, w.next, m, k, s, w.next + 1);
    if m.original.At(k).None? {
      SlotSwap(w.files, w.next, m, k, s, w.next);
    }
  }

  lemma RestoreRuns(w: World, m: Manifest, k: Kind, fuel: nat)
    requires Active in w.txns && (m.original.At(k).Some? ==> k in w.txns[Active].backups)
    ensures RestoreConfig(w, m, k, fuel) ==
              if m.original.At(k).None? && w.files.At(k).config.None? then Live(w, fuel)
              else if fuel == 0 then Halted(w, PowerLoss)
              else Live(w.(files := w.files.Put(k, RestoredSlot(w, m, k)),
                           next := if m.original.At(k).None? then w.next else w.next + 1), fuel - 1)
  {
  }

  lemma RestoreConfigKeeps(w: World, m: Manifest, k: Kind, fuel: nat)
    requires Active in w.txns && FilesOk(w.files, w.next, m) && RollbackPhase(m.phase)
    requires BackedUp(w.txns[Active], m)
    ensures RestoreConfigPost(w, m, k, fuel, RestoreConfig(w, m, k, fuel))
  {
    assert k in w.txns[Active].backups <==> m.original.At(k).Some?;
    RestoreRuns(w, m, k, fuel);
    RestoreReady(w, m, k);
    PutSame(w, k);
    var s := RestoredSlot(w, m, k);
    assert w.files.Put(k, s).At(k) == s;
    assert MetaAt(w.files.Put(k, s), k) == m.original.At(k);
  }
}

# AgentsServer: verified models of its durable and concurrent protocols

AgentsServer installs releases of itself, relays work between paired servers, caches team
attachments, and drives coding agents through long-lived child processes.  This project models the
parts of it whose correctness depends on every order of events and every crash point, and proves
what they promise.  `dafny verify dfyconfig.toml` checks all of it.

**Release activation** (`Activation*.dfy`, from `activation_transaction.py`).  A release is activated
by a journaled transaction over directories, links and two configuration files.  Every command is a
function from the disk and an allowance of steps to the disk it leaves: cutting a command after any
step is giving it a smaller allowance, and rerunning it is applying it again.  `Installer` is the same
protocol as an object that changes the disk step by step, proved to leave exactly that disk, and
`ActivationRecovery.dfy` drives it through any number of power cuts.  The main results: from every state a
run of commands can reach before the commit, rollback is accepted, completes however often it is cut, and
restores exactly what `begin` captured; the layouts for which that holds are characterised exactly; every
such layout whose activation completes also has a run to the commit, with the candidate and the wanted
configurations in use; a cut configuration replacement resumes to the same inode, and which replacements may
be cut without endangering rollback is characterised exactly; `finish` can be repeated and keeps the restored
releases, again with the exact condition; what `begin`, `record` and `replace-config` accept is stated from the
disk alone; and the journal makes at most fourteen phase changes.

**Secure-peer delivery** (`Ledger*.dfy`, `Peer*.dfy`, from `secure_peer_delivery.py` and
`secure_peer_runtime.py`).  The ledger's transactions are functions from tables to tables;
`DeliveryLedger` is the object with the tables, which carries the run of transactions its calls made.  Over
every run: states only advance, claims and owners
are written once and owners are unique, answers and outbound results settle once, capacity holds, and
no due delivery starves.  Above it: retiring routes, chats and connections never crosses pending work,
receipts and rows keep their order across crashes, and closing the admission gate drains it.

What these state machines do bring about is told by position.  `Histories.dfy` says what becomes of a fact
over a run: it stands exactly if it held to begin with or some step made it so, and no later step has ended
it.  For the ledger, the registry of routes, receipts, the gate, the attachment cache and the errors of a
subscription, a table of which step makes and which ends each fact is proved exact, for every run: a row is
completed, for example, exactly if a finish with success met it accepted and open.

**Attachment cache** (`Cache*.dfy`, from `secure_peer_runtime.py`).  One eviction pass is an imperative
method with the source's loops; the threads around it are a state machine over sections of the global
lock.  A pass removes the least recently used groups first, none that it need not, and succeeds exactly if
removing everything removable would make room.  Over every interleaving: reference-counted locks give each
target one materializer, a leased payload stays the file it was opened on, and the directory never holds more
bytes than its limit.

**Provider transports** (`Codex*.dfy`, `Claude*.dfy`, from `codex_app_server.py` and
`claude_sdk_client.py`).  A retry verdict is sound in every interleaving, and which verdict a request ends
with is stated exactly; a turn's queue is a filter of the notification stream, and it occupies its thread
exactly until one of four events; a run's stream is a projection of the frames its own connection delivered,
and no connection speaks to the runs of a later one.
Filter and projection are defined by position in the stream, apart from the code's way of computing
them.  A reader of either client gets that stream in order and without gaps; where the Codex client drops
unread notifications is stated exactly.

**Process attribution** (`Process*.dfy`, from `cursor_process_guard.py`).  The bounded search is proved
against reachability by paths; over any run of snapshots every remembered process is attributed to the
child by the snapshots alone, and below the bound and without recycled pids every attributed process is
remembered.

## Where the code does less than it may seem to promise

Each of these is a theorem with a concrete failing run, and beside it the condition under which the
code does keep the promise.

- Rollback is refused after some interrupted activations, for example when the installed version is
  reinstalled and `current` is a relative link (`ActivationExamples.RelativeLinkStrands`).  The layouts that
  can always be rolled back are exactly those of `Recoverable` (`ActivationRollback.RecoverableExactly`).
- Replacing a configuration can make rollback impossible: in a phase that expects the captured file,
  while the candidate starts, or when a draft already given its mode is asked for another
  (`ActivationExamples.EarlyReplacementStrands`, `LateReplacementStrands`, `ModeReplacementStrands`, and
  `ActivationRuns` for every recoverable layout).  `SafeReplace` is the exact condition
  (`ActivationPublication.SafeExactly`).
- After a rollback, `finish` removes the candidate's directory even when it is also the prior release or the
  one `previous` names: the release just restored is lost, also when nothing interrupts
  (`ActivationExamples.SharedCandidateLost`, `ActivationRuns.SharedRun`).  The restored releases survive a
  completed `finish` exactly when the candidate is neither of them
  (`ActivationFinish.FinishKeepsReleases`), and exactly then can an interrupted `finish` be repeated
  (`ActivationFinish.FinishExactly`).
- Eviction removes a leased payload whose name looks like a sidecar (`CacheEviction.LegacyNameLosesPin`).  A
  pass that gets as far as grouping loses exactly the leased or protected payloads named like a sidecar whose
  own payload is missing or still being staged, those the file system will not remove aside; any other pass
  loses none (`Loses`, in `CacheEviction.TeamCache.Evict`).
- Eviction counts a payload once for every sidecar that names it, so a pass can remove files although all of
  them fit (`CacheEviction.TwoSidecarsCountTwice`).  The tally is never too small, and equals the counted bytes
  exactly if no file with contents is in two groups, or in one although it is an orphan that goes
  (`CacheGroups.OverExactly`); what the cache itself writes is so (`CacheGroups.SimpleCounted`).
- The cache's own account, counted files plus reservations, can exceed the limit between a publication that
  breaks off after its rename and its cleanup (`CacheDisk.TornExceeds`).  That step adds the payload and
  sidecar it put in place less what they replaced, and the account fits afterwards exactly when the room left
  covers the difference (`CacheDisk.RipAccount`).  Without such a publication the account holds
  (`CacheDisk.AccountBound`), and the bytes on disk never exceed the limit at all (`CacheDisk.DiskBound`).
- A process without an output pipe lets the reader report that a retry is safe to requests whose bytes are
  out, or still go out afterwards (`CodexRequests.NoPipeRun`).  Every continuation keeps every verdict sound
  exactly if no unanswered request has written or can still write (`CodexRequests.NoPipeExactly`).
- A turn's reader can lose notifications: when the transport is lost, or its backlog is full, the subscription
  is emptied and only the error is left (`CodexReaders.LossDropsUnread`, `CodexReaders.OverflowDropsUnread`).
  What a reader got is always a prefix of the turn's stream, and with what it can still read it is the whole
  stream exactly if its subscription never broke with something unread (`CodexReaders.ReaderExactly`).
- After a failed `turn/start` the thread may be occupied by a handle the error does not carry: that of
  another start which took the thread meanwhile.  This is the only case
  (`CodexTurns.StartFailureExactly`, `CodexTurns.AnotherTookTheThread`).

## Model

| member | source | states |
|---|---|---|
| ActivationRollback.RollbackFromAnywhere | activation_transaction.py:1227-1443 | after `begin` on a recoverable layout and any careful commands, each cut after any step and repeated any number of times: before the commit rolling back is accepted; `restore-files`, itself cut and repeated, is stopped only by power loss, completes, and leaves links, releases and configurations exactly as captured |
| ActivationRollback.RecoverableExactly | activation_transaction.py:1092-1224 | for every layout `begin` accepts: it is recoverable if and only if every careful run of commands can be rolled back |
| ActivationRollback.RunKeeps | activation_transaction.py:1792-1833 | every run of `record`, `replace-config`, `activate-files`, `restore-files` and new drafts, cut anywhere, keeps the disk a pending activation of the captured origin |
| ActivationRollback.BeginCaptures | activation_transaction.py:1092-1224 | a completed `begin` leaves the tree and the configurations alone and its manifest and backups hold exactly what they were |
| ActivationRollback.BeginEstablishes | activation_transaction.py:1092-1224 | a completed `begin` on a recoverable layout starts a pending activation |
| ActivationRollback.StrandedRefusesAll | activation_transaction.py:1227-1268 | a stranded journal refuses every command, so nothing it could run gets it out |
| ActivationRollback.StrandingRun | activation_transaction.py:1792-1833 | on every layout that is not recoverable, two commands and one power loss strand the journal |
| ActivationSteps.Opens | activation_transaction.py:1227-1390 | a pending activation is accepted by the validation every command starts with, in every shape a cut can leave |
| ActivationSteps.ActivateStep | activation_transaction.py:1792-1833 | `activate-files` cut anywhere keeps a pending activation, changes no configuration and no journal, and when it completes every link is taken |
| ActivationSteps.MovePriorStep | activation_transaction.py:1801-1812 | displacing the prior release, cut anywhere, keeps a pending activation; where the candidate can be installed it is stopped only by power loss |
| ActivationSteps.MoveCandidateStep | activation_transaction.py:1814-1825 | installing the candidate, cut anywhere, keeps a pending activation |
| ActivationSteps.RestoreTreeStep | activation_transaction.py:1879-1975 | undoing the tree, cut anywhere, keeps a pending activation; when it completes the captured tree is back but for the candidate |
| ActivationCommands.RestoreStep | activation_transaction.py:1879-1975 | `restore-files` cut anywhere keeps a pending activation, is stopped only by power loss, and when it completes everything captured is restored |
| ActivationCommands.RollbackAccepted | activation_transaction.py:1530-1658 | from every pending activation before the commit, `record(rolling-back)` is accepted |
| ActivationCommands.RecordStep | activation_transaction.py:1530-1658 | `record` with any arguments keeps a pending activation: completed, the journal holds exactly the amended manifest; refused or cut, the disk is unchanged; the configurations are untouched either way |
| ActivationCommands.ReplaceStep | activation_transaction.py:1661-1767 | a safe `replace-config`, cut anywhere, keeps a pending activation; the destination holds its prior file or the journaled one, whose digest the history already names, and the other configuration is untouched |
| ActivationFiles.PublishKeeps | activation_transaction.py:970-1008 | publishing a staged configuration, cut between its link, unlink and replace steps, keeps the two names and the journal consistent |
| ActivationFiles.CleanupStagingKeeps | activation_transaction.py:1011-1089 | discarding staging names, cut anywhere, keeps the configurations consistent with the journal |
| ActivationFiles.RestoreConfigKeeps | activation_transaction.py:1836-1876 | restoring one configuration from its backup, cut anywhere, keeps the other and is repeatable |
| ActivationTree.CandidateFound | activation_transaction.py:1253-1268 | in every shape of a pending activation the candidate is found where validation looks for it |
| ActivationTree.PriorFound | activation_transaction.py:1260-1262 | in every shape the prior release is found where validation looks for it |
| ActivationTree.CurrentFound | activation_transaction.py:1282-1341 | in every shape `current` is in a state validation accepts for the phase |
| ActivationTree.PreviousFound | activation_transaction.py:1343-1386 | in every shape `previous` is in a state validation accepts for the phase |
| ActivationExamples.RelativeLinkStrands | activation_transaction.py:1282-1341 | reinstalling a version whose `current` link is relative is accepted by `begin` and can be stranded |
| ActivationExamples.AbsoluteLinkRecovers | activation_transaction.py:1282-1341 | the same reinstallation with an absolute link can always be rolled back |
| ActivationPublication.PublicationResumes | activation_transaction.py:1661-1767 | a replacement cut any number of times anywhere: the next full run with the same kind and mode publishes the inode an uninterrupted run would have |
| ActivationPublication.CutKeepsGoal | activation_transaction.py:1661-1767 | a cut replacement still aims at the same file: it can be resumed to the very inode, contents and mode the first attempt meant to publish, five steps complete it, and completing means exactly that file is in place and journaled |
| ActivationPublication.StagingDiscards | activation_transaction.py:1011-1089 | from every such point the staging names can be discarded: the configurations stay and no staging name is left |
| ActivationPublication.SafeExactly | activation_transaction.py:1661-1767 | a replacement can be cut anywhere without endangering rollback if and only if it is safe |
| ActivationPublication.ModeChangeStrands | activation_transaction.py:1011-1089 | asking another mode of a draft already given its own makes rollback impossible |
| ActivationPublication.LateDraftStrands | activation_transaction.py:1392-1443 | publishing a draft while the candidate starts makes rollback impossible |
| ActivationPublication.EarlyPublishStrands | activation_transaction.py:1392-1443 | publishing other contents in a phase that expects the captured file makes rollback impossible |
| ActivationRuns.EarlyRun | activation_transaction.py:1392-1443 | on every recoverable layout, a draft with other contents replaced right after `begin` strands the journal |
| ActivationRuns.LateRun | activation_transaction.py:1392-1443 | on every recoverable layout whose activation completes, a careful run reaches the start of the candidate, where journaling a draft strands the journal |
| ActivationRuns.ModeRun | activation_transaction.py:1011-1089 | on every such layout, a careful run reaches a draft with its mode changed; replacing it with another mode makes rollback impossible |
| ActivationExamples.EarlyReplacementStrands | activation_transaction.py:1392-1443 | the first of these on a concrete reinstallation |
| ActivationExamples.LateReplacementStrands | activation_transaction.py:1392-1443 | the second |
| ActivationExamples.ModeReplacementStrands | activation_transaction.py:1011-1089 | the third |
| ActivationFinish.FinishIdempotent | activation_transaction.py:1978-2056 | `finish` cut after any step and rerun with the same id ends with neither a live nor a retired directory, links and configurations untouched |
| ActivationFinish.FinishExactly | activation_transaction.py:1978-2056 | after a rollback whose candidate is found at one of its paths (`CandidatePath`), `finish` can be cut anywhere and repeated if and only if the candidate is neither the prior nor the previous release |
| ActivationFinish.FinishKeepsReleases | activation_transaction.py:1978-2056 | after a rollback whose candidate is found at one of its paths (`CandidatePath`), a completed `finish` leaves the prior release and what `previous` named where they were if and only if the candidate is neither of them |
| ActivationFinish.SettledIsFinishing | activation_transaction.py:1978-2056 | a committed or rolled-back pending activation, with only retired directories beside it and none of its own id, is a live transaction `finish` accepts |
| ActivationRuns.SettledRunIsReady | activation_transaction.py:1978-2056 | every run from `begin` that settles, over a directory without remains of the same id, meets what a repeatable finish needs: after a commit always, after a rollback if the candidate is neither the prior nor the previous release |
| ActivationFinish.SweepSweeps | activation_transaction.py:485-532 | sweeping retired transactions, cut anywhere, only removes children of retired directories and ends with none left |
| ActivationFinish.SharedCandidateStrands | activation_transaction.py:1978-2056 | a candidate that is also the prior or previous release makes an interrupted finish refuse for good |
| ActivationRuns.SharedRun | activation_transaction.py:1978-2056 | on every layout with such a candidate a run from `begin` restores everything and then loses the restored release or the target of `previous` to an uninterrupted `finish` |
| ActivationCommit.CommitRun | activation_transaction.py:1530-2056 | every recoverable layout whose activation completes has, by each route through the phases and for any wanted configurations, a careful run of accepted commands from `begin` to committed; then the candidate is in use, `previous` names the prior release and the configurations are the wanted ones, and `finish` completes and leaves all of it in place |
| ActivationCommit.OrdinaryStarts | activation_transaction.py:1137-1156 | every ordinary first installation, upgrade and adoption of a `current` directory is recoverable, begins and can be activated, so the above applies to it |
| ActivationCommit.BeginExactly | activation_transaction.py:1092-1224 | with power for it, `begin` completes if and only if no transaction is pending and the layout is supported, which is stated from the disk alone; tree and configurations are left alone either way |
| ActivationCommit.RecordExactly | activation_transaction.py:1530-1658 | `record` is taken exactly if the journal opens, the phase is the same or one the current phase leads to (the next in the chain, one of four shortcuts, among them from linked straight to starting the candidate and from stopped past fencing, or back before the commit), Hub and guard agree with what was written, a settled transaction learns nothing new, and the disk fits; then exactly that is written, otherwise nothing |
| ActivationGates.OpenExactly | activation_transaction.py:1227-1390 | a command gets to see a journal exactly if there is a live one, whole, of its own transaction, and the disk is as its phase allows |
| ActivationGates.LoadExactly | activation_transaction.py:539-815 | a journal is whole exactly if going back is noted in the phases of a rollback and from a phase before the commit, and every captured configuration has its backup unaltered |
| ActivationGates.ReplaceExactly | activation_transaction.py:1661-1767 | `replace-config` is refused out of hand exactly unless the journal opens, the phase is before the commit, the mode is one the file may have, and the draft or the journaled file is in a state to be published |
| ActivationGates.DiscardExactly | activation_transaction.py:1011-1089 | discarding one configuration's staging names completes exactly if each is the journaled file or a draft nobody has secured; then both names are gone and nothing else has changed |
| ActivationGates.ActivateGate | activation_transaction.py:1792-1799 | `activate-files` does something only for the transaction's own id, while linking |
| ActivationGates.RestoreGate | activation_transaction.py:1879-1890 | `restore-files` does something only for the transaction's own id, while rolling back |
| ActivationGates.FinishGate | activation_transaction.py:1978-2056 | `finish` does something to a live transaction only for its own id, once it is committed or healthy again and the disk is as it left it; without one only to what this id retired earlier |
| ActivationExamples.SharedCandidateLost | activation_transaction.py:1978-2056 | one such layout, with its run |
| ActivationPhases.PhaseDiscipline | activation_transaction.py:47-65 | every journal run makes at most fourteen phase changes; a commit never rolls back and a rollback never commits; the rollback origin, Hub binding and guard are written once; the fence coordinates are rewritten at most once, leaving fencing; which changes are taken is `RecordExactly`, and that the commit is reached is `CommitRun` |
| ActivationRuns.FourteenChanges | activation_transaction.py:1530-1658 | the bound is reached: every recoverable layout whose activation completes has a careful run of accepted commands from `begin` with fourteen phase changes, ending restored |
| ActivationExamples.ReinstallChangesFourteenTimes | activation_transaction.py:1530-1658 | such a run on a concrete reinstallation |
| ActivationPhases.AmendDisciplined | activation_transaction.py:1541-1647 | one `record` obeys that discipline |
| ActivationInstaller.Installer.BeginTransaction | activation_transaction.py:1092-1224 | leaves the disk `Begin` specifies, at every allowance of steps; when it completes is `BeginExactly` |
| ActivationInstaller.Installer.RecordPhase | activation_transaction.py:1530-1658 | leaves the disk `Record` specifies, whose exact effect is `RecordExactly` |
| ActivationInstaller.Installer.ReplaceConfiguration | activation_transaction.py:1661-1767 | leaves the disk `ReplaceConfig` specifies |
| ActivationInstaller.Installer.PublishStaged | activation_transaction.py:970-1008 | leaves the disk `Publish` specifies |
| ActivationInstaller.Installer.DiscardStaging | activation_transaction.py:1011-1089 | for one configuration, leaves the disk `CleanupKind` specifies |
| ActivationInstaller.Installer.RenameEntry | activation_transaction.py:1783-1789 | succeeds exactly when the source exists, the destination does not and a step is left; then the very entry is at the destination, the source is gone and nothing else moved; otherwise the tree is as before |
| ActivationInstaller.Installer.ReplaceSymlink | activation_transaction.py:1770-1780 | succeeds exactly when no directory is in the way and a step is left; then exactly that link is in place and nothing else changed; otherwise the tree is as before |
| ActivationInstaller.Installer.Activate | activation_transaction.py:1792-1833 | leaves the disk `ActivateFiles` specifies |
| ActivationInstaller.Installer.Restore | activation_transaction.py:1879-1975 | leaves the disk `RestoreFiles` specifies |
| ActivationInstaller.Installer.RestoreConfiguration | activation_transaction.py:1836-1876 | leaves the disk `RestoreConfig` specifies |
| ActivationInstaller.Installer.RemoveTransactionDirectory | activation_transaction.py:485-517 | leaves the disk `RemoveDirectory` specifies |
| ActivationInstaller.Installer.SweepRetired | activation_transaction.py:520-532 | the loop over directories leaves the disk `Sweep` specifies |
| ActivationInstaller.Installer.FinishTransaction | activation_transaction.py:1978-2056 | leaves the disk `Finish` specifies |
| ActivationRecovery.IssueAll | activation_transaction.py:1530-1975 | any careful commands issued to the object, each cut anywhere, leave the disk of the run and keep it a pending activation |
| ActivationRecovery.RollBack | activation_transaction.py:1530-1975 | rollback attempts on the object, cut however often: only power loss stops them, and the first with eleven steps of power restores exactly what `begin` captured |
| ActivationRecovery.BeginAndRollBack | activation_transaction.py:1092-1975 | from `begin` on a recoverable layout through any careful cut commands before the commit to the restored disk |
| ActivationRecovery.ReplaceUntilDone | activation_transaction.py:1661-1767 | replacement attempts on the object, cut however often: the first with five steps of power publishes the file the first attempt meant to |
| ActivationRecovery.FinishUntilDone | activation_transaction.py:1978-2056 | finish attempts on the object: only power loss stops them, the first with power enough leaves neither directory, links and configurations untouched |
| LedgerHistory.RunKeeps | secure_peer_delivery.py:375-700 | over every run without pruning: states only advance, the claim never changes, the lease changes only while prepared, owners are written once and shared by no two rows, terminal rows, committed answers and settled intents are frozen, an intent is pending exactly while it has a retry time, at most 2048 rows are open |
| LedgerHistory.PrepareKeeps | secure_peer_delivery.py:397-435 | claiming an envelope keeps the invariant: expiry makes room first, a full ledger refuses |
| LedgerHistory.BindKeeps | secure_peer_delivery.py:554-604 | binding an owner keeps owners unique, written once and in agreement with the state |
| LedgerHistory.OneAnswer | secure_peer_delivery.py:702-762 | while an answer is prepared only the identical one is accepted; a committed delivery takes none |
| LedgerHistory.AnswerHolds | secure_peer_delivery.py:702-852 | on a run that does not clear it, a prepared answer stays the one prepared |
| LedgerHistory.CommittedNeverOffered | secure_peer_delivery.py:764-881 | a committed answer is frozen and never offered for retry again |
| LedgerHistory.OutboundSettlesOnce | secure_peer_delivery.py:1000-1175 | a settled outbound request keeps its result on every run |
| LedgerHistory.OutboundResultKept | secure_peer_delivery.py:1110-1139 | committing again repeats the result, another result raises, a failed request stays failed |
| LedgerHistory.PruneForgets | secure_peer_delivery.py:1225-1236 | pruning removes exactly the settled rows and requests older than the cutoff, so no open row and no pending request, changes none, and keeps the invariant |
| LedgerEffects.StepExactly | secure_peer_delivery.py:375-1175 | what each transaction makes true of a row or request and what it ends, for its claim, state, result, owners, answer, lease and times, without naming the transaction functions |
| LedgerEffects.RunExactly | secure_peer_delivery.py:375-1175 | over every run each of these holds exactly if it held to begin with or some transaction made it so, and none has ended it since |
| LedgerEffects.CompletedExactly | secure_peer_delivery.py:678-700 | from an empty ledger, a row is completed with a result exactly if a finish with success and that result met it accepted and open |
| LedgerTimes.TimesExactly | secure_peer_delivery.py:606-637 | over every run from an empty ledger, of an admission, answer or request that waits the counter is the number of deferrals, and the next attempt is due at the opening or, after deferrals, that many doublings of a second past the last one, up to 256 |
| LedgerTimes.PrepareTells | secure_peer_delivery.py:375-482 | a claim is refused exactly if the envelope is known under another one or there is no room for a new one, and then changes nothing; otherwise the reply is the row as it now is |
| LedgerTimes.DeliveryTells | secure_peer_delivery.py:524-700 | the replies of authorizing, finishing, failing and deferring a delivery: the row as it now is, and exactly when they are absent or raise |
| LedgerTimes.BindTells | secure_peer_delivery.py:554-604 | binding is refused exactly if it names no owner or one another row has, is absent exactly if the row does not agree, and then changes nothing |
| LedgerTimes.AnswerTells | secure_peer_delivery.py:702-852 | the replies of preparing, committing, clearing and deferring an answer |
| LedgerTimes.RequestTells | secure_peer_delivery.py:917-1175 | the replies of preparing, committing, deferring and failing an outbound request |
| LedgerStore.DeliveryLedger.Promises | secure_peer_delivery.py:375-1236 | after any sequence of calls the tables meet the ledger invariant and every row and request has only advanced since the last pruning |
| LedgerStore.DeliveryLedger.CallAdvances | secure_peer_delivery.py:375-1175 | each call by itself only advances rows and requests |
| LedgerRetry.DelayBounds | secure_peer_delivery.py:620-621 | delays never shrink with attempts, start at one second and stop at 256, so the cap of 300 never decides |
| LedgerRetry.PendingAdmissions | secure_peer_delivery.py:639-661 | returns the soonest due admissions in order, as many as the limit allows |
| LedgerRetry.RoundAdvances | secure_peer_delivery.py:606-661 | a due delivery a round leaves unhandled has at least a full page fewer ahead of it |
| LedgerRetry.StarvationFree | secure_peer_delivery.py:606-661 | with a monotone clock, no new authorizations and every returned admission handled, a due delivery with p ahead of it is returned in a round k with k * limit <= p, unless something else handled it |
| LedgerStore.DeliveryLedger.PrepareDelivery | secure_peer_delivery.py:375-482 | tables and reply are those of the transaction function; a refused claim also rolls back the expiry |
| LedgerStore.DeliveryLedger.Transition | secure_peer_delivery.py:495-522 | updates the row exactly if its state is among the expected ones |
| LedgerStore.DeliveryLedger.AuthorizeDelivery | secure_peer_delivery.py:524-529 | extends the run by this transaction: tables and reply are its own |
| LedgerStore.DeliveryLedger.FailOwnerlessAuthorized | secure_peer_delivery.py:531-552 | extends the run by this transaction: tables and reply are its own |
| LedgerStore.DeliveryLedger.Bind | secure_peer_delivery.py:554-604 | extends the run by this transaction: tables and reply are its own |
| LedgerStore.DeliveryLedger.Defer | secure_peer_delivery.py:606-637 | extends the run by this transaction: tables and reply are its own |
| LedgerStore.DeliveryLedger.Finish | secure_peer_delivery.py:678-700 | extends the run by this transaction: tables and reply are its own, and what it leaves is `LedgerEffects.FinishRow` |
| LedgerStore.DeliveryLedger.PrepareResponse | secure_peer_delivery.py:702-762 | extends the run by this transaction: tables and reply are its own |
| LedgerStore.DeliveryLedger.CommitResponse | secure_peer_delivery.py:764-785 | extends the run by this transaction: tables and reply are its own |
| LedgerStore.DeliveryLedger.ClearResponse | secure_peer_delivery.py:787-808 | extends the run by this transaction: tables and reply are its own |
| LedgerStore.DeliveryLedger.DeferResponse | secure_peer_delivery.py:810-852 | extends the run by this transaction: tables and reply are its own |
| LedgerStore.DeliveryLedger.PrepareRequest | secure_peer_delivery.py:917-998 | extends the run by this transaction: tables and reply are its own |
| LedgerStore.DeliveryLedger.CommitRequest | secure_peer_delivery.py:1110-1139 | extends the run by this transaction: tables and reply are its own |
| LedgerStore.DeliveryLedger.DeferRequest | secure_peer_delivery.py:1141-1161 | extends the run by this transaction: tables and reply are its own |
| LedgerStore.DeliveryLedger.FailRequest | secure_peer_delivery.py:1163-1175 | extends the run by this transaction: tables and reply are its own |
| LedgerStore.DeliveryLedger.PendingForConnection | secure_peer_delivery.py:1056-1075 | expires what is overdue and returns exactly the requests still pending for the connection, none of them overdue |
| LedgerStore.DeliveryLedger.PruneSettled | secure_peer_delivery.py:1225-1236 | tables are those of the pruning function |
| PeerLinks.RetirementNeverCrosses | secure_peer_runtime.py:757-910 | over every interleaving of handoffs, claims, revocations, chat retirements, activations, deactivations, forgets, publications and ledger transactions: each pending request's exact route is still published for its chat, and each open client delivery belongs to the one active connection |
| PeerLinks.FreshHeld | secure_peer_runtime.py:200-204 | a fresh registry over an empty ledger meets the promise, so every run from it does |
| PeerLinks.RouteExactly | secure_peer_runtime.py:1477-1498 | retiring a route breaks that promise exactly when a request still has to leave by it |
| PeerLinks.ChatExactly | secure_peer_runtime.py:1592-1605 | retiring a chat's routes breaks it exactly when the chat has a request pending |
| PeerLinks.DeactivateExactly | secure_peer_runtime.py:892-910 | deactivating the active connection breaks it exactly when a client delivery is open on it |
| PeerLinks.HandoffKeeps | secure_peer_runtime.py:3014-3047 | preparing an outbound request keeps the promise: its exact live source route is checked in the same section |
| PeerLinks.ClaimKeeps | secure_peer_runtime.py:2630-2737 | claiming inbound envelopes keeps it: they are claimed only through the active connection |
| PeerLinks.ForgetKeeps | secure_peer_runtime.py:821-890 | forgetting a connection keeps it, also when it breaks off after the remote revocation |
| PeerLinks.PeerRuntime.ActivatePairing | secure_peer_runtime.py:757-792 | keeps the promise; activates only when no other connection is active |
| PeerLinks.PeerRuntime.DeactivateConnection | secure_peer_runtime.py:795-811 | keeps the promise; succeeds exactly when nothing is pending or open on the connection and the client accepts its identity |
| PeerLinks.PeerRuntime.RevokePublishedRoute | secure_peer_runtime.py:1449-1552 | keeps the promise; succeeds exactly when nothing is pending for the route, it is published, and its client or host store does not refuse, and otherwise changes no route |
| PeerLinks.PeerRuntime.RevokeRoutesForChat | secure_peer_runtime.py:1592-1664 | keeps the promise; the loop over the client's and the host store's routes retires the chat's up to the first refused revocation; success means none is left and nothing is pending, and without refusals it succeeds exactly when nothing is pending |
| PeerRoutes.RegistryExactly | secure_peer_runtime.py:757-1664 | in every interleaving a route is published, live or retired, a connection known or active, exactly if some section made it so and no later one has ended it: which section retires what, and that nothing unfinished may need it, is told from the ledger alone, and retirement is final |
| PeerRoutes.TransactionExactly | secure_peer_runtime.py:3014-3047 | a request is handed off exactly by a live route of its own chat that allows the action, an envelope is claimed exactly for a host or through the active connection, a section that looks at pending work first expires what is overdue, and none does anything else to the ledger |
| PeerReceipts.ReceiptAfterRow | secure_peer_runtime.py:2713-2737 | in every run with crashes anywhere, a delivered receipt is sent only for an envelope whose row an earlier state already held durably |
| PeerReceipts.RowAfterReceipt | secure_peer_runtime.py:2776-2803 | in every such run, a row that is authorized, queued, running or completed had its delivered receipt accepted in a strictly earlier state |
| PeerReceipts.AcceptAfterCrash | secure_peer_runtime.py:2757-2803 | an unexpired prepared row can be accepted after any crash |
| PeerReceipts.OrdinaryWork | secure_peer_delivery.py:524-700 | no ledger operation but `authorize` takes a row past prepared |
| PeerReceipts.ReceiptsExactly | secure_peer_runtime.py:2713-2803 | in every run with crashes anywhere, a receipt was sent, accepted by the peer, or is being worked on exactly if the step that does so happened and no crash or next step has ended it |
| PeerReceipts.TransactionExactly | secure_peer_runtime.py:2757-2803 | a row is authorized exactly by a step whose receipt was accepted, an overdue claim fails when it is looked at or recovered, a rejected one fails if it is still prepared or has no owner, and no step does anything else to the ledger |
| PeerAdmission.CounterExact | secure_peer_runtime.py:3171-3256 | in every run the counter is the number of admitted requests not yet released |
| PeerAdmission.ReleaseExact | secure_peer_runtime.py:3252-3256 | releasing a live request takes exactly one off: the clamp at zero never decides |
| PeerAdmission.ReleasedOnce | secure_peer_runtime.py:3218-3237 | a request is released at most once, however often its finalizer is called |
| PeerAdmission.CloseDrains | secure_peer_runtime.py:3291-3306 | when closing returns undisturbed, no earlier request is live and none is admitted until somebody reopens |
| PeerAdmission.LastReleaseWakes | secure_peer_runtime.py:3291-3295 | a closer woken when nothing is live returns |
| PeerAdmission.GateExactly | secure_peer_runtime.py:3171-3306 | in every run, who is forwarded, deferred, finalizing or released, who waits for the gate to drain and whether it is open is exactly what the last step that concerns it left |
| PeerAdmission.AdmissionGate.Admit | secure_peer_runtime.py:3171-3182 | admits exactly while accepting and counts the request |
| PeerAdmission.AdmissionGate.ReleaseOne | secure_peer_runtime.py:3252-3256 | releases one request and says whether it was the last |
| PeerAdmission.AdmissionGate.CloseOnce | secure_peer_runtime.py:3291-3295 | stops accepting and says whether everything has drained |
| CachePins.PinnedStable | secure_peer_runtime.py:4192-4265 | in every interleaving pin counts are exact, each target has one materializer, and every pinned payload not named like a sidecar is still the file that was pinned |
| CachePins.LeaseStable | secure_peer_runtime.py:4591-4774 | from the moment a lease exists until it is closed, its path holds the very file it was opened on |
| CacheLocks.Exclusive | secure_peer_runtime.py:4776-4801 | two threads between acquire and release of the same target are the same thread |
| CacheLocks.LockStep | secure_peer_runtime.py:4776-4801 | every step keeps the lock table exact: one lock per target in use, counted by its users, owned by whoever is between acquire and release |
| CacheLocks.UnreferenceKeeps | secure_peer_runtime.py:4788-4801 | dropping a reference always finds the thread's own lock, so the identity check never fails |
| CachePins.PublishKeeps | secure_peer_runtime.py:5005-5104 | publication replaces only a payload nobody holds, and its own lease then holds the new file |
| CachePins.CleanupKeeps | secure_peer_runtime.py:5119-5142 | cleaning up after a failure removes only payloads nobody holds |
| CacheBound.BoundRun | secure_peer_runtime.py:4870-5142 | in every interleaving: once a pass has succeeded, everything not yet paid for by a held reservation plus all reservations fits the limit |
| CacheBound.InstallCharge | secure_peer_runtime.py:5028-5068 | publishing costs no more than the reservation it releases |
| CacheBound.CleanupCharge | secure_peer_runtime.py:5119-5142 | cleaning up costs no more than the reservation it releases, even if removals are refused |
| CacheDisk.DiskBound | secure_peer_runtime.py:4591-5142 | from any directory, in every interleaving, once one eviction pass has succeeded all bytes in the directory, staging included, fit the limit |
| CacheDisk.AccountBound | secure_peer_runtime.py:4606-4611 | counted files plus reservations fit the limit in every state without a publication that broke off after its rename |
| CacheDisk.RipAccount | secure_peer_runtime.py:5028-5068 | breaking off after the rename changes the account by exactly the payload and sidecar put in place less the files they replaced, so it fits afterwards if and only if the room left covers the difference |
| CacheDisk.RipInRuns | secure_peer_runtime.py:5028-5068 | the same from every reachable state |
| CacheDisk.TornExceeds | secure_peer_runtime.py:5028-5068 | in a cache with room for one attachment, breaking off takes the account over the limit by the whole payload |
| CacheEffects.CacheExactly | secure_peer_runtime.py:4776-5142 | in every interleaving, which thread is where, which space is reserved, which lease holds which file and which files there are is exactly what the last section that concerns it left, by a table of what each section makes and ends |
| CacheEviction.LegacyNameLosesPin | secure_peer_runtime.py:4591-4774 | a whole pass removes a pinned payload named like a legacy sidecar |
| CacheEviction.TeamCache.Evict | secure_peer_runtime.py:4591-4774 | whatever happens, a pass spares staging files and pinned or protected payloads with other names than a sidecar's; of all pinned or protected ones it loses exactly the unpaired sidecar-shaped ones, and only once it groups; a cache the scan can list is grouped exactly when the reservations fit and the scan was safe; success means counted bytes, reservations and the new reservation fit the limit; and once it groups it makes room as `MakesRoom` says: nothing goes but orphans if the tally fits without them, otherwise the least recently used removable groups first and no more than needed, and it succeeds exactly if the tally fits in the end, failing only when nothing removable remains |
| CacheEviction.TeamCache.EvictGroups | secure_peer_runtime.py:4694-4774 | grouping and removing the oldest make room so, from the files as they were, and lose exactly the unpaired sidecar-shaped payloads among those in use |
| CacheEviction.TeamCache.EvictOldest | secure_peer_runtime.py:4749-4774 | removes groups oldest first, skipping pinned and protected ones, stops as soon as the bound holds, and touches nothing else; each group was tried while the tally did not fit, and if it fits to begin with none is |
| CacheEviction.TeamCache.PairSidecars | secure_peer_runtime.py:4696-4739 | removes exactly the sidecars without a payload; the groups are the sidecars with their payloads, in the order listed, each with the sidecar's time and both sizes, and the tally is their sum |
| CacheEviction.TeamCache.AddSingles | secure_peer_runtime.py:4741-4747 | adds a group for each file that is neither sidecar nor payload of one, with its own time and size, and to the tally |
| CacheEviction.RoomExactly | secure_peer_runtime.py:4749-4774 | making room succeeds exactly if removing everything removable would, and if it does not, that is what is left |
| CacheEviction.NothingGoesExactly | secure_peer_runtime.py:4749-4774 | nothing goes for room exactly if the tally fits without the orphans, or nothing is removable |
| CacheGroups.OverExactly | secure_peer_runtime.py:4696-4747 | whatever the order of the listing, the tally is never less than the counted bytes that are left, and equals them exactly if no file with contents is counted twice or counted although it is gone |
| CacheGroups.SimpleCounted | secure_peer_runtime.py:4696-4747 | that is so when every sidecar has a payload of its own that is no sidecar |
| CacheEviction.CountedTwiceGoes | secure_peer_runtime.py:4696-4774 | otherwise a cache that is exactly full loses files as soon as one of them is removable |
| CacheEviction.TwoSidecarsCountTwice | secure_peer_runtime.py:4696-4774 | one payload with both kinds of sidecar is such a cache |
| CacheEviction.TeamCache.EvictInactive | secure_peer_runtime.py:4670-4686 | recovery of an oversized cache removes exactly the listed files outside live directories that the file system lets go |
| CacheEviction.TeamCache.SweepLeftovers | secure_peer_runtime.py:4625-4650 | removes exactly the listed leftovers of crashed downloads that are not being staged and that the file system lets go; what it returns is the rest, staging files aside |
| CacheEviction.TeamCache.Survey | secure_peer_runtime.py:4621-4692 | within the allowed passes ends with a complete listing or fails, sparing what must be spared and every file but leftovers in live directories; a cache the scan can list needs one safe scan |
| CacheEviction.TeamCache.Scan | secure_peer_runtime.py:4395-4472 | lists distinct existing files, all of them when complete, and is complete exactly when safe and within the limit |
| CacheEviction.SortByUse | secure_peer_runtime.py:4749 | sorts by last use and is a permutation |
| CodexRequests.RetryVerdictSound | codex_app_server.py:897-1075 | in every interleaving of requests, writes, timeouts, responses, exits and retirements, an error that allows a retry means no byte of the request was written or app-server rejected it |
| CodexRequests.NoPipeUnsound | codex_app_server.py:1077-1085 | a process without an output pipe breaks that for every unanswered request that has written or still gets to write |
| CodexRequests.NoPipeExactly | codex_app_server.py:1008-1085 | when the reader stops without an output pipe, every continuation keeps every verdict sound if and only if no unanswered request has written or can still write |
| CodexRequests.ExposedReachable | codex_app_server.py:897-952 | both kinds are reached: a request that waits for the writer lock and one that has written |
| CodexRequests.NoPipeRun | codex_app_server.py:1008-1085 | five events: a request begins, the reader stops without an output pipe, the request writes and is told that a retry is safe |
| CodexRequests.TurnKeeps | codex_app_server.py:1008-1058 | taking the writer lock keeps verdicts sound: the process is checked again before anything is written |
| CodexRequests.FailAllKeeps | codex_app_server.py:873-884 | failing everything pending keeps verdicts sound when the error forbids a retry as soon as any unanswered request has written or can still write |
| CodexVerdicts.VerdictExactly | codex_app_server.py:897-1075 | over every log a request has ended with a verdict exactly if some event ended it so, by a table of which event ends which request how |
| CodexVerdicts.AnswerExactly | codex_app_server.py:897-1006 | a request ends as a success, or as rejected, exactly if a response of that kind met it waiting and was collected |
| CodexVerdicts.UnwrittenMayRetry | codex_app_server.py:1008-1075 | a request of which nothing was written ends with a verdict that allows a retry, unless it was cancelled or the pipe itself raised |
| CodexVerdicts.BarredMayRetry | codex_app_server.py:1008-1075 | once the process a waiting request was meant for is gone, it can only wait on or end with a verdict that allows a retry, cancellation aside |
| CodexVerdicts.FutureExactly | codex_app_server.py:873-884 | the future of a request under way holds a value exactly if some event gave it that one |
| CodexStream.RoutingIsFilter | codex_app_server.py:1217-1246 | a turn's queue is, in order, every notification of its thread until a turn is known and then exactly those of the current turn, up to the end; the two ids never differ |
| CodexStream.CompletedIsLast | codex_app_server.py:1284-1291 | a `turn/completed` naming the current turn is the last item |
| CodexStream.Watermark | codex_app_server.py:2201-2258 | items at or below a steering watermark were queued before the response, the others after |
| CodexStream.DirectIdsDecide | codex_app_server.py:245-262 | a notification with its own thread and turn ids is the same whatever objects it nests, and nesting an id is as good as giving it |
| CodexTurns.EveryQueueIsFilter | codex_app_server.py:276-309 | for every log and every turn ever installed, what was queued for it, read or not, is the filter of what was received while it was open; an open turn is the one its thread is occupied by |
| CodexReaders.ReaderExactly | codex_app_server.py:284-332 | over every log: what a reader got is always a prefix of the filter, in order and without gaps; it and what is still readable are the whole filter if and only if no lost transport and no full backlog hit the open subscription with something unread |
| CodexReaders.LossDropsUnread | codex_app_server.py:300-309 | a run in which a notification unread when the transport is lost never reaches the reader |
| CodexReaders.OverflowDropsUnread | codex_app_server.py:284-309 | a run in which a full backlog does the same |
| CodexReaders.ReadsQueue | codex_app_server.py:284-332 | what a reader got is what was queued up to its place, and it lost something exactly if a step dropped something |
| CodexTurns.StartFailure | codex_app_server.py:2311-2337 | after a failed start the error carries its handle exactly if it forbids a retry, or the start was cancelled while the handle occupied its thread; a handle that did so and may have reached app-server stays as it is, any other is closed and out of the table; no other turn is disturbed |
| CodexTurns.StartFailureExactly | codex_app_server.py:2311-2337 | "free, or the error carries the occupant" holds exactly if no other start had taken the thread |
| CodexTurns.AnotherTookTheThread | codex_app_server.py:2281-2337 | a run in which another start has |
| CodexOccupancy.OccupiedExactly | codex_app_server.py:1217-1296 | over every log: a handle was installed on a free thread, and occupies it exactly if since then neither a completion of its current turn, nor its release, nor a start that failed for good, nor a loss of the transport has occurred |
| CodexOccupancy.ClosedOccupantExactly | codex_app_server.py:1284-1296 | a handle that occupies its thread is closed exactly if its backlog overflowed or its thread was closed |
| CodexOccupancy.OpenExactly | codex_app_server.py:1217-1296 | so it is open exactly as long as none of these happened |
| CodexOccupancy.CompletionFrees | codex_app_server.py:1284-1291 | a completed turn frees its thread |
| CodexErrors.ErrorExactly | codex_app_server.py:284-332 | over every log: a subscription has an error to read exactly if a lost transport or a full backlog broke it while it was open and nobody has read since, and the error is raised exactly once, by the next read |
| CodexReaders.AppServerClient.RouteNotification | codex_app_server.py:1217-1296 | extends the run by the notification as its ids resolve: the loop over subscriptions leaves the client of that run, whose queues are `EveryQueueIsFilter` and whose occupied threads are `OccupiedExactly` |
| CodexReaders.AppServerClient.StartTurn | codex_app_server.py:2265-2289 | extends the run; installs a handle exactly if the thread is free, and then the handle occupies it |
| CodexReaders.AppServerClient.StartTurnFailed | codex_app_server.py:2311-2337 | extends the run; if the handle still occupies its thread the error carries it |
| CodexReaders.AppServerClient.TurnAccepted | codex_app_server.py:2294-2310 | extends the run; accepts exactly if no earlier notification named another turn |
| CodexReaders.AppServerClient.ReleaseHandle | codex_app_server.py:2339-2342 | extends the run; the handle is closed and occupies no thread |
| CodexReaders.AppServerClient.LoseTransport | codex_app_server.py:873-885 | extends the run; no thread stays occupied, every subscription is closed, and whoever had one open reads the error next and no notification |
| CodexReaders.AppServerClient.Read | codex_app_server.py:311-332 | extends the run and what this reader got: the next queued notification, else the error once, else the end of a closed subscription, else a wait |
| CodexReaders.AppServerClient.Queued | codex_app_server.py:300-335 | after any sequence of calls: what a reader got is a prefix of the filter of its stream; with what it can still read it is all of it if and only if the subscription never broke with something unread, and then nothing but the error is left |
| ClaudeFrames.ReadingIsStream | claude_sdk_client.py:1782-1839 | reading frame by frame shows exactly the frames the positions say: nothing through the first echo, no later echo, no intermediate result, and as last frame the first result that is forced or finds nothing in flight |
| ClaudeFrames.LedgerStep | claude_sdk_client.py:1829-1838 | the ledger of delegated tasks is what was started and has not stopped since |
| ClaudeSupervisor.RunProjection | claude_sdk_client.py:1372-1466 | for every log of commands and every run: its stream is the projection of the frames its own connection delivered since it started, it finished exactly if one of them ends it, and only the active run is unfinished; which runs share a connection is `GenerationsExactly` |
| ClaudeSupervisor.NoTaskLeaks | claude_sdk_client.py:1300-1306 | every task in the ledger was started by the active run |
| ClaudeGenerations.GenerationsExactly | claude_sdk_client.py:1372-1466 | two runs share a connection exactly if no command from the first start to the second retired it, and otherwise the later one has a larger generation |
| ClaudeGenerations.LinkStep | claude_sdk_client.py:1372-1505 | a command leaves the connection up exactly if it was or the command connects, and does not retire it; a new connection has the next generation |
| ClaudeGenerations.RetiredIsSilent | claude_sdk_client.py:1782-1879 | nothing a retired connection still posts, frame or end, changes any run |
| ClaudeGenerations.BrokenExactly | claude_sdk_client.py:1300-1306 | over every log a run is broken exactly if a command broke it while it was the active one |
| ClaudeGenerations.StopBreaks | claude_sdk_client.py:1865-1879 | the end of the current connection's receiver breaks the active run and no other |
| ClaudeSupervisor.ChatSupervisor.OnReceived | claude_sdk_client.py:1782-1839 | extends the run by the frame |
| ClaudeSupervisor.ChatSupervisor.OnStart | claude_sdk_client.py:1372-1466 | extends the run; a handle is returned exactly if no run was active and the query was accepted, and it is the active one, with both its ids and nothing delivered yet; which connection it runs on is `GenerationsExactly` |
| ClaudeSupervisor.ChatSupervisor.FailActiveRun | claude_sdk_client.py:1300-1306 | leaves the supervisor `FailActive` specifies |
| ClaudeSupervisor.ChatSupervisor.OnReceiverStopped | claude_sdk_client.py:1865-1879 | extends the run by the end of a receiver; of the current generation it leaves the active run broken and nothing active, of any other it changes no run |
| ClaudeSupervisor.ChatSupervisor.OnInterrupt | claude_sdk_client.py:1468-1505 | extends the run; succeeds exactly for the active run, if it is the one asked for or none was named, on a working connection, and before the echo retires both |
| ClaudeSupervisor.ChatSupervisor.OnClose | claude_sdk_client.py:1881-1895 | extends the run; no run is active afterwards |
| ClaudeSupervisor.ChatSupervisor.Delivered | claude_sdk_client.py:1372-1466 | after any sequence of commands a reader gets the projection of what its own connection delivered while the run lasted, and whether it finished |
| ClaudeManager.SelectIdle | claude_sdk_client.py:2520-2554 | the selection is a prefix of the idle chats by last use: every expired one, otherwise only what the limit asks for, leaving at most the limit or the busy chats |
| ProcessGuard.Descendants | cursor_process_guard.py:97-120 | terminates on any snapshot and returns no root, nobody twice, only reachable processes, at most the bound, and below the bound all of them |
| ProcessGuard.TrackChildProcesses | cursor_process_guard.py:151-198 | one round forgets nobody, changes no start marker, adds only processes that belong to the child, stays bounded, and while the record is below its bound holds every process that belongs to the child, recycled pids aside |
| ProcessGuard.GroupMembers | cursor_process_guard.py:178-183 | finds members of the child's group, all of them below the bound |
| ProcessGuard.Remember | cursor_process_guard.py:193-198 | a record under a recycled pid is left alone |
| ProcessRuns.RunAttributes | cursor_process_guard.py:151-198 | over any run of snapshots every remembered process is attributed to the child by the snapshots alone |
| ProcessRuns.RunRemembers | cursor_process_guard.py:151-198 | the converse: below the bound, without recycled pids and with nobody under the child's own pid attributed to it, every process the snapshots attribute to the child is remembered |
| ProcessRuns.MarkersFixed | cursor_process_guard.py:193-198 | nobody is forgotten and no start marker ever changes |
| ProcessRuns.RecordBounded | cursor_process_guard.py:193-195 | the record never outgrows its bound |
| ProcessRuns.SignalIdentities | cursor_process_guard.py:137-148 | signals exactly the identities that match the snapshot, but the guard and its parent |
| ProcessRuns.SignalsAttributed | cursor_process_guard.py:201-277 | whoever is signalled is, by its start marker, attributed to the child |

## Left out

- Activation: the temporary names of atomic file replacements, `fsync` and its ordering, device numbers and inode reuse; every rename, link, unlink, mode change and manifest replacement is one atomic step.
- Activation: permission bits other than the configuration modes, ownership, link-safety flags and the format checks of identifiers and paths; nodes and fields are well formed, and the two configuration paths are distinct.
- Activation: the private staging directory of `begin` is written in one step, and removing the parked candidate's directory tree is one step.
- Activation: the intent checks of `_validate_hub_metadata` and the printing of `load`; digests are compared by contents.
- ActivationFinish.FinishIdempotent: needs the directory listing to include the retired transaction and its children, as a scan of the file system would.
- Ledger: SQL, the schema checks, hashing and the public projections of rows; the clock is a parameter of every transaction, and `_claim`'s field validation is not modelled.
- LedgerHistory.RunKeeps: runs do not prune, because pruning is meant to forget settled rows; `PruneForgets` says what pruning does.
- PeerLinks: the pairing exchange, certificates, the host store's envelopes and the retirement of connections whose remote revocation is confirmed or when the relay is disabled; publishing only adds routes.
- PeerReceipts: failed receipts and the lease check of the remote side; only delivered receipts order anything here.
- PeerAdmission: the maintenance fence, the forwarding itself, and that a waiting closer is eventually scheduled; its wait is a step that may be taken whenever it is woken.
- Cache: scanning and pruning of directories (a scan lists files up to its limit), hard links, ownership checks and the hash itself; whether a payload verifies is an input of the step.
- CachePins.LeaseStable: payload names shaped like a sidecar are excluded, because a pass removes them when their own payload is missing; `Evict` says exactly when.
- CachePins.PinnedStable: the same names are excluded.
- CodexTurns: callback handlers, server requests and the fixed-scope subscriptions that are not turns; a thread id is not empty.
- CodexRequests: request timeouts are steps that may happen at any await; the contents of requests and responses are not modelled.
- ClaudeSupervisor: connecting, the acknowledgement timeout (which only logs), context usage and MCP control commands, and the pins of the manager.
- ProcessGuard: reading the process table, signals to the whole process group and the grace period of termination; only which identities are tracked and signalled.
- Command-line helpers, the Cursor client, team messages, mail, skills, attachment upload, status projections, Hub internals, TLS and shell-command detection: they would add members without adding a protocol.

# The cockpit's client protocols, in Dafny

A model of the client-side protocol layer of the agents dashboard (`dashboard/src/data`) and of the
runtime sync script (`scripts/sync-runtime.py`), with proofs of what they promise. The dashboard is a
set of asynchronous state machines that stay honest about a server they see only through lossy,
reordered and overlapping answers. Each piece of code between two awaits is one atomic step; the
environment picks answers, their order, delays and losses.

| file | what it models |
|---|---|
| `SubmitMachine`, `EvidenceFold` | submit records, their reducers, and the settlement of observations as a lattice join |
| `SubmitRetention`, `CockpitState` | the bounded submit history and the composer, queue and withdrawal slot of one session |
| `SubmissionLifecycle`, `StatusPages` | applying observations, poll targets, status pages |
| `SubmissionWithdrawal`, `WithdrawalSafety`, `WithdrawalTheorems`, `WithdrawalStart`, `WithdrawalDismissal`, `SessionSteps`, `WatchWindow` | withdrawals racing polls, edits and recovery choices; what every run keeps; when the poller gives up |
| `CockpitSession` | the same as an object updated in place |
| `ReliableSubmit` | the reliable submit against an adversarial transport and clock |
| `ServedAges`, `ProjectionStore` | the change-gated projection store and the plain store it refines |
| `StreamLiveness`, `StateStream` | the liveness watchdog and the reconnecting state channel |
| `CatalogPoll`, `CapabilityCatalog` | shared reads with generations, exclusions and chained refreshes |
| `PairChange`, `SetControls`, `SetClient` | the pair change, the effective marker and the set ledger |
| `Sessions`, `Sorting`, `Flattening` | session rows, and lists sorted, filtered and flattened |
| `RailSeats`, `RailModel`, `RailBuild`, `SpawnTree` | the session rail, its cycling order and the spawn forest |
| `Terminal`, `PasteFraming` | buffered terminal input across socket replacement, and paste framing |
| `RuntimeTree`, `SyncRuntime` | tree filters, digests and the copy-then-swap with crashes |

Code that updates state in place is a class (or a method with loops) whose every method is proved equal
to a step function; the properties of whole runs are lemmas about those step functions.

`dafny verify dfyconfig.toml` checks the project.

## Where the code and its words part

- The runtime sync says no crash window leaves a missing target. One does: between the two renames
  (`SyncRuntime.CrashBetweenRenamesLosesBothCopies`); `SyncRuntime.MissingExactlyBetweenRenames` says it is the only one.
- The terminal says each boot identity is consumed at most once. Only the last one is remembered, so an
  identity that returns after another is consumed again (`Terminal.IdentityCanReturn`), and only then
  (`Terminal.IdentityConsumedOnceExactlyWhen`).
- The effective marker is said to be the freshest server truth. An echo that lands in the same
  millisecond as an older snapshot is not shown (`SetControls.SameMillisecondShowsTheOlder`,
  `SetControls.MarkerIsLatestProofExactlyWhen`).
- The map-keeping shortcut of the snapshot merge compares counts, so a snapshot that repeats an id can keep a
  node it does not name (`ProjectionStore.RepeatedIdKeepsAStaleNode`, `ProjectionStore.MergeAgreesExactlyWhen`).
- A dismissed recovery can come back (`WithdrawalDismissal.DismissalCanBeUndone`): exactly as long as the
  withdrawal that recovered it still waits for an answer (`WithdrawalDismissal.DismissalIsFinalExactlyWhen`).
- A lifecycle watch is said to expire a window after the first non-terminal report. A report of "queued" sets
  no anchor, so outside the queue each further one starts the window over
  (`WatchWindow.QueuedReportsKeepTheWatchOpen`); it is fixed exactly once an anchor is set
  (`WatchWindow.StartIsFixedExactlyWhenAnchored`).
- When one readback both lets a pair change post effort and resolves an older effort set, the record of the
  fresh post is cleared with the older one (`SetControls.FreshEffortCanBeWiped`), and only then
  (`SetControls.FreshEffortStaysExactlyWhen`).
- A submit certified unsent that has no time left for its one resend ends on the endgame, not on a route
  error (`ReliableSubmit.LateCertificateEndsOnEndgame`); a certified resend always ends on a route error
  (`ReliableSubmit.ExecuteReliableSubmit`).

## Model

| member | source | states |
|---|---|---|
| `EvidenceFold.ReceiveJoins` | dashboard/src/data/submitMachine.ts:98-186 | one report moves a record's evidence class to the join of what it had and what arrived, exactly when it is not a loss report older than the dispatch the record holds, which changes nothing |
| `EvidenceFold.FoldIsJoin` | dashboard/src/data/submitMachine.ts:155-186 | over any sequence of reports without a stale loss, the record ends on the join of everything heard |
| `EvidenceFold.FoldOrderIndependent` | dashboard/src/data/submitMachine.ts:155-186 | the order and repetition of such reports do not matter |
| `EvidenceFold.FoldNeverWeakens` | dashboard/src/data/submitMachine.ts:155-186 | stale or not, evidence only moves up the order |
| `EvidenceFold.DefinitiveIsForever` | dashboard/src/data/submitMachine.ts:155-186 | when all definitive reports agree, a record that holds their state holds it through every later report |
| `EvidenceFold.DefinitiveArrives` | dashboard/src/data/submitMachine.ts:155-186 | and one such report, of any age and anywhere in the run, is enough to get there |
| `EvidenceFold.ClassesAre` | dashboard/src/data/submitMachine.ts:98-126 | which observations are queued, loss, dispatching, unknown and definitive evidence |
| `EvidenceFold.SettlesOn` | dashboard/src/data/submitMachine.ts:155-186 | an applied report settles on itself, or on unknown exactly where a loss and a dispatch meet, which is flagged as a possible send |
| `EvidenceFold.ReceiveWrites` | dashboard/src/data/submitMachine.ts:265-300 | an applied report writes the state and phase it settled on, advances the version by one, dates the record and anchors the watch at the first report of dispatching or unknown, and changes nothing else; a preserved one changes nothing |
| `EvidenceFold.VersionCountsApplied` | dashboard/src/data/submitMachine.ts:265-300 | over any reports the version counts those applied |
| `SubmitRetention.CompactFacts` | dashboard/src/data/submitRetention.ts:22-40 | compaction keeps unique ids in their original order, every protected record, and of the settled records exactly the newest 64 |
| `SubmitRetention.CompactIdempotent` | dashboard/src/data/submitRetention.ts:27-40 | compacting twice is compacting once |
| `SubmitRetention.UpsertFacts` | dashboard/src/data/sessionCockpitStore.ts:505-519 | a write leaves the new record or nothing under its id, never loses a protected record, and leaves every other record whole or evicted |
| `SubmitRetention.HistoryStaysCompact` | dashboard/src/data/sessionCockpitStore.ts:505-519 | over any sequence of writes ids stay unique and stand in the order they were last inserted, settled records stay within 64, and the history is a fixed point of compaction |
| `SubmitRetention.UpsertKeepsOrder` | dashboard/src/data/sessionCockpitStore.ts:505-519 | one write leaves its record where it stood or puts a new one last, and the others keep their order |
| `SubmitRetention.WatchedIsRetained` | dashboard/src/data/submitMachine.ts:302-327 | a record under lifecycle watch survives any number of writes of other records |
| `SubmissionLifecycle.PollAsksAboutExactly` | dashboard/src/data/submissionLifecycleClient.ts:731-770 | a poll asks about exactly the queued, the being-withdrawn and the actively watched requests |
| `StatusPages.GroupByEpoch` | dashboard/src/data/submissionLifecycleClient.ts:772-782 | groups hold every target once, each under its own epoch, no epoch twice |
| `StatusPages.StatusRequests` | dashboard/src/data/submissionLifecycleClient.ts:861-890 | every poll target is asked about exactly once, on a page of at most 64 that all belong to the epoch the request names |
| `WithdrawalStart.WithdrawalTakesTheLastQueued` | dashboard/src/data/submissionWithdrawal.ts:32-74 | a start resumes the open withdrawal; otherwise it takes the last entry of the queue with its id, text and epoch at the revision on screen; a running withdrawal, a held recovery or an empty queue blocks it |
| `WithdrawalStart.QueueAfter` | dashboard/src/data/submitClient.ts:711-729 | a queued composer submit goes last and the newest 64 stay; a request reported as anything but queued leaves; nothing else moves the queue |
| `WithdrawalStart.QueueIsInSubmitOrder` | dashboard/src/data/sessionCockpitStore.ts:491-504 | over every run from a new session the queue stands in the order its messages were submitted |
| `WithdrawalStart.LatestQueuedIsWithdrawn` | dashboard/src/data/submissionWithdrawal.ts:58-74 | over every run a fresh withdrawal takes back the latest submitted message still queued |
| `SessionSteps.WithdrawAnswerSays` | dashboard/src/data/submissionWithdrawal.ts:138-188 | what each withdraw answer is heard to say of the target, against which record version, and that it ends the conversation |
| `SessionSteps.StatusAnswerSays` | dashboard/src/data/submissionWithdrawal.ts:190-240 | what each status answer is heard to say: nothing while a recovery is held, one more withdrawal when still queued, else the reported state or a loss |
| `SessionSteps.FailureSays` | dashboard/src/data/submissionWithdrawal.ts:242-299 | an epoch mismatch says the generation is lost; any other failure of the first request leads to one status follow-up |
| `SessionSteps.OperationEnds` | dashboard/src/data/submissionWithdrawal.ts:405-417 | a running withdrawal ends only when it settles or is reset |
| `SessionSteps.SlotAfterDelivery` | dashboard/src/data/submissionLifecycleClient.ts:439-670 | the withdrawal slot after any observation, by cause |
| `SessionSteps.SlotAfterOthers` | dashboard/src/data/submissionWithdrawal.ts:32-52 | the slot after any other step: emptied by a matching choice, filled by a start, else left |
| `SessionSteps.ComposerAfter` | dashboard/src/data/sessionCockpitStore.ts:325-366 | the composer after any step: typing, a clear or restore for the very revision, a withdrawn text put back into an untouched composer, else left |
| `SessionSteps.ChoicesAreMarked` | dashboard/src/data/submissionWithdrawal.ts:352-403 | restoring, dismissing and releasing are marked on the record with their time, and only when they take effect |
| `WithdrawalSafety.StepKeepsInv` | dashboard/src/data/submissionWithdrawal.ts:301-417 | every step of polls, withdrawal answers, edits and recovery choices keeps: unique records, every copy of a message equal to the text sent under its id, the slot owned by the running withdrawal, each write-back recorded, no captured revision ahead of the composer, and a recovered message out of the queue |
| `WithdrawalSafety.RunKeepsInv` | dashboard/src/data/submissionWithdrawal.ts:301-417 | so does every run |
| `WithdrawalTheorems.WithdrawnTextIsPlaced` | dashboard/src/data/submissionLifecycleClient.ts:448-556 | applying "withdrawn" to a request with a pending withdrawal puts its exact text into the composer when the captured revision still stands and into the recovery slot otherwise, unless its record says it went back before |
| `WithdrawalTheorems.WrittenTextIsExact` | dashboard/src/data/submissionLifecycleClient.ts:491-518 | whatever a withdrawal writes into the composer is the text submitted under that id |
| `WithdrawalTheorems.WrittenAtMostOnce` | dashboard/src/data/submissionLifecycleClient.ts:520-556 | in every run from the start, a retained record's text reaches the composer at most once |
| `WithdrawalTheorems.RecoveryEmptiesOnlyByChoice` | dashboard/src/data/submissionWithdrawal.ts:352-403 | a step empties a held recovery exactly when the user restores or dismisses it at the revision shown |
| `WithdrawalTheorems.RecoveryIsNeverLost` | dashboard/src/data/submissionLifecycleClient.ts:627-670 | over any run without such a choice the recovered text stays as it is |
| `WithdrawalTheorems.NewerDraftSurvives` | dashboard/src/data/sessionCockpitStore.ts:325-366 | in every state a session keeps, no poll, withdrawal answer, resumed withdrawal, clear of an earlier revision or restore at an outdated one overwrites a draft newer than the captured revisions |
| `WithdrawalTheorems.EditMakesDraftNewer` | dashboard/src/data/sessionCockpitStore.ts:325-331 | typing makes the draft newer than whatever open withdrawals captured |
| `WithdrawalTheorems.TypingSurvives` | dashboard/src/data/submitClient.ts:748-775 | in every run from the start, what was typed last stays on screen however polls, late-returning submits, open withdrawals and outdated restores go on, until the next typing, a clear or restore for that very revision, or a fresh withdrawal |
| `WithdrawalDismissal.RecoveryOpensExactlyWhen` | dashboard/src/data/submissionLifecycleClient.ts:491-556 | from an empty slot a step opens the recovery of a request exactly when the running withdrawal targets it and hears "withdrawn" (its first answer only against the record version it was issued on), its text has not gone back, and the composer has moved on |
| `WithdrawalDismissal.GoneForGood` | dashboard/src/data/submissionWithdrawal.ts:32-74 | a sent request that is in no slot, no queue and no waiting withdrawal is never recovered or written again in any run |
| `WithdrawalDismissal.DismissalIsFinalExactlyWhen` | dashboard/src/data/submissionWithdrawal.ts:379-403 | a dismissal holds in every continuation exactly when the withdrawal that recovered the text no longer waits for an answer |
| `WithdrawalDismissal.DismissalCanBeUndone` | dashboard/src/data/submissionWithdrawal.ts:190-240 | a session from the start in which the status answer reopens the recovery just dismissed |
| `WithdrawalTheorems.DeliveryIsSettled` | dashboard/src/data/submissionLifecycleClient.ts:370-387 | an observation reaches a record only through the settlement, and not at all while its recovery is held |
| `WithdrawalTheorems.SessionNeverWeakens` | dashboard/src/data/submissionLifecycleClient.ts:594-670 | over any session run, the evidence of a record retained at the end never weakened |
| `WithdrawalTheorems.SessionFoldsReports` | dashboard/src/data/submissionLifecycleClient.ts:370-387 | over any session run, a retained record stands exactly where the fold of the reports that reached it puts it |
| `WithdrawalTheorems.SessionOrderIndependent` | dashboard/src/data/submissionLifecycleClient.ts:594-670 | two sessions that interleave polls and withdrawal answers in any way leave a record both retain with the same evidence, when they heard the same classes and no stale loss |
| `WithdrawalTheorems.DefinitiveWordIsKept` | dashboard/src/data/submissionLifecycleClient.ts:594-670 | when the authority never contradicts itself, a definitive state once held is held for the whole run |
| `WithdrawalTheorems.WatchAnchorIsFixed` | dashboard/src/data/submitMachine.ts:265-300 | the watch anchor never moves once set, whatever the session does |
| `WatchWindow.PollGivesUpExactlyWhen` | dashboard/src/data/submissionLifecycleClient.ts:750-770 | a poll settles a record left non-terminal on the endgame exactly when the window has passed since its watch began and it is neither queued nor being withdrawn, and leaves it alone otherwise |
| `WatchWindow.WatchBegins` | dashboard/src/data/submitMachine.ts:316-327 | over any run the watch begins at the anchor once there is one, and without one at the record's last write |
| `WatchWindow.ExpiresOnFirstPollAfterWindow` | dashboard/src/data/submissionLifecycleClient.ts:750-770 | however the session ran, a poll settles a record left non-terminal on the endgame exactly when the window has passed since that beginning and it is neither queued nor being withdrawn |
| `WatchWindow.StartIsFixedExactlyWhenAnchored` | dashboard/src/data/submitMachine.ts:265-300 | no continuation moves the beginning of a non-terminal record's watch exactly when its anchor is set |
| `WatchWindow.QueuedReportsKeepTheWatchOpen` | dashboard/src/data/submitMachine.ts:305-327 | a session whose record, reported queued at 0 s and 100 s outside the queue, is still open after a poll at 200 s |
| `WatchWindow.NoPollGivesUpEarly` | dashboard/src/data/submitMachine.ts:316-328 | no poll touches a record before the window has passed since its watch began |
| `CockpitSession.SessionSlice.SetComposerDraft` | dashboard/src/data/sessionCockpitStore.ts:325-331 | replaces the draft and advances the revision, nothing else |
| `CockpitSession.SessionSlice.ReplaceComposerDraftIfRevision` | dashboard/src/data/sessionCockpitStore.ts:332-366 | writes only at the expected revision and says whether it did |
| `CockpitSession.SessionSlice.UpsertSubmitRecord` | dashboard/src/data/sessionCockpitStore.ts:505-519 | the in-place write is the history write of the model |
| `CockpitSession.SessionSlice.DismissWithdrawalRecoveryIfMatches` | dashboard/src/data/sessionCockpitStore.ts:522-538 | empties the slot only for the named recovery at the expected revision |
| `CockpitSession.SessionSlice.ResolveAuthoritativeWithdrawal` | dashboard/src/data/submissionLifecycleClient.ts:520-556 | the sequence of store writes amounts to the resolution of the model |
| `CockpitSession.SessionSlice.RestoreOrRecoverWithdrawal` | dashboard/src/data/submissionLifecycleClient.ts:491-518 | likewise for the choice between composer and recovery slot |
| `CockpitSession.SessionSlice.ApplyLifecycleObservation` | dashboard/src/data/submissionLifecycleClient.ts:627-670 | likewise for a whole observation |
| `CockpitSession.SessionSlice.LifecyclePollTargets` | dashboard/src/data/submissionLifecycleClient.ts:731-770 | the loop returns the model's targets while giving up exactly the expired watches |
| `CockpitSession.SessionSlice.StartWithdrawal` | dashboard/src/data/submissionWithdrawal.ts:301-350 | takes up the held or newest queued target, one withdrawal at a time |
| `CockpitSession.SessionSlice.HearAnswer` | dashboard/src/data/submissionWithdrawal.ts:138-299 | an answer to the running withdrawal makes the model's step |
| `CockpitSession.SessionSlice.RestoreWithdrawnRecovery` | dashboard/src/data/submissionWithdrawal.ts:352-377 | restoring makes the model's step and reports its success |
| `CockpitSession.SessionSlice.DismissWithdrawnRecovery` | dashboard/src/data/submissionWithdrawal.ts:379-403 | dismissing makes the model's step and reports its success |
| `ReliableSubmit.BoundedAttempt` | dashboard/src/data/submitClient.ts:321-349 | an attempt succeeds only before the deadline, fails with its own error or the deadline's, and the latter never before the deadline |
| `ReliableSubmit.ReconcileOnce` | dashboard/src/data/submitClient.ts:373-460 | one reconcile attempt keeps the submission and ends the window exactly when what it hears from its transport settles it, on the phase, state and epoch that this says |
| `ReliableSubmit.ReconcileWindow` | dashboard/src/data/submitClient.ts:462-502 | the window always ends: on what its last attempt heard (accepted, rejected, unsupported, a reported state, a lost generation, a route failure), or on the endgame past its deadline when that settled nothing, on attempts whose backoff fits in it |
| `ReliableSubmit.Fetched` | dashboard/src/data/submitClient.ts:173-305 | a fetch counts as certified unsent exactly on the submit route's 503 with status pre-dispatch-failed, retrySafe and stage control-ipc, as an epoch mismatch exactly on the 409 that names both epochs, as lost exactly when no response came, and otherwise as its HTTP failure |
| `ReliableSubmit.SubmitLoop` | dashboard/src/data/submitClient.ts:504-602 | the loop issues exactly the calls the transport's answers and the clock call for, at most two, the second only after the certificate, and leaves a record settled by the last answer or ambiguous |
| `ReliableSubmit.ExecuteReliableSubmit` | dashboard/src/data/submitClient.ts:504-610 | whatever the transport does it ends; at most two calls, all with one id, text and epoch, the second only after the exact certificate; the final record is what the last submit answer obliges, or for a submission left open what the last reconcile attempt heard; a certificate as last answer ends on the endgame exactly when no resend was made; a fresh window makes at most 25 attempts |
| `ReliableSubmit.LateCertificateEndsOnEndgame` | dashboard/src/data/submitClient.ts:327-328 | a certificate that comes as the window closes leaves a submission certified unsent on the endgame |
| `ReliableSubmit.AttemptsOfFreshWindow` | dashboard/src/data/submitMachine.ts:360-409 | a fresh 120 s window holds 25 attempts under the 1/2/5 s backoff and never 26 |
| `ReliableSubmit.DriveSubmissions` | dashboard/src/data/submitClient.ts:828-949 | over any submits, manual retries and renewed waits, no id is ever sent with two texts, and no record rests in sending or reconciling |
| `ServedAges.StableEqualsIsEqualStripped` | dashboard/src/data/servedAges.ts:16-53 | stable equality holds exactly when the two JSON trees are equal after the volatile age keys are stripped at every depth |
| `ProjectionStore.MergeKeyed` | dashboard/src/data/store.ts:100-120 | the merge loop returns the model's merged map and whether the old map was kept |
| `ProjectionStore.MergeAgreesExactlyWhen` | dashboard/src/data/store.ts:100-120 | the merge agrees with a plain rebuild exactly when the shortcut does not keep a map with other keys |
| `ProjectionStore.MergeAgreesOnUniqueKeys` | dashboard/src/data/store.ts:100-120 | with unique ids it always agrees, and keeps the old map exactly when nothing stable changed |
| `ProjectionStore.RepeatedIdKeepsAStaleNode` | dashboard/src/data/store.ts:100-120 | a repeated id makes it keep a node the snapshot does not name |
| `ProjectionStore.MergedNode` | dashboard/src/data/store.ts:107-117 | under each key of a snapshot the old node stays while it is stable-equal, else the new one is stored |
| `ProjectionStore.SnapshotReusesUnchangedParts` | dashboard/src/data/store.ts:262-327 | each other part of the projection keeps its stored value exactly while it is stable-equal |
| `ProjectionStore.GateOpensExactlyOnChange` | dashboard/src/data/store.ts:170-260 | the store writes exactly when stable content or connection would change |
| `ProjectionStore.GatedRefinesUngated` | dashboard/src/data/store.ts:170-327 | over every run of snapshots and deltas the gated store has the stable content of a store that always writes |
| `ProjectionStore.DashboardStore.ApplySnapshot` | dashboard/src/data/store.ts:237-327 | a snapshot makes the gated step and counts one write exactly when the gate opens |
| `ProjectionStore.DashboardStore.ApplyDelta` | dashboard/src/data/store.ts:144-235 | likewise for a delta |
| `StreamLiveness.VerdictFromHistory` | dashboard/src/data/streamLiveness.ts:120-157 | each verdict, from the history alone: slept exactly on a clock jump since the last tick; backstop exactly on a silence past the timeout when no earlier backstop still awaits life of its own |
| `StreamLiveness.BackstopsArePaidFor` | dashboard/src/data/streamLiveness.ts:120-167 | backstops number at most one plus the frames after the settle window of the latest one |
| `StreamLiveness.SilenceCyclesOnce` | dashboard/src/data/streamLiveness.ts:120-167 | with no such frame the channel is cycled at most once |
| `StreamLiveness.BackstopsAreFarApart` | dashboard/src/data/streamLiveness.ts:135-167 | two backstops are more than settle window plus frame timeout apart |
| `StreamLiveness.BackstopsAreBounded` | dashboard/src/data/streamLiveness.ts:135-167 | n + 1 backstops take at least n such gaps |
| `StreamLiveness.SleepsAreBounded` | dashboard/src/data/streamLiveness.ts:135-147 | sleep cycles times the jump fit in the elapsed time |
| `StreamLiveness.Watchdog.Judge` | dashboard/src/data/streamLiveness.ts:135-153 | the closure's judgment is the model's, with the same new state |
| `StreamLiveness.Watchdog.MarkAlive` | dashboard/src/data/streamLiveness.ts:159-168 | a sign of life re-arms the budget only past the settle window |
| `StateStream.LiveIsConnectedOrOnNotice` | dashboard/src/data/stream.ts:46-114 | in every state of a running channel "live" means the current source is open, or connecting with its own open deadline armed |
| `StateStream.OpenIsLive` | dashboard/src/data/stream.ts:64-70 | in every state of a running channel an open source is shown as live |
| `StateStream.BadgeIsTheLastWord` | dashboard/src/data/stream.ts:52-91 | over any run the badge is live after an open or a snapshot of the current instance, lost after its error or expired deadline, starting before any |
| `StateStream.SourceAfter` | dashboard/src/data/stream.ts:46-113 | what opens, errors, deadlines, ticks and disposal make of the current source |
| `StateStream.FalseLiveIsBrief` | dashboard/src/data/stream.ts:28-92 | with punctual timers an unconnected channel claims "live" for at most 20 s |
| `StateStream.SupersededIsInert` | dashboard/src/data/stream.ts:46-92 | dropping every event of superseded instances from a run changes nothing |
| `StateStream.StoreSeesCurrentFrames` | dashboard/src/data/stream.ts:52-63 | the store receives exactly the frames of the instances current at the time, in order |
| `StateStream.WatchdogOfRun` | dashboard/src/data/stream.ts:94-103 | the embedded watchdog is the watchdog run on what the channel shows it |
| `StateStream.SubscribesAreAccountedFor` | dashboard/src/data/stream.ts:46-105 | every subscribe is the first, a sleep cycle, a backstop or an expired deadline |
| `StateStream.SubscribesAreBounded` | dashboard/src/data/stream.ts:46-105 | each of these kinds is bounded by the elapsed time |
| `StateStream.StateChannel.OnTick` | dashboard/src/data/stream.ts:94-103 | a tick cycles the source exactly on a verdict and keeps the channel's invariant |
| `StateStream.StateChannel.OnOpen` | dashboard/src/data/stream.ts:64-70 | opening makes the model's step and keeps the invariant |
| `StateStream.StateChannel.OnError` | dashboard/src/data/stream.ts:71-76 | an error makes the model's step and keeps the invariant |
| `StateStream.StateChannel.OnDeadline` | dashboard/src/data/stream.ts:85-91 | an expired deadline drops the badge before subscribing afresh |
| `CatalogPoll.RunKeepsInv` | dashboard/src/data/catalogPoll.ts:62-157 | over every interleaving: the slot holds the one unsettled attempt, readers wait where they joined, beats and hydrates are as the next rows say |
| `CatalogPoll.OneReadOutstanding` | dashboard/src/data/catalogPoll.ts:62-77 | no two physical reads are ever outstanding |
| `CatalogPoll.OneBeatPerAttempt` | dashboard/src/data/catalogPoll.ts:62-72 | an attempt has no beat before its answer; after it, it holds the list of that answer and one beat if its generation was in force at the step, none otherwise, whatever resets follow |
| `CatalogPoll.HydratesAreCurrentAndExcluded` | dashboard/src/data/catalogPoll.ts:79-157 | every store write was made by one step from an attempt of the generation in force at that step, and holds exactly the rows of its list, in order and multiplicity, that no reader sharing the attempt excluded |
| `CatalogPoll.CallJoinsExactlyWhenCurrent` | dashboard/src/data/catalogPoll.ts:139-149 | a call on revoked authority is refused at once; any other waits on the one attempt, started if there is none, with its exclusions added |
| `CatalogPoll.ResumeGivesTheList` | dashboard/src/data/catalogPoll.ts:84-102 | a settled attempt gives a current reader of its generation its list and exclusions, a revoked reader nothing, and makes any other wait once more |
| `CatalogPoll.DeliveryWritesExactlyWhen` | dashboard/src/data/catalogPoll.ts:149-157 | a delivery writes once exactly when its reader is current and holds rows or may write none, and tells its caller whether it was current |
| `CatalogPoll.GenerationCountsResets` | dashboard/src/data/catalogPoll.ts:53-60 | a generation is the number of resets before it |
| `CatalogPoll.ReaderLoopIsBounded` | dashboard/src/data/catalogPoll.ts:84-102 | a reader goes round its endless loop at most twice |
| `CatalogPoll.CatalogClient.HydrateCall` | dashboard/src/data/catalogPoll.ts:139-149 | a call with revoked authority starts nothing; another joins the shared attempt |
| `CatalogPoll.CatalogClient.ReaderResumes` | dashboard/src/data/catalogPoll.ts:79-102 | the resumed reader makes the model's step and keeps the invariant |
| `CatalogPoll.CatalogClient.ReaderDelivers` | dashboard/src/data/catalogPoll.ts:149-157 | likewise for the write |
| `CapabilityCatalog.RunKeepsInv` | dashboard/src/data/capabilityCatalog.ts:163-268 | over every interleaving: slots belong to working entries of their harness and generation, chains wait behind plain reads, and busy cells match reads |
| `CapabilityCatalog.OneGetOutstanding` | dashboard/src/data/capabilityCatalog.ts:192-216 | between resets a harness never has two GETs outstanding |
| `CapabilityCatalog.BusyExactlyWhileFetching` | dashboard/src/data/capabilityCatalog.ts:217-256 | a harness shows loading or refreshing exactly while a GET of this generation is out |
| `CapabilityCatalog.RefreshIsAnsweredByRefresh` | dashboard/src/data/capabilityCatalog.ts:200-215 | a refresh caller is answered by a GET that carried the refresh, unless a reset revoked it |
| `CapabilityCatalog.SlotIsReleasedByItsOwner` | dashboard/src/data/capabilityCatalog.ts:258-267 | a slot changes hands only by its owner, a refresh chained behind it, or a reset |
| `CapabilityCatalog.RevokedResultsAreDropped` | dashboard/src/data/capabilityCatalog.ts:180-184 | what comes back after a reset changes neither catalog nor slots and starts nothing |
| `CapabilityCatalog.FetchHandsOutOneEntry` | dashboard/src/data/capabilityCatalog.ts:192-215 | a call is handed the entry in flight, a refresh chained behind a plain read, or the read it starts, and changes nothing else |
| `CapabilityCatalog.StartedReadShows` | dashboard/src/data/capabilityCatalog.ts:217-224 | a started read shows refreshing over a snapshot or on demand, else loading, and keeps the snapshot |
| `CapabilityCatalog.ReturnedReadShows` | dashboard/src/data/capabilityCatalog.ts:223-256 | a read that returns in its generation shows its envelope, or its error and no envelope |
| `CapabilityCatalog.ResetRevokesAll` | dashboard/src/data/capabilityCatalog.ts:180-184 | a reset empties slots and catalog and leaves every entry of an earlier generation |
| `CapabilityCatalog.CapabilityClient.FetchHarness` | dashboard/src/data/capabilityCatalog.ts:192-268 | joins, chains or starts as the model does, and hands the caller that entry |
| `CapabilityCatalog.CapabilityClient.ChainContinues` | dashboard/src/data/capabilityCatalog.ts:206-212 | the chained refresh starts its own GET, or none after a reset |
| `PairChange.OutcomeIsAbsorbing` | dashboard/src/data/pairChange.ts:58-196 | after an outcome nothing changes and nothing is sent |
| `PairChange.PairFollowsVerdicts` | dashboard/src/data/pairChange.ts:58-196 | over any events, effort is sent once if model was proved and never otherwise, and the outcome is what the first verdict on model and the first verdict on effort after it call for |
| `PairChange.OutcomeTellsWhatWasSent` | dashboard/src/data/pairChange.ts:58-196 | aborted exactly when effort never went out; partial and completed exactly when it did, once |
| `PairChange.DoneIsOutcome` | dashboard/src/data/pairChange.ts:58-196 | a directive says done exactly when the pair has its outcome |
| `SetControls.MarkerIsLatestProof` | dashboard/src/data/sessionCapabilities.ts:219-248 | on a strict clock the effective model and effort are the latest server proof of the run |
| `SetControls.MarkerIsLatestProofExactlyWhen` | dashboard/src/data/sessionCapabilities.ts:230-242 | on a clock that may stand still, exactly unless an echo shares the millisecond of a snapshot that says otherwise |
| `SetControls.SameMillisecondShowsTheOlder` | dashboard/src/data/sessionCapabilities.ts:234-236 | a run where it does |
| `SetControls.OnlyProofMovesTheMarker` | dashboard/src/data/setAcceptance.ts:101-153 | requests and queued, unknown, unsupported or immediate answers never move the marker |
| `SetControls.LedgerRecordsEveryAnswer` | dashboard/src/data/setClient.ts:277-307 | the ledger is the record of all answers in order |
| `SetControls.LedgerOnlyGrows` | dashboard/src/data/sessionCockpitStore.ts:396-427 | between any two points of a run it only grows, and acknowledgments only turn on |
| `SetControls.LogIsWhatBears` | dashboard/src/data/setClient.ts:122-147 | the pair machine is fed exactly the session's answers and route failures for the value at hand and the readbacks of the step it awaits one for, in order |
| `SetControls.PairPostsEffortOnce` | dashboard/src/data/setClient.ts:309-384 | in the session a pair change posts effort exactly once when those events prove model and never otherwise; its outcome, completed included, is what they call for; and it posted none exactly when aborted |
| `SetControls.AcceptedPairCompletes` | dashboard/src/data/setClient.ts:309-365 | an accepted model answer and then an accepted effort answer complete the pair, with one post, and clear it |
| `SetControls.SeenExactlyWhen` | dashboard/src/data/setAcceptance.ts:101-153 | an entry counts as seen exactly when it was filed needing no attention, was acknowledged, or its unknown set was proved effective by a snapshot |
| `SetControls.PendingAfter` | dashboard/src/data/setClient.ts:277-307 | sends, answers and failures move only the pending set they own, to the phase the answer calls for; a pair change adds the effort it posts |
| `SetControls.AcknowledgingClearsFinishedPair` | dashboard/src/data/setClient.ts:386-392 | acknowledging clears a finished pair and leaves a running one |
| `SetControls.ReadbackSettles` | dashboard/src/data/setAcceptance.ts:204-232 | after a readback no set is left unverified, and a queued one only if the snapshot does not confirm it |
| `SetControls.FreshEffortStaysExactlyWhen` | dashboard/src/data/setClient.ts:122-162 | when a readback makes the pair post effort, its pending record stays exactly when no older effort set is resolved by the same readback |
| `SetControls.FreshEffortCanBeWiped` | dashboard/src/data/setClient.ts:122-162 | a run where the record of the fresh post is cleared while the pair still waits for its answer |
| `SetClient.ResolvePendings` | dashboard/src/data/setAcceptance.ts:204-232 | the loop returns the resolutions of model, then effort |
| `SetClient.SetSession.ApplySetResult` | dashboard/src/data/setClient.ts:277-348 | an answer makes the model's step on ledger, pending, evidence and pair |
| `SetClient.SetSession.SnapshotArrives` | dashboard/src/data/setClient.ts:80-89 | a snapshot and the loop over its resolutions make the model's step |
| `SetClient.SetSession.RouteFailed` | dashboard/src/data/setClient.ts:203-272 | a route failure clears only its own pending set and ends only its own pair step |
| `RailSeats.AttachFiles` | dashboard/src/data/railModel.ts:242-371 | whichever branch is taken, a session is filed exactly once, landed ones as completed and others as open |
| `RailSeats.AttachKeepsSeated` | dashboard/src/data/railModel.ts:250-371 | a session sits only where its document, role and parent allow, and stays detached only when there is no such seat or the single seat is taken |
| `RailSeats.AttachKeepsLanded` | dashboard/src/data/railModel.ts:242-330 | a landed session goes to the folder of the master whose seat, or whose leaf's seat, it held, and outside only when there is no such master or another parent |
| `RailSeats.AltitudesAre` | dashboard/src/data/railModel.ts:54-55 | which documents and roles name a sprint, master or leaf seat |
| `RailSeats.ParentsMatchWhen` | dashboard/src/data/reviewerContext.ts:6-23 | a parent matches by role, repository and path |
| `RailSeats.PathDirIs` | dashboard/src/data/taskHierarchy.ts:124-126 | the directory of a path is what stands before its last slash |
| `RailSeats.DocumentsAreIndexed` | dashboard/src/data/railModel.ts:227-240 | documents are found by key and masters by path, the last of each |
| `RailSeats.SprintsAreOrchestratingDocs` | dashboard/src/data/railModel.ts:227-240 | the sprints are the orchestrating masters among the documents, in order |
| `RailSeats.AttachAllFiles` | dashboard/src/data/railModel.ts:408-418 | over the whole list every session is filed exactly once |
| `RailSeats.AttachAllSeats` | dashboard/src/data/railModel.ts:408-418 | and every one sits, or has landed, where the rules allow |
| `RailModel.ShownMastersAreDealtOut` | dashboard/src/data/railModel.ts:373-405 | whatever the shown masters contribute is dealt out whole between the shown sprints and the top level |
| `RailModel.EveryShownMasterIsListedOnce` | dashboard/src/data/railModel.ts:373-405 | every shown master is listed exactly once, under one sprint section or at the top level |
| `RailModel.MastersSitUnderTheirSprint` | dashboard/src/data/railModel.ts:178-189 | a shown master is listed under the first sprint of its repository whose document names it, and at the top level when none does, when no two shown masters share a document key |
| `RailModel.ShownExactlyWhenOccupied` | dashboard/src/data/railModel.ts:377-380 | a master is shown exactly when something is filed under it |
| `RailModel.SprintShownExactlyWhen` | dashboard/src/data/railModel.ts:381-389 | a sprint is shown exactly when it has seats or is the first to name a shown master |
| `Sessions.VisibleExactlyUnlessRetired` | dashboard/src/data/sessions.ts:213-225 | a session owns a window unless it terminated with retirement provenance |
| `RailModel.RailHoldsEachSessionOnce` | dashboard/src/data/railModel.ts:217-434 | every session that is not a planned retirement occurs exactly once in the model, and the completed total is the number of landed ones |
| `RailModel.SeatsAreRightful` | dashboard/src/data/railModel.ts:227-371 | the seating rules, for landed sessions too, hold of every model's accumulators |
| `RailModel.CycleIsAPermutation` | dashboard/src/data/railModel.ts:437-451 | the cycling order is a permutation of the ids of the sessions that have not landed |
| `RailBuild.BuildRailModel` | dashboard/src/data/railModel.ts:408-434 | the loops over mutable accumulators build that model |
| `RailBuild.RailAccumulators.AttachSession` | dashboard/src/data/railModel.ts:332-371 | one in-place filing is the model's |
| `RailBuild.RailCycleOrder` | dashboard/src/data/railModel.ts:437-451 | the nested loops list the ids in the model's cycling order |
| `RailBuild.MastersAreSorted` | dashboard/src/data/railModel.ts:56-82 | clusters stand by path, seats inside them working first then by role and id, completed by id |
| `RailBuild.SectionIs` | dashboard/src/data/railModel.ts:388-398 | each sprint section holds the sorted seats of its sprint and the masters it owns |
| `RailBuild.ModelIsSorted` | dashboard/src/data/railModel.ts:388-424 | sprints stand by path, their seats by command, detached sessions running first |
| `RailBuild.SeatOrdersAre` | dashboard/src/data/railModel.ts:46-62 | the ruled orders of roles in clusters and on sprints |
| `RailBuild.ComparisonsAre` | dashboard/src/data/railModel.ts:65-82 | what each comparison puts first |
| `SpawnTree.EmittedExactlyWhenRooted` | dashboard/src/data/railModel.ts:462-484 | a row is emitted at depth d exactly when the session is visible and its parent chain reaches a root in d steps |
| `SpawnTree.TreeIsAPreorder` | dashboard/src/data/railModel.ts:476-483 | each session is emitted at most once, siblings in order, every deeper row right under its parent and one level below it, the roots sorted |
| `SpawnTree.AllShownExactlyWhenAcyclic` | dashboard/src/data/railModel.ts:462-484 | all visible sessions are emitted exactly when the spawn edges are acyclic |
| `SpawnTree.DepthIsBounded` | dashboard/src/data/railModel.ts:478-481 | over arbitrary, possibly cyclic edges the recursion is never deeper than the number of sessions |
| `SpawnTree.BuildSpawnTree` | dashboard/src/data/railModel.ts:462-484 | the grouping loop and the recursive emission terminate and produce that tree |
| `Terminal.InputIsConserved` | dashboard/src/data/terminal.ts:216-359 | over any opens, drops and reattaches, the stdin frames sent followed by the pending buffer are exactly the inputs, in order |
| `Terminal.OpenReplaysSizeThenInput` | dashboard/src/data/terminal.ts:246-255 | an open sends the latest size, then the buffered input, on the socket that opened |
| `Terminal.OpenLeavesNothingHeld` | dashboard/src/data/terminal.ts:246-255 | after an open everything ever typed has been sent |
| `Terminal.WireAfter` | dashboard/src/data/terminal.ts:246-261 | only an open socket is sent anything: the replay as it opens, and what is typed or resized meanwhile |
| `Terminal.LineAfter` | dashboard/src/data/terminal.ts:263-308 | the socket is replaced exactly by a new boot identity on a living pane when it is not open or may be superseded; what opens, losses and disposal make of the line |
| `Terminal.ReportsAfter` | dashboard/src/data/terminal.ts:222-250 | what is reported at each event |
| `Terminal.LossIsReportedOncePerSocket` | dashboard/src/data/terminal.ts:222-228 | over any run each socket reports its loss at most once and each replacement one reconnect |
| `Terminal.BridgeFromHistory` | dashboard/src/data/terminal.ts:230-241 | over any run sockets, output, exits and disposal are those its heard events call for |
| `Terminal.SupersededIsInert` | dashboard/src/data/terminal.ts:216-255 | dropping every event of superseded sockets from a run changes nothing |
| `Terminal.WireIsInSocketOrder` | dashboard/src/data/terminal.ts:257-261 | frames of different sockets never interleave |
| `Terminal.ConsumesWhatChanges` | dashboard/src/data/terminal.ts:290-296 | over any run the identities consumed are those asked for while the pane lives, repetitions in a row taken once |
| `Terminal.IdentityConsumedOnceExactlyWhen` | dashboard/src/data/terminal.ts:290-296 | every identity is consumed at most once exactly when none is asked for again after another |
| `Terminal.IdentityCanReturn` | dashboard/src/data/terminal.ts:290-296 | one that comes back after another is consumed again |
| `Terminal.TerminalBridge.OnOpen` | dashboard/src/data/terminal.ts:246-255 | the replay loop makes the model's step |
| `Terminal.TerminalBridge.ReattachTo` | dashboard/src/data/terminal.ts:281-308 | a reattach makes the model's step and reports a replacement exactly when there is one |
| `PasteFraming.SanitizeKeepsExactlyCleanText` | dashboard/src/data/terminal.ts:99-108 | sanitizing is idempotent and leaves text unchanged exactly when it holds no control character |
| `PasteFraming.PasteIsReadWhole` | dashboard/src/data/terminal.ts:87-108 | whatever the text, its bracketed paste is read back as the sanitized text, whatever follows |
| `PasteFraming.ControlsAre` | dashboard/src/data/terminal.ts:99-108 | the characters taken out are those below space but tab and newline, and delete |
| `PasteFraming.EmbeddedMarkersVanish` | dashboard/src/data/terminal.ts:99-104 | a paste marker embedded in the text goes whole |
| `RuntimeTree.FilterDropsIgnoredPaths` | scripts/sync-runtime.py:77-127 | filtering one directory's names at a time leaves out exactly the files whose whole path is ignored |
| `RuntimeTree.IgnoredNamesAre` | scripts/sync-runtime.py:16-24 | the names left out are the four cache names and whatever ends in .pyc |
| `RuntimeTree.InSyncExactlyWhenFilesAgree` | scripts/sync-runtime.py:97-123 | for an injective digest the check passes exactly when both roots hold the same files outside ignored paths |
| `RuntimeTree.CopyIsInSync` | scripts/sync-runtime.py:97-127 | a filtered copy is in sync with what it was copied from |
| `SyncRuntime.TargetIsWhole` | scripts/sync-runtime.py:136-156 | in every state of every run with crashes anywhere, the target is the old tree, absent, or a complete filtered source, as the last rename says |
| `SyncRuntime.MissingExactlyBetweenRenames` | scripts/sync-runtime.py:152-154 | a target that was there is missing exactly while the last rename was the one that moved it aside |
| `SyncRuntime.OneRunRecovers` | scripts/sync-runtime.py:136-156 | after any crashes one run left to finish installs the filtered source with nothing ignored in it, leaves no leftovers and passes the check |
| `SyncRuntime.CrashBetweenRenamesLosesBothCopies` | scripts/sync-runtime.py:136-156 | a crash between the renames leaves no target, and the next run deletes old tree and replacement before it copies |
| `SyncRuntime.UnfinishedWorkLeavesAnything` | scripts/sync-runtime.py:147-156 | unfinished copies and deletes can leave any tree, but only in the directory they work on |
| `SyncRuntime.RunsBeginAndCrash` | scripts/sync-runtime.py:136-146 | a run begins when none is under way and a crash leaves the disk as it stands |
| `SyncRuntime.PackageData.ReplaceTree` | scripts/sync-runtime.py:136-156 | the operations in order end on the filtered source alone and are a run of the model |
| `SyncRuntime.CollectDigests` | scripts/sync-runtime.py:97-108 | one pass over any listing of the tree collects exactly the digests of the files not ignored |

## Left out

- WithdrawalTheorems.WrittenAtMostOnce: speaks of retained records only; once a record is evicted nothing remembers that its text went back.
- Runs of withdrawals start from requests whose `executeReliableSubmit` has returned: while it runs it writes its own copy of the record past the settlement.
- SubmissionWithdrawal.IsFreshReturn: a retry or a renewed wait that returns under an id already sent is not a step of a session run, because it writes past the settlement; `ReliableSubmit.DriveSubmissions` covers those returns without polls.
- Receipt, reconciliation, detail and notice texts of submit records; announcements and copy throughout.
- HTTP, JSON parsing and response validators: answers come in already classified, except the two route-failure certificates.
- Timers, abort controllers, local storage and broadcast channels are clock readings or environment steps; SHA-256 is any injective digest.
- The lifecycle poller's scheduling and the catalog driver's reference counts: one-branch facts about a single timer.
- In the projection store: suppressed attention ids, the heartbeat, `generatedAt`, the event window, and the age anchors of `stampServed`.
- `connectEvents`: a stream without a watchdog whose handlers only forward.
- Single flight and generations of the session snapshot GET, the same pattern as the capability read; the promotion watcher and effort cycling.
- RailModel.SeatsAreRightful: does not say that a seat's master belongs to the same repository, because masters are keyed by path alone.
- RailModel.MastersSitUnderTheirSprint: requires distinct document keys, because the assignment of masters to sprints is kept by key and a later master with the same key overwrites an earlier one.
- Rail labels, gate joins, attention rollups and row tooltips: display only.
- A document's canonical reference and command names are given with the document, not parsed from its path.
- `submitAndConfirm`, `pasteAndConfirm` and `whenReady`: heuristics over output timing.
- SyncRuntime.OneRunRecovers: takes the source as it stood when the run began; a source edited during the copy is not modelled.
- Symbolic links, permissions, several targets and the refusal to sync a path onto itself in the runtime sync.
- React components, styling, the Python package and the end-to-end drivers.

# Desktop host: a verified model

This project models the stateful protocols of the Go desktop host and proves what they keep over every run. One
module stands for one mechanism:

| module | mechanism |
|---|---|
| `HistoryConversion` | stored messages become display rows, with a second form that only skips them |
| `HistoryPaging` | history pages by turn range, and the windows rendered from them |
| `PromptTape` | cursor paging over lazily loaded sessions |
| `Checkpoints` | the backward fold over checkpoints with its bounded sorted preview |
| `Utf8Trim` | cutting UTF-8 text at a byte limit |
| `SessionRebind` | moving a tab to another session: candidate, commit or rollback, detached runtimes |
| `WorktreeReservations` | merge and cleanup locks over path trees against runtime admission |
| `BotWatch` | versioned persistence of chat subscriptions under two mutexes |
| `BotTakeover` | the two-way binding between tabs and chats that drive them |
| `DeferredRebuild` | the queue of rebuilds waiting for an idle tab |
| `HeartbeatRun` | one scheduled run: claim, topic choice, submission |
| `HeartbeatSidecar` | two files that commit one generation of run histories |
| `CredentialRoutes` | the route table of the credential proxy, with retirement and revocation |
| `CrashQueue` | the queue of crash reports, its pruning, its upload ledger and its flush |
| `ExclusiveExport` | all-or-nothing export of a batch of files |

Code that changes state in the source is a class or a method over arrays and loops, proved equal to a function of
the old state; the properties are lemmas about those functions, over every input, every event and every run.
Goroutines are interleavings of the sections a lock protects. Failing I/O, crashes and other processes are
parameters, so every theorem quantifies over them. `sessionRuntimeKey` and cursor encoding are taken as given
identities, tokens and hashes as opaque values. A snapshot recovery that retargets a session is a no-op.

Where the code does not keep a promise on all inputs, the model follows the code: one lemma gives the exact
condition under which the promise holds, another an input that breaks it.

- Skipping and rendering agree for every planner state exactly when no user message is answered before the planner
  state is touched (`HistoryConversion.LockStepExactlyWhenAligned`). Steers stored as user messages
  (`internal/agent/run_loop.go:199-203`) are answered so, and take a queued planner display with them
  (`UserOriginSteerDropsPlannerDisplay`).
- A startup can attach a running tab instead of building. It gets the session it starts exactly when its source runs
  that session (`SessionRebind.AttachKeepsInvExactly`). A tab that has only reserved the session for a rebind is
  found too, and then its controller goes on under the wrong name (`StartupTakesReservingTab`).
- Seeding the subscriptions can change them, for some continuation, exactly when its version was read while the newest
  change had not reached the store and the store held, or could still come to hold, other routes, or when an earlier
  seed had set memory and store apart (`BotWatch.SeedCanChangeExactly`); one subscription and one refresh are enough (`FirstSubscriptionIsUndone`).
- Clearing a takeover binding after the lock was given up keeps the maps inverse exactly when the binding is still
  the one that was read, or both names are unbound (`BotTakeover.ClearIsSafeExactly`, `StaleClearStrandsNewDriver`).
- A reservation keeps admitted runtimes out of its roots exactly when every relevant runtime root resolved when it
  was made (`WorktreeReservations.ReservationKeepsInvariantExactly`, `UnresolvedRuntimeIsReservedOver`).
- A checkpoint's preview is marked truncated for an empty path too, which counts as a file and is never listed
  (`Checkpoints.TruncatedExactly`, `EmptyPathLooksTruncated`).
- A report of a newer schema is pruned exactly when it cannot be read, can be removed and comes early enough
  (`CrashQueue.NewerIsPrunedExactly`, `UnreadableOldestIsPruned`). Pruning leaves at most ten reports, or none that is
  prunable, exactly when no removal it attempts fails (`PruneSettlesExactly`, `FailedRemovalsKeepAll`).
- Starting a flush loses an unsent report exactly when telemetry is off and one waits that can be removed
  (`CrashQueue.BeginLosesUnsentExactly`, `OptOutLosesAReport`). A step of the flush removes a file that does not parse
  in full, also one with a newer header (`NextRemovesExactly`, `UnparseableNewerIsDropped`).
- The upload ledger tells crashes apart exactly by version and identity as long as no version contains a colon
  (`CrashQueue.KeysSeparate`); with one, two crashes can share a key, and the second is removed without an upload
  (`CollidingReportIsLost`), the only way a flush step loses a crash never uploaded (`NextLosesUnpostedExactly`).
- A config saved over a commit by a writer that knows no sidecar is read with the committed histories exactly unless
  neither it nor the config that commit replaced has a revision (`HeartbeatSidecar.OlderWriterKeepsHistoryExactly`).
- A crash between the two writes of a heartbeat commit is invisible exactly when every history that the config still
  carries alone is in the engine's form (`HeartbeatSidecar.StagedIsInvisibleExactly`, `InlineHistoryIsRewritten`).
- A failed export restores every path exactly when it does not stop at an exclusive copy it created and could not
  inspect (`ExclusiveExport.FailureRestoresExactly`, `UninspectedCopyStays`).
- Pruning a heartbeat's pending topic is harmless exactly when the entry is kept or absent
  (`HeartbeatRun.PruneIsSafeExactly`); between two failed attempts it leaves two topics waiting
  (`PrunedEntryLeavesTwoTopics`).

## Model

| member | source | states |
|---|---|---|
| HistoryConversion.ConvertState.constructor | desktop/app.go:5773-5782 | Recorded planner displays are grouped by user-text hash, in order, without the unusable ones |
| HistoryConversion.InitialQueueIsUsable | desktop/app.go:5773-5782 | Each queue is exactly the subsequence of usable displays recorded for its hash |
| HistoryConversion.UsableInOrder | desktop/app.go:5773-5782 | The usable displays of a recording are those of its parts, one after the other |
| HistoryConversion.PassTracks | desktop/app.go:5499-5635 | After any messages each queue is what its usable displays leave once one was taken for every message of its key that reached them, and the flag is set if and only if the display just shown has a cancelled-turn notice and no user-authored turn followed |
| HistoryConversion.PassServesInOrder | desktop/app.go:5499-5635 | Over a whole pass the n-th message of a key to reach the displays shows the n-th usable one, none when they are used up; suppressed messages show nothing, all others what they show without displays |
| HistoryConversion.EarlyRowsContent | desktop/app.go:5526-5563 | Receipts, local records, steers and generated messages show at most one notice each, told case by case, and touch no queue |
| HistoryConversion.OwnRowsContent | desktop/app.go:5547-5622 | The rows of one ordinary message show its body once and first unless a local record has nothing to show, every present receipt once and in order, the interruption of a local record last, and nothing else; only a user message at a checkpoint carries a turn |
| HistoryConversion.ConvertState.ConvertHistoryMessage | desktop/app.go:5517-5635 | One step of the stateful conversion is the specified one; which display it shows is HistoryConversion.PassServesInOrder |
| HistoryConversion.ConvertState.ConsumeHistoryPlannerState | desktop/app.go:5643-5669 | One step of the skip form is the specified one and changes only the planner state; which display it takes is HistoryConversion.SkipMatchesConvertExactly with HistoryConversion.PassTracks |
| HistoryConversion.ConvertState.PrimePlannerState | desktop/history_slice.go:1122-1132 | Skipping a whole prefix folds the skip step over it |
| HistoryConversion.ConvertState.ConvertWindow | desktop/history_slice.go:939-955 | Priming over the prefix and converting the window gives the window's rows from the primed state |
| HistoryConversion.SkipMatchesConvertExactly | desktop/app.go:5517-5669 | Skipping one message reaches the state rendering it reaches, if and only if the message is not misaligned in a state that exposes it |
| HistoryConversion.AlignedPassesAgree | desktop/app.go:5483-5669 | Over aligned messages both forms reach the same queues and flag from every planner state |
| HistoryConversion.WindowIsTailOfFullPass | desktop/app.go:5483-5669 | For every split point, skipping the prefix and converting the rest gives exactly the tail of the full pass |
| HistoryConversion.LockStepExactlyWhenAligned | desktop/app.go:5483-5669 | The two forms agree from every planner state if and only if no message of the list is misaligned |
| HistoryConversion.UserOriginSteerDropsPlannerDisplay | internal/agent/run_loop.go:199-203 | A steer stored as a user message makes the skip form drop a display that rendering keeps |
| HistoryConversion.NothingQueuedNothingSkipped | desktop/history_slice.go:1122-1132 | Without recorded displays the skip form changes nothing |
| HistoryPaging.NormalizeLimit | desktop/app.go:5286-5294 | Every limit becomes one between 1 and 200, keeping those already inside; 60 stands for none |
| HistoryPaging.TurnStartByCount | desktop/app.go:5322-5340 | The start of turn n is the message before which exactly n turns begin |
| HistoryPaging.WindowByTurn | desktop/app.go:5322-5340 | A message is in the window if and only if its turn is in the range, leading messages counting as before turn 0 |
| HistoryPaging.MessagesForTurnRange | desktop/app.go:5737-5758 | The collected window is the slice between two turn starts, with every original index |
| HistoryPaging.HistoryPage | desktop/app.go:5296-5320 | A page counted and sliced in one pass equals the page specified by turn starts |
| HistoryPaging.PageSpansExactly | desktop/app.go:5286-5340 | A page ends where it was asked to, holds exactly as many turns as the limit allows or as remain, and has older ones if and only if more remain |
| HistoryPaging.WalkRestoresTranscript | desktop/app.go:5286-5340 | Pages followed back by StartTurn under any limits join to the whole transcript, if and only if a turn exists or there is nothing to show |
| HistoryPaging.LeadingMessagesOnlyInFirstPage | desktop/app.go:5296-5340 | Messages before the first turn appear only in the page starting at turn 0; indexes are strictly increasing and name the messages shown |
| HistoryPaging.CheckpointTurnsForWindow | desktop/app.go:5760-5771 | Checkpoints are rebased to window positions: each maps to the original index at that position |
| HistoryPaging.WindowKeepsCheckpointPositions | desktop/app.go:5688-5771 | Rendering a window with rebased checkpoints gives the rows the original positions give |
| HistoryPaging.RenderWindow | desktop/app.go:5712-5720 | The rows of a provider window are those of the transcript slice it stands for, with checkpoints at their original positions |
| HistoryPaging.HistoryPageFromProviderMessages | desktop/app.go:5688-5721 | A page of rows is the rendered window of its turn range |
| PromptTape.PageLimit | desktop/app.go:4323-4331 | Every requested limit becomes one between 1 and 200, keeping those already inside; 50 stands for none |
| PromptTape.Tape.constructor | desktop/app.go:4357-4390 | A fresh tape has loaded nothing |
| PromptTape.Tape.EntriesForSession | desktop/app.go:4451-4474 | A session is read at most once, and its entries are what the disk gave then, none if it could not be read; later reads see the same whatever the disk does |
| PromptTape.Tape.ReadOlder | desktop/app.go:4392-4436 | One page is the specified fill from the cursor, with the cursor of the next one |
| PromptTape.Tape.ReadAll | desktop/app.go:4438-4449 | Following cursors to the end terminates and returns the joined pages of the walk, so all entries after the start |
| PromptTape.BeforeIsPinned | desktop/app.go:4451-4474 | Later reads never change what lies before a reached position |
| PromptTape.FillAdvances | desktop/app.go:4392-4436 | A fill returns exactly the entries between its start and its end position and moves strictly forward |
| PromptTape.PageAdvances | desktop/app.go:4392-4436 | Every page but the last is full, and (session, unread, entries left) strictly decreases |
| PromptTape.WalkReadsRest | desktop/app.go:4392-4474 | From any reached position the pages are exactly the rest of the tape, each entry once |
| PromptTape.PagesCoverTape | desktop/app.go:4392-4474 | Under any limits and any disk, the pages of a fresh tape join to all sessions' entries in order |
| PromptTape.PinnedWhenFirstAsked | desktop/app.go:4451-4474 | After a walk every session read holds what the disk gave at the page that first asked for it, and nothing if it could not be read then |
| PromptTape.UnchangingDiskReadsWhole | desktop/app.go:4392-4474 | With one unchanging disk the pages join to the disk's own entries over all sessions in order |
| PromptTape.CursorResumes | desktop/app.go:4392-4436 | A cursor of this tape leads to exactly the position it names, and one of another tape to the newest entry |
| Checkpoints.PreviewIsUnique | desktop/app.go:2441-2461 | The predicate on previews determines the list |
| Checkpoints.PreviewSize | desktop/app.go:2441-2461 | A preview has min(limit, size of the union) entries |
| Checkpoints.InsertKeepsPreview | desktop/app.go:2441-2461 | Inserting at the searched place, dropping the largest when full, keeps the smallest paths in order without repetition |
| Checkpoints.InsertPreview | desktop/app.go:2441-2461 | The in-place shift realises the insertion; empty, listed and too large paths change nothing |
| Checkpoints.AddFiles | desktop/app.go:2425-2431 | One turn's files join the running set, and the preview stays the preview of that set |
| Checkpoints.FoldTurn | desktop/app.go:2418-2436 | One step of the fold extends everything known about later turns |
| Checkpoints.Checkpoints | desktop/app.go:2391-2438 | For every checkpoint the count is the size of the union from there on, the files its smallest 60, and a code rewind is offered exactly when a later turn has files and all such turns can be undone |
| Checkpoints.TruncatedExactly | desktop/app.go:2433-2436 | The truncation flag holds if and only if more than 60 paths were touched or an empty one was |
| Checkpoints.EmptyPathLooksTruncated | desktop/app.go:2425-2436 | One turn that touched one empty path counts one file, lists none and is marked truncated |
| Checkpoints.RewindableByFlags | desktop/app.go:2414-2424 | The two running flags mean: some later turn has files, and all that have can be undone |
| Checkpoints.LaterRewindIsSmaller | desktop/app.go:2409-2436 | When a turn can rewind code, a later one can exactly if files were touched from there on, and would touch no other files |
| Utf8Trim.TrimPartialSuffix | desktop/app.go:10116-10130 | The result drops exactly a partial encoding that follows a valid prefix, if there is one |
| Utf8Trim.TrimOfCut | desktop/app.go:10116-10130 | Of valid text cut at any byte, the longest valid prefix is kept and at most three bytes are lost |
| Utf8Trim.CutShape | desktop/app.go:10116-10130 | Every cut of valid text is a valid prefix followed by nothing or a partial encoding |
| Utf8Trim.NoLongerValidPrefix | desktop/app.go:10116-10130 | No valid prefix reaches into the partial encoding |
| Utf8Trim.BoundaryIsRuneStart | desktop/app.go:5998-6009 | In valid text a prefix is valid if and only if the next byte starts an encoding |
| Utf8Trim.ClipStringBytes | desktop/app.go:5998-6009 | The clipped text is a prefix within the limit, and of valid text the longest valid one |
| SessionRebind.App.ReserveSessionRuntimePath | desktop/session_runtime.go:299-328 | Reserving maps the target to the tab's runtime, or refuses because another tab's runtime owns it |
| SessionRebind.App.Rollback | desktop/app.go:3874-3904 | The deferred clean-up releases the lease, closes the candidate and takes the alias back |
| SessionRebind.App.DetachRuntimeForReplacement | desktop/tabs.go:650-686 | A detached runtime takes controller, lease, sink and runtime record to a fresh struct in the detached table |
| SessionRebind.App.ApplyRuntimeTab | desktop/tabs.go:691-763 | The tab takes over everything the detached struct held and the registry follows |
| SessionRebind.App.ReattachDetachedSessionRuntime | desktop/app.go:4001-4065 | Reattaching moves the detached target to the tab and the source aside or to its teardown, in one section |
| SessionRebind.App.AttachExistingSessionRuntime | desktop/tabs.go:765-866 | A startup takes over the detached runtime, the registered owner or a visible tab of its session, if that is ready, and otherwise changes nothing |
| SessionRebind.App.CommitRebind | desktop/app.go:3907-3962 | Publication happens only while the transition still stands, over or beside the source |
| SessionRebind.App.RebindTabToLoadedSessionPath | desktop/app.go:3705-3993 | A whole rebind is the specified one, whose outcomes SessionRebind.RebindSucceedsExactly, SessionRebind.RebindIsAtomic and SessionRebind.RebindInstalls tell; it keeps the invariant |
| SessionRebind.AbortRestores | desktop/app.go:3874-3904 | Failing at any stage leaves every tab's controller, lease and sink, and ends each candidate resource exactly once |
| SessionRebind.CommitOverSwitches | desktop/app.go:3907-3988 | With an idle source the tab runs the target and the source is closed and released exactly once |
| SessionRebind.CommitBesideSwitches | desktop/app.go:3907-3988 | With a working source the tab runs the target and the source lives on whole in the detached table |
| SessionRebind.RebindIsAtomic | desktop/app.go:3705-4065 | Every outcome of every stage: an error changes nothing a tab holds, a success switches exactly as above |
| SessionRebind.RebindSucceedsExactly | desktop/app.go:3705-3993 | A rebind to another session succeeds if and only if its source is absent or saved and the target's detached runtime is ready or, without one, no other tab is on record for the target, nobody holds its lease and every part of building it works |
| SessionRebind.RebindInstalls | desktop/app.go:3907-4065 | After success the tab holds a controller, a live lease of the target and a sink that are all new, or all that the detached runtime held |
| SessionRebind.CommitPublishesExactly | desktop/app.go:3907-3934 | A candidate is published if and only if since its reservation its tab is still shown with the same controller and runtime, that runtime was not published anew, renamed or given away, and the target is still reserved for it; otherwise it is given up |
| SessionRebind.ReserveReserves | desktop/session_runtime.go:299-328 | A reservation is refused if and only if another tab is on record for the target, and then keeps every other tab out |
| SessionRebind.AbortFreesExactly | desktop/session_runtime.go:378-387 | A failed rebind gives its target back unless its own runtime is on record under it, and nothing else |
| SessionRebind.RebindKeepsInv | desktop/app.go:3705-4065 | Every live controller and lease has exactly one holder after any rebind, and nothing stays in transit |
| SessionRebind.InvIsExclusive | internal/agent/session_lease.go:152-192 | No two tabs, visible or detached, have controllers for one session, nor unreleased leases, a lease being granted only while no unreleased one exists |
| SessionRebind.StepKeepsInv | desktop/app.go:3705-4065 | Each step of a rebind, a startup or a closing keeps the invariant; a startup that attaches does so if its source runs the session it starts |
| SessionRebind.EveryRunIsExclusive | desktop/app.go:3705-4065 | Over every interleaving of those steps no session is held twice, and nothing is closed or released twice or lost |
| SessionRebind.EveryRunIsRecorded | desktop/session_runtime.go:98-463 | Over every interleaving each session on record is recorded for a runtime that a visible or detached tab goes by |
| SessionRebind.TakenExactly | desktop/session_runtime.go:267-308 | A session counts as taken if and only if another tab, visible or detached, is on record for it |
| SessionRebind.LeaseFreeExactly | internal/agent/session_lease.go:152-192 | A session's lease is free if and only if no tab of that session and no rebind in progress holds one |
| SessionRebind.ClaimSucceedsExactly | desktop/session_runtime.go:393-447 | A startup may publish if and only if no other tab is on record for its session and its lease is its own, free or not needed |
| SessionRebind.PublishSucceedsExactly | desktop/tabs.go:3945-3964 | A startup publishes if and only if its claim still stands, and then its runtime is ready for others |
| SessionRebind.AttachDoes | desktop/tabs.go:765-866 | A startup attaches if and only if its session runs ready somewhere and nobody on record is still starting; it then holds what the source held, and its own lease ends |
| SessionRebind.CloseDoes | desktop/tabs.go:540-577 | Closing a tab with work moves it whole to the detached table; closing any other ends what it held, once, and nothing else |
| SessionRebind.DiscardDoes | desktop/app.go:3072-3082 | Stopping a detached runtime ends what it held, once, and nothing else |
| SessionRebind.AttachKeepsInvExactly | desktop/tabs.go:765-866 | Attaching a running session keeps the invariant if and only if the source found runs the session the tab starts |
| SessionRebind.StartupTakesReservingTab | desktop/tabs.go:765-866 | A run from the start in which a startup finds a rebind's reservation and takes the reserving tab's controller under the wrong session |
| WorktreeReservations.WithinIsPrefix | desktop/delivery_worktree.go:668-677 | The relative-path test holds if and only if the root's components are a prefix |
| WorktreeReservations.Gate.PublishMergeSnapshot | desktop/delivery_worktree.go:509-516 | The published snapshot is the merge table |
| WorktreeReservations.Gate.MergeReservedSnapshot | desktop/delivery_worktree.go:518-521 | The lock-free query is answered from the snapshot |
| WorktreeReservations.Gate.ReserveMergeRuntime | desktop/delivery_worktree.go:535-567 | A merge is granted only clear of every reservation and active runtime, and adds exactly its roots |
| WorktreeReservations.Gate.ReserveWorktreeCleanup | desktop/delivery_worktree.go:715-750 | A cleanup is granted only clear of every reservation and every runtime inside, and adds exactly its root |
| WorktreeReservations.Gate.ReleaseOperation | desktop/delivery_worktree.go:535-567 | A release takes its operation's roots back |
| WorktreeReservations.Gate.BeginWorkspaceRuntimeAdmission | desktop/delivery_worktree.go:755-766 | Admission holds the lock if and only if nothing reserves the root |
| WorktreeReservations.MergeGrantedExactly | desktop/delivery_worktree.go:535-567 | A merge is granted if and only if its roots resolve, none touches a root of an operation in progress, and no runtime that resolves and touches one is running or has a terminal |
| WorktreeReservations.CleanupGrantedExactly | desktop/delivery_worktree.go:715-750 | A cleanup is granted if and only if the directory around its root touches no operation in progress and no runtime that resolves, visible or not, lies inside; it reserves that directory |
| WorktreeReservations.AdmittedExactly | desktop/delivery_worktree.go:679-766 | A runtime is admitted, or a turn started, if and only if its root lies outside every cleanup in progress and touches no merge in progress |
| WorktreeReservations.RuntimesExactly | desktop/worktree_runtime_admission.go:39-73 | A runtime appears only by publication, under the admitted root if it is a project's, and goes only by being closed |
| WorktreeReservations.ReservationKeepsInvariantExactly | desktop/delivery_worktree.go:656-766 | A granted reservation keeps the invariant if and only if it saw every runtime it has to look at |
| WorktreeReservations.UnresolvedRuntimeIsReservedOver | desktop/delivery_worktree.go:656-666 | A run from the empty state that ends with an admitted runtime inside a reserved allocation, its root not having resolved |
| WorktreeReservations.ReleaseIsExact | desktop/delivery_worktree.go:485-567 | Releasing by key removes exactly its owner's roots |
| WorktreeReservations.StepKeepsInvariant | desktop/delivery_worktree.go:656-766 | Every admission, publication, reservation and release keeps it |
| WorktreeReservations.EveryRunIsSafe | desktop/delivery_worktree.go:656-766 | Over every interleaving reservations never overlap and reserved allocations hold no runtime |
| WorktreeReservations.SnapshotAnswersAsTable | desktop/delivery_worktree.go:509-521 | Outside the lock the snapshot answers every query as the table does |
| WorktreeReservations.NoRuntimeInsideReservedAllocation | desktop/delivery_worktree.go:679-766 | While a cleanup is held no runtime, visible or detached, lies inside it |
| BotWatch.KeyInjective | internal/bot/desktop.go:45-49 | Different routes have different keys |
| BotWatch.SeedIsIdentityExactly | desktop/bot_bridge_app.go:155-184 | Reading a stored subscription set back gives the same set if and only if every route survives trimming and has a chat |
| BotWatch.SeededExactly | desktop/bot_bridge.go:488-494 | What is watched after a seed is what the stored routes read as, without those that have no chat |
| BotWatch.TrimExactly | desktop/bot_bridge_app.go:155-184 | Reading a field back cuts white space off both ends, all of it, and nothing else |
| BotWatch.Hub.Change | desktop/bot_bridge.go:434-446 | The first section of a change: memory, number, dirty mark and the captured snapshot |
| BotWatch.ChangeTakesEffectExactly | desktop/bot_bridge.go:434-446 | A change subscribes or unsubscribes exactly its route, under the next number, and waits with what is then watched |
| BotWatch.LoneChangeIsStoredExactly | desktop/bot_bridge.go:434-469 | A change that nothing comes between is stored and leaves the hub clean if its write succeeds; if not, memory has it, the store does not, and the caller is told |
| BotWatch.Hub.SetWatch | desktop/bot_bridge.go:434-469 | A whole call is its three sections in order; without a store it ends after the first |
| BotWatch.Hub.PersistSnapshot | desktop/bot_bridge.go:454-463 | The captured snapshot is stored unless a newer one is; a failed store leaves store and number alone |
| BotWatch.Hub.MarkPersisted | desktop/bot_bridge.go:464-468 | The dirty mark goes only when the newest change is stored |
| BotWatch.Hub.SeedWatchers | desktop/bot_bridge.go:480-495 | A seed replaces memory only if nothing changed since its version was read and nothing is dirty |
| BotWatch.RefreshAppliesExactly | desktop/bot_bridge.go:471-495 | Over every interleaving a refresh takes effect if and only if no change was numbered since its version and everything is stored when it seeds |
| BotWatch.OutsideEditIsWatched | desktop/bot_bridge.go:471-495 | An edit of the config is watched after an undisturbed refresh of a clean hub |
| BotWatch.EveryRunKeepsInv | desktop/bot_bridge.go:434-495 | In every interleaving with failing stores each waiting call still carries the snapshot of its number, and the store holds the one numbered last |
| BotWatch.SuccessfulChangeIsPersisted | desktop/bot_bridge.go:434-469 | A call that returns no error for change n leaves a stored number of at least n |
| BotWatch.PersistedNumberNeverFalls | desktop/bot_bridge.go:434-469 | The stored number never goes down |
| BotWatch.CleanSeedChangesNothing | desktop/bot_bridge.go:471-495 | A seed whose version was read while nothing was dirty changes nothing |
| BotWatch.DisciplinedRunsAgree | desktop/bot_bridge.go:434-495 | In runs whose seeds read clean versions, not dirty means memory equals the store |
| BotWatch.SeedCanChangeExactly | desktop/bot_bridge.go:471-495 | From any state reachable without outside edits, a version read there can lead to a seed that changes memory if and only if the newest change waits and the store holds, or an older waiting change can put there, other routes; or, while clean, memory and store already differ |
| BotWatch.FirstSubscriptionIsUndone | desktop/bot_runtime_app.go:101-124 | A run from an empty hub in which a stored and acknowledged subscription is dropped from memory by a refresh |
| BotTakeover.Hub.Takeover | desktop/bot_bridge.go:569-613 | A chat takes a tab if it is granted, and is told why not otherwise: groups, missing and background sessions and tabs of other chats are refused; the tab named as released is the one it gave up, if any |
| BotTakeover.Hub.Release | desktop/bot_bridge.go:615-635 | A chat gives up its tab |
| BotTakeover.Hub.DriveInput | desktop/bot_bridge.go:643-675 | Input goes to the bound tab, with a reply for every outcome; a gone tab costs the chat its binding |
| BotTakeover.Hub.ReclaimFromDesktop | desktop/bot_bridge.go:683-708 | The desktop takes a tab back from whichever chat drives it |
| BotTakeover.EveryRunIsMutual | desktop/bot_bridge.go:569-708 | After every sequence of whole calls the two maps are inverse, so one driver per tab and one tab per chat |
| BotTakeover.DriverIsNotDisplaced | desktop/bot_bridge.go:569-613 | No takeover by another chat removes a driver |
| BotTakeover.DrivesExactly | desktop/bot_bridge.go:569-708 | After every call, which chat drives which tab is told from which did before: a takeover from a direct chat of an open foreground session nobody else drives moves the chat, every other is refused, and a release, a lost session or the desktop ends exactly its binding |
| BotTakeover.GrantedChatIsRecorded | desktop/bot_bridge.go:597-599 | The tab table records the chat that was granted the tab last |
| BotTakeover.ClearIsSafeExactly | desktop/bot_bridge.go:644-655 | Clearing keeps the maps inverse if and only if the binding is current or both names are unbound |
| BotTakeover.SplitStepIsSafeExactly | desktop/bot_bridge.go:644-655 | The same for every step when input delivery is split in two |
| BotTakeover.SplitRunsAreSafe | desktop/bot_bridge.go:644-655 | Runs of split calls stay inverse while bindings are unchanged since they were read |
| BotTakeover.StaleClearStrandsNewDriver | desktop/bot_bridge.go:644-655 | A stale clear leaves a new driver bound one way only |
| DeferredRebuild.Queue.EnableRetry | desktop/deferred_rebuild.go:64-70 | Enabling starts a loop exactly when one is missing and something waits |
| DeferredRebuild.Queue.StartLoopLocked | desktop/deferred_rebuild.go:74-84 | At most one loop is started |
| DeferredRebuild.Queue.ScheduleRebuild | desktop/deferred_rebuild.go:89-125 | A request replaces the tab's older one under a new number |
| DeferredRebuild.Queue.ClearRebuildVersion | desktop/deferred_rebuild.go:138-145 | A clear removes only the request with its own number |
| DeferredRebuild.Queue.StopRetry | desktop/deferred_rebuild.go:157-168 | Stopping ends the loop for good |
| DeferredRebuild.Queue.Tick | desktop/deferred_rebuild.go:195-213 | A pass is its first section and then, in some order of the copied queue, the retry of each request once, with any steps of others before each retry and during each rebuild |
| DeferredRebuild.Queue.RetryDeferredRebuild | desktop/deferred_rebuild.go:224-284 | A retry waits, clears by the number in its copy, or rebuilds and clears by the number it captured at the start |
| DeferredRebuild.UndisturbedPassClearsExactly | desktop/deferred_rebuild.go:195-284 | A pass that nothing comes between leaves exactly the requests whose retry goes on waiting |
| DeferredRebuild.EveryRunKeepsInv | desktop/deferred_rebuild.go:64-213 | Numbers stay unique and loops accounted for over every run |
| DeferredRebuild.PendingMeansOneLoop | desktop/deferred_rebuild.go:64-213 | While enabled and not stopped, waiting requests imply exactly one live loop |
| DeferredRebuild.RequestLeavesOnlyByName | desktop/deferred_rebuild.go:89-145 | A request disappears only by a clear with its own number or a newer request for its tab |
| DeferredRebuild.WaitsExactly | desktop/deferred_rebuild.go:89-145 | After every step a tab's request is the one just made, with its reason, label and runtime under the next number, or the former one unless the step names it |
| DeferredRebuild.LoopsExactly | desktop/deferred_rebuild.go:64-213 | The loop starts if and only if an armed queue without one has work, and ends if and only if it finds none or a stop |
| DeferredRebuild.RebuildClearsExactly | desktop/deferred_rebuild.go:131-145 | A rebuild takes away the request that waited when it began, if it still does, and no request made since |
| DeferredRebuild.GiveUpClearsExactly | desktop/deferred_rebuild.go:203-284 | A retry that gives up takes away the request its pass copied, if it still waits, and no request made since |
| DeferredRebuild.RequestSurvivesRun | desktop/deferred_rebuild.go:89-145 | So it survives any run without those |
| DeferredRebuild.NewerRequestSurvivesOlderRebuild | desktop/deferred_rebuild.go:131-145 | A request queued during an older rebuild survives that rebuild's clear |
| HeartbeatRun.Execute | desktop/heartbeat.go:395-494 | The topic is resolved at most twice, and twice only when a submitted topic was pending |
| HeartbeatRun.Engine.ClaimTask | desktop/heartbeat.go:320-331 | A task is claimed if and only if nobody runs it |
| HeartbeatRun.Engine.ReleaseTask | desktop/heartbeat.go:333-337 | A release takes exactly that claim back |
| HeartbeatRun.Engine.ResolveTopic | desktop/heartbeat.go:352-393 | The run reuses the pending or legacy topic, or creates one and remembers it |
| HeartbeatRun.Engine.ExecuteTaskOwned | desktop/heartbeat.go:395-494 | One run with all its early returns |
| HeartbeatRun.Engine.ExecuteTaskWithLease | desktop/heartbeat.go:275-302 | A run happens if and only if claim, lease and revalidation succeed; the claim is always returned |
| HeartbeatRun.Engine.PrunePendingTopics | desktop/heartbeat.go:579-594 | Entries of tasks not in new-conversation mode go, all others stay |
| HeartbeatRun.ExecuteKeepsTracked | desktop/heartbeat.go:352-494 | However a run ends, the pending entry stands for the only waiting topic or for the submitted one whose controller no look has found idle |
| HeartbeatRun.EveryRunKeepsOneTopic | desktop/heartbeat.go:320-494 | Over every run an undisturbed task has at most one waiting topic, and none was created before a look at the controller of the last submitted one found it idle |
| HeartbeatRun.EveryLookIsReal | desktop/heartbeat.go:422-439 | Over every run each look recorded was taken at a controller as it was in one of the passes of a run of that task |
| HeartbeatRun.RunningTopicBlocksCreation | desktop/heartbeat.go:352-460 | While the last submitted topic has not been found idle, the next run looks at that topic and, unless its tab opens and its controller is idle there and then, creates, submits and gives up nothing |
| HeartbeatRun.UnreadyPassStops | desktop/heartbeat.go:405-439 | A pass whose tab does not open or whose controller is not idle is the last: it submits and records nothing, keeps every entry, and leaves the task due if only the controller was not ready |
| HeartbeatRun.CreatesExactly | desktop/heartbeat.go:352-449 | A run creates a topic, a new one, if and only if it has none to reuse or saw the submitted one idle, and creation works; it resolves twice if and only if it saw that |
| HeartbeatRun.SubmitsExactly | desktop/heartbeat.go:395-494 | A run submits if and only if its deciding pass has a topic, an open tab, an idle controller and acceptance; the topic, the entry, the record and the times it then leaves |
| HeartbeatRun.LastRunExactly | desktop/heartbeat.go:395-494 | A run counts as this interval's if and only if it submits or fails for want of a topic or a tab in its last pass; for want of an idle controller or of acceptance the task stays due |
| HeartbeatRun.LooksAreReal | desktop/heartbeat.go:422-439 | A run looks only at what its passes meet |
| HeartbeatRun.PruneIsSafeExactly | desktop/heartbeat.go:579-594 | Pruning is harmless to a task if and only if it keeps the entry or there is none |
| HeartbeatRun.PrunedEntryLeavesTwoTopics | desktop/heartbeat.go:579-594 | Losing the entry of a failed attempt leads to two waiting topics |
| HeartbeatRun.HistoryIsBoundedSuffix | desktop/heartbeat.go:484-493 | A run appends at most one record and keeps a suffix of at most 20 |
| HeartbeatRun.HistoryRecordsSubmissions | desktop/heartbeat.go:466-493 | A record is added exactly for an accepted prompt |
| HeartbeatSidecar.MergeRunHistory | desktop/heartbeat_store.go:284-300 | Merged histories are ordered and bounded |
| HeartbeatSidecar.MergeKeepsNewest | desktop/heartbeat_store.go:284-300 | What a merge drops is no newer than anything it keeps |
| HeartbeatSidecar.MergeIsNewestOfUnion | desktop/heartbeat_store.go:284-300 | A merge is the newer end of an ordered union that holds, at each time, the records of the base or, where it has none, of the other history; only a full one leaves anything out |
| HeartbeatSidecar.NormalReadsBack | desktop/heartbeat_store.go:284-300 | A history the engine could have kept reads back unchanged |
| HeartbeatSidecar.MergeAgain | desktop/heartbeat_store.go:284-300 | Merging a merge into its own base changes nothing |
| HeartbeatSidecar.Store.WriteTasks | desktop/heartbeat_store.go:112-199 | An attempt stopped between any two writes leaves the specified files; each result is told exactly, and a refused attempt changes nothing |
| HeartbeatSidecar.AcceptsExactly | desktop/heartbeat_store.go:112-142 | An attempt gets as far as the files if and only if both can be read, neither is of a newer schema and the config is still the one it was made for |
| HeartbeatSidecar.StaleWriterIsRefusedExactly | desktop/heartbeat_store.go:112-142 | A writer with a snapshot is accepted later if and only if no attempt of anyone went through since, whatever failed or crashed in between |
| HeartbeatSidecar.OlderWriterKeepsHistoryExactly | desktop/heartbeat_sidecar.go:37-70 | A config saved over a commit by a writer that knows no sidecar is read with the committed histories, unless it has no revision and the commit replaced a config without one: then with the replaced ones |
| HeartbeatSidecar.StagedSidecarServesOldConfig | desktop/heartbeat_sidecar.go:37-80 | A published sidecar still serves the config of the previous generation |
| HeartbeatSidecar.HistoriesSettle | desktop/heartbeat_store.go:28-67 | Histories read back through the generation that holds them are unchanged if and only if every one the config carries alone is in engine form |
| HeartbeatSidecar.UncommittedAttemptIsInvisible | desktop/heartbeat_sidecar.go:37-80 | An attempt that did not reach the config changes nothing the reader sees |
| HeartbeatSidecar.CommittedAttemptIsRead | desktop/heartbeat_store.go:112-199 | An attempt that reached the config is what the reader sees |
| HeartbeatSidecar.KeptExactly | desktop/heartbeat_store.go:28-67 | Tasks with distinct ids and histories in engine form are read back exactly as they were committed |
| HeartbeatSidecar.ReaderSeesLastCommit | desktop/heartbeat_sidecar.go:37-80 | After any crashes and retries the reader returns the histories committed with the config on disk, merged as reading merges them |
| HeartbeatSidecar.ReaderSeesLastWrite | desktop/heartbeat_sidecar.go:37-80 | When attempts write distinct tasks in engine form, the reader returns exactly the tasks last committed |
| HeartbeatSidecar.StagedIsInvisibleExactly | desktop/heartbeat_sidecar.go:37-80 | A crash between the two writes leaves what is read unchanged if and only if no inline history stands alone out of engine form |
| HeartbeatSidecar.InlineHistoryIsRewritten | desktop/heartbeat_store.go:28-67 | A lone inline history out of engine form is read differently after a crash between the writes |
| CredentialRoutes.Proxy.Begin | desktop/cred_proxy.go:74-88 | A request is admitted and counted if and only if its token is listed and the route not retired |
| CredentialRoutes.Proxy.End | desktop/cred_proxy.go:89-96 | Ending a request uncounts it and lets a retired route leave |
| CredentialRoutes.Proxy.SetRouteLocked | desktop/cred_proxy.go:186-244 | Registering a listed token never replaces its route |
| CredentialRoutes.Proxy.RevokeRoutes | desktop/cred_proxy_revocation.go:7-17 | Exactly the matching routes leave the table |
| CredentialRoutes.EveryRunKeepsInv | desktop/cred_proxy.go:66-244 | Each route's active count equals its requests in flight, over every run |
| CredentialRoutes.UpstreamNeverChanges | desktop/cred_proxy.go:186-244 | No step rewrites what a route was created with or gives a listed token another route |
| CredentialRoutes.ListedTokenKeepsUpstream | desktop/cred_proxy.go:186-244 | Over every run, a token that stays listed keeps its route and its upstream |
| CredentialRoutes.RequestKeepsItsRoute | desktop/cred_proxy.go:74-96 | A request keeps the route it was admitted on until it ends, even after a revocation |
| CredentialRoutes.RetiredRouteLeavesWithLastRequest | desktop/cred_proxy.go:89-96 | A retired route leaves with its last request and never takes a newer route of the same token along |
| CredentialRoutes.TokenLeavesExactly | desktop/cred_proxy.go:89-96 | A listed token leaves if and only if the last request on its retired route ends, a revocation matches it, or a receipt makes it superfluous while no request runs on it; every other route stays |
| CredentialRoutes.TokenEntersExactly | desktop/cred_proxy.go:216-244 | A token enters if and only if the resolution in progress sets it, with a fresh route to what was resolved, held by its offer |
| CredentialRoutes.AdmittedExactly | desktop/cred_proxy.go:74-88 | A request is admitted if and only if its token is listed and not retired, on the listed route, and no other request changes |
| CredentialRoutes.StaleReceiptIsIgnored | desktop/remote_model_ownership.go:106-166 | A receipt that is not newer retires nothing by what it claims |
| CredentialRoutes.OwnedRouteSurvivesReconcile | desktop/remote_model_ownership.go:106-166 | A route the newest receipt owns, or an open offer holds, is neither retired nor removed |
| CredentialRoutes.RetiredExactly | desktop/remote_model_ownership.go:106-166 | A route is retired if and only if a receipt made it superfluous and no offer for its listed token came since |
| CredentialRoutes.HoldsExactly | desktop/remote_model_ownership.go:87-166 | An offer holds a route from its registration until a receipt settles it or a new incarnation is pinned |
| CredentialRoutes.PendingExactly | desktop/remote_model_ownership.go:87-149 | An offer is pending from its reservation by the pinned incarnation until a receipt settles it or another is pinned |
| CredentialRoutes.ReceiptsAreOrdered | desktop/remote_model_ownership.go:121-137 | Within an incarnation the receipt number rises exactly with a newer receipt, whose status is then the newest |
| CredentialRoutes.ResolutionExactly | desktop/cred_proxy.go:172-184 | At most one resolution is open, from its start until it is set or fails; scopes become known by pinning |
| CredentialRoutes.PurgedPersists | desktop/cred_proxy_revocation.go:7-17 | No step lists again a matching route resolved before the revocation |
| CredentialRoutes.RevocationIsFinal | desktop/cred_proxy_revocation.go:7-17 | No matching route resolved before a revocation is listed at any time after it returned |
| CrashQueue.Queue.PrunePendingCrashQueue | desktop/crash_pending.go:111-133 | The loop over victims is the specified pruning, and it reports whether the written file is still there |
| CrashQueue.PruneSparesNewer | desktop/crash_pending.go:111-133 | Pruning removes only listed files it could remove, and no newer report that it could read |
| CrashQueue.PruneRemovesExactly | desktop/crash_pending.go:111-133 | Any waiting file goes if and only if it is prunable, its removal works and it is among the first prunable ones the loop sheds |
| CrashQueue.NewerIsPrunedExactly | desktop/crash_pending.go:111-133 | A newer report goes if and only if it cannot be read, can be removed and has fewer prunable files before it than there are files to shed |
| CrashQueue.UnreadableOldestIsPruned | desktop/crash_pending.go:111-133 | A failed read costs the oldest report its place, whatever its schema |
| CrashQueue.PruneBounds | desktop/crash_pending.go:111-133 | With removals that succeed, at most ten listed files are left or nothing left is prunable |
| CrashQueue.PruneSettlesExactly | desktop/crash_pending.go:111-133 | At most ten files are left or none left is prunable, if and only if no removal of a file the loop sheds fails |
| CrashQueue.PruneLeavesTen | desktop/crash_pending.go:111-133 | Pruning never goes below ten |
| CrashQueue.PruneTakesOldest | desktop/crash_pending.go:111-133 | What is removed sorts before every prunable file that stays, except those whose removal failed |
| CrashQueue.FailedRemovalsKeepAll | desktop/crash_pending.go:111-133 | Removals that fail leave the queue as long as it was |
| CrashQueue.Queue.WritePendingReport | desktop/crash_pending.go:79-109 | A write with all its failures is the specified one |
| CrashQueue.WriteReportsPresence | desktop/crash_pending.go:79-133 | A complete write reports success if and only if the report waits under its own identity, and a failed one that cleans up leaves no file |
| CrashQueue.WrittenReportIsPrunedExactly | desktop/crash_pending.go:105-133 | A written report falls to its own pruning if and only if the loop sheds it and can remove it |
| CrashQueue.IdentifyFillsIn | desktop/crash_pending.go:79-83 | Identifying fills in a missing identity, keeps everything else, and is done once |
| CrashQueue.DigestSeparates | desktop/crash_pending.go:79-83 | Different fingerprints have different digests, none empty |
| CrashQueue.KeysSeparate | desktop/crash_pending.go:144-146 | For versions without a colon two reports have one ledger key if and only if they are of one version and one identity |
| CrashQueue.NextLosesUnpostedExactly | desktop/crash_pending.go:287-291 | Whatever the versions, a flush step loses a report of a crash never uploaded if and only if it removes one whose key the ledger has though only another crash was uploaded |
| CrashQueue.CollidingReportIsLost | desktop/crash_pending.go:144-146 | With a colon in a version a second crash shares the key of an uploaded one and is removed without an upload |
| CrashQueue.Queue.TrimCrashLedger | desktop/crash_pending.go:164-176 | The sorting loop trims as specified |
| CrashQueue.TrimKeepsLatest | desktop/crash_pending.go:164-176 | Whatever the iteration order, the 512 entries latest by stamp string are kept |
| CrashQueue.StampLeIsLexicographic | desktop/crash_pending.go:171 | Stamps are compared as strings: by the first difference, and a prefix first |
| CrashQueue.Queue.FlushOne | desktop/crash_pending.go:266-303 | Handling one file, with every break and continue, is the specified step |
| CrashQueue.Queue.FlushPendingCrash | desktop/crash_pending.go:235-305 | A whole flush is the specified sequence of steps |
| CrashQueue.NextIsSafe | desktop/crash_pending.go:266-303 | A step loses a current report only if its key was uploaded, keeps every newer one that parses, and keeps the ledger within what was uploaded |
| CrashQueue.NextPostsExactly | desktop/crash_pending.go:276-296 | A step uploads its own file's report, identified, if and only if it is a current one the ledger does not know, identity and endpoint permitting |
| CrashQueue.NextRemovesExactly | desktop/crash_pending.go:266-303 | A step removes its file if and only if it does not parse, or is current and was posted before or is posted and noted now |
| CrashQueue.UnparseableNewerIsDropped | desktop/crash_pending.go:266-275 | A file with a newer header that does not parse in full is removed |
| CrashQueue.EveryRunKeepsInv | desktop/crash_pending.go:79-305 | Over writes, prunings, flush steps and crashes every ledger key is that of an acknowledged report, and acknowledged reports are never forgotten |
| CrashQueue.FlushLosesOnlyKnown | desktop/crash_pending.go:235-305 | Whatever the versions, no flush step of any run loses a report whose ledger key was never uploaded |
| CrashQueue.FlushLosesOnlyPosted | desktop/crash_pending.go:235-305 | For versions without a colon, at any point of any run no flush step loses a report unless one of the very same version and identity was acknowledged |
| CrashQueue.OptOutIsSafeExactly | desktop/crash_pending.go:246-249 | Opting out empties queue and ledger when removals work, and loses nothing if and only if no unsent report waits |
| CrashQueue.BeginLosesUnsentExactly | desktop/crash_pending.go:235-265 | Starting a flush loses an unsent report if and only if telemetry is off and a removable one waits |
| CrashQueue.OptOutLosesAReport | desktop/crash_pending.go:246-249 | One write and one launch with telemetry off lose a report unsent |
| CrashQueue.FineFlushDrains | desktop/crash_pending.go:235-305 | Without faults a flush removes every current report it lists, its key uploaded, and keeps every newer one that parses |
| CrashQueue.LaunchStartsExactly | desktop/crash_pending.go:235-265 | A launch flushes all waiting paths if and only if nothing is missing, and knows exactly the uploads still retained |
| CrashQueue.FineLaunchDrains | desktop/crash_pending.go:235-305 | A launch that meets no fault uploads every current report it lists, unless that very crash was uploaded before, and removes it; newer ones stay |
| ExclusiveExport.FileSystem.StageExportFile | desktop/app.go:10748-10820 | Staging one payload, with every failure, is the specified step |
| ExclusiveExport.FileSystem.CommitStagedExportFile | desktop/app.go:10822-10869 | Publishing one target, linked or copied, is the specified step |
| ExclusiveExport.FileSystem.RemoveExportFileIfSame | desktop/app.go:10877-10885 | Only the very file the export made is removed |
| ExclusiveExport.FileSystem.SaveExclusiveExportPayloads | desktop/app.go:10730-10788 | The whole export with its deferred clean-up is the specified one |
| ExclusiveExport.StageAllFollows | desktop/app.go:10742-10777 | Staging keeps everything else and leaves exactly its own files, each with its payload |
| ExclusiveExport.CommitFollows | desktop/app.go:10822-10869 | A publication adds at most its target with the staged content and touches nothing of others |
| ExclusiveExport.RollbackFollows | desktop/app.go:10871-10885 | A rollback takes back the published targets and nothing else |
| ExclusiveExport.ForeignFilesAreKept | desktop/app.go:10730-10885 | Whatever fails and whenever others create files, what others have is never overwritten or removed |
| ExclusiveExport.FailureRestoresExactly | desktop/app.go:10730-10885 | A failure restores every path and leaves no staged file if and only if it does not stop at a copy it could not inspect |
| ExclusiveExport.SuccessAddsExactlyTargets | desktop/app.go:10730-10788 | Success adds exactly the targets with their payloads |
| ExclusiveExport.FaultlessSaveSucceeds | desktop/app.go:10730-10788 | When no operation fails and nobody else uses the export's paths, it succeeds, whatever else others create meanwhile |
| ExclusiveExport.StageSucceedsExactly | desktop/app.go:10748-10820 | Staging succeeds if and only if none of its operations fails and one of the first hundred names is free |
| ExclusiveExport.CommitSucceedsExactly | desktop/app.go:10822-10869 | Publishing succeeds if and only if a link to an absent target works and can be inspected, or else an exclusive copy does |
| ExclusiveExport.UninspectedCopyStays | desktop/app.go:10845-10868 | An exclusive copy whose inspection fails stays behind |

## Left out

- Windows, tray, dialogs, HTTP and bot adapters, config loading, MCP, skills and model selection: foreign calls and field copying.
- Real time, files and goroutines: stamps, file maps, fault choices and interleavings stand for them.
- JSON, cursor encoding, hashes and HMAC: opaque values; `CrashQueue.Digest` stands for the fingerprint hash.
- SessionRebind.App.DetachRuntimeForReplacement: carries the sink with its runtime, not the binding, epoch or queue inside it; telemetry, pinned files, shared-host references and tab layout are not modelled.
- SessionRebind.App.ApplyRuntimeTab: leaves out the same fields.
- SessionRebind.App.Rollback: stands for the three deferred functions together; a panic between them is not modelled.
- SessionRebind.InvIsExclusive: a lease is granted exactly while no unreleased one exists for the session, as the operating system's lock decides it; reclaiming an orphaned owner entry (`desktop/app.go:4210-4229`, `9489-9526`) ends in the same grant and is not a step of its own.
- SessionRebind.EveryRunIsExclusive: a superseded startup build loses its claim; its later clean-up that releases a lease by key (`desktop/tabs.go:483-497`) is not a step of the model.
- BotWatch.Hub.SetWatch: a failed store is taken to leave the stored config unchanged; without a store the call returns no error though nothing is stored, so what holds of successful calls holds of hubs that have one.
- BotWatch.SeedIsIdentityExactly: routes are a set, so the order in which they are stored is not modelled.
- BotTakeover: notifications to chats, and reply texts beyond which of them is sent.
- DeferredRebuild: the wrap-around of the 64-bit request number, and what a rebuild does to the tab.
- HeartbeatRun.EveryRunKeepsOneTopic: pending topics live in memory, so a restart of the process counts as pruning; a prune in the middle of a run is taken before or after it.
- HeartbeatSidecar.ReaderSeesLastCommit: each file write is taken to be all or nothing, and records of equal time keep their order when sorted.
- HeartbeatSidecar.StaleWriterIsRefusedExactly: revisions do not wrap around, and equal digests mean equal files.
- CredentialRoutes: request forwarding and the resolution of an upstream.
- CrashQueue: scrubbing and formatting of report text; removing the ledger on an opt-out is taken to succeed.
- ExclusiveExport.FailureRestoresExactly: assumes that inspecting and removing work while cleaning up; other processes create files but do not delete or replace the export's own, so the branch for a target changed during the save cannot be reached; inode numbers are not reused.
- Checkpoints: the conversation rewind flag and titles of checkpoints.
- PromptTape: search and filtering over the tape.

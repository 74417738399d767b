# Verified models of the desktop shell's concurrent protocols and bounded stores

This project models, in Dafny, the parts of the desktop shell and its Node sidecar that are easiest to
get wrong: protocols in which several tasks interleave, calls fail half-way or the process dies, and
stores that promise exact contents or a bound. Every model follows the branches, constants and error
cases of the code it names. Main results are stated over every input, every interleaving or every run.

| file | what it models |
|---|---|
| `SseFraming.dfy`, `FramingRoundTrip.dfy` | the byte-level event framer of the SSE proxy and its per-event budget |
| `SseSubscriptions.dfy`, `SseDelivery.dfy` | the generation-fenced table of SSE subscriptions, and what a subscription delivers |
| `SpillFiles.dfy`, `SpillStore.dfy`, `SpillInvariant.dfy`, `SpillLate.dfy`, `SpillAccounts.dfy`, `SpillTheorems.dfy`, `SpillOverrun.dfy`, `SpillContinuation.dfy`, `SpillNames.dfy`, `SpillCommit.dfy` | spilling response bodies to disk: claim, publish by hard link, failed deletes, bytes that land late, the accounts, crash and recovery |
| `SpillBudget.dfy`, `SpillStream.dfy` | the byte budget with its orphan queue, and the streaming loop |
| `KeyedLocks.dfy`, `KeyedRequests.dfy` | multi-key locking with a self-pruning registry, and what a caller of it gets |
| `Transcript.dfy`, `TranscriptAnswers.dfy`, `TranscriptHistory.dfy`, `TranscriptDeletion.dfy`, `TranscriptEffects.dfy` | the session store: append with a cursor and its answers, the same over deletions, deletion against appends |
| `IndexSalvage.dfy`, `SalvagedRows.dfy` | salvaging a damaged index of sessions |
| `ProviderLimiter.dfy`, `LimiterAnswers.dfy` | the permit limiter for heavy provider calls |
| `SessionDeletion.dfy`, `DeletionIntents.dfy` | admission of session deletions |
| `TokenRefresh.dfy`, `TokenAnswers.dfy` | refreshing the account token, under the lock and without it |
| `TurnProjection.dfy`, `TurnContents.dfy` | the assistant segments of one turn |
| `NotificationDedupe.dfy` | bounded deduplication and the cold-start click |
| `ProcessClosure.dfy` | the processes a cleanup ends |
| `Common.dfy` | options, bytes, concatenation |

Concurrent code is a state machine: a datatype of steps, `Enabled` and `Apply`, an invariant every step
keeps, and theorems over runs, which are sequences of states linked by `Follows`. Code that updates an
object in place is a class whose methods are proved to do exactly what the step functions say. For each of
these models a second group of theorems says what the operations achieve, in terms of what a caller sees
and not of the step functions: every due event is published, every unlinked name is gone, every answer
follows from what is on disk, every operation comes to an end.

Some promises of the documentation or the design turned out to hold only under a condition, and that
condition is proved.

- Framing does not depend on how the bytes are cut *if and only if* every event, together with all but
  the last byte of its delimiter, fits the limit (`SseFraming.FramingIgnoresChunkingIff`). Inside the
  limit but outside that margin, the slicing decides (`SseFraming.InsideTheMarginSlicingDecides`).
- A batch whose acknowledgement was lost is recognised when it is sent again *if and only if* the file
  did not end in a torn line before (`Transcript.LostAnswerIsRecognisedIff`); after a torn line the
  caller gets a stale cursor. It is never written twice either way
  (`TranscriptHistory.UsedCursorStaysUsed`).
- Tool results may be applied before or after a segment is recorded *if and only if* every answered tool
  of the recorded message was already in that segment (`TurnProjection.ResultOrderIsIrrelevantIff`).
- An admitted deletion can be completed as long as its intent stands, and in every run it still stands *if and
  only if* none of three calls came in between (`SessionDeletion.AdmissionLastsIff`): a deletion intent that is
  already marked is still swept by any preview in the workspace more than 60 seconds after its admission;
  the finalize call then refuses and the row stays (`SessionDeletion.MarkedDeletionCanBeSwept`).
- Refreshing is documented to be single-flight within the process. `call_authenticated` refreshes without
  the lock, so it is not: given some callers that resolve a token and some that make an authenticated call,
  runs without a failed exchange never send a refresh token twice *if and only if* nobody makes an
  authenticated call or there is only one caller (`TokenRefresh.NoTokenSentTwiceIff`).
- The spill budget is meant to bound active bytes plus debt by the cap, or by what startup found. But
  dropping a tokio `File` does not wait for the write in flight, so bytes of a failed spill may land after
  its leftovers were measured. The charge covers what the leftovers can ever retain *if and only if* nothing
  was in flight to them when they were measured, or they were charged the reservation instead
  (`SpillLate.ChargeCoversIff`). As long as that holds the cap is kept
  (`SpillTheorems.SettledRunKeepsTheCap`); in general it is kept but for the slack
  (`SpillTheorems.BudgetHolds`), and there is a run that exceeds it (`SpillOverrun.CapCanBeExceeded`).
  From every reachable state past startup with a group that could come to more than its charge, some
  continuation exceeds the cap (`SpillContinuation.UnderchargeCanExceedTheCap`).
- After a deletion and a new file an old cursor may be told `appended` over rows it never saw
  (`TranscriptHistory.StaleSuccessCanBeWrong`). A success is exact *if and only if* the cursor was current, or
  the bytes now standing where it had seen others read the same (`TranscriptHistory.EverySuccessIsExactIff`).
  A cursor issued since the last deletion gets only exact successes (`TranscriptHistory.CursorSinceDeletionIsExact`).

## Steps and the code they stand for

- `SpillStore` (src-tauri/src/proxy_spill.rs): `Claim`, `Look`, `GiveUp` 367-435; `Write`, `Land` 437-452
  and 759-780; `Fail`, `UnlinkFailed`, `Measure`, `FinishFailed` 527-554; `Flush`, `LinkBody`,
  `ReserveMeta`, `OpenMeta`, `LandMeta`, `FlushMeta`, `LinkMeta`, `UnlinkAlias`, `FinishSpill` 556-703;
  `Postpone`, `BeginRetry`, `UnlinkOrphan`, `EndRetry` 223-259; `Recover`, `RecoverInterrupted` 129-205.
  `Write` reserves and hands bytes to the file, `Land` makes any prefix of them reach the disk, `LandLate`
  does so after the file was dropped at 547 (for the metadata 648-666), `Settle` ends the write in
  flight, and `Crash` may come between any two steps.
- `KeyedLocks` (src-tauri/src/keyed_lifecycle.rs): `Enter`, `Resolve`, `Leave` 20-43; `Wait`, `Grant`,
  `Quit`, `Drop` 45-57.
- `SseSubscriptions` (src-tauri/src/sse_proxy.rs): `Start`, `Install` 143-278; `CleanUp` 242-263; `Stop`
  283-295; `StopAll` 299-310; `Connect` 725; `Emit` 522-596; `Disconnect`, `Leave` 384-499 and 751-836;
  `Die` is a panic or the abort of line 109.
- `TranscriptDeletion` (src/server/SessionStore.ts): an appender 445-514 with the projection update
  406-432, a deleter 527-547, a saver 329-337.
- `TokenRefresh` (src-tauri/src/account_auth.rs): `Read`, `TakeLock`, `ReadAgain`, `Send` 626-648;
  `CallUnlocked`, `SendUnlocked` 440-468; `Answer`, `Store`, `Fail` 483-515.

## Model

| member | source | states |
|---|---|---|
| `SseFraming.FindEventBoundary` | src-tauri/src/sse_proxy.rs:617-629 | a returned boundary is a real LF LF or CRLF CRLF at that position |
| `SseFraming.FindsEarliest` | src-tauri/src/sse_proxy.rs:617-629 | no boundary of either kind starts before the returned one, and one is found whenever any exists |
| `SseFraming.BoundaryIsStable` | src-tauri/src/sse_proxy.rs:617-629 | a boundary found in a buffer is still the first boundary of every extension |
| `SseFraming.NewBoundaryEndsInNewBytes` | src-tauri/src/sse_proxy.rs:617-629 | a boundary that appears only after more bytes arrive ends in those bytes |
| `SseFraming.SplitExtend` | src-tauri/src/sse_proxy.rs:748-815 | splitting a stream is splitting a prefix and resuming from its unfinished tail |
| `SseFraming.TailHasNoBoundary` | src-tauri/src/sse_proxy.rs:748-815 | the unfinished tail of a split holds no boundary |
| `SseFraming.TakeNextSseEvent` | src-tauri/src/sse_proxy.rs:634-651 | takes the first event and its delimiter off the buffer, or reports incomplete or over budget, exactly as the reference |
| `SseFraming.DrainBuffer` | src-tauri/src/sse_proxy.rs:775-814 | the inner loop equals the reference drain |
| `SseFraming.ReadPiece` | src-tauri/src/sse_proxy.rs:756-815 | one piece of a chunk: some bytes are always taken, so the zero-space branch is unreachable, and the buffer never exceeds the limit plus 4 |
| `SseFraming.ReadChunk` | src-tauri/src/sse_proxy.rs:754-815 | a whole chunk equals the reference, piece by piece |
| `SseFraming.ReadAttempt` | src-tauri/src/sse_proxy.rs:748-815 | the chunk loop equals the reference run over all chunks |
| `SseFraming.Drain` | src-tauri/src/sse_proxy.rs:634-651 | after a drain the buffer is within the limit, every emitted event is, and a breach reports a size over the limit |
| `SseFraming.FeedChunk` | src-tauri/src/sse_proxy.rs:751-815 | a breach reports at most the limit plus 4; otherwise the buffer is within the limit and so is every emitted event |
| `SseFraming.Run` | src-tauri/src/sse_proxy.rs:748-815 | the same bounds over a whole attempt |
| `SseFraming.DrainIsSplit` | src-tauri/src/sse_proxy.rs:634-651 | draining yields the events of the whole-buffer split, all of them unless one is over budget |
| `SseFraming.FeedIsSplit` | src-tauri/src/sse_proxy.rs:751-815 | feeding a chunk agrees with the split of buffer and chunk together |
| `SseFraming.RunIsSplit` | src-tauri/src/sse_proxy.rs:748-815 | whatever the chunking, the emitted events are the leading events of the whole-stream split, and all of them without a breach |
| `SseFraming.OverLimitAlwaysBreaches` | src-tauri/src/sse_proxy.rs:634-651 | a stream with an over-limit event or tail breaches under every chunking, before emitting it |
| `SseFraming.RunWithinMargin` | src-tauri/src/sse_proxy.rs:634-651 | a stream inside the margin is framed exactly, under every chunking |
| `SseFraming.OneByOneNeedsMargin` | src-tauri/src/sse_proxy.rs:634-651 | byte-by-byte delivery succeeds only inside the margin |
| `SseFraming.FramingIgnoresChunkingIff` | src-tauri/src/sse_proxy.rs:634-651 | every chunking yields exactly the whole-stream split if and only if the stream keeps the margin |
| `SseFraming.ThreeBytesSuffice` | src-tauri/src/sse_proxy.rs:647-650 | events at least 3 bytes under the limit and a tail within it keep the margin |
| `SseFraming.InsideTheMarginSlicingDecides` | src-tauri/src/sse_proxy.rs:634-651 | within the limit but outside the margin one chunking succeeds and another breaches |
| `FramingRoundTrip.JoinSplit` | src-tauri/src/sse_proxy.rs:634-651 | the events, their delimiters and the tail put together again are the stream, byte for byte |
| `FramingRoundTrip.SplitJoin` | src-tauri/src/sse_proxy.rs:634-651 | framing what was put together from frames gives the frames and the tail back |
| `FramingRoundTrip.SplitGivesFrames` | src-tauri/src/sse_proxy.rs:617-629 | no event holds a blank line before the one that ends it |
| `FramingRoundTrip.BreachReportsTheEvent` | src-tauri/src/sse_proxy.rs:634-651 | a breach is reported with the size of the event, or tail, that broke the budget |
| `SseSubscriptions.StepKeepsInv` | src-tauri/src/sse_proxy.rs:143-310 | every step keeps: entries are the newest of their key, a set flag means installed or being installed, readers are never behind what was published |
| `SseSubscriptions.RunKeepsInv` | src-tauri/src/sse_proxy.rs:143-310 | the same over every run |
| `SseSubscriptions.TransportsNeverDecrease` | src-tauri/src/sse_proxy.rs:24-30 | on one key neither the published transport generations nor the subscription generations ever decrease |
| `SseSubscriptions.OneRunningTaskPerKey` | src-tauri/src/sse_proxy.rs:202-267 | at most one task of a key has its flag set, and outside a start command it is the installed one |
| `SseSubscriptions.EveryPublicationWasCurrent` | src-tauri/src/sse_proxy.rs:522-538 | in every run, everything ever published came from the generation that was installed and running for its key at that moment, from the transport it was reading |
| `SseSubscriptions.EntryStays` | src-tauri/src/sse_proxy.rs:237-263 | an entry stays until its subscription is stopped or replaced or its own task exits; older tasks of the key never remove it |
| `SseSubscriptions.ExitRemovesOwnEntry` | src-tauri/src/sse_proxy.rs:242-263 | a task that cleans up leaves no entry of its own and no set flag |
| `SseSubscriptions.StopHalts` | src-tauri/src/sse_proxy.rs:104-111 | stopping, replacing or stopping all clears the flag of every task the key had |
| `SseSubscriptions.HaltedNeverPublishes` | src-tauri/src/sse_proxy.rs:516-538 | a task whose flag is cleared publishes nothing for the rest of the run |
| `SseSubscriptions.StoppedForever` | src-tauri/src/sse_proxy.rs:202-310 | after a stop, a replacement or a stop of all, no task the key had until then ever publishes again |
| `SseDelivery.PublishesWhatIsDue` | src-tauri/src/sse_proxy.rs:522-596 | over every run the publications are, in order, the events of exactly those steps whose task was installed and running at that moment; none is lost |
| `SseDelivery.StartedIsServed` | src-tauri/src/sse_proxy.rs:143-278 | when a start command returns the key is served by a running task of a new generation for that target, unless a live one of that target was there |
| `SseDelivery.RunsUntilHalted` | src-tauri/src/sse_proxy.rs:104-111 | a running task keeps its flag until its own subscription is stopped, replaced or cleaned up; what happens to other keys does not stop it |
| `SseDelivery.ServingTaskPublishes` | src-tauri/src/sse_proxy.rs:384-499 | in every reachable state an installed running task that did not die publishes its next event after at most one connect |
| `SseDelivery.NothingFromClosedTransports` | src-tauri/src/sse_proxy.rs:725-836 | once a task lets go of a transport nothing more is published from it |
| `SseDelivery.FinishedForever` | src-tauri/src/sse_proxy.rs:237-263 | a task that cleaned up or died never does anything again |
| `SseSubscriptions.SseProxyState.StartSseProxy` | src-tauri/src/sse_proxy.rs:143-223 | returns early exactly when an alive task serves the same target; otherwise stops and replaces |
| `SseSubscriptions.SseProxyState.InstallEntry` | src-tauri/src/sse_proxy.rs:266-267 | installs the entry of the newly spawned task |
| `SseSubscriptions.SseProxyState.StopSseProxy` | src-tauri/src/sse_proxy.rs:283-295 | removes the entry and clears its flag |
| `SseSubscriptions.SseProxyState.StopAllSseProxies` | src-tauri/src/sse_proxy.rs:299-310 | draining the entries one by one, in any order, clears exactly their flags |
| `SseSubscriptions.SseProxyState.EmitIfCurrent` | src-tauri/src/sse_proxy.rs:522-596 | publishes exactly when the generation is installed and running |
| `SseSubscriptions.SseProxyState.CleanUpTask` | src-tauri/src/sse_proxy.rs:242-263 | removes the entry only if it is of its own generation |
| `SseSubscriptions.SseProxyState.OpenTransport` | src-tauri/src/sse_proxy.rs:725 | each transport gets the next generation |
| `SpillFiles.MeasureRemainingDebt` | src-tauri/src/proxy_spill.rs:454-525 | counts each file identity once and leaves out identities that alias a committed pair: the bytes the remaining names really retain |
| `SpillFiles.UnownedBytesAreStored` | src-tauri/src/proxy_spill.rs:454-525 | the sum over identity groups is the bytes stored in their inodes |
| `SpillFiles.UnownedAreRetained` | src-tauri/src/proxy_spill.rs:454-525 | the unowned groups are exactly the inodes retained by the given names |
| `SpillInvariant.MeasureByName` | src-tauri/src/proxy_spill.rs:459-525 | for names held by one party, measuring by identity and by name agree |
| `SpillInvariant.LeftoverWithinReservation` | src-tauri/src/proxy_spill.rs:542-554 | what a failed spill leaves on disk never exceeds what it had reserved, whatever of it lands when |
| `SpillInvariant.RetryNeverOutgrows` | src-tauri/src/proxy_spill.rs:223-259 | what a retried group may ever retain is no more than it could come to before |
| `SpillAccounts.NothingSaturates` | src-tauri/src/proxy_spill.rs:223-298 | no saturating subtraction of the budget ever saturates |
| `SpillInvariant.StepKeepsFiles` | src-tauri/src/proxy_spill.rs:129-703 | every step, late landings included, keeps the file invariant: who holds which name, what each stage has on disk, complete pairs intact |
| `SpillLate.StepKeepsLate` | src-tauri/src/proxy_spill.rs:542-554 | bytes in flight only ever reach files whose names a failed spill or an orphan group is still to unlink |
| `SpillLate.MeasurementCoversIff` | src-tauri/src/proxy_spill.rs:454-525 | a measurement finds all that leftovers can ever retain exactly when nothing is in flight to them |
| `SpillLate.ChargeCoversIff` | src-tauri/src/proxy_spill.rs:527-554 | the charge of a failed spill covers what its leftovers can ever retain if and only if nothing was in flight to them when they were measured, or the reservation was charged |
| `SpillLate.LateBytesOutgrow` | src-tauri/src/proxy_spill.rs:527-554 | otherwise one late landing makes the leftovers retain more than was measured |
| `SpillAccounts.StepKeepsBudget` | src-tauri/src/proxy_spill.rs:223-298 | every step keeps active bytes, debt, what the groups could come to, and their bound in balance |
| `SpillAccounts.StepKeepsInv` | src-tauri/src/proxy_spill.rs:129-703 | every step keeps the whole invariant |
| `SpillAccounts.StepKeepsExact` | src-tauri/src/proxy_spill.rs:223-298 | charges stay exact as long as nothing is measured while bytes are in flight to it |
| `SpillTheorems.RunKeepsInv` | src-tauri/src/proxy_spill.rs:129-703 | the invariant holds in every state of every run, crashes and restarts included |
| `SpillTheorems.VisibleMetaIsComplete` | src-tauri/src/proxy_spill.rs:556-703 | a visible meta name implies its body is there, and both hold exactly what was published |
| `SpillTheorems.WritersHoldTheirStream` | src-tauri/src/proxy_spill.rs:437-452 | a writer has taken in exactly the chunks streamed to it, in order |
| `SpillTheorems.PublishedIsTheStream` | src-tauri/src/proxy_spill.rs:556-703 | a pair published during the run holds exactly the bytes streamed to its writer, in order, and the metadata reserved for it |
| `SpillTheorems.StepKeepsPublished` | src-tauri/src/proxy_spill.rs:556-703 | only linking the meta file publishes, and nothing unpublishes |
| `SpillTheorems.PublishedForever` | src-tauri/src/proxy_spill.rs:129-703 | a published pair keeps both files and every byte through every later step, crash and recovery |
| `SpillTheorems.NamesAreNeverTakenOver` | src-tauri/src/proxy_spill.rs:367-435 | no step redirects an existing name; a name disappears only when its holder unlinks it or startup finds it incomplete |
| `SpillTheorems.ContentsAreNeverOverwritten` | src-tauri/src/proxy_spill.rs:437-452 | a file's bytes change only by growing, in a live spill's own unpublished part or late in a leftover still to be unlinked |
| `SpillTheorems.RecoveryLeavesNothingUntracked` | src-tauri/src/proxy_spill.rs:129-205 | after recovery every name is part of a complete pair or recorded as debt, and complete pairs are untouched |
| `SpillNames.DirectoryChanges` | src-tauri/src/proxy_spill.rs:367-703 | every step changes the directory by exactly the names it makes and the names whose unlink succeeds |
| `SpillNames.UnlinkRemovesTheName` | src-tauri/src/proxy_spill.rs:527-540 | a name whose unlink succeeded is gone: an alias, a leftover of a failed spill, of an orphan group or of startup, a claim given up |
| `SpillNames.CommitLeavesThePair` | src-tauri/src/proxy_spill.rs:685-703 | once a commit's aliases are unlinked without a refusal, body and meta are all that is left of it; any other name of the id is of a file made later |
| `SpillNames.FailedSpillLeavesNothing` | src-tauri/src/proxy_spill.rs:542-554 | a failed spill whose unlinks all succeed leaves none of its names |
| `SpillNames.NoNameIsForgotten` | src-tauri/src/proxy_spill.rs:129-703 | in every ready state each name is of a published pair, on the list of a live writer or an orphan group, or its unlink was refused before |
| `SpillNames.SpillGoesOn` | src-tauri/src/proxy_spill.rs:363-703 | a spill that is not over can take a step; only settling its account waits for a retry under way, which can go on then |
| `SpillNames.MeasuredStartup` | src-tauri/src/proxy_spill.rs:129-205 | a startup that can measure its leftovers owes exactly what they retain |
| `SpillNames.UnmeasuredStartup` | src-tauri/src/proxy_spill.rs:129-205 | one that cannot, with no file under two names, owes the bytes of every file it found, each once |
| `SpillCommit.SpillCanCommit` | src-tauri/src/proxy_spill.rs:363-703 | from every reachable ready state with room for it and no retry under way, a spill under an unused id can publish exactly its bytes and metadata and leave the rest of the store as it was |
| `SpillTheorems.BudgetHolds` | src-tauri/src/proxy_spill.rs:223-298 | in every run active bytes are the sum of live reservations, debt the sum over orphan groups, and together at most the larger of cap and startup debt plus the slack, the bytes groups could come to beyond their charges |
| `SpillTheorems.DiskUseIsBounded` | src-tauri/src/proxy_spill.rs:437-554 | what writers keep on disk, now or once all in flight has landed, fits their reservations; what groups keep fits what they could come to, which exceeds the debt by at most the slack |
| `SpillTheorems.SettledRunKeepsTheCap` | src-tauri/src/proxy_spill.rs:223-298 | in runs where nothing is measured while bytes are in flight to it, active bytes plus debt stay within the larger of cap and startup debt, and each group retains, now and ever, at most its charge |
| `SpillOverrun.CapCanBeExceeded` | src-tauri/src/proxy_spill.rs:542-554 | a reachable state in which active bytes plus debt exceed both cap and startup debt, after one byte landed late |
| `SpillContinuation.UnderchargeCanExceedTheCap` | src-tauri/src/proxy_spill.rs:223-298 | from every reachable state past startup whose startup debt fits the cap, if the bytes a group could ever retain exceed its charge, some steps lead to active bytes plus debt above the cap |
| `SpillBudget.OrphanRetryDelay` | src-tauri/src/proxy_spill.rs:319-322 | the delay lies between one second and the cap |
| `SpillBudget.RetryDelayDoubles` | src-tauri/src/proxy_spill.rs:319-322 | the first delay is one second and every further failure doubles it up to the cap |
| `SpillBudget.RetryDelayValues` | src-tauri/src/proxy_spill.rs:319-322 | the delays are the powers of two from 1 to 256 seconds for the first nine failures and 300 seconds from then on |
| `SpillBudget.FailedDeleteBacksOff` | src-tauri/src/proxy_spill.rs:228-257 | a group not due is left alone; one fully deleted goes away; else it comes back with what is left, one more failure and the delay for it |
| `SpillBudget.RetriesGoOn` | src-tauri/src/proxy_spill.rs:223-259 | a group that cannot be deleted is tried again and again, at exactly those intervals |
| `SpillBudget.RetryingChangesDebt` | src-tauri/src/proxy_spill.rs:223-259 | a round of retries changes the debt by exactly what the deletions found, in either direction |
| `SpillBudget.RetryingNeverAddsDebt` | src-tauri/src/proxy_spill.rs:223-259 | groups of which none turned out larger than its charge add no debt |
| `SpillBudget.DebtIsOwed` | src-tauri/src/proxy_spill.rs:99-105 | the 64-bit counter over the queue is the protocol's debt |
| `SpillBudget.ProxySpillManager.CompleteInventory` | src-tauri/src/proxy_spill.rs:129-205 | the inventory is completed once; what could not be removed becomes one group |
| `SpillBudget.ProxySpillManager.PrepareSpill` | src-tauri/src/proxy_spill.rs:207-218 | refused until the inventory is complete; otherwise the oldest groups get their turns first |
| `SpillBudget.DebtOfConcat` | src-tauri/src/proxy_spill.rs:223-259 | debt adds up over the orphan queue, whatever its order |
| `SpillBudget.ProxySpillManager.Reserve` | src-tauri/src/proxy_spill.rs:261-278 | succeeds exactly when the request fits under the cap with everything in use, 64-bit overflow included; otherwise nothing changes |
| `SpillBudget.ProxySpillManager.Finish` | src-tauri/src/proxy_spill.rs:280-298 | releases the reservation and turns leftovers into debt, clamped at 64 bits; leftovers within the reservation never make the total grow |
| `SpillBudget.ProxySpillManager.RetryFirst` | src-tauri/src/proxy_spill.rs:228-257 | one turn of the oldest group, whatever its deletion leaves, with the debt following exactly, clamped at 64 bits |
| `SpillBudget.ProxySpillManager.RetryOrphans` | src-tauri/src/proxy_spill.rs:223-259 | at most sixteen of the oldest groups get one turn each, the others come first afterwards, and the counter stays exact unless it leaves 64 bits |
| `SpillStream.StreamResponseBody` | src-tauri/src/proxy_spill.rs:705-797 | under any chunking: a broken or too large body fails; one that need not spill is buffered exactly; one that must, by policy, force flag or size, is spilled with matching bytes, size and preview exactly when claiming, every reservation and write, and the commit went well |
| `SpillStream.Consume` | src-tauri/src/proxy_spill.rs:759-780 | one chunk keeps buffer or spill file equal to the body so far, or a call made for it failed |
| `SpillStream.WriteReserved` | src-tauri/src/proxy_spill.rs:437-452 | bytes reach the file only after their reservation was granted, and a failed write keeps the reservation |
| `KeyedLocks.Identities` | src-tauri/src/keyed_lifecycle.rs:20-28 | the trimmed, non-empty keys, each once, in strictly increasing order |
| `KeyedLocks.Insert` | src-tauri/src/keyed_lifecycle.rs:27-28 | inserting keeps the order and adds exactly the key |
| `KeyedLocks.StepKeepsInv` | src-tauri/src/keyed_lifecycle.rs:20-57 | every step keeps: one live mutex per key despite pruning, owners and queues consistent |
| `KeyedLocks.RunKeepsInv` | src-tauri/src/keyed_lifecycle.rs:20-57 | the same over every run |
| `KeyedLocks.MutualExclusion` | src-tauri/src/keyed_lifecycle.rs:45-57 | two operations never hold the same key |
| `KeyedLocks.OneMutexPerKey` | src-tauri/src/keyed_lifecycle.rs:20-43 | live references lead to the same mutex exactly when they are for the same key |
| `KeyedLocks.WaitsForGreaterKey` | src-tauri/src/keyed_lifecycle.rs:45-57 | the owner of the mutex somebody waits for, if it waits at all, waits for a strictly greater key |
| `KeyedLocks.BlockedChain` | src-tauri/src/keyed_lifecycle.rs:45-57 | from a waiting operation the chain of owners, each waiting for a greater key, is finite and ends well |
| `KeyedLocks.NoDeadlock` | src-tauri/src/keyed_lifecycle.rs:45-57 | from every operation without its whole guard, following who holds up whom leads to one that can take a step or has its whole guard |
| `KeyedLocks.RunsAreSafe` | src-tauri/src/keyed_lifecycle.rs:20-57 | exclusion, one mutex per key, and nobody stuck, in every state of every run |
| `KeyedRequests.TrimTakesWhitespaceOff` | src-tauri/src/keyed_lifecycle.rs:20-26 | trimming takes white space off both ends of a key and nothing else |
| `KeyedRequests.TrimmedEnds` | src-tauri/src/keyed_lifecycle.rs:20-26 | a trimmed key neither begins nor ends with white space |
| `KeyedRequests.LessIsLexicographic` | src-tauri/src/keyed_lifecycle.rs:27-28 | keys are ordered like words in a dictionary |
| `KeyedRequests.RequestedKeys` | src-tauri/src/keyed_lifecycle.rs:20-28 | in every later state an operation is for exactly the trimmed, non-blank keys its caller asked for |
| `KeyedRequests.CommonKeyExcludes` | src-tauri/src/keyed_lifecycle.rs:45-57 | two calls that ask for a common key never have their guards at the same time, in any run |
| `KeyedRequests.GuardIsKept` | src-tauri/src/keyed_lifecycle.rs:55-57 | a guard is held until its owner drops it |
| `KeyedRequests.OnlyQuittersGiveUp` | src-tauri/src/keyed_lifecycle.rs:45-57 | an operation that is not cancelled is on its way to its guard, or has it |
| `KeyedRequests.EnteringPrunes` | src-tauri/src/keyed_lifecycle.rs:30-31 | whoever enters the registry leaves in it exactly the entries somebody still refers to |
| `KeyedRequests.NobodyJumpsTheQueue` | src-tauri/src/keyed_lifecycle.rs:45-52 | nobody gets a mutex while somebody who waited for it before still does |
| `KeyedRequests.OperationsEnd` | src-tauri/src/keyed_lifecycle.rs:45-57 | an operation takes at most four steps per key and four more, whatever the others do |
| `KeyedLocks.KeyedLifecycleRegistry.LockFor` | src-tauri/src/keyed_lifecycle.rs:34-41 | the registered mutex if it is still alive, or a new one registered |
| `KeyedLocks.KeyedLifecycleRegistry.LocksFor` | src-tauri/src/keyed_lifecycle.rs:20-43 | one mutex per distinct key in key order, the live one if it is alive when its reference is taken; other live entries survive, dead ones go, and only requested keys are added |
| `Transcript.RowsSplitAtNewline` | src/server/SessionStore.ts:277-292 | rows before and after a newline are read independently |
| `Transcript.RowsAfterAppend` | src/server/SessionStore.ts:445-514 | a batch appended after the right separator is read as the old rows followed by the batch, even after a torn line |
| `Transcript.FreshWrite` | src/server/SessionStore.ts:475-514 | a call with a current cursor: success means old rows plus batch, a repaired partial write restores the old bytes, and the file only ever continues |
| `Transcript.RecognisedRetry` | src/server/SessionStore.ts:294-314 | a retry is recognised only when the file is what the cursor saw followed by exactly the batch |
| `Transcript.RetryIsExact` | src/server/SessionStore.ts:463-474 | a recognised retry reports rows the cursor saw plus the batch, once, with a good cursor |
| `Transcript.LostAnswerIsRecognisedIff` | src/server/SessionStore.ts:461-474 | a fully landed batch with a lost answer is recognised if and only if the file was not torn before; otherwise the cursor is stale |
| `Transcript.AppendCallIsExact` | src/server/SessionStore.ts:445-514 | one call under any fault: success is exact, returned cursors are good, the file continues what it was |
| `TranscriptAnswers.AnswerOfAWrite` | src/server/SessionStore.ts:485-514 | for a current cursor, answer and file follow from how many bytes landed: all of them, the batch is reported as appended; some with an error, the file is cut back and a cursor for it handed out, or the old cursor if that fails; else the inconsistency is reported |
| `TranscriptAnswers.AnswerWithoutAWrite` | src/server/SessionStore.ts:463-474 | a cursor for other bytes writes nothing and succeeds exactly when the batch already stands behind the bytes it was issued for |
| `TranscriptAnswers.LoadThenAppend` | src/server/SessionStore.ts:434-514 | a load and an append without a fault leave the loaded rows followed by the batch and a current cursor |
| `TranscriptAnswers.IssuedForTheSession` | src/server/SessionStore.ts:434-514 | every cursor ever issued names this session |
| `TranscriptAnswers.ReadLineByLine` | src/server/SessionStore.ts:277-292 | a blank line and one that does not parse are passed over, every other line is a row |
| `Transcript.RunKeepsWorld` | src/server/SessionStore.ts:434-514 | every cursor ever issued stays good over every run |
| `Transcript.EverySuccessIsExact` | src/server/SessionStore.ts:434-514 | in every run without a deletion each successful append leaves the rows its cursor stood for followed by its batch exactly once |
| `TranscriptHistory.EverySuccessIsExactIff` | src/server/SessionStore.ts:294-314 | in every history, deletions included, a success is exact if and only if the cursor was current, or the bytes now standing in front of the batch read as the rows the cursor stood for |
| `TranscriptHistory.CursorSinceDeletionIsExact` | src/server/SessionStore.ts:457-514 | in every history, a success of a cursor that a load or an append of something issued since the last deletion leaves the rows the cursor stood for followed by the batch exactly once |
| `TranscriptHistory.SuccessIsExactIff` | src/server/SessionStore.ts:457-474 | the same for one call with any cursor for bytes the file once had |
| `TranscriptHistory.RowsAfterTornLine` | src/server/SessionStore.ts:277-292 | what a batch adds when it continues an unfinished line |
| `TranscriptHistory.StaleSuccessCanBeWrong` | src/server/SessionStore.ts:294-314 | a history with a deletion after which an old cursor is told its batch was appended over other rows |
| `TranscriptHistory.UsedCursorStaysUsed` | src/server/SessionStore.ts:457-474 | once a call has put anything on disk, whatever is sent with its cursor for the rest of the history changes nothing; a cursor for no file, until the next deletion |
| `Transcript.TranscriptFile.AppendSessionMessages` | src/server/SessionStore.ts:445-514 | the method on the file does exactly what the specified call does, results and errors included |
| `TranscriptDeletion.RunKeepsInv` | src/server/SessionStore.ts:100-112 | locks are held by exactly the operations in their sections, transcript lock before index lock |
| `TranscriptDeletion.OnlyIndexedSessionsGetFiles` | src/server/SessionStore.ts:475-484 | a file appears only while its session is indexed, and only a saver indexes a session |
| `TranscriptDeletion.DeletedStaysDeleted` | src/server/SessionStore.ts:445-547 | no cursor of any kind brings a deleted transcript back until the session is indexed again |
| `TranscriptDeletion.DeletionIsComplete` | src/server/SessionStore.ts:527-547 | between removing the row and unlinking the file nobody can write the file or index the session, and then neither row nor file is left |
| `TranscriptDeletion.FinishedDeletionIsFinal` | src/server/SessionStore.ts:445-547 | after a finished deletion the session has neither row nor file in any later state, whatever cursors are used, until it is indexed again |
| `TranscriptDeletion.NoDeadlock` | src/server/SessionStore.ts:406-547 | from every unfinished operation, following who holds up whom ends after at most three operations in one that can move |
| `TranscriptEffects.FilesChangeOnlySo` | src/server/SessionStore.ts:445-547 | a file changes only when an appender writes it and disappears only when a deleter unlinks it |
| `TranscriptEffects.OnlyCurrentCursorsWrite` | src/server/SessionStore.ts:457-484 | in every run nothing is written but behind the very file the cursor was issued for, or into a new file of an indexed session |
| `TranscriptEffects.DeleterDeletes` | src/server/SessionStore.ts:527-547 | a deletion that nothing refuses removes row and file, nothing else, and gives its locks back |
| `TranscriptEffects.AppenderAppends` | src/server/SessionStore.ts:445-514 | an append with a current cursor writes the file and gives its locks back |
| `TranscriptEffects.SaverSaves` | src/server/SessionStore.ts:329-337 | a save enters the row and gives its lock back |
| `TranscriptEffects.EveryStepCounts` | src/server/SessionStore.ts:406-547 | a move brings its operation nearer to its end and changes no other one |
| `IndexSalvage.QuotedText` | src/server/SessionStore.ts:152-159 | a string literal leaves no trace in the scanner, whatever quotes, braces and backslashes it stands for |
| `IndexSalvage.ValueText` | src/server/SessionStore.ts:150-176 | inside an object every value of any nesting is scanned without a trace |
| `IndexSalvage.RowText` | src/server/SessionStore.ts:160-174 | a row is found exactly at its own first and last character |
| `IndexSalvage.InsideIsExact` | src/server/SessionStore.ts:137-177 | a row is counted exactly when it ends inside the cut |
| `IndexSalvage.ScanTruncated` | src/server/SessionStore.ts:145-176 | the scan of every truncated index finds exactly the rows wholly inside the cut |
| `IndexSalvage.SliceIsRow` | src/server/SessionStore.ts:165-173 | the slice handed to the parser is the row's own text |
| `IndexSalvage.ByIdIsDistinct` | src/server/SessionStore.ts:176 | no two salvaged rows share an id, whatever was scanned |
| `IndexSalvage.SalvageIndex` | src/server/SessionStore.ts:137-177 | the loop over depth, start, string and escape flags equals the specified scan, for every content |
| `IndexSalvage.SalvageTruncated` | src/server/SessionStore.ts:137-177 | every truncation yields the session rows wholly inside the cut, a repeated id replacing the earlier row |
| `IndexSalvage.SalvageKeepsWholeRows` | src/server/SessionStore.ts:137-206 | with distinct ids, every truncation of the printed index yields exactly the rows wholly inside it, in order |
| `SalvagedRows.SessionRowIff` | src/server/SessionStore.ts:114-122 | a row is kept exactly when it shows the five required strings, the last field of a name counting |
| `SalvagedRows.LastOfAnIdIsKept` | src/server/SessionStore.ts:165-176 | what is salvaged for an id is the last row found with it |
| `SalvagedRows.IdsKeepTheirPlaces` | src/server/SessionStore.ts:165-176 | the salvaged ids stand in the order in which they first occur |
| `SalvagedRows.WholeIndexIsRead` | src/server/SessionStore.ts:137-144 | an index that can be read is returned without what is no session row, with or without a byte order mark |
| `ProviderLimiter.StepKeepsInv` | src-tauri/src/geo_provider_runtime.rs:150-309 | every call keeps maps inverse, queue ordered and disjoint, bounds, and work conservation |
| `ProviderLimiter.RunsAreSafe` | src-tauri/src/geo_provider_runtime.rs:48-309 | in every run: inverse maps, distinct queued ids none of them active, grants in arrival order, nobody waits while a permit is free, at most 16 active and 512 queued |
| `ProviderLimiter.PromoteGrantsTheFront` | src-tauri/src/geo_provider_runtime.rs:114-121 | promotion grants exactly as many waiting requests as there is room for, from the front, in order |
| `ProviderLimiter.GrantsRespectTheLimit` | src-tauri/src/geo_provider_runtime.rs:150-309 | a call that gives a permit leaves no more active permits than the limit, and grants are only ever added |
| `ProviderLimiter.QueuedRequestIsFound` | src-tauri/src/geo_provider_runtime.rs:195-203 | the queue-failed error is unreachable, a queued request is reported at the last place, and status repeats every successful answer |
| `ProviderLimiter.StepServes` | src-tauri/src/geo_provider_runtime.rs:245-309 | only cancelling, retiring its generation or clearing takes a waiting request out ungranted |
| `ProviderLimiter.NobodyIsOvertaken` | src-tauri/src/geo_provider_runtime.rs:114-121 | if a later arrival has a permit and a waiting request was not cancelled, retired or cleared, the request had its permit before |
| `ProviderLimiter.RetainedAre` | src-tauri/src/geo_provider_runtime.rs:292-298 | retiring keeps exactly the waiting requests of other generations |
| `ProviderLimiter.SpentTokensStaySpent` | src-tauri/src/geo_provider_runtime.rs:232-243 | a permit once given up never comes back, so releasing its token again changes nothing |
| `LimiterAnswers.PromoteIsExact` | src-tauri/src/geo_provider_runtime.rs:114-121 | promotion gives the first waiting requests, as many as there is room for, the next tokens, and leaves every other permit as it was |
| `LimiterAnswers.AskingFirst` | src-tauri/src/geo_provider_runtime.rs:157-203 | a new request gets the next token, the last place in the queue or the capacity error, an invalid one nothing |
| `LimiterAnswers.AskingForAPermitAgain` | src-tauri/src/geo_provider_runtime.rs:167-187 | who asks again for a permit gets the same one if it is the caller's own, else a conflict |
| `LimiterAnswers.AskingWhileWaiting` | src-tauri/src/geo_provider_runtime.rs:167-187 | who asks again while waiting is told the place if it is the caller's own, else a conflict |
| `LimiterAnswers.StatusOfAWaiter` | src-tauri/src/geo_provider_runtime.rs:205-230 | the place of a waiting request is told to its owner alone |
| `LimiterAnswers.ReleaseIsForTheOwner` | src-tauri/src/geo_provider_runtime.rs:232-243 | its own caller frees a permit and the next waiting request is promoted; anybody else gets a conflict and changes nothing |
| `LimiterAnswers.CancelTakesTheWaiterOut` | src-tauri/src/geo_provider_runtime.rs:245-254 | its own caller takes a waiting request out of the queue; for anybody else nothing changes |
| `LimiterAnswers.CancelFreesThePermit` | src-tauri/src/geo_provider_runtime.rs:255-269 | its own caller frees a permit by its id; anybody else gets a conflict |
| `LimiterAnswers.RetireTakesTheGeneration` | src-tauri/src/geo_provider_runtime.rs:271-301 | exactly the permits and waiting requests of that generation go, their number is reported, and whoever there is room for is promoted |
| `LimiterAnswers.LimitTakesEffect` | src-tauri/src/geo_provider_runtime.rs:150-155 | a new limit is brought between 1 and 16 and takes effect at once |
| `LimiterAnswers.PermitLastsIff` | src-tauri/src/geo_provider_runtime.rs:232-309 | over every run a permit is still held, unchanged, if and only if its own caller neither released nor cancelled it, its generation was not retired and nothing was cleared |
| `ProviderLimiter.GeoProviderLimiter.Acquire` | src-tauri/src/geo_provider_runtime.rs:157-203 | the same answer for a known request, a conflict for another caller, a grant, a place in the queue, or the capacity error, exactly as specified |
| `ProviderLimiter.GeoProviderLimiter.Status` | src-tauri/src/geo_provider_runtime.rs:205-230 | the projection for the owner, not found for anyone else |
| `ProviderLimiter.GeoProviderLimiter.Release` | src-tauri/src/geo_provider_runtime.rs:232-243 | removes the owner's permit and promotes |
| `ProviderLimiter.GeoProviderLimiter.Cancel` | src-tauri/src/geo_provider_runtime.rs:245-269 | takes the caller's own request out of the queue or gives up its permit and promotes |
| `ProviderLimiter.GeoProviderLimiter.RetireGeneration` | src-tauri/src/geo_provider_runtime.rs:271-301 | removes a generation's permits one by one in any order, its waiting requests, counts them and promotes |
| `ProviderLimiter.GeoProviderLimiter.SetLimit` | src-tauri/src/geo_provider_runtime.rs:150-155 | clamps the limit and promotes |
| `ProviderLimiter.GeoProviderLimiter.Clear` | src-tauri/src/geo_provider_runtime.rs:303-309 | empties maps and queue |
| `SessionDeletion.RunKeepsInv` | src-tauri/src/brand_workspace.rs:387-563 | over every run: intents belong to existing rows, one per session, admitted in time, marked only once admitted |
| `SessionDeletion.AtMostOneIntent` | src-tauri/src/brand_workspace.rs:404-437 | each session has at most one deletion intent, and only while its row exists |
| `SessionDeletion.RowsGoOnlyWhenConfirmed` | src-tauri/src/brand_workspace.rs:387-563 | a row disappears only by a finalize call whose token was previewed, then admitted unexpired, then marked, in that order, for this session |
| `SessionDeletion.AdmittedOnce` | src-tauri/src/brand_workspace.rs:468-490 | a token is admitted at most once |
| `SessionDeletion.CancelAfterMarkIsIdle` | src-tauri/src/brand_workspace.rs:492-508 | a cancel with a token that was marked before changes nothing, however much later it comes |
| `SessionDeletion.AdmissionLastsIff` | src-tauri/src/brand_workspace.rs:404-556 | in every run an intent admitted at one state is still there at a later one exactly when no call in between cancelled, finalized or swept it |
| `SessionDeletion.AdmissionSurvives` | src-tauri/src/brand_workspace.rs:404-556 | an admitted deletion can be marked, and a marked one finalized, as long as it is not cancelled and no preview comes more than a minute after the admission |
| `SessionDeletion.MarkedDeletionCanBeSwept` | src-tauri/src/brand_workspace.rs:404-411 | at the end of a run from the empty database, a marked deletion is lost to a preview of another session 61 seconds after the admission, and the row stays |
| `SessionDeletion.FreshAdmissionExcludesPreviews` | src-tauri/src/brand_workspace.rs:412-423 | while an admission is fresh no other preview of its session succeeds |
| `DeletionIntents.PreviewSucceedsIff` | src-tauri/src/brand_workspace.rs:387-453 | a preview succeeds if and only if the row exists and none of its intents was admitted within the last minute |
| `DeletionIntents.IntentLastsIff` | src-tauri/src/brand_workspace.rs:387-563 | over every run an intent, confirmed or not, is still there if and only if it neither expired or went stale before a preview, was replaced, cancelled before the mark, nor its row deleted |
| `DeletionIntents.ConfirmedInTimeIff` | src-tauri/src/brand_workspace.rs:468-490 | a previewed deletion that nothing took away and nobody confirmed can be confirmed if and only if no more than five minutes have passed |
| `SessionDeletion.BrandWorkspaceStore.PreviewSessionDeletion` | src-tauri/src/brand_workspace.rs:387-453 | sweep and replacement become visible together or not at all |
| `SessionDeletion.BrandWorkspaceStore.AdmitSessionDeletion` | src-tauri/src/brand_workspace.rs:468-490 | admits exactly an unexpired, unadmitted intent of the session |
| `SessionDeletion.BrandWorkspaceStore.CancelSessionDeletionAdmission` | src-tauri/src/brand_workspace.rs:492-508 | deletes exactly an unmarked intent |
| `SessionDeletion.BrandWorkspaceStore.MarkSessionTranscriptDeleted` | src-tauri/src/brand_workspace.rs:510-530 | marks exactly an admitted intent |
| `SessionDeletion.BrandWorkspaceStore.FinalizeSessionDeletion` | src-tauri/src/brand_workspace.rs:532-563 | deletes the row and its intents exactly when the intent is marked |
| `TokenRefresh.StepKeepsInv` | src-tauri/src/account_auth.rs:440-648 | every step keeps: one holder of the lock, its open exchange the last one sent under it, and no spent refresh token in the store or about to be sent under the lock; a call that stores the renewed pair and then fails to record it is a step too |
| `TokenRefresh.RefreshIsSingleFlight` | src-tauri/src/account_auth.rs:606-648 | in every interleaving, unlocked refreshes included, of two exchanges sent under the lock the earlier is closed, a token is sent again only after a failed exchange, and each was for a token found near expiry |
| `TokenRefresh.NoTokenSentTwiceIff` | src-tauri/src/account_auth.rs:440-648 | for any resolving and authenticated callers, runs without a failed exchange never send a refresh token twice if and only if there is no authenticated caller or only one caller at all |
| `TokenRefresh.LockedAndUnlockedRepeat` | src-tauri/src/account_auth.rs:440-468 | an authenticated call refreshing without the lock repeats the token a locked caller has already sent |
| `TokenRefresh.TwoUnlockedRepeat` | src-tauri/src/account_auth.rs:440-468 | two authenticated calls that read the same secret send the same token |
| `TokenAnswers.SendsTheStoredToken` | src-tauri/src/account_auth.rs:440-648 | a refresh under the lock sends the token its caller found stored and near expiry, an authenticated call the one it found stored |
| `TokenAnswers.StoresTheAnswer` | src-tauri/src/account_auth.rs:483-515 | what a refresh stores is the pair the gateway answered its caller with |
| `TokenAnswers.SomebodyGetsOn` | src-tauri/src/account_auth.rs:606-648 | a caller that has not returned can take a step, or waits for the lock while its holder can |
| `TurnProjection.MappedAreLoading` | src/server/agent-turn-projection.ts:51-80 | every mapped tool starts loading, without a result |
| `TurnProjection.RunIsOk` | src/server/agent-turn-projection.ts:99-154 | over every call sequence uuids are distinct and only the last segment may be unconfirmed |
| `TurnProjection.StepKeepsOrder` | src/server/agent-turn-projection.ts:113-126 | a call keeps the confirmed segments in order and adds at most its own uuid, at the end |
| `TurnProjection.RunKeepsOrder` | src/server/agent-turn-projection.ts:99-154 | the confirmed segments of any earlier moment stay first, in order |
| `TurnProjection.AppliedTool` | src/server/agent-turn-projection.ts:128-146 | results change nothing but the answer of the tools they name |
| `TurnProjection.BlockOrder` | src/server/agent-turn-projection.ts:83-97 | for one block the order of merging and answering matters exactly for an answered tool the segment did not hold |
| `TurnProjection.ResultOrderIsIrrelevantIff` | src/server/agent-turn-projection.ts:83-146 | results before or after recording give the same flattened view if and only if every answered tool of the message was already in the segment |
| `TurnContents.EachBlockInItsPlace` | src/server/agent-turn-projection.ts:51-80 | which block each raw block becomes, in order |
| `TurnContents.FlattenInOrder` | src/server/agent-turn-projection.ts:148 | the flattened view shows the segments one after the other |
| `TurnContents.AnswersReachEverySegment` | src/server/agent-turn-projection.ts:128-146 | in whatever segment it stands an answered tool shows body and error flag of the last result for its id, and every other block is as it was |
| `TurnContents.KnownToolsKeepTheirFields` | src/server/agent-turn-projection.ts:83-97 | a tool shown before keeps its name and every field it had; what it lacked comes from the message |
| `TurnContents.RecordingChangesOneSegment` | src/server/agent-turn-projection.ts:113-126 | recording changes only the segment of the uuid, or the pending one, which then bears it |
| `TurnContents.RecordingTwiceIsRecordingOnce` | src/server/agent-turn-projection.ts:113-126 | a complete message delivered twice changes nothing the second time |
| `TurnProjection.AnswerTools` | src/server/agent-turn-projection.ts:138-143 | the inner loop answers exactly the tools of that id |
| `TurnProjection.AssistantTurnProjection.RecordAssistantSegment` | src/server/agent-turn-projection.ts:113-126 | merges into the segment of that uuid, or confirms the pending one |
| `TurnProjection.AssistantTurnProjection.ApplyToolResults` | src/server/agent-turn-projection.ts:128-146 | the three nested loops equal applying all results to every block |
| `NotificationDedupe.AcceptedAreFarApart` | src-tauri/src/notification.rs:572-586 | between two acceptances of one id lie at least 2048 others |
| `NotificationDedupe.AcceptedAgainIff` | src-tauri/src/notification.rs:572-586 | an id seen for the first time is accepted, and again if and only if 2048 others were accepted since |
| `NotificationDedupe.EveryIdIsAccepted` | src-tauri/src/notification.rs:572-586 | the accepted ids are the ids of the stream |
| `NotificationDedupe.NewClickIff` | src-tauri/src/notification.rs:1043-1073 | a click for no notification is always new, one for a notification exactly when the notification is accepted |
| `NotificationDedupe.ColdClicksAreKeptBack` | src-tauri/src/notification.rs:1043-1073 | before the renderer listens no click is passed on |
| `NotificationDedupe.GeoDeliveryDedupe.Admit` | src-tauri/src/notification.rs:572-586 | an id is accepted exactly when it is not among the last 2048 accepted ones; set and queue always hold the same elements |
| `NotificationDedupe.ColdStartClick` | src-tauri/src/notification.rs:1043-1086 | the first ready call returns a click exactly when one click was accepted before it, and that one |
| `NotificationDedupe.AfterReadyNothingWaits` | src-tauri/src/notification.rs:1043-1086 | once the renderer listens every accepted click is passed on at once and further ready calls return nothing |
| `NotificationDedupe.RendererClickIngress.AdmitRendererClick` | src-tauri/src/notification.rs:1043-1073 | deduplicates, passes on, keeps the first click, or makes the state ambiguous, exactly as specified |
| `NotificationDedupe.RendererClickIngress.ListenerReady` | src-tauri/src/notification.rs:1075-1086 | returns the kept click unless the state is ambiguous |
| `ProcessClosure.ChildrenOf` | src-tauri/src/process_cleanup.rs:75-80 | the children map holds exactly the parent relation |
| `ProcessClosure.AddChildren` | src-tauri/src/process_cleanup.rs:99-107 | adds exactly the children other than the current process, each pushed at most once |
| `ProcessClosure.Targets` | src-tauri/src/process_cleanup.rs:75-108 | ends on every parent graph, cycles included, with the least set holding every matching process and closed under children, the current process excepted; each target lies below a match |
| `ProcessClosure.LeastIsReachable` | src-tauri/src/process_cleanup.rs:96-107 | that set is exactly the processes a path of children leads to from a root |

## Left out

Assumptions

- The refs directory is touched by nothing else, no spill future is dropped midway, and losing power (as
  opposed to the process dying) is not modelled; names are ids and kinds, so the classification of file
  names as refs is not part of the model.
- A file identity that is unchanged means unchanged content; the row codec is injective, newline-free
  and starts with a character that is not white space.
- The JSON parser reads back the printed rows and accepts nothing but white space after an array; an
  index is cut between characters, so a half character decoded to U+FFFD is not modelled.
- Tokens and ids drawn at random never repeat; a tokio or file lock is an ideal first-in first-out mutex.

Weaker than the code

- `Transcript.EverySuccessIsExact`: for runs without a deletion; `TranscriptHistory.CursorSinceDeletionIsExact`
  and `TranscriptHistory.EverySuccessIsExactIff` cover the others.
- `SpillStream.StreamResponseBody`: which reservations and writes go well is a parameter of the call.
- `SpillTheorems.SettledRunKeepsTheCap`: for runs without a measurement made while bytes are in flight; the
  cap need not be kept otherwise (`SpillOverrun.CapCanBeExceeded`,
  `SpillContinuation.UnderchargeCanExceedTheCap`).
- `SpillTheorems.BudgetHolds`: startup debt is unbounded; the saturating sum over startup files is modelled
  without its 64-bit ceiling.
- `SseFraming.ReadAttempt`: emission is a list; decoding to text, parsing the event fields and stopping in
  the middle of an attempt are not part of it.
- `TurnProjection.AssistantTurnProjection.RecordAssistantSegment`: segments are values, so a reference to a
  pending block array kept across a recording is not modelled.
- `ProcessClosure.Targets`: which command lines match is a parameter; killing and waiting are left out.

Not modelled

- Billing ledger, permits and pricing; sidecar manager, dispatch leases, session lifecycle and publish
  scheduler.
- Expiry-based collection of committed refs, content-length checks and the origin of a request.
- The pending-click latch on macOS and Linux.
- Retry delays of the SSE supervisor, logging, key and owner validation of the SSE commands.
- Session metadata updates, statistics, attachments and the backup of a damaged index.
- Deleting a whole workspace, archiving, and everything else in the brand database.
- HTTP clients, Tauri commands and events, React code, credential stores, windows and signals.

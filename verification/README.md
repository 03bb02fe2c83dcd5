# Opatchy helper and controller, verified

This project models the parts of Opatchy that have to keep their word across
processes, crashes and restarts, and proves what they promise:

- the notification lease protocol, by which several helper processes share one
  ledger of desktop notifications (`NotificationBatch`, `LeaseProtocol`,
  `LeaseTheorems`, `BatchEnds`, `DeliveryRetry`, `LeaseCommits`,
  `NotificationDispatch`, with `LedgerPruning`);
- watches, from the click that makes one to the scan that ends it (`Stars`,
  `WatchRuns`);
- the chain of generations, by which every scan folds eight optional outcomes
  into what was known before (`ScanResolution`, `ScanAssembly`,
  `ScanGeneration`, `GenerationItems`, `GenerationHistory`,
  `GenerationHealth`, `FlatpakHistory`, `FlatpakReport`, `ScanStates`,
  `SummaryCounts`, `GenerationValidity`, `RetrySchedule`);
- the two-file storage, with a failure or the death of the process possible at
  every step (`StorageFiles`, `Storage`, `StorageRuns`);
- the queue of helper operations behind the user interface
  (`ServiceController`);
- the strict JSON recogniser (`JsonGrammar`, `JsonScanner`, `JsonOccurrence`,
  `JsonCorrectness`, `StrictJson`);
- the codecs: persistent state with pruning and migration, responses,
  generation bundles and argument vectors (`StateCodec`, `ResponseValidation`,
  `Wire`, `WireRoundTrip`, `GenerationCodec`, `RequestValidation`, `CommandLine`,
  `CommandGrammar`, `RequestAgreement`, `DecimalText`), over JSON trees (`JsonTree`)
  and the texts of the enumerations (`EnumText`), with a codec that has all the
  properties asked of one (`CodecWitness`);
- reading pipes and HTTP bodies within limits (`BoundedReading`).

`Wrappers`, `Sorting`, `Records` and `StateValidation` hold what these share;
`ReachableStates` follows the stored state through every operation.

How the modelling goes. What the program does by changing things step by step is
a class or a method with loops: the scanner, the controller, the storage, the
ledger under its lock, the pipe readers, the dispatch loop. What it does by
expressions is a function. A raised error is a `Result`, a missing value an
`Option`. A time is a number of microseconds in UTC. SHA-256 is a function
parameter; so are the printing and parsing of timestamps and the text form of a
packed document. Of these only "printing and then parsing gives the same back"
is asked, and of packing only for what a generation packs; `CodecWitness`
exhibits a codec that does it. Runs of a protocol are sequences of states linked
by its steps, and every statement about a run is about all of them. Fresh tokens
stand for `uuid4`. Inside a module the lemmas build up to those listed below.

Findings. A few promises turned out not to hold of the code as written; each is
kept as it is in the model, with a lemma naming the inputs and, where one
exists, the exact condition under which the promise holds:

- A lease excludes the claims after the one that takes over from it only while the
  clock has not gone back since (`LeaseTheorems.ClockMovedBack`,
  `LeaseTheorems.LeaseExclusionAnyLater`); without that, each claim still excludes
  the next one (`LeaseTheorems.LeaseExclusion`).
- A scan commits the ledger as it read it, so a delivery recorded in the meantime is
  forgotten and can be repeated (`LeaseCommits.CommitForgetsDelivery`), a lease is
  forgotten (`LeaseCommits.CommitForgetsLease`), and an overtaken batch can come back
  to life (`LeaseCommits.CompletionAfterCommitIff`). At most once, exclusion and
  fencing hold as long as no commit in between restores a ledger read before the
  event they start from (`LeaseCommits.DeliveredOnceShared`,
  `LeaseCommits.LeaseExclusionShared`, `LeaseCommits.FencingShared`); right after such
  a commit a second delivery is possible exactly when the ledger that was read did not
  hold the fingerprint as final (`LeaseCommits.DeliveredAfterCommitIff`). Progress is
  not affected (`LeaseCommits.ProgressShared`).
- A watch reference also reaches the pending entries of another item when that
  item's identifier starts with its own and a colon, or when its own is the other's,
  a colon and the installed digest (`LeaseTheorems.ReferenceReaches`,
  `LeaseTheorems.DigestReaches`): claiming `mise:npm` suppresses what is waiting for
  `mise:npm:x` (`LeaseTheorems.ReferenceCollision`), and un-starring it drops that
  (`LeaseTheorems.StarCollision`).
- A Flatpak scope that was missing and is then not collected is recorded as a
  success (`FlatpakHistory.FlatpakMissingIsRecorded`); its key means a success exactly
  as long as that has not happened or it has succeeded
  (`FlatpakHistory.KeyMeansSuccessIff`). A known scope that goes missing leaves a
  COMPLETE scan with a degraded source (`GenerationHealth.CompleteMeansHealthy`).
- A failing system scope of Flatpak is left out of the source's status exactly when it
  was never good and the user's scope is OK (`FlatpakReport.FailureHiddenIff`,
  `FlatpakReport.SystemFailureHidden`).
- A scan in which a mandatory source has evidence is still FAILED when no source that
  is asked for has any and not all of those are OK (`ScanStates.ScanStateIff`): Omarchy
  not applying is enough evidence, and nothing else need have succeeded
  (`ScanStates.FailedThoughBacked`).
- The six hours between attempts do not hold of the two security feeds. Security
  evidence is collected early exactly when a due KEV catalogue brings it along
  (`RetrySchedule.SecuritySpaced`, `RetrySchedule.SecurityCollectedEarly`); five
  minutes always lie in between. With CISA KEV switched off every scan counts as an
  attempt of it (`RetrySchedule.DisabledKevAgain`); as long as it has always been
  switched on, its attempts are five minutes apart (`RetrySchedule.KevSpaced`).
- A generation is refused exactly when the latest success of some slice lists an item
  that the validation refuses, or unsound findings (`GenerationValidity.ValidIff`); a
  mise key that is empty or longer than 123 characters is enough
  (`GenerationValidity.MiseKeyRefused`).
- A conditional star for an item that starts with `arch:` but is not canonical
  is accepted on the command line and gives a state that is not written
  (`ReachableStates.OddArchItemRefused`, `Stars.SetStarValidIff`).
- Upgrading a queued scan to a forced one gives arguments that the helper reads
  exactly when there are no settings (`CommandLine.UpgradedScanIff`); the
  interface always passes settings (`CommandLine.UpgradedScanRefused`).
- After a shutdown the controller still queues inventory and star requests, so
  the state it publishes stops showing the queue
  (`ServiceController.Controller.ShowsQueueIff`); one wake leaves a due periodic
  scan alone when the initial one is due too
  (`ServiceController.WakeLeavesPeriodic`).

## Model

| member | source | states |
|---|---|---|
| NotificationBatch.LedgerStore.Reserve | helper/opatchy_helper/notification_batch.py:93-132 | the reservation loop gives the ledger in which the claimable candidates and the kind's owner hold the new lease, or the same ledger when the kind is owned or nothing is claimable |
| NotificationBatch.ReserveEntry | helper/opatchy_helper/notification_batch.py:93-132 | fingerprint by fingerprint: the batch and the owner carry the new lease, pending entries under the batch's references are suppressed, all else is as it was |
| NotificationBatch.ReserveUnique | helper/opatchy_helper/notification_batch.py:93-132 | a reservation never duplicates a fingerprint |
| NotificationBatch.CompleteEntry | helper/opatchy_helper/notification_batch.py:135-161 | fingerprint by fingerprint: the owner entry is gone; the batch's entries are delivered after a success, failed after a rejection and pending after anything else, without a lease; all else is as it was |
| NotificationBatch.StatusCarriesResult | helper/opatchy_helper/notification_batch.py:239-253 | delivered exactly for a success, failed exactly for a rejection, pending for every other result |
| NotificationBatch.OutcomesCarryResult | helper/opatchy_helper/notification_batch.py:69-75 | what is reported of a completed batch carries the result in the same way |
| NotificationBatch.CompleteUnique | helper/opatchy_helper/notification_batch.py:135-161 | a completion never duplicates a fingerprint |
| NotificationBatch.UpdateForAny | helper/opatchy_helper/notification_batch.py:140-143 | duplicated candidates cannot disagree: every one gives its fingerprint the same status |
| LeaseProtocol.PolicyCandidatesWellFormed | helper/opatchy_helper/notification_policy.py:89-133 | the candidates the policy builds lie in their kind's namespace and extend their own reference |
| LeaseProtocol.NamespacesDisjoint | helper/opatchy_helper/notification_policy.py:89-133 | the fingerprint namespaces of two kinds are disjoint and contain no owner sentinel |
| LeaseProtocol.ClaimReturnsReserved | helper/opatchy_helper/notification_batch.py:42-55 | with a fresh token the batch read back is exactly the claimable candidates, and there is one exactly when the reservation went through |
| LeaseProtocol.StepKeepsInv | helper/opatchy_helper/notification_batch.py:36-161 | every claim, completion, crash, pruning and star step keeps lease coherence: if the owner entry carries a batch's token, every entry of that batch still present is pending under that token |
| LeaseProtocol.RunInv | helper/opatchy_helper/notification_batch.py:36-161 | lease coherence holds in every state of every run |
| BatchEnds.OpenIff | helper/opatchy_helper/notifications.py:73-87 | in every run a batch is out exactly when it was claimed and since then neither completed nor lost with its process |
| BatchEnds.EndsOnce | helper/opatchy_helper/notifications.py:73-87 | no batch is completed twice, or after its process died |
| LeaseTheorems.LeaseExclusion | helper/opatchy_helper/notification_batch.py:100-132 | two successive successful claims of a kind are at least 30 seconds apart unless the first was completed between them |
| LeaseTheorems.LeaseExclusionAnyLater | helper/opatchy_helper/notification_batch.py:100-132 | any later successful claim of the kind is at least 30 seconds after the first unless that was completed, as long as the clock has not gone back since the claim that took over from it |
| LeaseTheorems.ClockMovedBack | helper/opatchy_helper/notification_batch.py:206-211 | the previous statement fails when the clock goes back: a claim, a take-over, its completion and a claim at an earlier time within 30 seconds of the first |
| LeaseTheorems.Fencing | helper/opatchy_helper/notification_batch.py:58-75 | once another claim has taken the kind, completing the old batch changes nothing and reports nothing |
| LeaseTheorems.CompletionFinalises | helper/opatchy_helper/notification_batch.py:135-161 | in every run, an owner's completion makes exactly the batch's surviving entries delivered (a success), failed (a rejection) or pending (any other result), without a lease, frees the kind and leaves every other entry alone |
| LeaseTheorems.ReportsMatchLedger | helper/opatchy_helper/notification_batch.py:69-75 | in every run, what a completion reports is exactly the surviving candidates, each with the status the ledger then holds: delivered, failed or pending as the result says |
| LeaseTheorems.FinalForever | helper/opatchy_helper/notification_batch.py:164-195 | a delivered, failed or suppressed entry is never changed by any step of any run; it stays or is pruned |
| LeaseTheorems.DeliveredOnce | helper/opatchy_helper/notification_batch.py:135-195 | a fingerprint reported delivered twice was pruned between the two reports |
| LeaseTheorems.Supersession | helper/opatchy_helper/notification_batch.py:164-178 | after a successful claim the only pending entries under its references are the batch's own |
| LeaseTheorems.ReferenceReaches | helper/opatchy_helper/notification_batch.py:172-175 | for any two identifiers and digests: exactly when a watch reference reaches another item's fingerprint |
| LeaseTheorems.DigestReaches | helper/opatchy_helper/notification_policy.py:89-107 | with digests that contain no colon, exactly for the same item, for one that extends it by a colon, and for the identifier made of the other's, a colon and its installed digest |
| LeaseTheorems.ReferenceCollision | helper/opatchy_helper/notification_batch.py:164-178 | in a run, a claim of `mise:npm` turns the pending entry of `mise:npm:x` into a suppressed one |
| LeaseTheorems.StarCollision | helper/opatchy_helper/stars.py:246-254 | un-starring `mise:npm` drops the pending entry of `mise:npm:x` |
| LeaseTheorems.ProgressAfterExpiry | helper/opatchy_helper/notification_batch.py:93-132 | 30 seconds after the last claim of a kind, crashed owner or not, a claim takes every absent or pending candidate |
| LeaseTheorems.ProgressAfterCompletion | helper/opatchy_helper/notification_batch.py:93-132 | right after the owner's completion, whatever its result, a claim takes every absent or pending candidate |
| DeliveryRetry.NextClaimTakes | helper/opatchy_helper/notification_batch.py:93-161 | over every run, the next successful claim of the kind takes a surviving candidate of a completed batch again exactly when the result was neither a success nor a rejection, or its final entry has been pruned in between |
| LeaseCommits.SharedRunInv | helper/opatchy_helper/storage.py:201-213 | lease coherence holds in every state of every run in which scans also commit what they read earlier |
| LeaseCommits.FinalForeverShared | helper/opatchy_helper/storage.py:201-213 | a final entry stays unless it is pruned or a commit restores a ledger read before it became final |
| LeaseCommits.DeliveredOnceShared | helper/opatchy_helper/scan.py:47-91 | a fingerprint reported delivered twice was pruned in between, unless a commit in between restored a ledger read before the first delivery |
| LeaseCommits.DeliveredAfterCommitIff | helper/opatchy_helper/scan.py:47-91 | after a commit, once the leases it brought back have expired, a claim and a delivery go through exactly when the ledger that was read did not hold the fingerprint as final |
| LeaseCommits.CommitForgetsDelivery | helper/opatchy_helper/scan.py:47-91 | the run in which one notification is delivered twice with nothing pruned |
| LeaseCommits.LeaseExclusionShared | helper/opatchy_helper/notification_batch.py:100-132 | two successive successful claims of a kind are 30 seconds apart unless the first was completed or a commit in between restored a ledger read before it |
| LeaseCommits.CommitForgetsLease | helper/opatchy_helper/scan.py:47-91 | the run in which a commit lets two processes claim a kind at the same instant |
| LeaseCommits.FencingShared | helper/opatchy_helper/notification_batch.py:58-75 | completing an overtaken batch changes and reports nothing unless a commit has restored a ledger read before it was overtaken |
| LeaseCommits.CompletionAfterCommitIff | helper/opatchy_helper/notification_batch.py:58-75 | right after a commit, a completion has an effect exactly when its batch owned the kind in the ledger that was read |
| LeaseCommits.ProgressShared | helper/opatchy_helper/notification_batch.py:93-132 | whatever commits have restored, 30 seconds after every claim of a kind a claim takes every absent or pending candidate |
| NotificationDispatch.Coordinator.Dispatch | helper/opatchy_helper/notifications.py:65-82 | with other processes acting in every gap, each kind's candidates are claimed and then completed, or nothing of them can be claimed, and the outcomes are exactly what those completions report, kind after kind |
| NotificationDispatch.Coordinator.DispatchKind | helper/opatchy_helper/notifications.py:73-87 | one kind: claim, run with no lock held, complete; what is handed back is exactly what the completion of this claim reports, or nothing when the claim was refused |
| NotificationDispatch.Coordinator.ClaimBatch | helper/opatchy_helper/notification_batch.py:36-55 | a locked claim through the store is the steps prune, claim and prune of the shared run; a batch comes back exactly when the claim step succeeds, and it is the one that step issues |
| NotificationDispatch.Coordinator.CompleteBatch | helper/opatchy_helper/notification_batch.py:58-75 | a locked completion through the store is the steps prune, complete and prune of the shared run; what it returns is what the completion step reports, delivered, failed or pending as the result says |
| NotificationDispatch.ReportedIsRecorded | helper/opatchy_helper/notification_batch.py:69-75 | whatever others did in between, a reported outcome is what the ledger then held for its fingerprint |
| NotificationDispatch.StoreClaimIsSteps | helper/opatchy_helper/notification_batch.py:43-45 | the store's claim is the three steps of the transition system |
| NotificationDispatch.StoreCompletionIsSteps | helper/opatchy_helper/notification_batch.py:58-68 | the store's completion is the three steps of the transition system |
| LedgerPruning.PruneMembers | helper/opatchy_helper/storage_state.py:94-106 | pruning invents nothing, keeps every pending entry and duplicates no fingerprint |
| LedgerPruning.PruneShape | helper/opatchy_helper/storage_state.py:96-106 | the pending entries keep their order |
| LedgerPruning.PruneKeepsNewest | helper/opatchy_helper/storage_state.py:97-105 | a final entry is kept exactly when it is at most 180 days old and fewer than 5,000 such entries are newer |
| LedgerPruning.PruneTwice | helper/opatchy_helper/storage_state.py:94-106 | pruning and pruning again later is pruning once, later |
| StateValidation.PruneKeepsValid | helper/opatchy_helper/storage_state.py:68-106 | a valid state stays valid when pruned |
| Stars.TransitionLedger | helper/opatchy_helper/stars.py:89-97 | a transition leaves the ledger alone, except that un-starring drops the pending entries under that item's reference |
| Stars.DroppedIff | helper/opatchy_helper/stars.py:246-254 | un-starring drops exactly the pending entries whose fingerprint begins with the item's reference |
| Stars.TransitionValid | helper/opatchy_helper/stars.py:89-235 | clicks and scans keep a state valid |
| Stars.ClickCycle | helper/opatchy_helper/stars.py:127-189 | three clicks on an unwatched item go through temporary and permanent and back to the same watch list, dropping the item's pending entries |
| Stars.ClickSucceedsIff | helper/opatchy_helper/stars.py:127-189 | in a valid state a click succeeds exactly when a permanent watch is given up, or the inventory offers the item (watchable, and installed where a watch begins); otherwise it says that the item is not watchable |
| Stars.ClickAdvances | helper/opatchy_helper/stars.py:127-189 | a click that succeeds takes the item to the next of unwatched, temporary and permanent |
| Stars.SetStarSucceedsIff | helper/opatchy_helper/cli_operations.py:183-213 | the command succeeds exactly when the mode it asks for is the next one and the inventory offers the item, the item is then in that mode, and a click that would lead to another mode is refused as a mismatch |
| WatchRuns.TemporaryEnds | helper/opatchy_helper/stars.py:192-235 | over any sequence of scans and clicks on other items, a temporary watch is gone exactly when a fresh scan of its source listed the item with other installed evidence or confirmed its removal; until then it is what it was, with the first candidate it was offered |
| WatchRuns.FirstOfferIsFirst | helper/opatchy_helper/stars.py:229-232 | that candidate is the one of the first scan that listed one |
| WatchRuns.PermanentStays | helper/opatchy_helper/stars.py:192-212 | over any such sequence a permanent watch stays as it is |
| Stars.SetStarValidIff | helper/opatchy_helper/cli_operations.py:183-213 | setting a star gives a valid state exactly when it attaches no condition or attaches it to a canonical Arch item |
| ReachableStates.PerformValid | helper/opatchy_helper/storage_state.py:68-91 | every click, scan, claim, completion and pruning gives a state that may be written |
| ReachableStates.ReachableRoundTrip | helper/opatchy_helper/storage_state.py:33-65 | every state reachable from the empty one is written, and reads back pruned |
| ReachableStates.ConditionRefused | helper/opatchy_helper/storage_watches.py:69-95 | a condition attached to an item that is not a canonical Arch item gives a state that is not written |
| ReachableStates.OddArchItemRefused | helper/opatchy_helper/cli_requests.py:228-232 | the command line accepts a conditional star of `arch:-x`, the click on the empty state succeeds, and the state it gives is not written |
| StateCodec.StateRoundTrip | helper/opatchy_helper/storage_state.py:33-65 | exactly the valid states are written, and each reads back as itself pruned at the time of writing |
| StateCodec.DecodedIsValid | helper/opatchy_helper/storage_state.py:127-142 | whatever document is accepted gives a state that may be written |
| StateCodec.WatchRead | helper/opatchy_helper/storage_watches.py:44-58 | a valid watch, with its condition, reads back the same |
| StateCodec.LedgerRead | helper/opatchy_helper/storage_state.py:145-178 | a ledger entry reads back the same |
| StateCodec.MetadataRead | helper/opatchy_helper/storage_state.py:160-188 | source metadata reads back the same |
| StateCodec.MetadataDefaults | helper/opatchy_helper/storage_state.py:160-168 | metadata without the two failure fields reads as metadata without failures |
| StateCodec.V1ReadsAsUpgraded | helper/opatchy_helper/storage_state.py:119-142 | every version 1 document, good or bad, reads as the version 2 document with a null condition in each watch |
| StateCodec.V1DropsConditions | helper/opatchy_helper/storage_watches.py:29-41 | a version 2 document read as version 1 gives the same records without their conditions |
| StateCodec.V0AcceptedIff | helper/opatchy_helper/storage_watches.py:17-26 | a version 0 document is accepted exactly when it lists well-formed durable watches of different items |
| StateCodec.V0KeepsOnlyWatches | helper/opatchy_helper/storage_state.py:109-116 | version 0 gives permanent watches and nothing else, and an off watch is refused |
| GenerationItems.RefreshAgain | helper/opatchy_helper/scan_resolution.py:189-196 | reading refreshed items back as last good ones changes nothing but their provenance |
| GenerationItems.NormalizedBySlice | helper/opatchy_helper/scan_assembly.py:73-87 | when each slice contributes its own items the duplicate check does not fire, the list is strictly sorted, and each slice is treated on its own |
| GenerationItems.RefusedIff | helper/opatchy_helper/scan_assembly.py:73-87 | whatever the slices contribute, a scan is refused exactly when two items that it keeps have the same identifier |
| GenerationHistory.SourcesReported | helper/opatchy_helper/scan_assembly.py:48-70 | every source is reported, by its own slice or by the two Flatpak scopes together, and nothing else is |
| GenerationHistory.KeyRecorded | helper/opatchy_helper/scan_assembly.py:154-165 | a slice's key is recorded exactly when it was before or the slice succeeded now |
| GenerationHistory.GenerationRefines | helper/opatchy_helper/scan_generation.py:67-98 | over any sequence of scans the build never fails, every slice holds the filtered, fingerprinted items of its latest success, and the findings are those of the latest security success |
| GenerationHistory.ItemsOfLatestSuccess | helper/opatchy_helper/scan_resolution.py:54-115 | read off the bundle: strictly sorted items, all within the slices, each slice those of its latest success, marked last good unless collected now |
| GenerationHealth.HealthOfHistory | helper/opatchy_helper/scan_resolution.py:54-162 | over any sequence of scans the health of a source other than Flatpak is the one its attempts call for, and its key is recorded exactly when it has ever succeeded |
| GenerationHealth.StaleAfterSuccess | helper/opatchy_helper/scan_resolution.py:118-162 | a source is stale exactly when its latest attempt failed after a success, and its times are those of its latest success, fresh for 6 hours |
| FlatpakHistory.ScopesOfHistory | helper/opatchy_helper/scan_assembly.py:184-228 | over any sequence of scans each Flatpak scope reports the health its attempts call for, the source reports both together, and a scope's key is recorded exactly when it has succeeded or has been missing and then not collected |
| FlatpakHistory.KeyMeansSuccessIff | helper/opatchy_helper/scan_resolution.py:80-115 | a scope's key stands for a success exactly when it has succeeded or was never missing and then not collected |
| FlatpakHistory.ScopeStaleIff | helper/opatchy_helper/scan_resolution.py:143-162 | a scope is stale exactly when its latest attempt failed although it was known before |
| FlatpakHistory.UnlistedScope | helper/opatchy_helper/scan_resolution.py:163-185 | a scope that the generation before does not list counts as failed now, or as stale since now |
| FlatpakHistory.FlatpakMissingIsRecorded | helper/opatchy_helper/scan_assembly.py:184-187 | two scans that record the key of a scope that never succeeded |
| FlatpakReport.FlatpakOfHistory | helper/opatchy_helper/scan_assembly.py:198-222 | over any sequence of scans: exactly when Flatpak is stale, not applicable and OK, from the latest attempts at its two scopes; otherwise it has the status of a scope that failed |
| FlatpakReport.FlatpakDetails | helper/opatchy_helper/scan_assembly.py:60-69 | both scopes are listed, the cause is the first one there is, and the source is fresh as long as both scopes are |
| FlatpakReport.FailureHiddenIff | helper/opatchy_helper/scan_assembly.py:207-222 | with a failing scope the source is still reported good exactly when the user's scope is OK and the system's is not stale |
| FlatpakReport.SystemFailureHidden | helper/opatchy_helper/scan_assembly.py:207-222 | one scan in which the system's scope fails and Flatpak is OK |
| ScanStates.ScanStateIff | helper/opatchy_helper/scan_assembly.py:113-130 | over any sequence of scans: COMPLETE exactly when a mandatory source has evidence and every slice that is asked for stands at OK, PARTIAL exactly when only the latter fails but some slice that is asked for has evidence, FAILED otherwise |
| ScanStates.FailedThoughBacked | helper/opatchy_helper/scan_assembly.py:113-130 | a first scan that is FAILED although a mandatory source has evidence |
| GenerationHealth.CompleteMeansHealthy | helper/opatchy_helper/scan_assembly.py:97-130 | a COMPLETE generation has no degraded source exactly when every slice was collected or has a previous generation and no known Flatpak scope went missing; then all sources are OK or not applicable |
| GenerationValidity.InventoryPasses | helper/opatchy_helper/scan_assembly.py:133-151 | each inventory lists exactly the generation's items of its source and passes validation |
| GenerationValidity.SummaryConserves | helper/opatchy_helper/scan_assembly.py:97-110 | in every generation the summary's total is what the four inventories list together with the Omarchy items |
| SummaryCounts.SummaryMeans | helper/opatchy_helper/scan_assembly.py:97-110 | over any sequence of scans the summary holds the number of listed items, of watched ones, of findings in all groups, and of sources neither OK nor not applicable |
| GenerationValidity.ValidIff | helper/opatchy_helper/storage_generation.py:92-106 | the generation after any sequence of scans passes all the checks before it is stored exactly when every kept item and the findings of the latest successes pass theirs |
| GenerationValidity.UnsoundItemRefused | helper/opatchy_helper/validation.py:128-146 | one kept item that does not pass makes the generation refused |
| GenerationValidity.MiseKeyRefused | helper/opatchy_helper/adapters/mise.py:177-188 | a mise key that is empty or longer than 123 characters makes the generation refused |
| GenerationValidity.FailureBounded | helper/opatchy_helper/scan_outcomes.py:126-150 | the cause of a failed outcome is never empty and never too long |
| RetrySchedule.RecordedAfter | helper/opatchy_helper/scan_assembly.py:260-279 | over any sequence of scans the stored failure count is the number of failed attempts since the last success, and the back-off is the one that count calls for |
| RetrySchedule.DueWithinSixHours | helper/opatchy_helper/scan_generation.py:57-64 | with a clock that never goes back, a source never attempted or last attempted 6 hours ago is due |
| RetrySchedule.AttemptsIff | helper/opatchy_helper/scan.py:52-68 | which sources a scan collects, with the coupling of the two security feeds |
| RetrySchedule.AttemptsSpaced | helper/opatchy_helper/scan.py:100-116 | without force, the other five sources are attempted at least 5 minutes after any attempt and 6 hours after any success |
| RetrySchedule.SecuritySpaced | helper/opatchy_helper/scan.py:119-132 | without force, security evidence is collected 5 minutes after any attempt, and within 6 hours of its last success exactly when a due KEV catalogue brings it along |
| RetrySchedule.KevSpaced | helper/opatchy_helper/scan.py:119-132 | as long as KEV has always been switched on, its attempts are 5 minutes apart, and it is collected within 6 hours of its last success exactly when security evidence is due |
| RetrySchedule.SecurityCollectedEarly | helper/opatchy_helper/scan.py:130-132 | two runs in which security evidence is collected again 5 minutes after it succeeded |
| RetrySchedule.DisabledKevAgain | helper/opatchy_helper/scan.py:125-129 | two runs in which a switched-off KEV catalogue is attempted twice at the same instant |
| Storage.Disk.AtomicWrite | helper/opatchy_helper/storage_io.py:30-52 | whatever fails, a file holds all of its old or all of its new content, by the first of the nine steps that fails; a temporary file is left behind exactly when the process dies before the replacement, or the write and then the removal fail; completion means that every step happened |
| Storage.Disk.LoadGeneration | helper/opatchy_helper/storage.py:224-231 | gives the stored bundle, or none after discarding an unreadable one |
| Storage.Disk.LoadState | helper/opatchy_helper/storage_locked_state.py:51-70 | gives the stored state pruned at the time of loading, reports corruption exactly when state.json is there, counts and cannot be made out, puts a pruned state back in full when asked, and leaves every load from the latest reading of the clock on the same view, even if the clock goes back; without faults it completes exactly when nothing stored is of a newer schema |
| Storage.Disk.WriteState | helper/opatchy_helper/storage_locked_state.py:73-79 | later loads see the old state or the new one in full; completion means the new one, whether or not generation.json is then removed; without faults it completes exactly when the generation can be read and the state is valid |
| Storage.Disk.SaveState | helper/opatchy_helper/storage.py:104-108 | the same for a save, and an invalid state touches no file; without faults it completes exactly when what is stored can be read and the state is valid |
| Storage.Disk.UpdateState | helper/opatchy_helper/storage.py:110-117 | the mutation is given the stored state pruned, and its result lands in full or not at all; without faults it completes exactly when there is a state to give and the result is valid |
| Storage.Disk.CommitGeneration | helper/opatchy_helper/storage.py:201-213 | a commit lands in full, state and generation together, or not at all; without faults a valid bundle is committed exactly when its order is newer than the stored one |
| StorageFiles.HelperFormatLawful | helper/opatchy_helper/storage_generation.py:48-106 | the helper's two formats have the properties the storage proofs rest on |
| CodecWitness.WitnessLawful | helper/opatchy_helper/storage_generation.py:48-89 | there is a way of writing times and packing documents with which the formats have these properties |
| StorageFiles.GenerationWritten | helper/opatchy_helper/storage_locked_state.py:52-58 | once a bundle is in generation.json every later load shows it, whatever state.json holds |
| StorageFiles.StateWritten | helper/opatchy_helper/storage_locked_state.py:59-67 | a state in state.json is shown to every later load when there is no readable generation |
| StorageFiles.Quarantined | helper/opatchy_helper/storage_locked_state.py:68-70 | moving an unreadable state aside shows the same empty state |
| StorageRuns.StateIsComplete | helper/opatchy_helper/storage.py:104-213 | after any run of operations, each cut short anywhere, a load sees the state from before or all of the state of one operation |
| StorageRuns.OrderNeverDecreases | helper/opatchy_helper/storage.py:204-206 | over any run the stored order never goes down, and the stored generation is the first one or a committed one |
| StorageRuns.StateNotOlder | helper/opatchy_helper/storage.py:201-213 | the state that is seen is that of the commit whose generation is seen, or of an operation since then |
| StorageRuns.Perform | helper/opatchy_helper/storage.py:100-213 | one load, save, update or commit on the disk, whatever befalls it, leaves the old view or all it set out to do, and what completed did it and met no fault; without faults exactly the acceptable requests complete |
| StorageRuns.PerformAll | helper/opatchy_helper/storage.py:100-213 | any sequence of requests on the disk is such a run, so afterwards the state is complete and the order has not gone down; when nothing fails, everything can be read and the requests are valid, all of them complete |
| GenerationCodec.GenerationRoundTrip | helper/opatchy_helper/storage_generation.py:48-89 | exactly the valid bundles are written, and each reads back as itself with its ledger pruned |
| GenerationCodec.DecodeGeneration | helper/opatchy_helper/storage_generation.py:68-89 | whatever document is accepted gives a valid bundle |
| GenerationCodec.InventoriesRanked | helper/opatchy_helper/storage_generation.py:92-106 | the inventories of a bundle are those of Arch, AUR, Flatpak, mise and Omarchy in this order, some left out |
| GenerationCodec.KeysNamed | helper/opatchy_helper/storage_generation.py:92-106 | the recorded keys are names of sources and of the two Flatpak scopes, none of them twice |
| WireRoundTrip.ResponseRoundTrip | helper/opatchy_helper/wire.py:29-224 | exactly the valid responses are printed, and each of the four kinds reads back the same |
| WireRoundTrip.AcceptedReprints | helper/opatchy_helper/parser.py:32-104 | any accepted value gives a response whose printed value reads as the same response |
| WireRoundTrip.SnapshotRead | helper/opatchy_helper/payload_parser.py:44-77 | a valid snapshot payload reads back the same |
| WireRoundTrip.SourceHealthRead | helper/opatchy_helper/wire.py:141-163 | a source reads back the same, with scopes left out when there are none |
| WireRoundTrip.ItemRead | helper/opatchy_helper/wire.py:175-191 | an item reads back the same, with absent fingerprints left out |
| WireRoundTrip.FindingRead | helper/opatchy_helper/wire.py:201-216 | a finding reads back the same |
| WireRoundTrip.InventoryRead | helper/opatchy_helper/payload_parser.py:80-90 | an inventory payload reads back the same |
| WireRoundTrip.StarResultRead | helper/opatchy_helper/payload_parser.py:93-101 | a star result reads back the same |
| WireRoundTrip.ErrorInfoRead | helper/opatchy_helper/payload_parser.py:104-111 | an error within its length bound reads back the same |
| Wire.ParseResponse | helper/opatchy_helper/parser.py:101-104 | only valid responses are ever returned |
| JsonCorrectness.AcceptsIffDerives | qml/models/StrictJson.js:5-147 | the scanning functions accept a text exactly when all of it derives from the grammar of RFC 8259 sections 2 to 7 with nesting at most 100, distinct unescaped keys and paired surrogates |
| JsonCorrectness.SoundNumber | qml/models/StrictJson.js:128-133 | what is scanned as a number is the text of one |
| JsonCorrectness.CompleteNumber | qml/models/StrictJson.js:128-133 | the text of a number, up to where it stops, is scanned as one |
| JsonOccurrence.ValueEndMeans | qml/models/StrictJson.js:14-147 | walking a text along a syntax tree ends at a place exactly when the tree prints that stretch of the text |
| StrictJson.HasDuplicateObjectKey | qml/models/StrictJson.js:5-12 | the scanner object's verdict is false exactly for the texts that derive from the grammar |
| StrictJson.Scanner.ScanValue | qml/models/StrictJson.js:14-24 | agrees with the scanning function, restores the depth on success, and terminates |
| StrictJson.Scanner.ScanObject | qml/models/StrictJson.js:26-57 | the same for an object, with repeated keys detected |
| StrictJson.Scanner.ScanArray | qml/models/StrictJson.js:59-81 | the same for an array |
| StrictJson.Scanner.ScanString | qml/models/StrictJson.js:83-120 | the unescaped text, or nothing for a bad escape, a control character or an unpaired surrogate |
| StrictJson.Scanner.ScanSpace | qml/models/StrictJson.js:135-137 | the index moves past the white space |
| ServiceController.Controller.constructor | qml/models/ServiceController.js:6-28 | the controller starts with nothing queued, nothing active, the empty state and the number one |
| ServiceController.Controller.StartNext | qml/models/ServiceController.js:62-78 | the operations taken off the queue are those the transport refused and the first one it took, started in order; nothing starts after a shutdown |
| ServiceController.Controller.Enqueue | qml/models/ServiceController.js:53-61 | the operation waits at the end of the queue, or is started at once when nothing is active |
| ServiceController.Controller.Refresh | qml/models/ServiceController.js:89-101 | a scan is queued only when none waits; a forced refresh of a waiting one adds `--force` to that operation alone, once |
| ServiceController.Controller.Start | qml/models/ServiceController.js:146-152 | the initial scan is scheduled and a snapshot requested, behind what waits |
| ServiceController.Controller.RequestRefresh | qml/models/ServiceController.js:153 | a forced scan is queued behind what waits, or the waiting one carries `--force` |
| ServiceController.Controller.RequestInventory | qml/models/ServiceController.js:154-161 | exactly the valid requests are queued, with their arguments |
| ServiceController.Controller.SetStar | qml/models/ServiceController.js:162-184 | exactly the valid requests are queued, with their arguments and their identity |
| ServiceController.Controller.Wake | qml/models/ServiceController.js:185-193 | what is due is cleared; an ordinary scan with the settings of the moment is queued behind what waits when something was due and no scan waits; a waiting scan's arguments stay as they are |
| ServiceController.Controller.DueNow | qml/models/ServiceController.js:187-189 | which schedules a wake clears, and whether any was due |
| ServiceController.WakeLeavesPeriodic | qml/models/ServiceController.js:187 | a wake leaves something overdue exactly when the initial and the periodic scan were due together, the next wake takes it, and what has not come yet stays |
| ServiceController.NextWakeIsEarliest | qml/models/ServiceController.js:44-51 | the next wake is the earliest of the four schedules, and nothing else is |
| ServiceController.DueWhenShown | qml/models/ServiceController.js:44-51 | a wake finds something due exactly when the next wake that is shown has come |
| ServiceController.Controller.Earliest | qml/models/ServiceController.js:113-121 | the loop finds the earliest time after a given one |
| ServiceController.Controller.ConfigureSnapshotSchedule | qml/models/ServiceController.js:103-109 | the retry is the earliest time at which a source stops being fresh, and a scan sets the next periodic one |
| ServiceController.JitterBounds | qml/models/ServiceController.js:110-112 | the next periodic scan is within a tenth of the interval |
| ServiceController.JitterEven | qml/models/ServiceController.js:110-112 | the interval itself is in the middle, and the draw moves it evenly |
| ServiceController.Controller.SchedulePostHandoffScan | qml/models/ServiceController.js:194-199 | only the hand-off schedule changes |
| ServiceController.Controller.RecordHandoff | qml/models/ServiceController.js:200-204 | the hand-off time is recorded and its scan scheduled |
| ServiceController.Controller.Complete | qml/models/ServiceController.js:205-231 | a result for anything but the active operation changes nothing; otherwise that operation finishes, the interface state holds what it came to, an accepted snapshot sets the retry to the earliest time after now at which a source stops being fresh and a scan sets the next periodic one, nothing else touches a schedule, and the queue goes on |
| ServiceController.Controller.Conclude | qml/models/ServiceController.js:208-229 | the branches that record a failure or accept the response, for every result, with the schedules each of them leaves |
| ServiceController.JudgedIff | qml/models/ServiceController.js:208-229 | a result is accepted exactly when it is a clean exit with the operation's own kind of response; which of the five failures it is otherwise |
| ServiceController.Controller.Shutdown | qml/models/ServiceController.js:232-241 | nothing is queued, active or scheduled any more |
| ServiceController.Controller.ShowsQueueIff | qml/models/ServiceController.js:34-43 | the published state shows the queue, the activity and the earliest schedule exactly as long as work is accepted or nothing was queued after the shutdown |
| ServiceController.Controller.OneQueuedScan | qml/models/ServiceController.js:89-101 | one scan waits when a refresh is queued and none otherwise |
| ServiceController.Controller.StartedOnce | qml/models/ServiceController.js:62-78 | operations start in the order of their numbers, finish in that order, and at most once |
| RequestValidation.ValidSecurityWatchRequest | qml/models/RequestValidation.js:46-73 | true exactly for no security fields, or all three of them well formed for a canonical Arch item |
| RequestValidation.ValidCveIds | qml/models/RequestValidation.js:64-71 | the index loop accepts exactly the lists of well-formed, different CVE identifiers |
| RequestValidation.StarRequestShape | qml/models/RequestValidation.js:23-30 | what an accepted star request amounts to, in characters rather than UTF-16 code units |
| RequestAgreement.InventoryAcceptedIff | qml/models/RequestValidation.js:11-21 | for every JavaScript value: it is accepted exactly when it asks for a page that the helper reads back as asked, with a query short enough in UTF-16 code units too |
| RequestAgreement.StarAcceptedIff | qml/models/RequestValidation.js:23-73 | for every JavaScript value: it is accepted exactly when it asks for a star that the helper reads back as asked, with an identifier short enough in code units too and, under a condition, a canonical Arch one |
| RequestAgreement.JsLengthIs | qml/models/RequestValidation.js:15-26 | the length of a text in JavaScript counts the characters outside the basic plane twice |
| CommandLine.InventoryRoundTrip | helper/opatchy_helper/cli_requests.py:67-80 | every accepted inventory request is read back by the helper as the same source, query and page |
| CommandLine.StarRoundTrip | helper/opatchy_helper/cli_requests.py:81-100 | every accepted star request is read back as the same item, mode and condition |
| CommandGrammar.ReadIff | helper/opatchy_helper/cli_requests.py:61-242 | for every argument vector and every command: the helper reads the one as the other exactly when the vector is one of the forms in which the command is written |
| CommandGrammar.DecimalIff | helper/opatchy_helper/cli_requests.py:179-182 | a text is read as a number exactly when it is that number written in at most six digits, with or without leading zeros |
| CommandGrammar.ConditionIff | helper/opatchy_helper/cli_requests.py:235-242 | three arguments are read as a condition exactly when it is valid and they are its advisory, its version and its CVE identifiers joined |
| CommandLine.ConditionRead | helper/opatchy_helper/cli_requests.py:235-242 | joining the CVE identifiers and splitting them gives the same condition |
| CommandLine.ScanRoundTrip | helper/opatchy_helper/cli_requests.py:105-143 | every freshly built scan is read back with its force and settings: each switch is on unless it is set to false, and the severity is high unless it is set to critical |
| CommandLine.SnapshotRead | helper/opatchy_helper/cli_requests.py:61-66 | the arguments the controller starts with are read as the snapshot command |
| CommandLine.UpgradedScanIff | qml/models/ServiceController.js:92 | a scan upgraded at the end of its arguments is read exactly when it has no settings |
| CommandLine.UpgradedScanRefused | qml/models/ScanSettings.js:3-10 | with the interface's own settings the upgraded scan is refused |
| CommandLine.NumeralRead | helper/opatchy_helper/cli_requests.py:179-182 | a printed number below a million is read back |
| DecimalText.SplitJoined | helper/opatchy_helper/cli_requests.py:238 | splitting at the commas undoes joining, for texts without commas |
| BoundedReading.Collect | helper/opatchy_helper/runner_process.py:64-117 | for any chunks in any order both results are prefixes within their limits, an exit has both streams whole, an overflow is real, and a time-out comes only after the deadline or without an exit code; streams that fit and are readable in time are collected in full, and after a stop what can still be read is kept as far as it fits |
| BoundedReading.ReadRound | helper/opatchy_helper/runner_process.py:86-106 | one round keeps both buffers right and stops at the first overflow |
| BoundedReading.Drain | helper/opatchy_helper/runner_process.py:120-142 | draining only extends the buffers, within their limits, and reads a pipe that is readable often enough to its end |
| BoundedReading.ReadBody | helper/opatchy_helper/runner.py:210-220 | the whole body exactly when it fits, taking at most one byte beyond the limit |

## Left out

- NotificationDispatch.Coordinator.Dispatch: what other processes do in the gaps are the steps of the protocol; runs with commits in between are those of `LeaseCommits`.
- LeaseTheorems.DeliveredOnce: its runs, like those of the other lemmas of that module, contain no commits; runs that do are those of `LeaseCommits`.
- StrictJson.Scanner.ScanObject: the bodies of the source's loops are split into methods of their own (ScanMember, ScanMembers, ScanKey, ScanSeparator, ScanCharacter, ScanElements), which changes no step.
- ServiceController.Controller.StartNext: the callbacks are assumed not to call back into the controller; what they answer is a parameter.
- ServiceController.Controller.Publish: the published state is a value, so the aliasing between it and the state being updated is not modelled.
- Storage.Disk.LoadState: file modes, the name of the quarantined file and the durability of what was synced are not modelled, and files are read in one step; what later loads show is stated for times from the latest reading of the clock on.
- StateCodec.StateRoundTrip: timestamps are UTC instants of any size; a date outside the years 1 to 9999, a time with another offset, and the text `2024-01-01Z`, which Python reads as a time without a zone, are outside the model.
- WireRoundTrip.ResponseRoundTrip: the five MiB limit on an encoded response, which also bounds what a generation packs, is about JSON text, which is printed and read by library code.
- GenerationValidity.ValidIff: that a scan's identifier and order, the state it read and the causes of its outcomes are valid is a hypothesis; the causes are by `GenerationValidity.FailureBounded`. An invalid generation is still followed by further scans in a chain, although the storage keeps the one before it.
- GenerationHistory.GenerationRefines: the collectors' promise that a successful outcome lists items of its own slice, with different identifiers that start with the slice's name, is a hypothesis.
- GenerationHealth.HealthOfHistory: not for the two Flatpak scopes, whose history is that of `FlatpakHistory.ScopesOfHistory`.
- RequestValidation.StarRequestShape: requests are well-formed UTF-16; an identifier that is not a string is refused before the pattern is applied to it.
- JSON text printing and `json.loads`, base64, SHA-256, `uuid4` and datetime arithmetic: library code, taken as parameters.
- Running processes, signals, HTTPS and the supervisor: effects of the operating system.
- The adapters for Arch, AUR, Flatpak, mise, Omarchy and the security feeds: their outcomes are inputs.
- Which findings and items the notification policy selects, and the wording of notifications: only the fingerprints and references it builds are modelled.
- The overlay of watches on snapshots, and the filtering, ordering and paging of an inventory: out of scope.
- Transport caches and last-good feeds of the security source: out of scope.
- QML components, view models, link policy and the release scripts.

# Verified model of the transcript service

This project models the stateful core of a video transcript service: the Redis lock and
job ledger protocol that enqueuers, workers, clocks and crashes share; the transcript
cache those jobs write; the daily LLM cost cap; the provider fallback chain; the channel
monitor's cursor and its scheduler loop; the rate limiter; and the numeric kernels that
print subtitles, stitch audio parts, clean up chapters, size audio pieces and average
sentiment. `dafny verify dfyconfig.toml` checks all of it.

## How it is built

**State machines.** `JobProtocol`, `CostCap` and `RateLimiter` make every Redis or
database call one atomic event and let processes interleave, crash and be overtaken by the
clock at will. A run is any sequence of enabled events; the main results hold of every
state of every run.

- `JobInvariants` proves the invariant, `JobTheorems` the safety of the lock protocol,
  `JobHistory` what runs say about one job, `JobCache` what they say about one cached
  transcript. Mutual exclusion is *not* an invariant of the code: locks expire, and a steal
  deletes unconditionally. What holds is a count (`InFlightBoundedByLosses`), and exactly
  when a single loss breaks exclusion (`LossIsSafeIffHolderFinished`). `JobWitnesses` gives
  runs from empty stores that reach that count exactly, and the failures it leaves open.
- `ChapterCalls` lets chapter requests overlap with each other and with all of that: its runs
  project to runs of `JobProtocol`.
- `JobService` is the same pipeline as imperative code: a class with the stores as fields
  and one method per source function. At each await point a method that promises only
  "any steps of others" may change everything. `Valid` ties the stores to a recorded trace
  that is a run of the machine, so all results about runs apply to the methods.
- `CostCap` proves the overshoot bound that the code obeys, `CostCapDocumented` that it is
  exact for every deployment, and when the smaller bound of the design notes holds.
- `FallbackChain`, `MonitorCursor`, `MonitorScheduler` and `RateLimiter.Limiter` are classes
  and loops proved against specification functions, and tied to the machines: an undisturbed
  cap check is a run of `CostCap`, an undisturbed rate-limit call one of `RateLimiter`, and
  the scheduler's polls are a run of the cursor protocol as long as snapshots are fresh.

**Kernels.** `Srt`, `Stitching`, `Chapters`, `AudioSplit` and `Sentiment` prove the
source's loops against independent definitions (an inverse parser, prefix sums, records of
a sequence, a weighted mean). `SpeakerTurns` does so for the labels that a diarization commits. `Text`, `Rounding`, `RealFacts` and `Wrappers` are helpers.

## Where the code and its documentation disagree

The model follows the code.

- `docs/JUDGEMENT_CALLS.md:171-174` bounds the overshoot of the cost cap by workers x
  concurrent calls x dearest call. The ledger query is awaited before its answer is cached
  (`src/app/llm/fallback.py:88-92`), so an answer from before the cap was crossed can be
  stored after it, once for every call that was waiting. The code's exact bound is workers x
  (1 + 2 + ... + concurrent calls) x dearest call, for every cap and price; the documented
  one holds if and only if a worker runs one call at a time
  (`CostCapDocumented.DocumentedBoundIffOneCallPerWorker`), or if query and store were one
  step (`AtomicRunsMeetDocumentedBound`).
- `src/app/middleware.py:12-18` calls the limiter a sliding window. It is a fixed window, and
  acts as a sliding one if and only if the limit is at most one
  (`RateLimiter.SlidesIffLimitAtMostOne`); otherwise up to twice the limit less one fit into
  one window's length.
- `src/app/middleware.py:177-181` has the counter reset cleanly after every window. It does so
  if and only if no caller crashes between INCR and EXPIRE of the call that opened a window
  (`RateLimiter.StuckIffOpenerCrashed`); after such a crash the key never expires.
- `docs/JUDGEMENT_CALLS.md:191-194` ties speaker tags to the snippets they annotate. The
  diarization worker's commit checks only that the row exists, so a refresh that lands while
  it works is overwritten by the older words, in some run for every video
  (`JobWitnesses.RefreshIsLostInSomeRun`); words are kept if and only if they are still those
  that were loaded (`JobCache.CommitKeepsWordsIffUnchanged`).
- `docs/JUDGEMENT_CALLS.md:176-179` has a chapter list NULL only until the first attempt, and
  kept from then on. An attempt that raises, as on the daily cost cap
  (`src/app/chapters.py:152` catches only a failed model), leaves it NULL; and since nothing is
  held between the read and the store, a second call that had also read NULL overwrites the
  first (`ChapterCalls.OverlappingCallsDisagree`). However things go on, short of a purge,
  every later call repeats a call that ends if and only if that call returned, its row was
  still there, and no other call on the row had read NULL and was still to end
  (`ChapterCalls.RepeatedIffReturnedAlone`).
- `src/app/diarization.py:84` leaves a snippet that no turn overlaps without a speaker. The code
  leaves it the speaker it had (`src/app/diarization.py:109`), so a second diarization keeps
  labels of the first (`TranscriptCache.Tag`).
- `src/app/whisper/audio.py:180-183` promises pieces no larger than the limit. Rounding up to
  whole seconds can break that for shares under 20 seconds
  (`AudioSplit.ShortSharesCanOverflow`); `FitsIffFullPieceFits` says exactly when it holds.
- `src/app/jobs.py:142-152` describes a steal as removing an orphaned lock. It can also remove
  the lock of an enqueuer that is about to commit its row
  (`JobWitnesses.StealHitsLiveEnqueuer`).

## Model

| member | source | states |
|---|---|---|
| JobInvariants.StepKeepsInv | src/app/jobs.py:198-306 | whatever event happens next, rows stay in step with the program points of their jobs, unfinished jobs hold their lock or have lost it, refusals point at rows of the same key, locks belong to jobs of their key and run out within the TTL |
| JobInvariants.RunKeepsInv | src/app/worker.py:69-184 | the same in every state of every run of enqueuers, workers, requests, clock and crashes |
| JobInvariants.LockChanges | src/app/jobs.py:95-152 | a lock is taken only when free, and goes away only by its owner's release, by expiry or by a steal for that very key |
| JobInvariants.RowsPersist | src/app/jobs.py:361-397 | no event removes a row or changes the video, type, language or callback it is about |
| JobInvariants.ActorNeverReturns | src/app/jobs.py:231-275 | a process leaves the program points before its lock only by taking the lock when free or by crashing, and never comes back |
| JobInvariants.RefusedByLookup | src/app/jobs.py:233-256 | a refusal names an existing row of the same video and type |
| JobInvariants.LookupFindsNewest | src/app/jobs.py:155-176 | in every state a lookup finds a queued or running row of the same video and type, none newer, and nothing only if there is none |
| JobInvariants.LosersHadLocks | src/app/jobs.py:142-152 | only a job that got past its lock can have it taken away |
| JobTheorems.InFlightBoundedByLosses | src/app/jobs.py:198-306 | in every run, queued and running rows of one video and type number at most one plus the expiries and steals of its lock |
| JobTheorems.InFlightOwnsOrLost | src/app/worker.py:145-181 | a job whose row is queued or running holds its lock, or some earlier expiry or steal in the run took it from that job |
| JobTheorems.LostMeansLoss | src/app/jobs.py:142-152 | every loser can be traced to the one event that took its lock |
| JobTheorems.LossIsSafeIffHolderFinished | src/app/jobs.py:142-152 | after a loss, two jobs of the key can meet without any further loss if and only if the victim had not finished |
| JobTheorems.FreeLockLetsCollide | src/app/jobs.py:231-275 | with the lock free and a job unfinished, a schedule exists that puts a second row beside it |
| JobTheorems.HarmlessRunKeepsExclusion | src/app/jobs.py:198-306 | runs whose losses hit only finished holders keep at most one row in flight per key |
| JobTheorems.RefusalNamesHolder | src/app/jobs.py:233-252 | while every unfinished job of a key holds its lock, a refusal names the very job that holds the lock |
| JobTheorems.StealFindsNothing | src/app/jobs.py:155-176 | under atomic enqueueing nothing is in flight under the key at the moment of a steal |
| JobTheorems.AtomicStealsAreHarmless | src/app/jobs.py:231-275 | if acquiring and committing are one step, and second lookup and steal are one, every steal removes a finished job's lock |
| JobTheorems.AtomicEnqueueKeepsExclusion | src/app/jobs.py:231-275 | under that atomicity, and if no lock expires under an unfinished job, at most one row per key is in flight at every moment |
| JobWitnesses.LossBoundIsReached | src/app/jobs.py:198-306 | for every key and every n some run from empty stores has n losses and n + 1 rows in flight, so the count is exact |
| JobWitnesses.StealHitsLiveEnqueuer | src/app/jobs.py:233-275 | in some run a steal removes the lock of an enqueuer about to insert its row, and with no lock ever expiring two rows end up in flight |
| JobWitnesses.RefreshIsLostInSomeRun | src/app/worker.py:263-307 | for every video, language, pair of different transcripts and labels some run from empty stores stores a refresh and then overwrites it with the older words |
| JobHistory.NotInsertedAgain | src/app/jobs.py:264-275 | no event inserts a row that exists |
| JobHistory.NeverRegained | src/app/jobs.py:115-139 | once past its lock and without it, a job never holds it again |
| JobHistory.OneTenure | src/app/jobs.py:95-139 | a job holds its lock for one contiguous stretch of any run |
| JobHistory.LateReleaseIsHarmless | src/app/jobs.py:66-76 | a release by a job that no longer holds the lock leaves all locks as they are |
| JobHistory.RenderedKeysTellApart | src/app/jobs.py:85-87 | two Redis key texts are equal if and only if video and operation are, and read `lock:whisper:` or `lock:diarize:` and the video |
| JobHistory.StepsStayInTheirKey | src/app/jobs.py:44-87 | no step for one video and operation touches lock or rows of another |
| JobHistory.ExpiryTakesAFullTtl | src/app/jobs.py:63-66 | a lock expires exactly its TTL after its owner's own acquisition |
| JobHistory.StatusMovesLegally | src/app/jobs.py:368-397 | although the mark helpers check nothing, a row changes status only along the legal moves, each made by its own call with its own kind of error |
| JobHistory.RowsFollowLifeCycle | src/app/worker.py:98-169 | over any run a row's statuses form one of seven life cycles, ending where the ledger says |
| JobHistory.CompleteOnlyAfterStored | src/app/worker.py:106-123 | a row is complete, or about to be marked so, only after a result of its job was committed |
| JobHistory.CompleteMeansItsOwnWrite | src/app/worker.py:294-319 | a complete whisper row had its transcript stored under the result's language, a complete diarization row had tags land in an existing transcript |
| JobHistory.AnsweredIdsStayGood | src/app/transcript_service.py:243-269 | every job id ever answered with names, from then on, a row for the requested video and type |
| JobHistory.RowsPersistLong | src/app/jobs.py:264-275 | a row lasts to the end of the run, and asks for the same work |
| JobHistory.OneInsertPerRow | src/app/jobs.py:264-275 | a row exists if and only if its own job inserted it, and that happens once |
| JobHistory.StealVictimHadNoRow | src/app/jobs.py:244-262 | in every run, a steal that hits an unfinished job hits one that had no row yet when the thief looked for the second time |
| JobCache.CacheReflectsWrites | src/app/cache.py:139-265 | over any run a row exists, holds its source and snippets, carries its diarization flag, may hold speaker tags and expires exactly as the run's last writes to it say |
| JobCache.ServedWithinTtlOnly | src/app/cache.py:113-136 | a transcript is served if and only if its last full upsert is less than the TTL ago |
| JobCache.ChaptersForgottenOnlyByPurge | src/app/cache.py:139-240 | once a chapter list was stored, only a purge of the video brings the row back to "never tried" |
| JobCache.ColumnIsLastChapters | src/app/cache.py:139-240 | in every run the chapter column is the last list stored on the row since the last purge; refreshes and diarizations do not touch it |
| JobCache.CommitKeepsWordsIffUnchanged | src/app/worker.py:294-307 | a diarization commit keeps the row's words if and only if they are still those it loaded |
| JobCache.RefreshDuringDiarizationIsLost | src/app/cache.py:243-265 | a refresh between load and commit is overwritten by the older words, flag set |
| JobCache.UndisturbedTaggingKeepsWords | src/app/worker.py:263-307 | if nothing else writes the row in between, diarization keeps every word |
| JobCache.TaggingHoldsItsLoad | src/app/worker.py:263-294 | in every state of every run, a job about to commit tags holds the snippets that its own earlier load found cached, unexpired and not from captions |
| JobCache.CommitStoresLabels | src/app/worker.py:294-307 | in every run, right after a diarization commit on an existing row the speakers there are the committed labels over the snippets that the same job loaded, and the flag is set |
| TranscriptCache.Tag | src/app/diarization.py:98-110 | labelling gives each snippet its label as speaker, leaves it the speaker it had where there is no label, and keeps every time and text |
| SpeakerTurns.BestLabel | src/app/diarization.py:90-97 | the inner loop finds the first turn of largest overlap, and none exactly when no turn shares a moment with the widened snippet |
| SpeakerTurns.OverlapIffShared | src/app/diarization.py:90-94 | a turn overlaps a snippet if and only if some moment lies strictly inside both, the snippet widened by 0.2 seconds on both sides |
| SpeakerTurns.OverlapIsLeastBound | src/app/diarization.py:94 | the overlap is the least length that every stretch inside both stays below |
| SpeakerTurns.LabelIsUnique | src/app/diarization.py:95-97 | the turns give a snippet one label, or none |
| SpeakerTurns.AlignSpeakers | src/app/diarization.py:79-110 | the outer loop gives every snippet its label, and leaves it as it was where there is none |
| SpeakerTurns.AlignmentIsTagging | src/app/diarization.py:98-110 | with the labels of the turns, the snippets aligned are exactly those tagged |
| JobService.Service.AcquireLock | src/app/jobs.py:95-112 | succeeds if and only if the key is free, and then owns it for the TTL |
| JobService.Service.ReleaseLock | src/app/jobs.py:115-139 | removes the lock if and only if the caller owns it and the call goes through |
| JobService.Service.StealStaleLock | src/app/jobs.py:142-152 | removes the lock whoever holds it |
| JobService.Service.NewestInFlight | src/app/jobs.py:155-176 | of all rows of that video and type that are queued or running a newest one is found, and none only if there is none |
| JobService.Service.FindInProgressJob | src/app/jobs.py:155-176 | returns a newest queued or running row of the key, and none only if there is none |
| JobService.Service.RecoverLock | src/app/jobs.py:233-262 | two lookups, a steal, one more try: points at a row of the same video and type that is in flight at that moment, or has stolen the lock and owns it, or has stolen it and found it taken again |
| JobService.Service.StealAndRetry | src/app/jobs.py:253-262 | the lock is deleted whoever holds it by then; the one retry either owns it for a full TTL or finds it taken |
| JobService.Service.ClaimLock | src/app/jobs.py:231-262 | the lock is owned for a full TTL, or an in-flight row of the same video and type is named, or a steal went to somebody else |
| JobService.Service.PublishJob | src/app/jobs.py:264-297 | the row, about what was asked for, is queued and pushed, or failed, and then its lock is given back if the release goes through |
| JobService.Service.EnqueueJob | src/app/jobs.py:198-306 | exactly one new id is minted, and its process has got to the end that the answer names: queued with a row of its own, refused by a lookup that found the row named, in conflict after a steal and a second failed SETNX, or finished after a failed push and a release; a refusal names a row of the same video and type in flight at that moment; the id has a row if and only if it is the one answered with |
| JobService.Service.MarkJobRunning | src/app/jobs.py:368-375 | sets status and start time of that row only |
| JobService.Service.MarkJobComplete | src/app/jobs.py:378-386 | sets status and finish time and clears the error of that row only; a missing row is left missing |
| JobService.Service.MarkJobFailed | src/app/jobs.py:389-397 | sets status, finish time and error of that row only; a missing row is left missing |
| JobService.Service.GetJob | src/app/jobs.py:361-365 | a worker's row exists and is about what the job was enqueued for |
| JobService.Service.StoreTranscription | src/app/worker.py:106-121 | the upsert lands under the result's language, or the requested one if it has none, and clears the diarization flag |
| JobService.Service.FinishWhisper | src/app/worker.py:123-150 | the row ends complete, or failed by its webhook after having been complete |
| JobService.Service.RunWhisperJob | src/app/worker.py:69-184 | the row ends complete if and only if the transcript was stored and any webhook scheduled; the job ends without the lock if its release goes through |
| JobService.Service.LoadForDiarization | src/app/worker.py:263-286 | proceeds if and only if the transcript is cached, unexpired, not from captions, and the pipeline is there; otherwise says which of these failed first |
| JobService.Service.CommitTags | src/app/worker.py:294-307 | tags land unless the pipeline raised or the row is gone, which is reported |
| JobService.Service.RunDiarizationJob | src/app/worker.py:234-329 | a complete row means that the pipeline was there, that the job loaded a cached transcript not from captions, and that right after its commit the row's speakers were what the pipeline makes of those snippets, flag set; a failed one names a cause that some state during the job bears out: not cached, captions, no pipeline, the pipeline raising on what was cached, or the row gone; the lock is given back if the release goes through |
| JobService.Service.LoadWithReason | src/app/worker.py:263-286 | a refusal is borne out by the state in which the load happened; otherwise what was loaded is what that state had cached |
| JobService.Service.CommitWithReason | src/app/worker.py:294-307 | a commit that finds no row is borne out by the state in which it happened; one that finds it leaves the labels there |
| JobService.Service.PurgeTranscript | src/app/cache.py:268-276 | every language row of the video goes, and the count says how many |
| JobService.Service.StoreCaptions | src/app/transcript_service.py:101-119 | captions are served at once, under their own language, without diarization |
| JobService.Service.WaitForJobCompletion | src/app/transcript_service.py:272-314 | the answer is the first that a poll gives: an unexpired transcript of a complete job, or the error of a failed one; a timeout comes after exactly two sleeps for every second, each of which left the job neither failed nor complete with a transcript to serve |
| JobService.Service.LookupTiers | src/app/transcript_service.py:178-205 | an unexpired row is the answer before captions are even asked for and nothing is written; a forced refresh purges first, and nothing else purges; forced whisper skips both tiers; a raising adapter raises |
| JobService.Service.LookupCached | src/app/transcript_service.py:182-205 | the cache, then the adapter: found captions are stored and served |
| JobService.Service.EnqueueAndWait | src/app/transcript_service.py:235-269 | one job is minted for the requested video, language and callback, and every answer is about it: the id of its row, the row it was refused for, the transcript or the error that its row ended with, a conflict, or a raised enqueue; the request slept to the end of the wait, until the job was answered, or not at all |
| JobService.Service.GetOrFetch | src/app/transcript_service.py:145-269 | negative waits are refused untouched; without force an unexpired row is the answer and nothing is written; a refresh purges first, and nothing else does; captions answer next; a long video or a full bucket is reported only when it is one, in that order; with neither, a request that found no cached row and no captions, or skipped them, mints exactly one job and answers about it as above, the wait capped at 25 seconds |
| CostCap.SpendNeverExceedsTriangleBound | src/app/llm/fallback.py:77-111 | in every run no UTC day's total exceeds the cap plus workers x (1 + ... + slots) x dearest call |
| CostCap.StepKeepsContained | src/app/llm/fallback.py:84-93 | past the cap, every step keeps each worker within its budget: every stale answer still to be stored can re-open it once more, one slot larger |
| CostCap.LogIsPaidFor | src/app/llm/fallback.py:134-165 | a commit past the cap is covered by one dearest call more |
| CostCap.TriangleClosed | docs/JUDGEMENT_CALLS.md:171-174 | the per-worker budget in closed form |
| CostCapDocumented.AtomicRunsMeetDocumentedBound | docs/JUDGEMENT_CALLS.md:171-174 | if query and store are one step, the documented bound holds of every run and day |
| CostCapDocumented.TriangleBoundIsReached | src/app/llm/fallback.py:88-92 | for every number of workers and slots, every cap and every dearest call some run reaches the code's bound exactly |
| CostCapDocumented.DocumentedBoundIffOneCallPerWorker | docs/JUDGEMENT_CALLS.md:171-174 | for each deployment, the code as written meets the documented bound if and only if a worker runs at most one call at a time, or nothing can be spent at all |
| FallbackChain.SplitIsJoinInverse | src/app/llm/routing.py:71-82 | splitting an entry undoes joining provider and model, and accepts nothing else |
| FallbackChain.UsableIff | src/app/llm/fallback.py:217-230 | an entry is dispatched if and only if it names a provider that has a key, and a model |
| FallbackChain.RowsTellOfTheirEntries | src/app/llm/fallback.py:232-283 | a walk logs one row for each usable entry that it got to, in the order of the chain, each with the day, task name, provider, model, status and cost of its own dispatch |
| FallbackChain.FailuresCostNothing | src/app/llm/fallback.py:217-264 | entries that are skipped or fail add no cost and no success |
| FallbackChain.WinnerIsTheWholeCost | src/app/llm/fallback.py:266-286 | a walk up to its first success logs one success, at exactly its cost |
| FallbackChain.WalkAddsUp | src/app/llm/fallback.py:217-304 | a ledger gains from a walk the winner's cost and one success, or nothing |
| FallbackChain.WalkSpendsToday | src/app/llm/fallback.py:114-165 | a day's spend grows by the cost of the answer, on the day of the walk and on no other |
| FallbackChain.InterleavedWalksAddUp | src/app/llm/fallback.py:217-304 | however the rows of any number of executors interleave in one ledger, the logged cost is the cost of the answers given, with one success logged for each |
| FallbackChain.Executor.QueryTodaySpend | src/app/llm/fallback.py:114-131 | the sum of the day's rows |
| FallbackChain.Executor.CheckDailyCostCap | src/app/llm/fallback.py:77-111 | goes by a cached total less than a minute old, else by the ledger, and caches that |
| FallbackChain.CheckRefinesMachine | src/app/llm/fallback.py:83-93 | an undisturbed check is a run of the shared machine, with the same cache and let through exactly when the spend seen is within the cap |
| FallbackChain.Executor.TryEntry | src/app/llm/fallback.py:218-286 | succeeds if and only if the entry is well formed, configured and answered; logs a row if it was dispatched; drops the cached total on success only |
| FallbackChain.Executor.WalkChain | src/app/llm/fallback.py:217-304 | stops at the first success and logs one row per dispatch up to it |
| FallbackChain.Executor.Execute | src/app/llm/fallback.py:198-304 | the answer is that of the first usable entry that succeeds, of the forced one alone if there is one; refused only past the cap; today's spend grows by the cost of the answer, every other day's stays, and after an answer every later check of the day sees the ledger as it is; over any run the logged cost is the cost of the answers given |
| MonitorCursor.CollectNew | src/app/monitor_scheduler.py:74-82 | the ids before the cursor, entries without an id skipped |
| MonitorCursor.IdsComeFromEntries | src/app/monitor_scheduler.py:74-79 | exactly the ids of the feed that are there and not empty are walked |
| MonitorCursor.DispatchOldestFirst | src/app/monitor_scheduler.py:98-140 | dispatches the collected ids in reverse up to the first failure and reports the last success |
| MonitorCursor.Monitor.MarkPolled | src/app/monitors.py:87-98 | stamps the poll, moves the cursor only to a reported success, and raises without the row |
| MonitorCursor.Monitor.PollOne | src/app/monitor_scheduler.py:55-144 | one poll delivers exactly the pending uploads up to a failure, leaves the cursor on the last and stamps the row unless the feed was empty; by the row's own cursor it is one step of the cursor protocol |
| MonitorCursor.PendingUploads | src/app/monitor_scheduler.py:74-82 | of a newest-first stretch of the history the walk leaves exactly the uploads after the cursor |
| MonitorCursor.PollContinues | src/app/monitor_scheduler.py:74-144 | a poll continues the delivered stretch without a gap if and only if the feed reaches back to the next upload, or nothing was delivered |
| MonitorCursor.DeliveryIsContiguous | src/app/monitor_scheduler.py:74-144 | over any run of polls with any failures, deliveries are a contiguous, ordered, duplicate-free stretch of the uploads, ending at the cursor |
| MonitorCursor.CursorNeverMovesBack | src/app/monitors.py:87-98 | over any run of polls the cursor only moves to later uploads |
| MonitorCursor.StaleSnapshotRedelivers | src/app/monitor_scheduler.py:80-81 | a poll by an old cursor delivers again from there, and leaves the row's cursor on an earlier upload exactly when a failure stops it short of what was already delivered |
| MonitorScheduler.Scheduler.Create | src/app/monitors.py:28-54 | a new monitor starts without a cursor, unpaused |
| MonitorScheduler.Scheduler.SetPaused | src/app/monitors.py:79-84 | changes that flag of that monitor, or raises and changes nothing |
| MonitorScheduler.Scheduler.Delete | src/app/monitors.py:73-76 | removes that monitor, or raises when there is none |
| MonitorScheduler.Scheduler.ListUnpaused | src/app/monitors.py:57-61 | a snapshot of every unpaused monitor, each once |
| MonitorScheduler.Scheduler.Reload | src/app/monitor_scheduler.py:183-190 | the cached set becomes exactly the unpaused monitors as they are now; known schedules stay; newcomers are due at once |
| MonitorScheduler.Scheduler.DueMeansFresh | src/app/monitor_scheduler.py:192-198 | a due monitor's snapshot is newer than its previous poll, unless it is a five-minute monitor polled right after a reload and again exactly 300 seconds later |
| MonitorScheduler.Scheduler.PollSnapshot | src/app/monitor_scheduler.py:192-198 | dispatches by the snapshot's cursor, moves the row's, reschedules one interval later; every recorded poll is fresh and a full interval after the last, the one exception apart |
| MonitorScheduler.Scheduler.PollDue | src/app/monitor_scheduler.py:192-198 | every due monitor is polled by its snapshot and its own feed, every other one, cached or not, is left alone |
| MonitorScheduler.Scheduler.Round | src/app/monitor_scheduler.py:181-200 | one round, with a reload when more than five minutes have passed or without: for every cached monitor that is due its feed is dispatched, its row moved, its next run set and the poll recorded; every other monitor is left alone |
| MonitorScheduler.Scheduler.RoundDelivers | src/app/monitor_scheduler.py:192-198 | so a due cached monitor gets what its feed shows as new up to a failure, its row is on the last of that, and its next run is one interval away |
| MonitorScheduler.Scheduler.DeliveriesAreContiguous | src/app/monitor_scheduler.py:175-200 | after any rounds, a monitor never polled on the dot, so every one with an interval above five minutes, has delivered a contiguous, ordered, duplicate-free stretch of its uploads, and its row's cursor is on the last |
| MonitorScheduler.PollKeepsJoined | src/app/monitor_scheduler.py:192-198 | a scheduler poll by a fresh snapshot is a step of the cursor protocol on the monitor's own row |
| MonitorScheduler.OnTheDotIsStale | src/app/schemas.py:374-379 | the exception is real: a run in which a poll goes by a cursor that had already moved |
| RateLimiter.LifetimeAdmitsAtMostLimit | src/app/middleware.py:172-200 | with INCR and EXPIRE as separate steps, and crashes between them, one lifetime of the key admits at most the limit |
| RateLimiter.AnyWindowAdmitsLessThanTwiceLimit | src/app/middleware.py:172-200 | any half-open interval one window long admits at most twice the limit less one |
| RateLimiter.BoundIsReached | src/app/middleware.py:172-200 | some run reaches that number, for every positive limit and window |
| RateLimiter.SlidesIffLimitAtMostOne | src/app/middleware.py:12-18 | every interval one window long admits at most the limit, in every run, if and only if the limit is at most one or the window has no length |
| RateLimiter.StuckIffOpenerCrashed | src/app/middleware.py:191-193 | a run leaves the key without a TTL and nobody to set one if and only if a caller crashed between INCR and EXPIRE of the call that opened the window |
| RateLimiter.CrashedWindowNeverReopens | src/app/middleware.py:191-193 | a key left without a TTL stays so, and admits only what was left of its one window |
| RateLimiter.OneCrashGetsStuck | src/app/middleware.py:191-193 | one crash between the two calls leads there |
| RateLimiter.Limiter.Enforce | src/app/middleware.py:172-200 | admits while the window's count is below the limit, gives a fresh window its TTL, and tells a refused caller when the window ends; on its key this is an undisturbed call of the machine |
| Rounding.NearestTiesToEven | src/app/serialization.py:35 | rounding gives the nearest integer, of two equally near the even one, and nothing else |
| Srt.FieldsAreTheTime | src/app/serialization.py:35-38 | the printed fields are the only ones in range that add up to the time |
| Srt.StampHasShape | src/app/serialization.py:35-39 | a printed time is two digits or more of hours, two of minutes, two of seconds and three of milliseconds, with their separators |
| Srt.TimestampRoundTrip | src/app/serialization.py:26-39 | a printed time reads back as its rounded milliseconds |
| Srt.PrintedTimesKeepOrder | src/app/serialization.py:26-39 | printing keeps order, moves no time from zero on by more than half a millisecond, and prints every negative one as zero |
| Srt.ToSrt | src/app/serialization.py:42-54 | the loop prints one numbered block per snippet, each followed by a blank line |
| Srt.CuesRoundTrip | src/app/serialization.py:42-54 | of one-line texts the parser recovers indices from 1, exact rounded times and texts |
| Srt.SrtRoundTripIffOneLine | src/app/serialization.py:42-54 | and it does so if and only if no text contains a line break |
| Stitching.SegmentsFromResponse | src/app/whisper/openai_backend.py:61-89 | the segments shifted by the offset, the farthest end, the joined texts |
| Stitching.ReachIsLeast | src/app/whisper/openai_backend.py:69-88 | the farthest end is the least bound on all segment ends, where a segment without an end ends where it starts, and never negative |
| Stitching.Transcribe | src/app/whisper/openai_backend.py:150-179 | the running offset comes to prefix sums of part lengths; any failed part fails the whole |
| Stitching.SilentPartsFit | src/app/whisper/openai_backend.py:163-170 | a part without a reported length contains its segments |
| Stitching.TidyPartsGiveTidyTimeline | src/app/whisper/openai_backend.py:150-179 | if segments come in order inside their parts, snippets come in order and none ends after the transcript's duration |
| Stitching.PartInItsInterval | src/app/whisper/openai_backend.py:150-179 | part k occupies its own stretch, and lies in its own interval if and only if its segments lie inside the part |
| Stitching.SegmentInItsPlace | src/app/whisper/openai_backend.py:69-86 | every segment of every part is in the transcript with its text and its length, moved by the part's offset; without a start it starts with its part, without an end it has no length |
| Stitching.LanguageOfTranscript | src/app/whisper/openai_backend.py:159-179 | the transcript is in the language of the first part that names one, or else in English |
| Stitching.FullTextGrows | src/app/whisper/openai_backend.py:171-179 | one more part adds its text after a space, or alone if there was none, and nothing if it has none |
| Chapters.CollectValid | src/app/chapters.py:109-123 | malformed, untitled, negative and empty entries are skipped, ends clamped, titles cut |
| Chapters.KeepRecords | src/app/chapters.py:124-131 | the running last start keeps exactly the strict left-to-right records |
| Chapters.ParseChapters | src/app/chapters.py:109-131 | the result is the records among the valid ones of the first 32 |
| Chapters.ResultIsClean | src/app/chapters.py:109-131 | at most 32, each with the start of an entry that has a title and ends after it starts, not before zero; its title is that one cut at 200 characters, its end that one or the duration more than five seconds before it; starts strictly increasing |
| Chapters.ValidEntriesAreCovered | src/app/chapters.py:109-131 | for every such entry among the first 32 the result has a chapter that starts where it does or later |
| Chapters.KeptIffRecord | src/app/chapters.py:124-131 | a chapter is kept if and only if it starts later than all valid ones before it |
| Chapters.EndAfterStartIff | src/app/chapters.py:119-122 | a cleaned chapter ends after it starts if and only if it was not clamped or starts before the duration |
| Chapters.ClampTurnsChapterAround | src/app/chapters.py:121-122 | an entry for which it does not |
| Chapters.ChapterStore.GetOrCompute | src/app/chapters.py:158-182 | a stored list is the answer; else published chapters before derived ones; it raises exactly when metadata raises, or there is none and the model call raises; only a fresh answer is written, and only to that column of that row |
| Chapters.SettledIffReturned | src/app/chapters.py:158-182 | on the table directly after a call, so for calls that do not overlap: the next ones repeat it, also an empty answer, and write nothing, if and only if it returned; one that raised leaves the column NULL |
| ChapterCalls.RepeatedIffReturnedAlone | src/app/chapters.py:158-182 | for calls that overlap as they like: every later call repeats a call that ends, in every continuation without a purge, if and only if it returned, its row was still there, and no other call on the row had read NULL and was still to end |
| ChapterCalls.OverlappingCallsDisagree | src/app/chapters.py:169-182 | from empty stores, for every row and any two different answers, two overlapping calls leave the next one contradicting the first |
| ChapterCalls.PurgeUnsettles | src/app/cache.py:268-276 | after a purge nothing is settled any more |
| ChapterCalls.ReadAnswersLastChapters | src/app/chapters.py:169-172 | in every run a call answers at once the last list stored on its row since the last purge, and goes to its sources if and only if there is none |
| ChapterCalls.ProjectsToPipeline | src/app/chapters.py:158-182 | runs of overlapping calls are runs of the pipeline's machine, with a store for each answer |
| ChapterCalls.FinishIsTheStore | src/app/chapters.py:172-182 | the end of such a call does to the table what `GetOrCompute` does with the record read earlier |
| Chapters.OnlyTheChapterColumn | src/app/cache.py:211-240 | a call changes nothing but that column of that row |
| Chapters.DerivedChaptersAreClean | src/app/chapters.py:178-182 | what an attempt by the model stores is the cleaned-up proposal, at most 32 chapters with strictly increasing starts |
| AudioSplit.EnoughParts | src/app/whisper/audio.py:198 | a file over the limit needs at least two parts, and the parts needed are the fewest that suffice |
| AudioSplit.PiecesAddUp | src/app/whisper/audio.py:154-163 | the pieces make up the whole duration |
| AudioSplit.FitsIffFullPieceFits | src/app/whisper/audio.py:180-201 | at uniform bitrate every piece fits if and only if one of full length would |
| AudioSplit.LongFilesSplitWell | src/app/whisper/audio.py:154-201 | with at least 20 seconds to a share every piece fits, in at least as many pieces as parts needed |
| AudioSplit.NotTooManyPieces | src/app/whisper/audio.py:154-201 | for any duration the pieces number at most the parts needed over 0.95, rounded up |
| AudioSplit.ShortSharesCanOverflow | src/app/whisper/audio.py:154-201 | a short file whose pieces come out too large |
| Sentiment.IndexById | src/app/tasks/sentiment.py:155 | of several entries with one id the last counts |
| Sentiment.Aggregate | src/app/tasks/sentiment.py:157-174 | the loop's timeline, rounded mean and label |
| Sentiment.MeanBetweenScores | src/app/tasks/sentiment.py:157-173 | the mean before rounding lies between any bounds on the scores that carry weight |
| Sentiment.OverallScoreInRange | src/app/tasks/sentiment.py:157-174 | scores in [-1, 1] give a rounded score in [-1, 1], also without any duration |
| Sentiment.RoundedIsNearest | src/app/tasks/sentiment.py:172 | the rounded score is a whole number of thousandths, the nearest to the mean, the even one of two as near |
| Sentiment.LabelOfMean | src/app/tasks/sentiment.py:172-173 | the label is positive if and only if the mean exceeds 0.2005, negative if and only if it is below -0.2005; a segment's own score is labelled unrounded |
| Sentiment.CuttingChangesNothing | src/app/tasks/sentiment.py:166-172 | a segment weighs its duration: cutting it at any moment, wherever it stands, leaves the overall score as it is |

## Left out

- Chapters.SettledIffReturned: covers calls that do not overlap; overlapping ones are in `ChapterCalls`.
- CostCap.SpendNeverExceedsTriangleBound: a call that is cancelled after its ledger commit and before its cache pop is outside the model, and outside the bound: the worker's cache would stay as it is for up to a minute.
- JobService.Service.Interfere: interference is a promise about other processes, not a scheduler; that some method call of another process produces each allowed trace is not shown.
- JobService.Service.GetOrFetch: the duration probe, whose failure never blocks a request, and the rate-limit hook appear as the outcomes `tooLong` and `rateLimited`; deep links and the response shape are left out.
- JobService.Service.WaitForJobCompletion: sleeps are counted, but one is an await and not a lapse of half a second on the clock.
- JobService.Service.FindInProgressJob: rows of equal creation time may be returned in either order.
- FallbackChain.Executor.Execute: one call sees one UTC day and no other calls; interleaving and midnight are in `CostCap`.
- MonitorCursor.DeliveryIsContiguous: assumes unique upload ids, newest-first feeds that reach back to the cursor, committed cursor writes and fresh snapshots; the last premise is discharged in `MonitorScheduler.Scheduler.DeliveriesAreContiguous`.
- MonitorScheduler.Scheduler.Round: the time stamp of a poll is left to `MonitorCursor.Monitor`; a poll takes no time and commits its cursor; the loop passes one clock reading to all polls of a round, as the source does.
- Stitching.Transcribe: retries and clean-up of part files, and texts before stripping.
- Chapters.ParseChapters: fences and JSON decoding, and titles before stripping; float specials such as NaN.
- AudioSplit.LongFilesSplitWell: uniform bitrate is assumed, and the re-encoding fallback may change sizes.
- Ledger writes are taken to succeed: a `mark_running` that raises would release the lock with the row still queued.
- A push that raises is taken to have queued nothing, and queued work to run at most once; job ids are unique; database and Python clocks agree.
- Cost rows of failed calls are zero and leave no event in `CostCap`; the NUMERIC(10,6) rounding of a cost is taken to have happened; call ids, tokens, latencies and `last_error` texts are not modelled.
- Webhook delivery and its retries, monitor callbacks, deep links, full text and other derived columns.
- JobService.Service.RunDiarizationJob: the speaker turns, and with them the labels that `SpeakerTurns` derives, are an oracle of the loaded snippets.
- Parsing of rate-limit strings, composition of the rate-limit key, `retry_after` of the cost cap.
- Floats: reals with Python's half-to-even `round` written out; binary rounding errors are not modelled.
- HTTP routes, schemas, authentication, logging, metrics, the admin CLI, migrations, URL and id parsing, prompts, and the SDK, yt-dlp, ffmpeg and pyannote calls, which are oracles.

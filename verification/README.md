# Kinema models

Dafny models of the stateful core of Kinema, with proofs about every input, every interleaving
and every run. `dafny verify dfyconfig.toml` checks the whole project.

- **Byte ranges** (`ByteRanges`, `HttpRange`): the normalized interval list as a set of bytes, and
  the single-range header parser against a reference meaning of the byte-range syntax.
- **Range fetching** (`RangeFetch`, `RangeProgress`): the sliding chunk window with seeks, stale and
  out-of-order completions, retries and a concurrency limit. The bytes handed out are the file's, and
  a stream that has not failed can be read to its end.
- **Application worker** (`Mailbox`, `WorkerProtocol`, `WorkerBudget`, `WorkerAnswers`,
  `WorkerScope`, `WorkerPipeline`, `WorkerRuns`, `WorkerRevocation`, `WorkerPreparations`,
  `MediaReports`): the mailbox the UI and the worker share, as a step system in which each lock-held
  section is one step and execution results are arbitrary. `AppWorker` holds the same sections as
  methods over fields. `AppTracker`, `UiDesk`, `DeskAnswers` and `LostAnswer` add the UI's books at
  the other end.
- **Artwork** (`Lists`, `Artwork`, `ArtworkRuns`, `ArtworkWindows`, `ArtworkTrim`, `ArtworkLive`,
  `ArtworkBounds`, `MissLeases`, `MissScopes`, `DiskBudget`, `DiskContents`): the priority queue with
  reserved slots and epochs, the decoded cache and its trimming, the leases on remembered misses, and
  the conservative byte accounting on disk.
- **Catalog** (`ProviderPriority`, `FieldPolicy`, `FieldMerge`, `FieldImport`, `FieldTypes`,
  `PersonalState`, `PlaybackRuns`, `NewestRows`, `Pages`, `EntityInfo`, `EntityWrites`, `Renaming`,
  `CatalogGraph`, `CatalogIdentity`, `CatalogSteps`, `CatalogMerge`, `CatalogWrites`, `CatalogRuns`,
  `CatalogOutcomes`, `CatalogCreations`, `CatalogFences`, `Survivors`, `ReusedIdentifiers`,
  `Reconcile`): identity reconciliation of two titles, and everything written in between. `CatalogGraph.MergedGraph` says without any order of steps what it means that two titles
  are one; `Reconcile.CatalogTx` does it row by row as the program does and is proved equal.

## How to read the models

Each lock-held section or transaction is a function from the old state to the new one. A class with
the program's fields has a method per section, whose contract ties the new state to that function;
the properties are lemmas about the functions and about every run of them. Flags are identities:
`cancelled` is the set of flags that are set, and a new flag is the next unused identity. Fields
named `log`, `delivered`, `accounts` and `writer` only record history. Tables are maps by primary key,
so uniqueness of a primary key is built in; every other constraint is proved. The values of a hash map
that is only searched and counted (the active artwork jobs) are kept as a list; unique ids are part of
the invariant.

Where the code and its comments differ, the models follow the code:

- The comment on the event budget speaks of one lossy telemetry slot. A tick appends two events, so
  the bound is twice the capacity plus two.

Some expectations fail; the models say exactly when:

- `RangeFetch.RequestsAreUseful`: at the end of a file whose last chunk is partial, that chunk is
  requested again although nothing is left to read.
- `UiDesk.CommandSupersedes`: a preparation or launch that the worker refuses still makes the current
  one of its kind obsolete. `LostAnswer.SuccessIsNotShown` is a run in which the only accepted
  preparation succeeds and is not shown.
- `MissLeases.MissIsWrittenUnlessCleared`: clearing a title's misses removes the markers but does not
  stop a running fetch from writing one again (`ClearedTitleReturns`); only a clear of the path does.
- `CatalogFences.KeptOutExactly`: an ended playback run is kept out exactly until a step inserts a row
  under its entity's identifier; `CatalogCreations.Creates` is the guard of such a step. After that,
  `CatalogFences.CreationLetsIn`, every run number comes back. The identifier is a plain integer
  primary key, for which the database takes one past the largest in use, so only a row that held the
  largest identifier can be succeeded; `ReusedIdentifiers.OldWriterPasses` is a run in which it is.
- `FieldPolicy.MergeCommutesIff`: which title survives matters to a field exactly in a tie between
  different values.

Some branches cannot be reached:

- `RangeFetch.ReadsNeverFail`: the checks a reader makes on the bytes it hands out.
- `PersonalState.MergeFailsIff`: a checkpoint without a watch row would make a merge fail, but every
  write keeps a watch row beside a checkpoint (`EntityWrites.WriteKeepsInfo`).
- `Reconcile.CatalogTx.Reconcile`: of the errors a merge of entities can report, only the identity
  conflict occurs in a catalog that keeps its rules.
- `FieldImport.FieldsAreIndependent`: the table's rule on dates and years never refuses an import that
  names each field once. Its rule on the columns of a kind can.

## Main results

- The bytes read after any history and a seek are the file's: `RangeFetch.StreamExactAfterSeek`; and
  nothing left behind can keep the rest of the file from a reader: `RangeProgress.RestCanBeRead`.
- The worker's budget, queue bound and exactly-once answers: `WorkerBudget.EventQueueBound`,
  `WorkerRuns.Reachable`, `WorkerRuns.ExitedAndDrained`, and with the UI's books
  `UiDesk.PendingExactlyUnapplied`, `UiDesk.NothingLeftPending`, `UiDesk.CommandSupersedes`.
- Scope and pipeline safety: `WorkerScope.StepScope`, `WorkerPipeline.LiveCommandIsLatest`,
  `WorkerPipeline.ValidExactlyWhenUnchanged`, `WorkerRevocation.SubmitCancelsExactly`,
  `WorkerRevocation.ScopeFollowsSettings`.
- Artwork: `ArtworkLive.Reachable`, `ArtworkLive.ObsoleteStaysOut`, `ArtworkRuns.StartIsWorkConserving`,
  `ArtworkWindows.WindowIsQueued`, `ArtworkBounds.CacheAlwaysFits`,
  `MissLeases.ClearedMissIsNotResurrected`, `DiskBudget.RunWithinBudget`, `DiskContents.EachTurn`.
- Reconciliation: `Reconcile.CatalogTx.MergeTitle` equals `CatalogGraph.MergedGraph`, whose result
  `CatalogIdentity` and `Survivors` describe; `CatalogOutcomes.ResolvesExactly`;
  `CatalogRuns.RunKeepsRules` over every run.
- Fields and personal state: `FieldPolicy.MergeOfFolds`, `FieldImport.FieldsAreIndependent`,
  `PersonalState.MergeAllFollowsLaw`, `PlaybackRuns.ResumesWhereSaved`, `PlaybackRuns.EndedRunStaysOut`,
  `CatalogFences.KeptOutExactly`.

Methods of classes are refinements: their contracts tie the program's in-place code to these
specification functions, and a few that restate one assignment have no row of their own.

## Model

| member | source | states |
|---|---|---|
| ByteRanges.InsertedIsUnion | crates/kinema-core/src/media.rs:107-122 | after an insertion the available bytes are the old ones and the interval's, and the list is sorted, disjoint and non-adjacent |
| ByteRanges.CanonicalForm | crates/kinema-core/src/media.rs:95-108 | two normalized lists that hold the same bytes are the same list |
| ByteRanges.InsertAllIsUnion | crates/kinema-core/src/media.rs:110-122 | any sequence of insertions leaves exactly the union of its intervals, normalized |
| ByteRanges.InsertionOrderIrrelevant | crates/kinema-core/src/media.rs:110-122 | insertion histories over the same bytes leave identical lists, whatever their order or overlap |
| ByteRanges.TotalIsCardinality | crates/kinema-core/src/media.rs:176-178 | the sum of the lengths is the number of available bytes |
| ByteRanges.ClippedIsMeet | crates/kinema-core/src/media.rs:163-174 | the intersection holds exactly the available bytes of the request, in normalized form |
| ByteRanges.MissingAndAvailablePartition | crates/kinema-core/src/media.rs:131-174 | missing and available lengths add up to the length of the request |
| ByteRanges.RangeSet.Insert | crates/kinema-core/src/media.rs:110-122 | the list after the splice is the specified one; the set stays normalized |
| ByteRanges.RangeSet.Contains | crates/kinema-core/src/media.rs:124-130 | true exactly when every byte of the interval is available |
| ByteRanges.RangeSet.Missing | crates/kinema-core/src/media.rs:131-161 | the gaps returned are normalized and hold exactly the requested bytes that are not available |
| ByteRanges.RangeSet.Intersection | crates/kinema-core/src/media.rs:162-174 | the result holds exactly the available bytes of the request |
| HttpRange.ResolvesSpec | crates/kinema-core/src/media.rs:206-243 | a well-formed range resolves to exactly the byte positions it selects in a file of the given size, or is unsatisfiable when it selects none |
| HttpRange.ParseComplete | crates/kinema-core/src/media.rs:206-250 | every spelling of a well-formed single range (section 14.1.2 of RFC 9110) is accepted with the positions it selects, with no 64-bit overflow for any size |
| HttpRange.ParseSound | crates/kinema-core/src/media.rs:206-250 | only such spellings are accepted or called unsatisfiable; a decimal overflow is invalid |
| HttpRange.MultipleRangesExactly | crates/kinema-core/src/media.rs:213-220 | the multiple-ranges error is reported exactly for a comma after a byte unit |
| HttpRange.HeaderRoundTrip | crates/kinema-desktop/examples/http_range_poc.rs:227 | the header a fetch sends parses back to its own interval, for every file that contains it |
| RangeFetch.AheadIsLongestPrefix | crates/kinema-desktop/examples/http_range_poc.rs:434-448 | a count of bytes is reported available exactly when all of them are in the file and cached; the walk terminates |
| RangeFetch.ReadsAllThatIsCached | crates/kinema-desktop/examples/http_range_poc.rs:450-468 | a read hands out no more than was wanted and all that was wanted and is cached without a hole, and gives up no byte still to be read |
| RangeFetch.StepInv | crates/kinema-desktop/examples/http_range_poc.rs:425-573 | every seek, read, scheduling, completion and sample keeps the window, slot, worker and content rules |
| RangeFetch.RunInv | crates/kinema-desktop/examples/http_range_poc.rs:425-573 | the rules hold after every run |
| RangeFetch.StreamExact | crates/kinema-desktop/examples/http_range_poc.rs:425-468 | the bytes read between two seeks are exactly the file from the seek target to the cursor, for every interleaving of dispatch, retry and late, failed or stale completion |
| RangeFetch.StreamExactAfterSeek | crates/kinema-desktop/examples/http_range_poc.rs:425-468 | the same after any history followed by a seek |
| RangeFetch.MissingChunkHasSlot | crates/kinema-desktop/examples/http_range_poc.rs:470-509 | with no stale request in flight, a missing chunk of the window always finds a free slot (pigeonhole) |
| RangeFetch.CursorChunkServed | crates/kinema-desktop/examples/http_range_poc.rs:470-509 | with no stale reservation, a free worker, no fatal error and no pending backoff the chunk under the cursor is held after scheduling |
| RangeFetch.ScheduleIsWorkConserving | crates/kinema-desktop/examples/http_range_poc.rs:470-509 | scheduling stops only at a bound or when every window chunk is held or backing off |
| RangeFetch.RequestsAreUseful | crates/kinema-desktop/examples/http_range_poc.rs:470-509 | a request that scheduling adds covers a byte still to be read exactly when the cursor is not at the end of the file |
| RangeFetch.TailIsRequestedAgain | crates/kinema-desktop/examples/http_range_poc.rs:470-509 | after a seek to the end of any file with a partial last chunk, scheduling asks for that chunk again |
| RangeFetch.FlightHeaderExact | crates/kinema-desktop/examples/http_range_poc.rs:215-232 | the header of any request in flight asks for exactly the interval it reserves |
| RangeFetch.ReadsNeverFail | crates/kinema-desktop/examples/http_range_poc.rs:450-468 | neither the content mismatch nor the exposed-hole branch of a read can be reached |
| RangeFetch.RangeCache.SeekTo | crates/kinema-desktop/examples/http_range_poc.rs:425-432 | the cache after a seek is the specified one |
| RangeFetch.RangeCache.AheadOf | crates/kinema-desktop/examples/http_range_poc.rs:434-448 | the loop computes the specified count |
| RangeFetch.RangeCache.Read | crates/kinema-desktop/examples/http_range_poc.rs:450-468 | a cache that keeps its rules answers with the longest stretch from the cursor on that is wanted and cached and moves the cursor over it; the first missing or wrong byte would be reported with no change |
| RangeFetch.RangeCache.ScheduleAt | crates/kinema-desktop/examples/http_range_poc.rs:470-516 | the dispatch loop adds exactly the specified requests |
| RangeFetch.RangeCache.CompleteJob | crates/kinema-desktop/examples/http_range_poc.rs:518-558 | a completion publishes, retries, fails or is dropped as specified |
| RangeFetch.RangeCache.SampleAt | crates/kinema-desktop/examples/http_range_poc.rs:287-313 | the concurrency limit moves as specified and stays between one and the number of workers |
| RangeProgress.RestCanBeRead | crates/kinema-desktop/examples/http_range_poc.rs:425-558 | from any state that is not fatal, if workers succeed from here on the reader gets exactly the rest of the file: stale requests, full slots, a lowered limit or backing off chunks keep no byte from it |
| RangeProgress.DeliveryIsReadable | crates/kinema-desktop/examples/http_range_poc.rs:518-536 | a delivered chunk of this generation is ready and no longer waits; one of an earlier generation only frees its request |
| RangeProgress.FailureExactly | crates/kinema-desktop/examples/http_range_poc.rs:537-558 | which failures are counted, which end the stream, and which make the chunk wait 20, 40 or 80 milliseconds |
| RangeProgress.NewRequestWaited | crates/kinema-desktop/examples/http_range_poc.rs:486-501 | a request is only added once its chunk has waited, and carries the number of failures so far |
| RangeProgress.VerifyFindsTheFirst | crates/kinema-desktop/examples/http_range_poc.rs:453-462 | the check of a read passes exactly when every byte is cached and right, and otherwise reports the first that is not |
| RangeProgress.LimitsAreKept | crates/kinema-desktop/examples/http_range_poc.rs:476-482 | scheduling exceeds neither the concurrency limit nor the slots unless they were exceeded before |
| RangeProgress.NearestFirst | crates/kinema-desktop/examples/http_range_poc.rs:474-509 | a chunk is requested only when each chunk of the window before it is held or backs off |
| RangeProgress.LimitMovesExactly | crates/kinema-desktop/examples/http_range_poc.rs:287-313 | the limit rises by one exactly in a calm sample with too little ahead, falls by one on the third ample one, and halves on failures |
| RangeProgress.ReductionRests | crates/kinema-desktop/examples/http_range_poc.rs:287-313 | after a reduction the next two samples leave the limit alone unless requests fail again |
| AppWorker.Shared.TrySubmit | crates/kinema-desktop/src/app.rs:385-442 | acceptance is decided by the budget; the mailbox after revocation, coalescing and queueing is the specified one, and a refusal changes nothing |
| AppWorker.Shared.TryCancel | crates/kinema-desktop/src/app.rs:444-477 | known exactly for an active, retained or queued generation; the flags set and the discard recorded are the specified ones |
| AppWorker.Shared.PollEvent | crates/kinema-desktop/src/app.rs:478-489 | the oldest event leaves and frees budget exactly if it consumed some |
| AppWorker.Shared.Close | crates/kinema-desktop/src/app.rs:325-356 | on any exit every flag is set and everything running or queued is answered, oldest first |
| AppWorker.Shared.TakeRequest | crates/kinema-desktop/src/app.rs:1272-1302 | discards drop the retained preparation, the oldest request becomes active and rotates the account if it invalidates it |
| AppWorker.Shared.Answer | crates/kinema-desktop/src/app.rs:1373-1388 | one terminal event, and only this command leaves the pipelines |
| AppWorker.Shared.OnTick | crates/kinema-desktop/src/app.rs:1404-1424 | errors are reported while budget lasts and the telemetry slots are replaced in place of older ones |
| AppWorker.Shared.ReportErrors | crates/kinema-desktop/src/app.rs:1231-1255 | the loop tells exactly the specified errors while budget lasts and the sessions remember exactly these |
| MediaReports.ReportTells | crates/kinema-desktop/src/app.rs:1231-1255 | exactly what is told becomes known to its session, each once and for one budget slot; with budget left nothing found stays untold |
| MediaReports.ToldOnce | crates/kinema-desktop/src/app.rs:1231-1255 | over every history of ticks, session starts and ends, no error of a session is told twice |
| WorkerBudget.StepBudget | crates/kinema-desktop/src/app.rs:309-356 | every step keeps: outstanding is queued plus running plus budgeted undelivered events, at most the capacity, and each queue suffix pays for its invalidations |
| WorkerBudget.EventQueueBound | crates/kinema-desktop/src/app.rs:306-323 | the event queue holds at most twice the capacity and two telemetry events, although invalidations consume no budget |
| WorkerBudget.PollNeverUnderflows | crates/kinema-desktop/src/app.rs:478-489 | freeing budget never takes the count below zero |
| WorkerAnswers.StepAnswers | crates/kinema-desktop/src/app.rs:385-442 | every step keeps, for every generation: accepted commands are those queued, running, answered and undelivered, or delivered |
| WorkerAnswers.ExitAnswers | crates/kinema-desktop/src/app.rs:324-356 | an exit or panic answers everything queued or running, exactly once |
| WorkerScope.StepScope | crates/kinema-desktop/src/app.rs:551-593 | every step keeps command flags ordered, retired account flags set, and a replacement queued while the current account flag is set |
| WorkerScope.DequeueRefreshes | crates/kinema-desktop/src/app.rs:1296-1302 | dequeuing a command that invalidates the scope publishes an unset flag in the next epoch and leaves the old one set |
| WorkerScope.StepFlagsMonotone | crates/kinema-desktop/src/app.rs:392-438 | no step clears a flag |
| WorkerPipeline.LiveCommandIsLatest | crates/kinema-desktop/src/app.rs:396-433 | at most one unanswered playback command (and one metadata test) is uncancelled, and no accepted command cancelled its lane after it |
| WorkerPipeline.StepLane | crates/kinema-desktop/src/app.rs:396-433 | every step keeps each live command named by its lane's slot |
| WorkerPipeline.StepCoalesced | crates/kinema-desktop/src/app.rs:411-424 | replaceable reads and preparations are queued at most once per family |
| WorkerPipeline.CancelReachesExactly | crates/kinema-desktop/src/app.rs:444-477 | of all commands ever accepted, cancelling a generation newly cancels exactly those it names that are queued or running |
| WorkerPipeline.ValidExactlyWhenUnchanged | crates/kinema-desktop/src/app.rs:574-583 | credential validation succeeds exactly when no set or delete for the provider was accepted after the request |
| WorkerRuns.Reachable | crates/kinema-desktop/src/app.rs:1268-1428 | in every reachable state the budget, the queue bound and the exactly-once count hold |
| WorkerRuns.RunInv | crates/kinema-desktop/src/app.rs:1268-1428 | all invariants of the protocol hold after every run |
| WorkerRuns.ExitedAndDrained | crates/kinema-desktop/src/app.rs:324-356 | over every run: once the worker has exited, however, and its events are polled, every accepted command was delivered exactly once |
| WorkerRuns.StaleJobIsCancelled | crates/kinema-desktop/src/app.rs:551-556 | a command running under a replaced account scope sees its account flag set |
| WorkerRuns.FlagIdentity | crates/kinema-desktop/src/app.rs:247-250 | over any run an account flag stands for one provider and one epoch |
| WorkerRuns.FlagsStaySet | crates/kinema-desktop/src/app.rs:385-508 | over any run no flag that was set is cleared |
| WorkerRevocation.SubmitCancelsExactly | crates/kinema-desktop/src/app.rs:392-424 | of all commands ever accepted, an accepted one cancels exactly those that are unanswered and are playback work it stops (by starting other playback work, saving settings, or changing the credential in scope), a TMDB test it stops, or queued and replaced by it |
| WorkerRevocation.SubmitCancelsAccount | crates/kinema-desktop/src/app.rs:396-399 | the account flag is set exactly by a set or delete of the credential in scope or by settings with another provider; it stays published, and the new command starts uncancelled |
| WorkerRevocation.ReplacedFails | crates/kinema-desktop/src/app.rs:411-442 | the one queued command that an accepted one replaces leaves the queue and is answered as failed; without one the queue only grows at its end |
| WorkerRevocation.ExitFailsTheRest | crates/kinema-desktop/src/app.rs:324-356 | on any exit the running command and then the queue, in order, are answered as failed, with every flag set |
| WorkerRevocation.CancelledIsNotPrepared | crates/kinema-desktop/src/app.rs:1360-1372 | however steps interleave, a command cancelled before its result was checked is not answered as prepared |
| WorkerRevocation.ResultIsTheAnswer | crates/kinema-desktop/src/app.rs:1359-1388 | the check changes only a preparation that was cancelled; any other result is the answer, and the preparation kept is the one that can be cancelled |
| WorkerRevocation.SettleMovesScope | crates/kinema-desktop/src/app.rs:1347-1354 | after a command the account of the settings is kept if it is in scope, and otherwise published under a fresh flag in the next epoch with the old one set |
| WorkerRevocation.ScopeFollowsSettings | crates/kinema-desktop/src/app.rs:1345-1388 | over every run a command is answered under the account its settings name, whether it succeeded or failed |
| WorkerPreparations.ReplacementIsAnnounced | crates/kinema-desktop/src/app.rs:1303-1358 | when the account is replaced the retained preparation goes and the UI is to be told; only the first account of all is published in silence |
| WorkerPreparations.ExecutesUnderCurrentAccount | crates/kinema-desktop/src/app.rs:1298-1344 | over every run a command executes under the account flag that is current then |
| WorkerPreparations.CancelledPreparationGoes | crates/kinema-desktop/src/app.rs:1287-1293 | over every run, a preparation that was cancelled, retained or running, is not retained beyond the next dequeue |
| AppTracker.LatestIsStanding | crates/kinema-desktop/src/app_tracker.rs:54-83 | a generation is the current preparation or launch exactly when none was issued after it, accepted or refused, and it was not cancelled since |
| AppTracker.Tracker.Resolve | crates/kinema-desktop/src/app_tracker.rs:95-116 | the entry is consumed once, with the verdict whether its answer is still current |
| UiDesk.StepDesk | crates/kinema-desktop/src/controllers/coordinator.rs:1372-1432 | issuing, submitting, withdrawing, collecting and applying keep pending entries and unanswered commands in step |
| UiDesk.PendingExactlyUnapplied | crates/kinema-desktop/src/controllers/coordinator.rs:989-1011 | over every run a generation is pending exactly while one answer to it is owed or not yet applied |
| UiDesk.NothingLeftPending | crates/kinema-desktop/src/controllers/coordinator.rs:1005-1011 | over every run: once the worker has exited and its events are collected and applied, no command is pending |
| UiDesk.LaunchAsksBeforeQuit | crates/kinema-desktop/src/app_tracker.rs:135-147 | over every run: an accepted launch or replay, queued or running, requires confirmation before quitting |
| UiDesk.CommandSupersedes | crates/kinema-desktop/src/controllers/coordinator.rs:1372-1432 | a current answer becomes obsolete exactly when a command of its own kind is issued, accepted or refused; for loads, when it is accepted |
| UiDesk.ObsoleteForGood | crates/kinema-desktop/src/app_tracker.rs:95-116 | over every run, an answer that became obsolete is never shown |
| DeskAnswers.AnswerNamesItsCommand | crates/kinema-desktop/src/app_tracker.rs:54-115 | over every run, the generation of an unanswered accepted command leads to its kind and the session it is about, and unless it is a preparation, launch or load its answer is shown |
| DeskAnswers.AbandonHides | crates/kinema-desktop/src/app_tracker.rs:76-84 | giving a command up hides its answer if it is a preparation or launch, and nothing else |
| LostAnswer.SuccessIsNotShown | crates/kinema-desktop/src/controllers/coordinator.rs:1426-1431 | from a fresh start, a full mailbox refuses a second preparation and the success of the only accepted one is collected but not shown |
| ArtworkRuns.AdvanceClears | crates/kinema-desktop/src/artwork.rs:594-608 | a new epoch removes the owner's queued jobs and every remembered failure, and nothing else |
| ArtworkRuns.EnqueueInv | crates/kinema-desktop/src/artwork.rs:613-667 | queueing keeps the bounds, one request per key and epoch, and current epochs only |
| ArtworkRuns.RoomKeeps | crates/kinema-desktop/src/artwork.rs:641-655 | a full queue gives up at most one job, and an interactive one only to an interactive newcomer when all are interactive |
| ArtworkRuns.InteractiveIsAdmitted | crates/kinema-desktop/src/artwork.rs:613-667 | a visible request of the current epoch is cached, running, or queued as interactive |
| ArtworkRuns.ReplaceWindowKeepsInteractive | crates/kinema-desktop/src/artwork.rs:668-677 | replacing a prefetch window drops no interactive job of any owner |
| ArtworkRuns.PickIsMaximum | crates/kinema-desktop/src/artwork.rs:690-710 | the job picked is eligible and beats every other eligible job, the earliest of equals; none is picked exactly when none is eligible |
| ArtworkRuns.StartIsWorkConserving | crates/kinema-desktop/src/artwork.rs:678-714 | with a free slot nothing starts exactly when each queued job is obsolete, cached, waits for its source, or is prefetch while prefetch is full |
| ArtworkRuns.StartInv | crates/kinema-desktop/src/artwork.rs:678-714 | starting keeps at most eight active jobs, six of them prefetch, with distinct sources and keys not in the cache |
| ArtworkRuns.CompleteAddsOnce | crates/kinema-desktop/src/artwork.rs:716-732 | a finished job never meets an entry of its key; its result is kept exactly while its epoch is current |
| ArtworkRuns.TouchMakesRecent | crates/kinema-desktop/src/artwork.rs:733-743 | a hit answers with the one entry of the key and moves only it, to the recent end |
| ArtworkWindows.RequestExactly | crates/kinema-desktop/src/artwork.rs:613-667 | who is admitted at whose expense: a request of the current epoch that is neither cached nor running is queued, as it was if it waits already, otherwise last, in the place of the oldest prefetch job that gives way; any other request changes nothing but expired misses |
| ArtworkWindows.WindowIsQueued | crates/kinema-desktop/src/artwork.rs:668-677 | after a window of the current epoch each of its first 128 keys is cached, running or waiting for the owner, unless the queue is full of jobs that do not give way |
| ArtworkWindows.WindowReplaces | crates/kinema-desktop/src/artwork.rs:668-677 | no other prefetch job of the owner is left queued, and all other jobs are as they were |
| ArtworkWindows.WindowInOrder | crates/kinema-desktop/src/artwork.rs:674-676 | a window is queued in its own order, behind everything queued before |
| ArtworkWindows.StartsTheFirst | crates/kinema-desktop/src/artwork.rs:678-714 | the job that starts may start and no other that may comes before it: visible, then the newest owner's, then backdrops and blurred images; it moves to a slot of its own |
| ArtworkWindows.FinishExactly | crates/kinema-desktop/src/artwork.rs:716-732 | a finished job leaves its slot, and its result with its size is the most recent entry exactly while its epoch is current |
| ArtworkWindows.LookupExactly | crates/kinema-desktop/src/artwork.rs:733-743 | a lookup finds an image exactly if the key's entry is one; the entry becomes the most recent and the others keep their order |
| ArtworkWindows.SourceExactly | crates/kinema-desktop/src/artwork.rs:576-584 | a decorated key finds exactly what is known of its undecorated image once expired misses are forgotten |
| ArtworkTrim.EvictBytesExact | crates/kinema-desktop/src/artwork.rs:746-776 | byte eviction drops the fewest oldest entries of the class that satisfy its quota and returns their images |
| ArtworkTrim.EvictCountExact | crates/kinema-desktop/src/artwork.rs:777-799 | count eviction drops exactly the excess, oldest first |
| ArtworkTrim.TrimClass | crates/kinema-desktop/src/artwork.rs:744-801 | after trimming every class is within its quota and lost only its oldest entries; stills within their own limits lost none |
| ArtworkTrim.TrimLimits | crates/kinema-desktop/src/artwork.rs:777-799 | both entry limits hold after trimming |
| ArtworkTrim.TrimConserves | crates/kinema-desktop/src/artwork.rs:744-801 | the images returned are exactly the decoded ones that left the cache |
| ArtworkBounds.CacheAlwaysFits | crates/kinema-desktop/src/artwork.rs:744-801 | in every reachable store the cache is within 192 MiB of posters, 16 of backdrops, 64 of stills and 16 of blurred images, 128 stills and 256 other entries |
| ArtworkBounds.TrimsExactlyExcess | crates/kinema-desktop/src/artwork.rs:744-801 | trimming takes nothing away exactly when the cache is within these sizes already |
| ArtworkLive.ArtworkStore.Advance | crates/kinema-desktop/src/artwork.rs:594-608 | the store after a new epoch is the specified one, and a refused owner changes nothing |
| ArtworkLive.ArtworkStore.EnqueueWithPriority | crates/kinema-desktop/src/artwork.rs:613-667 | the store after a request is the specified one |
| ArtworkLive.ArtworkStore.Window | crates/kinema-desktop/src/artwork.rs:668-677 | the store after a window is the specified one |
| ArtworkLive.ArtworkStore.Start | crates/kinema-desktop/src/artwork.rs:678-714 | the purge, the search and the move give the specified store and job |
| ArtworkLive.ArtworkStore.Finish | crates/kinema-desktop/src/artwork.rs:716-732 | the store after a completion is the specified one |
| ArtworkLive.ArtworkStore.Find | crates/kinema-desktop/src/artwork.rs:733-743 | the lookup answers and reorders as specified |
| ArtworkLive.ArtworkStore.FindSource | crates/kinema-desktop/src/artwork.rs:576-584 | expired misses go first, then the undecorated source is looked up |
| ArtworkLive.ArtworkStore.TrimCache | crates/kinema-desktop/src/artwork.rs:744-801 | the removal loops give the specified cache and images |
| ArtworkLive.StepInv | crates/kinema-desktop/src/artwork.rs:594-801 | every operation keeps the store's invariant |
| ArtworkLive.Reachable | crates/kinema-desktop/src/artwork.rs:594-801 | in every reachable store the bounds hold, a key is cached or running at most once, sources in flight are distinct and queued jobs are current |
| ArtworkLive.ObsoleteStaysOut | crates/kinema-desktop/src/artwork.rs:716-722 | once an epoch has ended the result of its jobs never enters the cache, whatever happens before they finish |
| MissLeases.LivingLeaseIsRegistered | crates/kinema-desktop/src/artwork.rs:998-1011 | in every reachable state a held lease that is not cancelled is the one registered for its path |
| MissLeases.ClearedMissIsNotResurrected | crates/kinema-desktop/src/artwork.rs:1012-1028 | for every interleaving, a marker found after a clear was written under a lease issued after that clear began |
| MissLeases.MissIsWrittenUnlessCleared | crates/kinema-desktop/src/artwork.rs:973-1028 | over every run, a fetch that holds its lease throughout writes its miss exactly when no clear of its path began meanwhile; clearing a title is no such clear |
| MissLeases.ClearedTitleReturns | crates/kinema-desktop/src/artwork.rs:973-996 | from an empty cache, a title's misses are cleared and a running fetch writes one again |
| MissScopes.MarkerExactly | crates/kinema-desktop/src/artwork.rs:945-1090 | what each step does to the marker of a path: written afresh, removed, noted under one more title, or as it was |
| MissScopes.NoteLasts | crates/kinema-desktop/src/artwork.rs:945-971 | over every run a note of a title lasts as long as its marker is neither written again nor removed |
| MissScopes.ClearedTitleIsForgotten | crates/kinema-desktop/src/artwork.rs:973-996 | clearing a title's misses removes exactly the markers noted under it, and over every run none is noted under it again without being associated again |
| DiskBudget.ScanWithinLimits | crates/kinema-desktop/src/artwork.rs:1167-1205 | a scan whose removals succeed ends within the byte budget and the marker limit |
| DiskBudget.ScanOldestFirst | crates/kinema-desktop/src/artwork.rs:1186-1203 | images lost by a scan are the oldest images, and markers the oldest markers |
| DiskBudget.ScanSpares | crates/kinema-desktop/src/artwork.rs:1193-1199 | once the bytes fit no image goes, and once the markers fit too nothing does |
| DiskBudget.RunCovers | crates/kinema-desktop/src/artwork.rs:911-926 | whichever scans and removals fail, the count kept between scans never falls below what is on disk |
| DiskBudget.RunWithinBudget | crates/kinema-desktop/src/artwork.rs:1063-1166 | with successful scans the files stay within the byte budget after every write, and within 63 markers of the marker limit |
| DiskContents.AlwaysOrdered | crates/kinema-desktop/src/artwork.rs:1167-1186 | over every run the listing is oldest first with one file per name |
| DiskContents.WriteExactly | crates/kinema-desktop/src/artwork.rs:1135-1166 | a file that fits replaces the one of its name behind every file that is not newer; a scan is made exactly when one is due and possible, and starts the count from what it leaves |
| DiskContents.OtherStepsExactly | crates/kinema-desktop/src/artwork.rs:1092-1134 | removing or touching a name removes or retimes its file and nothing else |
| DiskContents.EachTurn | crates/kinema-desktop/src/artwork.rs:1186-1204 | a scan removes the file whose turn it is exactly if what is on disk then is over the byte budget, or it is a marker and there are more than 4096 |
| DiskBudget.TrimFiles | crates/kinema-desktop/src/artwork.rs:1186-1204 | the removal loop leaves the specified files and reports their exact total |
| ProviderPriority.Priority.constructor | crates/kinema-core/src/provider.rs:58-66 | the order is the first occurrences of the given one, completed; every supplier appears exactly once |
| ProviderPriority.RanksDistinct | crates/kinema-core/src/provider.rs:70-75 | suppliers are equal exactly when their ranks are |
| ProviderPriority.MovesAreInverse | crates/kinema-core/src/provider.rs:87-98 | moving keeps the order complete, and moving up and down undo each other away from the ends |
| ProviderPriority.Priority.MoveUp | crates/kinema-core/src/provider.rs:87-92 | the swap gives the specified complete order |
| ProviderPriority.Priority.MoveDown | crates/kinema-core/src/provider.rs:93-98 | the swap gives the specified complete order |
| FieldPolicy.AcceptsIsNotWeaker | crates/kinema-desktop/src/catalog_normalized.rs:20-64 | the nested acceptance tests are one comparison by supplier strength, quality and age, unknown suppliers lowest |
| FieldPolicy.FoldKeepsLastMaximum | crates/kinema-core/src/catalog_normalized.rs:19-54 | folding observations retains the greatest, the latest of equals |
| FieldPolicy.MergeOfFolds | crates/kinema-desktop/src/catalog_normalized_merge.rs:225-250 | merging the fields of two titles is folding both histories into one title |
| FieldPolicy.MergeAssociates | crates/kinema-desktop/src/catalog_normalized_merge.rs:225-250 | the survivor's field does not depend on the grouping of merges |
| FieldPolicy.ArrivalOrderIrrelevant | crates/kinema-core/src/catalog_normalized.rs:19-54 | without ties the retained field does not depend on the order of arrival |
| FieldPolicy.MergeCommutesIff | crates/kinema-desktop/src/catalog_normalized_merge.rs:225-250 | which title survives is immaterial to a field exactly when the two fields differ in strength or are the same |
| FieldMerge.WriteRetains | crates/kinema-desktop/src/catalog_normalized.rs:376-398 | an accepted write replaces value and provenance together, and every value keeps its provenance |
| FieldMerge.MergeKeepsBest | crates/kinema-desktop/src/catalog_normalized_merge.rs:197-332 | a merge of sourced rows fails exactly when the stronger dates and years disagree; otherwise each column is what folding both histories retains |
| FieldMerge.MergeRows | crates/kinema-desktop/src/catalog_normalized_merge.rs:197-332 | the loops over columns and pairs give the specified result or error |
| FieldImport.FieldsAreIndependent | crates/kinema-desktop/src/catalog_normalized_pairs.rs:8-110 | with each field named once, an import is refused exactly for an unacceptable field, a date that would disagree with its year, or a column of the other kind of title, and only the last is left to the table; otherwise every field is taken or not by its own test |
| FieldImport.ImportRetains | crates/kinema-desktop/src/catalog_normalized_pairs.rs:95-107 | each field then holds what retaining the observation gives it; other fields are as before |
| FieldImport.ImportKeepsRules | crates/kinema-desktop/src/catalog_normalized_pairs.rs:8-110 | any accepted import, repeated names included, leaves every value with its provenance and dates that agree |
| FieldImport.ImportKeepsKind | crates/kinema-desktop/src/catalog_schema.rs:42-43 | no accepted import, repeated names included, gives a title a column of the other kind |
| FieldImport.OneByOneIsRefused | crates/kinema-desktop/src/catalog_normalized_pairs.rs:1 | a new date and year written one after the other would violate the table's rule where the import succeeds |
| FieldTypes.AcceptableExactly | crates/kinema-desktop/src/catalog_normalized.rs:310-398 | one field of an import is acceptable exactly if its column exists and takes what is given, by type and range |
| FieldTypes.ImportKeepsTypes | crates/kinema-desktop/src/catalog_normalized.rs:310-398 | no accepted import, repeated names included, leaves a value that is not of its column's type |
| FieldTypes.MergeKeepsTypes | crates/kinema-desktop/src/catalog_normalized_merge.rs:197-332 | nor does the merge of two entities |
| FieldImport.Import | crates/kinema-desktop/src/catalog_normalized_pairs.rs:44-109 | the loops over pairs and fields give the specified columns or error |
| PersonalState.JoinLaws | crates/kinema-core/src/library.rs:68-82 | reconciliation of watch states is idempotent, commutative and associative |
| PersonalState.MergeFollowsLaw | crates/kinema-desktop/src/catalog_normalized_merge.rs:476-511 | the merged watch row is the join of both, its revision exceeds both, no run is active and a suppression stays |
| PersonalState.MergeKeepsMembershipAndCheckpoint | crates/kinema-desktop/src/catalog_normalized_merge.rs:476-511 | the earliest addition and the newest checkpoint survive |
| PersonalState.MergeKeepsPersonal | crates/kinema-desktop/src/catalog_normalized_merge.rs:476-511 | row by row what is kept of two entities: the mark set last, of two set at once watched only if both are, the newest checkpoint, the winner's of equals, under the next revision after both |
| PersonalState.MergeFailsIff | crates/kinema-desktop/src/catalog_normalized_merge.rs:503-504 | the merge fails exactly for a checkpoint without a watch row on either side |
| PersonalState.MergeAllFollowsLaw | crates/kinema-desktop/src/catalog_normalized_merge.rs:476-511 | after any sequence of merges the survivor holds the join, the earliest addition, the newest checkpoint and every suppression, with no active run and a revision past every input's |
| PersonalState.JoinIgnoresOrder | crates/kinema-core/src/library.rs:68-82 | the join of any number of states does not depend on their order |
| PersonalState.PersonalTables.Merge | crates/kinema-desktop/src/catalog_normalized_merge.rs:476-511 | the statements give the specified rows, clear the loser's and touch no other entity |
| PlaybackRuns.RunEndsExactly | crates/kinema-desktop/src/catalog_playback_progress.rs:195-256 | an operation ends a playback run exactly when it begins another or is its own permitted completion |
| PlaybackRuns.PermissionLasts | crates/kinema-desktop/src/catalog_playback_progress.rs:209-256 | a permitted writer stays permitted exactly after reads, saves and refused writes; everything else advances the epoch |
| PlaybackRuns.MergeFences | crates/kinema-desktop/src/catalog_normalized_merge.rs:488-509 | a merge ends every run either side ever issued |
| PlaybackRuns.EndedRunStaysOut | crates/kinema-desktop/src/catalog_playback_progress.rs:209-216 | over every history of operations and merges of an entity, an ended run never becomes active again and its writes change nothing |
| PlaybackRuns.LaterRunIsNew | crates/kinema-desktop/src/catalog_playback_progress.rs:220-228 | a run begun later has a higher number, whatever was merged in between |
| PlaybackRuns.LastMarkWins | crates/kinema-desktop/src/catalog_playback_progress.rs:163-174 | a mark made by hand later than everything stored decides the watch state of a merge, whichever side survives |
| PlaybackRuns.SampleIsStored | crates/kinema-desktop/src/catalog_playback_progress.rs:176-184 | after an accepted save, or completion with a sample, the checkpoint holds the sample's position and duration, the time, and the entity's revision |
| PlaybackRuns.CheckpointStays | crates/kinema-desktop/src/catalog_playback_progress.rs:195-256 | clearing and starting over leave no checkpoint; every other operation without an accepted sample keeps it |
| PlaybackRuns.WatchedExactly | crates/kinema-desktop/src/catalog_playback_progress.rs:163-194 | an entity is watched exactly when it was, or was marked by hand, or by an accepted sample in its last tenth that no mark by hand suppresses; when the mark and its time change, and when a suppression begins and ends |
| PlaybackRuns.ResumesWhereSaved | crates/kinema-desktop/src/catalog_playback_progress.rs:176-256 | over every history, an accepted sample is where playback resumes until another sample, a clear or a fresh start, across marks, merges without a newer checkpoint and refused writes |
| PlaybackRuns.ProgressTables.Run | crates/kinema-desktop/src/catalog_playback_progress.rs:195-256 | the statements give the specified rows and verdict and touch no other entity |
| NewestRows.MergeRows | crates/kinema-desktop/src/catalog_normalized_merge.rs:334-361 | row by row, in any order: per key the newer of both sides, the loser's of equals |
| NewestRows.NewerAssociates | crates/kinema-desktop/src/catalog_normalized_merge.rs:442-474 | the row kept for a key does not depend on the grouping of merges |
| NewestRows.MergedRowsAssociate | crates/kinema-desktop/src/catalog_normalized_merge.rs:334-361 | nor do the rows of all keys |
| NewestRows.MergedRowsKeep | crates/kinema-desktop/src/catalog_normalized_merge.rs:334-361 | a key is kept exactly when either side has it, with the row observed last, the loser's of two observed at once |
| NewestRows.OfferIsMerge | crates/kinema-desktop/src/catalog_normalized.rs:409-425 | observing a rating is merging with an entity that holds just that rating |
| NewestRows.FetchNeverLosesSuccess | crates/kinema-desktop/src/catalog_normalized_merge.rs:362-400 | a merged fetch keeps the newest success with facts where either side has them, and the newest attempt with its error |
| NewestRows.MergedFetchesKeep | crates/kinema-desktop/src/catalog_normalized_merge.rs:362-400 | a resource keeps the newest success and the newest attempt of both sides, and its record if one side only knows it |
| NewestRows.FetchAssociates | crates/kinema-desktop/src/catalog_normalized_merge.rs:362-400 | merging fetch records is associative and idempotent |
| NewestRows.MergeFetchRow | crates/kinema-desktop/src/catalog_normalized_merge.rs:378-381 | the two updates give the specified record |
| NewestRows.MergeFetches | crates/kinema-desktop/src/catalog_normalized_merge.rs:362-400 | record by record, in any order: merged where both sides have the resource, handed over otherwise |
| Pages.CommittedPageReads | crates/kinema-desktop/src/catalog_normalized_pages.rs:116-158 | a page that keeps its rules is never rejected and reads as its membership in order |
| Pages.WriteThenRead | crates/kinema-desktop/src/catalog_normalized_pages.rs:98-114 | distinct titles written are read back in order |
| Pages.RejectedExactly | crates/kinema-desktop/src/catalog_normalized_pages.rs:116-158 | an available page is rejected exactly for a missing or negative count or time, a gap, a repetition, or a wrong count |
| Pages.MergedTitlesReplace | crates/kinema-desktop/src/catalog_normalized_merge.rs:402-441 | a page that lists only the loser lists the winner in its place |
| Pages.MergedTitlesDrop | crates/kinema-desktop/src/catalog_normalized_merge.rs:402-441 | a page that lists both gives the earlier place to the winner and drops the later; nothing else moves |
| Pages.MergedPageReads | crates/kinema-desktop/src/catalog_normalized_merge.rs:402-441 | a rewritten page keeps its rules, lists the renamed titles and no longer the loser |
| Pages.ReadPage | crates/kinema-desktop/src/catalog_normalized_pages.rs:116-158 | the loop over rows gives the membership or the specified rejection |
| Pages.WriteItems | crates/kinema-desktop/src/catalog_normalized_pages.rs:108-113 | rows are numbered from zero in order |
| Pages.MergeRows | crates/kinema-desktop/src/catalog_normalized_merge.rs:418-437 | the renaming, filtering and rewriting give the specified page |
| EntityInfo.InfoMergesIff | crates/kinema-desktop/src/catalog_normalized_merge.rs:163-193 | two well-kept entities merge exactly when the stronger dates and years agree, and the result is well kept |
| EntityInfo.MergeKeepsKind | crates/kinema-desktop/src/catalog_schema.rs:42-43 | merging two titles of one kind gives no column of the other |
| EntityInfo.MergeKeepsRows | crates/kinema-desktop/src/catalog_normalized_merge.rs:334-400 | per key the newest ratings, snapshots and fetches of both entities are kept, and the personal rows are joined; seasons have none |
| EntityInfo.MergeKeepsColumns | crates/kinema-desktop/src/catalog_normalized_merge.rs:197-332 | per column the loser's field is kept unless it is weaker than the winner's |
| EntityInfo.MergeEntities | crates/kinema-desktop/src/catalog_normalized_merge.rs:163-193 | fields, rating, fetch, snapshot and personal rows merged one table after the other give the specified entity or error, which keeps the rows of both (`MergeKeepsRows`) |
| EntityWrites.WriteKeepsInfo | crates/kinema-desktop/src/catalog_normalized.rs:310-428 | every accepted write of fields, ratings, fetches, snapshots, membership or playback keeps an entity well kept |
| EntityWrites.WritesExactly | crates/kinema-desktop/src/catalog_normalized.rs:310-428 | an accepted write leaves exactly the row it writes, beside everything else as it was |
| EntityWrites.AdditionLasts | crates/kinema-desktop/src/catalog_library.rs:250-262 | over any sequence of writes a library member keeps the time of its first addition until it is removed |
| CatalogIdentity.MergedGraphOk | crates/kinema-desktop/src/catalog_normalized_merge.rs:118-195 | identifying two compatible titles keeps every rule of the tables: unique coordinates, owners of the right kind, one identifier per namespace, unique IMDb identifiers, kept pages |
| CatalogIdentity.IdentifiersAreUnion | crates/kinema-desktop/src/catalog_normalized_merge.rs:178-181 | the survivor owns exactly the identifiers of both titles; all others keep their owner |
| CatalogIdentity.SeasonsAreUnion | crates/kinema-desktop/src/catalog_normalized_merge.rs:127-147 | the survivor's season numbers are those of both titles |
| CatalogIdentity.EpisodesAreUnion | crates/kinema-desktop/src/catalog_normalized_merge.rs:127-171 | the survivor's season and episode coordinates are the union of both titles' |
| CatalogIdentity.LoserIsGone | crates/kinema-desktop/src/catalog_normalized_merge.rs:178-195 | no identifier, season, page or kept information names the loser afterwards |
| Survivors.SurvivorKeepsRows | crates/kinema-desktop/src/catalog_normalized_merge.rs:163-193 | when two titles become one, the survivor of every pair, by coordinates the titles, two seasons or two episodes, keeps the newest ratings, snapshots and fetches, the joined personal rows and the stronger fields of both |
| Survivors.OthersKeepEverything | crates/kinema-desktop/src/catalog_normalized_merge.rs:163-193 | what is kept about any other entity is untouched |
| Survivors.IdentifierFollows | crates/kinema-desktop/src/catalog_normalized_merge.rs:178-181 | every identifier of a season or episode stays and names what its owner has become |
| Survivors.SeasonFollows | crates/kinema-desktop/src/catalog_normalized_merge.rs:127-147 | a season that is not absorbed stays under its number, with the survivor if it was the other title's |
| Survivors.EpisodeFollows | crates/kinema-desktop/src/catalog_normalized_merge.rs:148-171 | an episode that is not absorbed stays under its number, in what its season has become |
| Survivors.PagesFollow | crates/kinema-desktop/src/catalog_normalized_merge.rs:402-441 | every saved page stays with its titles renamed in order, and nothing else of it changes but its count |
| CatalogSteps.SeasonMatched | crates/kinema-desktop/src/catalog_normalized_merge.rs:134-141 | merging one identified season adds exactly its part to what was merged before, independently of order |
| CatalogSteps.TitleDone | crates/kinema-desktop/src/catalog_normalized_merge.rs:118-195 | handling all seasons and then the titles gives the graph in which the two are one |
| CatalogMerge.MergeableBySeason | crates/kinema-desktop/src/catalog_normalized_merge.rs:118-195 | the whole merge succeeds exactly when the titles' and every identified season's own merges do |
| Renaming.CoordinatesAreUnion | crates/kinema-desktop/src/catalog_normalized_merge.rs:127-171 | under an identified parent the coordinates are the union, each held once |
| Renaming.PartRowsUnique | crates/kinema-desktop/src/catalog_schema.rs:62 | coordinates are unique at every moment of the merge, so no move violates the unique constraint |
| Reconcile.CatalogTx.ValidateGraph | crates/kinema-desktop/src/catalog_normalized_merge.rs:36-97 | true exactly when kinds, identifiers and all identified seasons and episodes are free of conflict |
| Reconcile.CatalogTx.MergeSeason | crates/kinema-desktop/src/catalog_normalized_merge.rs:118-195 | merging two seasons row by row, in any order, gives the season in which they are one, or fails exactly when some pair cannot merge |
| Reconcile.CatalogTx.MergeTitle | crates/kinema-desktop/src/catalog_normalized_merge.rs:118-195 | merging children before parents, in any order, gives exactly the graph in which the titles are one |
| Reconcile.CatalogTx.RewritePages | crates/kinema-desktop/src/catalog_normalized_merge.rs:402-441 | page by page, in any order, every page is the specified one |
| Reconcile.CatalogTx.Reconcile | crates/kinema-desktop/src/catalog_normalized_merge.rs:99-116 | the lower identifier survives exactly when the graphs are compatible and mergeable; otherwise the error is an identity conflict and nothing changes; every rule is kept |
| Reconcile.CatalogTx.RecordTitleKey | crates/kinema-desktop/src/catalog_normalized.rs:215-307 | the identifier is recorded or the first applicable error reported: invalid text, a fetch of another entity, a conflict; an error changes nothing |
| Reconcile.CatalogTx.PutSeason | crates/kinema-desktop/src/catalog_normalized.rs:482-494 | the season at the coordinate is returned, inserted if it was missing |
| Reconcile.CatalogTx.PutEpisode | crates/kinema-desktop/src/catalog_normalized.rs:495-510 | the episode at the coordinate is returned, inserted if it was missing; number zero is refused |
| Reconcile.CatalogTx.FindOwners | crates/kinema-desktop/src/catalog_normalized.rs:169-191 | the loop finds each owner once or reports the first invalid or conflicting identifier |
| Reconcile.CatalogTx.ResolveTitle | crates/kinema-desktop/src/catalog_normalized.rs:163-213 | the observed title is found, reconciled from two, or inserted; the error is the specified one and changes nothing |
| CatalogWrites.ValidIsCanonical | crates/kinema-core/src/catalog_normalized.rs:61-72 | two valid TMDB identifiers are the same text exactly when they are the same number |
| CatalogWrites.SetTitleKeyRecords | crates/kinema-desktop/src/catalog_normalized.rs:215-307 | a recorded identifier belongs to the title alone, no other changes hands and every rule is kept |
| CatalogWrites.SetSeasonKeyRecords | crates/kinema-desktop/src/catalog_normalized.rs:215-307 | the same for a season, which has no IMDb identifier |
| CatalogWrites.SetEpisodeKeyRecords | crates/kinema-desktop/src/catalog_normalized.rs:215-307 | the same for an episode, whose IMDb identifiers no title has |
| CatalogWrites.AddSeasonKeepsRules | crates/kinema-desktop/src/catalog_normalized.rs:482-494 | afterwards the coordinate is held, once, and every rule is kept |
| CatalogWrites.AddEpisodeKeepsRules | crates/kinema-desktop/src/catalog_normalized.rs:495-510 | afterwards the coordinate is held, once, and every rule is kept |
| CatalogWrites.WriteAtKeepsRules | crates/kinema-desktop/src/catalog_normalized.rs:310-428 | an accepted write to what is kept about one entity keeps every rule and touches that entity alone |
| CatalogOutcomes.ValidExactly | crates/kinema-core/src/catalog_normalized.rs:61-72 | an identifier is valid exactly if it is "tt" with at least seven digits, or a positive 64-bit number as it is printed |
| CatalogOutcomes.TitleKeyExactly | crates/kinema-desktop/src/catalog_normalized.rs:215-307 | an identifier of a title is recorded exactly if it is valid, its supplier may speak of the title, the title is of its kind and nothing disputes it; which error is reported otherwise |
| CatalogOutcomes.SeasonKeyExactly | crates/kinema-desktop/src/catalog_normalized.rs:215-307 | the same for a season, which has no IMDb identifier |
| CatalogOutcomes.EpisodeKeyExactly | crates/kinema-desktop/src/catalog_normalized.rs:215-307 | the same for an episode, whose IMDb identifiers no title has |
| CatalogOutcomes.WriteAtExactly | crates/kinema-desktop/src/catalog_normalized.rs:310-428 | when a write to what is kept about an entity is refused, and that otherwise it changes what is kept about this one alone |
| CatalogRuns.AtMostTwoOwners | crates/kinema-desktop/src/catalog_normalized.rs:163-205 | observed identifiers have at most two owners, so reconciling the first two leaves none out |
| CatalogRuns.OwnersComplete | crates/kinema-desktop/src/catalog_normalized.rs:169-191 | every observed identifier is valid, has its owner among those found if it has one, and is not taken elsewhere on IMDb |
| CatalogOutcomes.OwnersExactly | crates/kinema-desktop/src/catalog_normalized.rs:169-191 | the owners found are exactly the titles of the kind that have one of the identifiers, and are found exactly if every identifier is usable and each namespace occurs once |
| CatalogOutcomes.ResolvesExactly | crates/kinema-desktop/src/catalog_normalized.rs:163-213 | an observation with usable identifiers is of the title that has them, of a new title if none has, and of the lower of two that have them, which become one unless their graphs contradict each other; any other is refused |
| CatalogRuns.ObservedTitleOwnsItsIdentifiers | crates/kinema-desktop/src/catalog_normalized.rs:163-213 | after an observation its title owns every identifier observed, and every other surviving title keeps its own |
| CatalogOutcomes.ObservationIsRecorded | crates/kinema-desktop/src/catalog_normalized.rs:430-465 | an accepted observation leaves its title with the identifiers observed, the fields the import retains and the newest ratings, and changes nothing else |
| CatalogRuns.WrittenPageReads | crates/kinema-desktop/src/catalog_normalized_pages.rs:71-114 | a written page reads back as one distinct title per observation, in order, each owning what was observed at its place |
| CatalogOutcomes.WrittenPageIsDated | crates/kinema-desktop/src/catalog_normalized_pages.rs:46-114 | a saved page is dated by its fetch and carries the provider's total, and no other page is touched by saving it |
| CatalogRuns.RunKeepsRules | crates/kinema-desktop/src/catalog_normalized.rs:135-510 | from any catalog that keeps the rules, every run of observations, rows, identifiers, page writes, fields, ratings, fetches, snapshots, membership and playback keeps them |
| CatalogRuns.IdentifiersStayUnique | crates/kinema-desktop/src/catalog_schema.rs:109-120 | from an empty catalog, over every run a title has one identifier per namespace and an IMDb identifier names one title and no episode |
| CatalogFences.MergedRunsEnd | crates/kinema-desktop/src/catalog_normalized_merge.rs:476-511 | when two titles become one, every playback run issued so far on two movies or episodes that become one is ended |
| CatalogFences.StepGuardsExactly | crates/kinema-desktop/src/catalog_normalized.rs:163-213 | a step keeps an ended run out exactly when it does not insert a row under its entity's identifier: an accepted observation, or listing of a page, without any owner, or an accepted season or episode at a free coordinate |
| CatalogFences.KeptOutExactly | crates/kinema-desktop/src/catalog_playback_progress.rs:209-216 | an ended run is kept out at every moment of a run of the catalog exactly when no step of it inserts such a row |
| CatalogFences.LetInExactly | crates/kinema-desktop/src/catalog_playback_progress.rs:209-256 | on a movie or episode, further playback alone lets the writer of a run in exactly when the run is not kept out |
| CatalogCreations.CreatedIsUntouched | crates/kinema-desktop/src/catalog_normalized.rs:207-213 | after a step that inserts a row nothing is played, marked or saved on the new entity, also when a whole page was written |
| CatalogFences.CreationLetsIn | crates/kinema-desktop/src/catalog_schema.rs:17-18 | once a movie or episode is inserted under an identifier, a run of every number, of whoever had the identifier before, is permitted after as many beginnings |
| CatalogFences.EndedRunNeverWrites | crates/kinema-desktop/src/catalog_playback_progress.rs:209-216 | over every run of the catalog an ended or merged-away playback run neither saves nor completes again, unless a step gave its entity's identifier to a new row |
| ReusedIdentifiers.OldWriterPasses | crates/kinema-desktop/src/catalog_schema.rs:17-18 | from an empty catalog, with identifiers handed out as the database does, a title being played is merged away and its writer is permitted on the movie that gets its identifier |

## Left out

- HTTP, TLS, sockets, threads, the keyring, SQLite itself, the file system and the UI toolkit: a fetch returns the bytes asked for or fails, a transaction is all or nothing, a lock-held section is atomic.
- Poisoned locks and failing lock acquisition.
- 64-bit wrap-around of generations, epochs, job and flag identities: they are unbounded.
- Image decoding, palettes, blurring, URL validation, JSON and text validation, log and error texts.
- RangeFetch.RangeCache.SampleAt: the throughput average is an arbitrary real, and the measurement counters of the example are not kept.
- WorkerProtocol.Next: the execution of a command is an arbitrary terminal outcome with arbitrary settings and an optional preparation; playback, media sessions and players are not part of this model.
- WorkerProtocol: which session errors a tick reports is arbitrary there; `MediaReports` and `AppWorker.Shared.OnTick` fix it.
- Mailbox: no bound on the list of discarded preparations is stated; it is emptied at each dequeue.
- AppTracker: the list of started sessions; only pending launches decide the confirmation before quitting.
- Artwork: requested addresses, title scopes, the retry set, timers and tasks; one operation reads one clock value.
- MissLeases: file operations are assumed to succeed; an expired or evicted marker is a removal like any other.
- DiskBudget: bytes appended when a title is noted on a marker, which the program does not count either; reading images is a removal or a change of age.
- FieldMerge: update times of rows.
- FieldMerge.YearOf: the program parses the first four bytes of a date as a signed number, the model asks for four digits, which every date that the table accepts has.
- Artwork.Refused: the program limits the bytes of an owner's name, the model its characters.
- FieldImport: the validation of an observed text (dates, addresses, lengths, encoded labels) is an input: blank, malformed or usable.
- PlaybackRuns: the bulk marking of a season, which repeats a mark by hand for each episode under one time.
- EntityWrites: ratings and found sources are opaque values, so their ranges and encodings are not checked.
- EntityInfo: references from identifiers, provenance and ratings to the fetch they came from; databases older than the progress tables.
- CatalogWrites: whether a page's saved key is that of the fetch that filled it is an input of the source.
- CatalogRuns: the fetch record that an observation or a page write leaves is a step of its own, and the lookup of a title or episode by reference is not modelled; steps name it by its identifier.
- Schema migrations, the legacy backfill and search.

# Video processing: the pipeline protocol and its key codec

A Dafny model of how an uploaded video becomes `completed` or `failed`, with proofs about every
interleaving of commits, uploads, crashes, retries and duplicate deliveries.
`dafny verify dfyconfig.toml` checks everything. Nothing here has been run.

## What is modelled

**The pipeline, in layers.**

| files | what they hold |
|---|---|
| `Rows`, `Sessions` | The rows of one video, and an activity attempt as a database session at a program counter: cached rows, no autoflush, column-wise UPDATE, flush before count, READ COMMITTED. One step per await. |
| `SessionInvariant` | What holds of the store and of a live attempt, kept by every step. |
| `Workflow`, `WorkflowInvariant` | The executions under one workflow ID, the three activities' attempts, the API's retry calls, as a step relation; one inductive invariant. |
| `StatusWrites`, `Completion`, `Closing`, `RetryCalls`, `Termination`, `RetryProgress` | What follows for reachable states and for whole runs. |
| `Scenarios` | Concrete runs, event by event, that contradict the documentation. |
| `Platform`, `PlatformInvariant`, `PlatformTheorems` | Any number of videos, the upload queue with its dead letters, any number of shim handlers. |
| `PlatformRuns` | Runs of the platform put together from runs of one video: a retry from end to end, and the contradicting runs with an empty queue. |
| `JobStore`, `Upserts` | The functions of `jobs.py` as methods that change a database and a session in place, and what their upsert loop means on any prior table. |
| `ClaimRace` | `claim_job` raced by any number of sessions, overlapping attempts included, on an explicit table. |
| `SqsShim` | The shim's message loop, changing the workflow server and the queue in place. |
| `VideoIds`, `UploadKeys`, `S3Events` | Identifiers, object keys, percent-encoding and messages: what ties an upload to its execution. |

**Why one attempt is a step relation.** The activities, the workflow and `retry_video` are
coroutines whose meaning lies in what other processes do between two awaits. Each is a program
counter with one function per stretch of code between awaits. The functions of `jobs.py` and of the
shim are methods as well, with their loops, and are tied to the steps by `Upserts.CompletionOfMoves`,
by the contract of `JobStore.Session.ClaimJob` and by `SqsShim.StartIsTheProtocols`.

**Assumptions about the environment.**

- T1: the workflow server allows one open execution per workflow ID and applies both ID policies.
- T2: an activity has at most one live attempt; a crash or timeout kills it. `ClaimRace` and
  `JobStore` do not assume this.
- The database starts empty. Rows are never deleted.
- ffmpeg, ffprobe and S3 transfers succeed, raise, or die, at any moment; an upload only adds a key.
- A session's flush is atomic; its writes become visible at commit.

## Where the code and its documentation disagree

The model follows the code.

- `docs/SYSTEM-FLOWS.md:171` says the video's status "still flips to `failed`" when an execution
  fails. It can be left `processing`, with every execution Failed and `POST /videos/{id}/retry`
  answering 409: after crashes alone (`Scenarios.CrashesStrand`), after a thumbnail claim that
  commits behind metadata's last failure (`Scenarios.LateClaimStrands`), and after a retry call whose
  message was taken for a duplicate (`Scenarios.SwallowedRetryStrands`). The last two need no crash,
  and leave nothing in the queue either (`PlatformRuns.LateClaimOnPlatform`,
  `PlatformRuns.SwallowedRetryOnPlatform`). `Closing.FailedExactly` and `Closing.ClosingStatus` say
  exactly when the video does read `failed`.
- `docs/SYSTEM-FLOWS.md:157` says a broken queue cannot leave a video silently stuck in `processing`,
  because the retry's status change is committed after the queue write. That order has a price when
  the queue works: the message can be consumed before the commit. `Scenarios.SwallowedRetryStrands`
  is one outcome, `Scenarios.LateRetryOverwrites`, where a finished video reads `processing` for
  good, another. `Completion.FinishedStatus` gives the exact condition of the latter.
- The comment at `worker/jobs.py:45-46` says a rejected job insert falls back to the other worker's
  row instead of erroring out. The reread at `worker/jobs.py:48-50` first reads `video.id`, on a row
  the rollback may have expired, and in an asynchronous session reading an expired row raises. Both
  outcomes are modelled wherever the insert can be rejected: `Unreadable` in `ClaimRace` and
  `JobStore`. Under T2 the insert never is (`Completion.ErrorsThatCannotHappen`).
- `worker/jobs.py:58-61` guards against regressing a completed video. Under T2 no attempt about to
  claim ever holds a completed video (`Completion.ErrorsThatCannotHappen`).
- `api/schemas/video_request.py:10-16` accepts names whose uploads the shim drops
  (`UploadKeys.ValidNamesThatAreDropped`); `UploadKeys.UploadIsRecognised` says exactly which.

## Model

| member | source | states |
|---|---|---|
| `Completion.CompletedMeansFinished` | src/video_processing/worker/jobs.py:94-148 | In every reachable state a `completed` video has all three jobs completed, metadata with a positive height, a thumbnail row, exactly the preview rows of its stored height, and an object behind every row |
| `Completion.CountedJobs` | src/video_processing/worker/jobs.py:66-75 | Transcode's flush-and-count reads exactly three; metadata's and thumbnail's never do, even when they commit concurrently |
| `Completion.OnlyTranscodeCompletes` | src/video_processing/worker/workflows.py:78-84 | The only event that turns a video `completed` is transcode's final commit |
| `Completion.ExecutionShape` | src/video_processing/worker/sqs_shim.py:42-61 | Executions under an ID are Failed*, then at most one in another phase; a Completed one leaves all jobs completed; at most one attempt of a job is live across all executions |
| `Completion.StartsExactly` | docs/SYSTEM-FLOWS.md:189-194 | A start call on a reachable video adds one execution if and only if every execution so far has failed, however many there are, and changes nothing else |
| `Completion.SettledBeforeRaise` | src/video_processing/worker/workflows.py:47-84 | Whenever an execution has failed, both parallel activities had settled; transcode ran exactly if both succeeded |
| `Completion.ErrorsThatCannotHappen` | src/video_processing/worker/activities.py:83-107 | No attempt meets a completed metadata job without stored metadata, an insert conflict, or a completed video it is about to claim; "not worth retrying" means an unusable height |
| `Completion.AttemptsBound` | src/video_processing/worker/jobs.py:55-62 | `attempts` equals the number of committed claims and is at most three per execution started |
| `Completion.UnstartedIsNew` | src/video_processing/api/services/video_service.py:55-75 | Until its first execution starts, a video is exactly as it was created; no retry call can have got in |
| `Completion.EventExtends` | src/video_processing/worker/jobs.py:52-63 | No event leaves a completed job, changes stored metadata, lowers attempts, or removes a row or object |
| `Completion.NothingIsUndone` | src/video_processing/worker/jobs.py:28-63 | The same between any two points of any run, across executions |
| `Completion.UnusableHeightNeverCompletes` | src/video_processing/worker/activities.py:160-173 | Once a height that is not positive is stored, no continuation ever completes the video |
| `Completion.MetadataIsProbed` | src/video_processing/worker/jobs.py:101-103 | Over any run: the stored duration, width and height are, each in its own column, what ffprobe reported in one earlier metadata attempt |
| `Completion.FinishedStatus` | src/video_processing/api/services/video_service.py:110-124 | A video whose transcode job is completed reads `completed` if and only if no retry call committed after that; otherwise it reads `processing` |
| `Completion.OverwrittenForGood` | src/video_processing/api/services/video_service.py:110-124 | After such a late retry call the video reads `processing` in every continuation and retry is refused |
| `Closing.FailedExactly` | src/video_processing/worker/jobs.py:151-165 | Over any run, crashes and retries included: the video reads `failed` if and only if some fail_job has since been followed by no claim over a non-`processing` read, no retry commit and no transcode commit |
| `Closing.RetryAcceptedExactly` | src/video_processing/api/services/video_service.py:110-114 | Over any run: a retry call is accepted if and only if some fail_job has not been overridden since |
| `RetryCalls.RetryCallOrder` | src/video_processing/api/services/video_service.py:116-123 | A message is sent once and only for a call that read `failed` before; its status change is committed once and only after that message was sent |
| `Closing.ClosingStatus` | src/video_processing/worker/workflows.py:68-76 | A crash-free execution that closes Failed leaves `failed` if and only if no activity claimed, over a row it read as not `processing`, after the last fail_job; otherwise `processing` |
| `Closing.TranscodeFailureShows` | src/video_processing/worker/activities.py:160-173 | A crash-free execution that fails in transcode always leaves `failed` |
| `Closing.RaisedMeansFailed` | src/video_processing/worker/activities.py:109-119 | In a crash-free run an activity that raised had itself called fail_job in this execution, and its job is not completed |
| `Closing.RaisedByFail` | src/video_processing/worker/jobs.py:151-165 | One event at a time: without crashes an activity raises only through fail_job, and its job then stays as fail_job left it |
| `Termination.EveryExecutionTerminates` | src/video_processing/worker/workflows.py:37-84 | In any run an execution takes part in at most 146 events, whatever crashes, times out or is not retryable |
| `Termination.MeasureDecreases` | src/video_processing/worker/workflows.py:47-84 | Every event of an execution shrinks its measure over phase, attempts and program counters; every other event leaves that execution alone |
| `Termination.OpenExecutionCanMove` | src/video_processing/worker/workflows.py:47-84 | An open execution always has an event left to take |
| `Termination.RetryPolicy` | src/video_processing/worker/workflows.py:37-42 | A failed or dead attempt is followed by another until three are used; an error that is not retryable ends the activity at once |
| `Termination.UnusableHeightIsNotRetried` | src/video_processing/worker/activities.py:160-173 | A transcode attempt given no usable height can only fail its job and the video, stores nothing, and ends the activity whatever attempts are left |
| `Termination.FaultsMayStrike` | src/video_processing/worker/activities.py:109-119 | In every reachable state a live attempt may die, working code may raise, and ffprobe may report anything |
| `RetryProgress.FaultFreeOutcome` | src/video_processing/api/services/video_service.py:99-124 | A fresh execution, after any number of failed ones, that meets no fault can only close Completed, with every job completed and exactly the jobs not completed before claimed, once each |
| `RetryProgress.RetryReachesCompleted` | src/video_processing/api/services/video_service.py:99-124 | And such a run to `completed` exists, within 146 events, from every reachable state whose executions failed with no unusable height stored |
| `RetryProgress.CompletableIff` | src/video_processing/worker/activities.py:160-173 | A fresh execution can still complete the video if and only if no unusable height is stored |
| `RetryProgress.FailedIsUnfinished` | src/video_processing/api/services/video_service.py:110-114 | Every video a retry call accepts reads `failed` and has an uncompleted transcode job |
| `Scenarios.CrashesStrand` | docs/SYSTEM-FLOWS.md:171-181 | A run, for every ID, in which no work raises, nobody calls fail_job or retry, and at the end all executions are Failed, the status reads `processing` and retry is refused |
| `Scenarios.LateClaimStrands` | src/video_processing/worker/jobs.py:55-62 | A run without any crash, satisfying every hypothesis of `Closing.ClosingStatus`, with a late claim after the last fail_job, that ends the same way: so that condition is needed |
| `Scenarios.SwallowedRetryStrands` | src/video_processing/worker/sqs_shim.py:58-61 | A run without any crash whose last events are a retry's check and send, a start the server refuses, the execution's close and the retry's commit, and which ends the same way |
| `Scenarios.LateRetryOverwrites` | src/video_processing/api/services/video_service.py:120-123 | A reachable state with a Completed execution and all jobs completed that reads `processing` |
| `PlatformTheorems.NoUploadIsLost` | src/video_processing/worker/sqs_shim.py:88-121 | In every reachable state each upload whose key resolves has an execution or a message visible, in flight or dead-lettered |
| `PlatformTheorems.PlainUploadsAreNotLost` | src/video_processing/api/services/video_service.py:55-75 | In particular every upload of a file named `<stem>.<letters and digits>`, with or without the emulator's backslash |
| `PlatformTheorems.DeletedOnlyWhenStarted` | src/video_processing/worker/sqs_shim.py:96-121 | Over any run: for a message sent at one point, one of whose records then resolved to a video, at any later point the video has an execution or the message is still there as it was sent |
| `PlatformTheorems.DeliveriesAreBounded` | infra/infra/platform_stack.py:62-65 | No message is delivered a fourth time; a dead letter was delivered three times |
| `PlatformTheorems.ReceivesAreDeliveries` | infra/infra/platform_stack.py:62-65 | Over any run: a message's receive count is the number of times it was handed to a handler |
| `PlatformTheorems.AtMostThreeDeliveries` | infra/infra/platform_stack.py:62-65 | Over any run: no message is handed out a fourth time, and a dead letter was handed out three times |
| `PlatformTheorems.DeliveredAgain` | src/video_processing/worker/sqs_shim.py:104-108 | A message not deleted is handed out again with all its events, or after the third time becomes a dead letter |
| `PlatformTheorems.HandlersMayStop` | src/video_processing/worker/sqs_shim.py:110-116 | A handler may stop at any point and leaves its message; a start whose reply is lost has happened |
| `PlatformTheorems.KeyIsBuilt` | src/video_processing/api/services/video_service.py:61-73 | Over any run: a video's stored key is the one built from its ID and the name it was created with, for good |
| `PlatformTheorems.AssetKeyIsNoUpload` | src/video_processing/worker/activities.py:47-49 | Generated objects lie outside the uploads prefix and would not be taken for an upload |
| `PlatformTheorems.RetryIsSent` | src/video_processing/api/services/video_service.py:116-118 | Every retry call that sends puts one new visible message on the queue, with exactly one event, and that event resolves to its video |
| `PlatformTheorems.RetryStartsAfresh` | src/video_processing/worker/sqs_shim.py:42-57 | Handling an event of a video whose executions have all failed, however many, adds one new execution and changes nothing else of the video |
| `PlatformTheorems.StartedResolves` | src/video_processing/worker/sqs_shim.py:64-93 | Once a video has been started, in whichever form its key was reported, the event for its stored key resolves to it |
| `PlatformRuns.RetryCompletes` | src/video_processing/api/services/video_service.py:99-124 | From every reachable platform state in which a retry call is accepted, the video's executions have all failed, however many, and no unusable height is stored: retry call, delivery of its message and at most 146 fault-free events lead to `completed`, claiming exactly the jobs not completed before, with the queue as it was |
| `PlatformRuns.RunLifts` | src/video_processing/worker/sqs_shim.py:88-121 | Every run of one video whose flushes meet what the other videos hold is a path of the platform that leaves everything else as it is |
| `PlatformRuns.LateClaimOnPlatform` | src/video_processing/worker/jobs.py:55-62 | A reachable platform state with an empty queue, no message being handled, every execution Failed, status `processing` and retry refused |
| `PlatformRuns.SwallowedRetryOnPlatform` | src/video_processing/worker/sqs_shim.py:58-61 | The same where the retry call's own message was deleted as a duplicate |
| `PlatformTheorems.AssetRowsAreUnique` | src/video_processing/common/models/generated_asset.py:15-34 | Across all videos and retries no two asset rows share a key, and each names a stored object |
| `PlatformTheorems.FlushesAreHonest` | src/video_processing/common/models/generated_asset.py:31-34 | A flush meets every key in other videos' rows, and none of them is this video's: so the unique key constraint never rejects it |
| `PlatformTheorems.CompletedEverywhere` | src/video_processing/worker/jobs.py:94-148 | `completed` is true of every video of the platform at once |
| `PlatformInvariant.SystemRunKeeps` | src/video_processing/worker/sqs_shim.py:88-147 | The platform invariant holds after every action of every run |
| `PlatformInvariant.HandleKeeps` | src/video_processing/worker/sqs_shim.py:88-93 | One turn of the message loop keeps it, whether the start is accepted, refused, lost on the way back or unreachable |
| `WorkflowInvariant.RunKeeps` | src/video_processing/worker/workflows.py:47-84 | The per-video invariant holds after every event of every run |
| `WorkflowInvariant.EventKeeps` | src/video_processing/worker/workflows.py:47-84 | And is kept by each event: starts, dispatches, moves, reports, crashes, settling, retry calls |
| `WorkflowInvariant.SettledExecution` | src/video_processing/worker/workflows.py:53-84 | Each decision of the workflow leaves a well-formed execution; transcode is scheduled only after both siblings are completed and with the stored height |
| `StatusWrites.EventWrites` | src/video_processing/worker/jobs.py:55-62 | Which event writes which status, exactly; once transcode is completed only a retry commit writes it |
| `SessionInvariant.MoveKeeps` | src/video_processing/worker/activities.py:101-202 | Every step of an attempt keeps the store's invariant and its own, and touches only its own job, its own columns and new objects |
| `SessionInvariant.CommitKeeps` | src/video_processing/worker/jobs.py:130-148 | A completion's commit keeps them, stores exactly the planned assets, and writes `completed` only for transcode |
| `SessionInvariant.CountKeeps` | src/video_processing/common/db/repositories/processing_job_repository.py:35-52 | The flush is accepted unless another video holds one of this video's keys, and the count seen includes the session's own row |
| `SessionInvariant.UpsertKeeps` | src/video_processing/worker/jobs.py:78-91 | In the protocol every upsert is an insert: a job that is not completed has left no asset row |
| `Sessions.SavedOverLoaded` | src/video_processing/common/db/session.py:16-20 | Saving over the loaded row stores the cached row; saving no change stores nothing |
| `Sessions.UpdatesCommute` | src/video_processing/common/db/session.py:16-20 | Two sessions that changed different columns can commit in either order |
| `Sessions.StoredMetadataIff` | src/video_processing/worker/activities.py:83-98 | A completed metadata job answers with the three stored values, each its own, or with a non-retryable error exactly if one is missing |
| `Rows.PreviewTypes` | src/video_processing/worker/transcode.py:25-37 | A source gets exactly the rungs strictly below its height, each once, largest first |
| `Rows.PlanProduces` | src/video_processing/worker/activities.py:133-196 | What each job uploads: exactly its asset types, each once, under its own key |
| `Rows.AssetKeyInjective` | src/video_processing/worker/activities.py:190-196 | No two (video, type) pairs share an object key |
| `Rows.AssetKeyNames` | src/video_processing/worker/activities.py:190-192 | Each asset key spelled out; a preview's file name gives the height it is scaled to |
| `Upserts.UpsertsOverride` | src/video_processing/worker/jobs.py:78-91 | On any prior table the pending edits and adds leave the old rows overridden by the list |
| `Upserts.ConstraintHoldsIff` | src/video_processing/common/models/generated_asset.py:15-17 | Because lookups do not see pending adds, the constraint accepts them if and only if no new type is listed twice |
| `Upserts.FlushAllowedIff` | src/video_processing/common/models/generated_asset.py:15-34 | The whole flush is accepted if and only if no new type is listed twice, no changed row takes another video's key and no key ends up on two rows |
| `Upserts.UpsertsAreIdempotent` | src/video_processing/worker/jobs.py:144-145 | Completing again with the same list adds and changes no row |
| `Upserts.PlannedListIsAccepted` | src/video_processing/worker/transcode.py:36-37 | The transcode activity's list is never rejected for a repeated type, on any prior table |
| `Upserts.CompletionOfMoves` | src/video_processing/worker/jobs.py:130-148 | One upsert move per asset, the flush and count, and the commit, in sequence: the flush raises exactly if the constraints do not accept the list, and otherwise the store ends as `complete_*_job` leaves it |
| `JobStore.Session.ClaimJob` | src/video_processing/worker/jobs.py:28-63 | With any commits by others at every await: the decision is made on a job row that was committed between the call and the save; a completed one is left alone, any other gets `processing`, one more attempt and the video status rule over the store committed last, and nothing else; its own commits are that save and at most inserts of a missing row. If no other session writes the job row, the outcome and the final row are determined by the row at the call |
| `JobStore.Session.FindJob` | src/video_processing/worker/jobs.py:38-50 | The row selected, inserted or reread is one that was committed during the call, and the reread never finds none; it fails only if the insert was rejected and the video's row cannot be read after the rollback |
| `JobStore.RowLeftAlone` | src/video_processing/worker/jobs.py:38-53 | In a stretch of commits where no other session writes a job row it stays as it is, or goes from missing to pending |
| `JobStore.Session.AllJobsCompleted` | src/video_processing/worker/jobs.py:66-75 | True exactly when all three jobs would be completed with this session's own row |
| `JobStore.Session.CompleteTranscodeJob` | src/video_processing/worker/jobs.py:130-148 | Succeeds exactly if the constraints accept the list; then, column by column: the job is completed and keeps its attempts, no other job and no metadata changes, the old asset rows are overridden by the list, and the video is `completed` exactly if all three jobs then are, in one commit; otherwise nothing is committed and the session is unusable |
| `JobStore.Session.CompleteThumbnailJob` | src/video_processing/worker/jobs.py:111-127 | The same with the one thumbnail row |
| `JobStore.Session.CompleteMetadataJob` | src/video_processing/worker/jobs.py:94-108 | Always succeeds: duration, width and height each in its own column, the job completed with its attempts kept, no asset or other job changed, and the video `completed` exactly if all three jobs then are, in one commit |
| `JobStore.Session.FailJob` | src/video_processing/worker/jobs.py:151-165 | This job and the video become failed and no other job row changes; asset changes still pending are committed along; it raises exactly if a flush was rejected before or is now |
| `ClaimRace.OneRowPerJob` | src/video_processing/worker/jobs.py:38-53 | Without T2, in any race: no lookup finds several rows and no reread finds none; past its lookup or insert a session's video and type have exactly one row, which the session holds unless reading the expired video row raised |
| `ClaimRace.TurnKeeps` | src/video_processing/common/models/processing_job.py:16-18 | Every turn keeps rows unique and only ever adds to them |
| `ClaimRace.TurnWrites` | src/video_processing/worker/jobs.py:40-62 | An insert appends one pending row or is rejected by an existing one; a claim sets `processing` and one more attempt on the row it holds and no other; a completed row is left alone |
| `SqsShim.ProcessMessage` | src/video_processing/worker/sqs_shim.py:88-93 | The loop starts the workflow of each resolvable event in order; it raises exactly if not every call reaches the server, and then after exactly the calls that do |
| `SqsShim.HandleMessage` | src/video_processing/worker/sqs_shim.py:96-121 | The message is deleted exactly if every start call reached the server; then every resolvable record has an execution; other messages and executions stay |
| `SqsShim.EventsStart` | src/video_processing/worker/sqs_shim.py:35-61 | After the events, every video they resolve to has an execution and would refuse another start |
| `SqsShim.StartedExactly` | src/video_processing/worker/sqs_shim.py:42-61 | Whatever executions there are at a delivery: a video gets one more if and only if an event is about it, none is open and the last, if any, failed; so always when all have failed |
| `SqsShim.DuplicateDelivery` | src/video_processing/worker/sqs_shim.py:58-61 | Delivering a message again before an execution closes changes nothing |
| `SqsShim.ResumedDelivery` | src/video_processing/worker/sqs_shim.py:104-111 | A redelivery after a broken-off one ends where an unbroken delivery would, as long as no execution closes in between; `SqsShim.StartedExactly` covers the rest |
| `UploadKeys.ParseAgreesWithPattern` | src/video_processing/common/queue/s3_events.py:25-65 | The parser accepts exactly the pattern's language, with a final newline tolerated, and returns the ID of its group |
| `UploadKeys.KeyRoundTrip` | src/video_processing/api/services/video_service.py:27-28 | A built key parses back to its ID if its suffix is one the pattern knows, and to nothing otherwise |
| `UploadKeys.UploadIsRecognised` | src/video_processing/worker/sqs_shim.py:64-85 | The event for a stored key resolves to its video exactly for the accepted suffixes |
| `UploadKeys.EmulatorUploadIsRecognised` | src/video_processing/worker/sqs_shim.py:75-83 | The same for the key reported with one added backslash |
| `UploadKeys.PlainNamesAreRecognised` | src/video_processing/api/schemas/video_request.py:10-16 | Every name `<stem>.<letters and digits>` passes validation and its upload is recognised under its key and with one added backslash |
| `UploadKeys.OtherNamesAreDropped` | src/video_processing/common/queue/s3_events.py:25-27 | Any other extension is dropped, but for a newline, or a backslash and a newline, after the letters and digits |
| `UploadKeys.ValidFilenameIff` | src/video_processing/api/schemas/video_request.py:12-16 | The accepted names are exactly the basenames with a dot that something other than dots precedes |
| `UploadKeys.KeyKeepsSuffix` | src/video_processing/api/services/video_service.py:27-28 | A built key's last component is `original` with the name's own suffix |
| `UploadKeys.ValidNamesThatAreDropped` | src/video_processing/api/schemas/video_request.py:10-16 | Names that pass validation and whose uploads are ignored, for every video |
| `UploadKeys.ResolveIsSound` | src/video_processing/worker/sqs_shim.py:64-85 | A resolved event is about a known video and names its own stored key, up to one backslash |
| `UploadKeys.StoredKeyResolves` | src/video_processing/worker/sqs_shim.py:75-83 | If any reported key resolves to a video, its stored key does |
| `VideoIds.TextRoundTrip` | src/video_processing/common/queue/s3_events.py:60-65 | An ID's text is in lower case and reading it gives the ID back |
| `VideoIds.TextInjective` | src/video_processing/worker/sqs_shim.py:42-57 | Two videos never share a workflow ID |
| `S3Events.MessageRoundTrip` | src/video_processing/common/queue/s3_events.py:68-78 | A synthetic message reads back as exactly the one event it was built for, for every bucket and key |
| `S3Events.QuoteRoundTrip` | src/video_processing/common/queue/s3_events.py:50-55 | Percent-encoding with `+` for space loses nothing, for every byte string |
| `S3Events.AnyEncodingDecodes` | src/video_processing/common/queue/s3_events.py:51-54 | However a sender writes each character, raw, as %XX in either case or a space as `+`, decoding gives the characters back |
| `S3Events.RawKeyIsRecognised` | src/video_processing/common/queue/s3_events.py:36-57 | A notification that gives a plain name's key as it is, slashes and all, is read as that key and resolves to its video |
| `S3Events.NoEscapesNoChange` | src/video_processing/common/queue/s3_events.py:54 | A percent sign not followed by two hexadecimal digits is kept |
| `S3Events.QuotedUnchangedIff` | src/video_processing/common/queue/s3_events.py:76-78 | Text is written unchanged if and only if all its characters are unreserved |
| `S3Events.EventsOfConcat` | src/video_processing/common/queue/s3_events.py:44-57 | Records are read one by one, in order; each with an `s3` section gives one event with its bucket and decoded key, each without gives none |
| `S3Events.DecodingOrderMatters` | src/video_processing/common/queue/s3_events.py:51-54 | Decoding %XX before `+` would be right for a key if and only if it holds no plus sign |
| `S3Events.ParseObjectCreatedEvents` | src/video_processing/common/queue/s3_events.py:36-57 | The loop returns the events of the records in order, as the laws of `S3Events.EventsOfConcat` and `S3Events.AnyEncodingDecodes` describe them |

## Left out

- `Closing.ClosingStatus`: speaks of crash-free runs with no retry commit; `Closing.FailedExactly` covers all runs.
- `Closing.TranscodeFailureShows`: speaks of crash-free runs with no retry commit; a crash after transcode's last claim leaves `processing`.
- `JobStore.Session.CompleteTranscodeJob`: runs without other sessions committing inside it; `Sessions` has the interleaved steps.
- `SqsShim.ProcessMessage`: does not model a start call that reaches the server and then raises; `Platform` does.
- The activities, the workflow function and `retry_video` are step relations on values, not methods, because their meaning lies in the interleaving between awaits.
- One row per video and job type is built into the per-video store; `ClaimRace` proves it on an explicit table.
- Overlapping attempts of one activity: a stale attempt can overwrite a completed job, so apart from `claim_job` everything assumes T2.
- Cancelled, terminated and timed-out executions, and any client starting workflows other than the shim.
- A database error inside a completion or commit: it aborts the transaction or deactivates the session, so fail_job's own commit raises as well. After a rejected flush the attempt raises without writing; any other such error is an attempt that dies.
- Whether reading the video's row after a rollback raises: that depends on the database driver's session; both outcomes are modelled, and neither can arise under T2.
- Row locks: the model allows more interleavings than they do.
- A missing video row in an activity: the shim resolves the row first and rows are never deleted.
- Rows written before the split into three job types: the database starts empty.
- Clock times, backoff, `started_at`, `completed_at`, logging.
- ffmpeg, ffprobe, S3 bytes, bitrates and temporary directories.
- The HTTP routes, presigned URLs, download listings and health checks; a refused retry call (404 or 409) is an event that cannot happen.
- JSON text, and records whose `s3` section lacks a bucket or key.
- Column length limits and the 255-character limit on names.
- Undecodable bytes: Python replaces them while decoding; keys here stay byte strings.
- The shim's polling loop and batches: handlers start at any time and run at once.

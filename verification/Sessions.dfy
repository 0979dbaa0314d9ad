/** One activity attempt as a database session at a program counter.

    The session keeps the rows it loaded (`expire_on_commit=False`), never flushes on its own
    (`autoflush=False`), and an UPDATE it sends sets only the columns whose cached value differs
    from the value last loaded or written. Each function below is the code between two awaits:
    it runs against the store committed at that moment. */
module Sessions {
  import opened Options
  import opened Rows

  /** Cached rows with unsaved changes, next to the values they were loaded with. */
  datatype Cache = Cache(videoBase: VideoRow, video: VideoRow, jobBase: JobRow, job: JobRow)

  datatype Pc =
    | Opened
    | Loaded(video: VideoRow)                                  // video row cached
    | NoRow(video: VideoRow)                                   // the job select found nothing
    | Lost(video: VideoRow)                                    // the job insert was rejected
    | Found(video: VideoRow, job: JobRow)                      // job row cached
    | Working(video: VideoRow, job: JobRow, uploaded: seq<Asset>)
    | Completing(cache: Cache, list: seq<Asset>, next: nat, edits: seq<Asset>, adds: seq<Asset>)
    | Counted(cache: Cache, edits: seq<Asset>, adds: seq<Asset>, count: nat)
    | Returned(metadata: Option<VideoMetadata>)
    | Raised(nonRetryable: bool)

  datatype Progress = Progress(pc: Pc, store: Store)

  // ---- UPDATE statements ----

  function Changed<T(==)>(row: T, base: T, cached: T): T {
    if cached != base then cached else row
  }

  function UpdateVideo(row: VideoRow, base: VideoRow, cached: VideoRow): VideoRow {
    VideoRow(
      Changed(row.status, base.status, cached.status),
      Changed(row.durationMs, base.durationMs, cached.durationMs),
      Changed(row.width, base.width, cached.width),
      Changed(row.height, base.height, cached.height))
  }

  /** Rows are never deleted, so an UPDATE by primary key finds its row. */
  function UpdateJob(row: Option<JobRow>, base: JobRow, cached: JobRow): Option<JobRow> {
    match row
    case None => None
    case Some(r) => Some(JobRow(Changed(r.status, base.status, cached.status),
      Changed(r.attempts, base.attempts, cached.attempts)))
  }

  /** Saving over the row that was loaded stores the cached row; saving no change stores nothing. */
  lemma SavedOverLoaded(row: VideoRow, base: VideoRow, cached: VideoRow, jobBase: JobRow, job: JobRow, jobRow: JobRow)
    ensures UpdateVideo(base, base, cached) == cached && UpdateVideo(row, base, base) == row
    ensures UpdateJob(Some(jobBase), jobBase, job) == Some(job)
    ensures UpdateJob(Some(jobRow), jobBase, jobBase) == Some(jobRow)
  {
  }

  /** Two sessions that changed different columns of the same row can commit in either order. */
  lemma UpdatesCommute(row: VideoRow, base1: VideoRow, cached1: VideoRow, base2: VideoRow, cached2: VideoRow)
    requires base1.status == cached1.status || base2.status == cached2.status
    requires base1.durationMs == cached1.durationMs || base2.durationMs == cached2.durationMs
    requires base1.width == cached1.width || base2.width == cached2.width
    requires base1.height == cached1.height || base2.height == cached2.height
    ensures UpdateVideo(UpdateVideo(row, base1, cached1), base2, cached2)
         == UpdateVideo(UpdateVideo(row, base2, cached2), base1, cached1)
  {
  }

  function SaveCache(j: JobType, cache: Cache, store: Store): Store {
    store.(video := UpdateVideo(store.video, cache.videoBase, cache.video),
           jobs := store.jobs.Set(j, UpdateJob(store.jobs.Get(j), cache.jobBase, cache.job)))
  }

  // ---- claim_job ----

  function SelectJob(j: JobType, video: VideoRow, store: Store): Pc {
    match store.jobs.Get(j)
    case None => NoRow(video)
    case Some(job) => Found(video, job)
  }

  /** Inserts the pending row, unless the unique (video, job type) constraint rejects it. */
  function InsertJob(j: JobType, video: VideoRow, store: Store): Progress {
    if store.jobs.Get(j).Some? then Progress(Lost(video), store)
    else
      var job := JobRow(JobStatus.Pending, 0);
      Progress(Found(video, job), store.(jobs := store.jobs.Set(j, Some(job))))
  }

  /** Reads the row another worker created; a missing row would raise on `job.status`. */
  function RereadJob(j: JobType, video: VideoRow, store: Store): Pc {
    match store.jobs.Get(j)
    case None => Raised(false)
    case Some(job) => Found(video, job)
  }

  /** An insert that the constraint rejects changes nothing, and the reread takes the row that is
      there, whoever wrote it and whatever it says. */
  lemma RejectedInsertRereads(j: JobType, video: VideoRow, store: Store, later: Store)
    requires store.jobs.Get(j).Some? && later.jobs.Get(j).Some?
    ensures InsertJob(j, video, store) == Progress(Lost(video), store)
    ensures RereadJob(j, video, later) == Found(video, later.jobs.Get(j).value)
  {
  }

  /** _stored_metadata for the metadata activity; the other two return nothing. */
  function ReturnEarly(j: JobType, video: VideoRow): Pc {
    if j != Metadata then Returned(None)
    else if video.HasMetadata() then Returned(Some(video.Stored()))
    else Raised(true)
  }

  /** A completed metadata job answers with the three stored values, each its own, or if any is
      missing with an error that is not retried; the other two jobs answer with nothing. */
  lemma StoredMetadataIff(j: JobType, video: VideoRow)
    ensures j == Metadata && video.durationMs.Some? && video.width.Some? && video.height.Some? ==>
      ReturnEarly(j, video)
      == Returned(Some(VideoMetadata(video.durationMs.value, video.width.value, video.height.value)))
    ensures j == Metadata && (video.durationMs.None? || video.width.None? || video.height.None?) ==>
      ReturnEarly(j, video) == Raised(true)
    ensures j != Metadata ==> ReturnEarly(j, video) == Returned(None)
  {
  }

  function ClaimedJob(job: JobRow): JobRow {
    JobRow(JobStatus.Processing, job.attempts + 1)
  }

  function ClaimedVideo(video: VideoRow): VideoRow {
    if video.status.Completed? then video else video.(status := VideoStatus.Processing)
  }

  /** The tail of claim_job: a completed job is left alone, any other is claimed and committed. */
  function FinishClaim(j: JobType, video: VideoRow, job: JobRow, store: Store): Progress {
    if job.status.Completed? then Progress(ReturnEarly(j, video), store)
    else
      var cache := Cache(video, ClaimedVideo(video), job, ClaimedJob(job));
      Progress(Working(cache.video, cache.job, []), SaveCache(j, cache, store))
  }

  // ---- Work and completion ----

  /** Storing an object under a key that exists already overwrites it. */
  function UploadNext(plan: seq<Asset>, video: VideoRow, job: JobRow, uploaded: seq<Asset>, store: Store): Progress
    requires |uploaded| < |plan|
  {
    var asset := plan[|uploaded|];
    Progress(Working(video, job, uploaded + [asset]), store.(objects := store.objects + {asset.objectKey}))
  }

  /** The assignments a complete_*_job function makes before it queries anything. */
  function StartCompleting(j: JobType, probe: VideoMetadata, video: VideoRow, job: JobRow, list: seq<Asset>): Pc {
    var finished := if j == Metadata then video.WithMetadata(probe) else video;
    Completing(Cache(video, finished, job, job.(status := JobStatus.Completed)), list, 0, [], [])
  }

  /** _upsert_asset: the lookup sees committed rows only, not the session's pending adds. */
  function UpsertOne(
      cache: Cache, list: seq<Asset>, next: nat, edits: seq<Asset>, adds: seq<Asset>,
      assets: map<AssetType, string>): Pc
    requires next < |list|
  {
    if list[next].assetType in assets
    then Completing(cache, list, next + 1, edits + [list[next]], adds)
    else Completing(cache, list, next + 1, edits, adds + [list[next]])
  }

  function Put(assets: map<AssetType, string>, list: seq<Asset>): map<AssetType, string> {
    if list == [] then assets
    else Put(assets, list[..|list| - 1])[list[|list| - 1].assetType := list[|list| - 1].objectKey]
  }

  /** Both unique constraints of `generated_assets`; `taken` holds other videos' object keys. */
  predicate FlushAllowed(assets: map<AssetType, string>, edits: seq<Asset>, adds: seq<Asset>, taken: set<string>) {
    && (forall i :: 0 <= i < |adds| ==> adds[i].assetType !in assets)
    && DistinctTypes(adds)
    && var after := Put(Put(assets, edits), adds);
       && (forall t :: t in after && (t !in assets || after[t] != assets[t]) ==> after[t] !in taken)
       && (forall s, t :: s in after && t in after && s != t ==> after[s] != after[t])
  }

  /** count_completed_for_video: flush, then count with the session's own job row included. A
      rejected flush leaves the session unusable, so fail_job's commit raises as well. */
  function FlushAndCount(
      j: JobType, cache: Cache, edits: seq<Asset>, adds: seq<Asset>, taken: set<string>, store: Store): Pc {
    if FlushAllowed(store.assets, edits, adds, taken)
    then Counted(cache, edits, adds, CompletedCount(SaveCache(j, cache, store).jobs))
    else Raised(false)
  }

  function CommitCompletion(
      j: JobType, cache: Cache, edits: seq<Asset>, adds: seq<Asset>, count: nat, store: Store): Progress {
    var video := if count >= JOB_TYPES then cache.video.(status := VideoStatus.Completed) else cache.video;
    var saved := SaveCache(j, cache.(video := video), store);
    var result := if j == Metadata && video.HasMetadata() then Some(video.Stored()) else None;
    Progress(Returned(result), saved.(assets := Put(Put(store.assets, edits), adds)))
  }

  /** fail_job. */
  function FailJob(j: JobType, video: VideoRow, job: JobRow, nonRetryable: bool, store: Store): Progress {
    var cache := Cache(video, video.(status := VideoStatus.Failed), job, job.(status := JobStatus.Failed));
    Progress(Raised(nonRetryable), SaveCache(j, cache, store))
  }

  // ---- The activities ----

  datatype Move =
    | Load | Select | Insert | Reread | Claim
    | Upload | Finish(probe: VideoMetadata)      // the work succeeds
    | Fail                                       // the work raises
    | Upsert | Count(taken: set<string>) | Commit

  /** transcode_activity refuses a source height that is not positive, right after claiming. */
  predicate Refused(j: JobType, h: int) {
    j == Transcode && h <= 0
  }

  /** One move of an attempt of job `j`, which uploads `plan` in order; None when the move is not
      the attempt's next one. */
  function Advance(plan: seq<Asset>, j: JobType, h: int, move: Move, pc: Pc, store: Store): Option<Progress> {
    match (move, pc)
    case (Load, Opened) => Some(Progress(Loaded(store.video), store))
    case (Select, Loaded(v)) => Some(Progress(SelectJob(j, v, store), store))
    case (Insert, NoRow(v)) => Some(InsertJob(j, v, store))
    case (Reread, Lost(v)) => Some(Progress(RereadJob(j, v, store), store))
    case (Claim, Found(v, job)) => Some(FinishClaim(j, v, job, store))
    case (Upload, Working(v, job, up)) =>
      if Refused(j, h) || |up| >= |plan| then None else Some(UploadNext(plan, v, job, up, store))
    case (Finish(m), Working(v, job, up)) =>
      if Refused(j, h) || |up| < |plan| then None else Some(Progress(StartCompleting(j, m, v, job, up), store))
    case (Fail, Working(v, job, up)) => Some(FailJob(j, v, job, Refused(j, h), store))
    case (Upsert, Completing(c, list, n, edits, adds)) =>
      if n >= |list| then None else Some(Progress(UpsertOne(c, list, n, edits, adds, store.assets), store))
    case (Count(taken), Completing(c, list, n, edits, adds)) =>
      if n < |list| then None else Some(Progress(FlushAndCount(j, c, edits, adds, taken, store), store))
    case (Commit, Counted(c, edits, adds, n)) => Some(CommitCompletion(j, c, edits, adds, n, store))
    case _ => None
  }
}

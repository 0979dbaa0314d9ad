/** The functions of the job store, run in place on a database and a session. */
module JobStore {
  import opened Options
  import opened Rows
  import opened Sessions
  import opened SessionInvariant
  import opened Upserts

  // ---- The database ----

  /** One committed transaction: whose it was and the store it left. */
  datatype Transaction = Transaction(who: object, store: Store)

  predicate KeysDistinct(assets: map<AssetType, string>) {
    forall s, t :: s in assets && t in assets && s != t ==> assets[s] != assets[t]
  }

  /** The committed rows of one video; `taken` holds the object keys of other videos' assets. */
  class Database {
    var store: Store
    var taken: set<string>
    ghost var commits: seq<Transaction>

    ghost predicate Valid()
      reads this
    {
      commits != [] && commits[|commits| - 1].store == store && KeysDistinct(store.assets)
    }

    constructor (store: Store, taken: set<string>)
      requires KeysDistinct(store.assets)
      ensures Valid() && this.store == store && this.taken == taken && commits == [Transaction(this, store)]
    {
      this.store := store;
      this.taken := taken;
      new;
      commits := [Transaction(this, store)];
    }

    method Write(who: object, store: Store)
      requires KeysDistinct(store.assets)
      modifies this`store, this`commits
      ensures Valid() && this.store == store && commits == old(commits) + [Transaction(who, store)]
    {
      this.store := store;
      commits := commits + [Transaction(who, store)];
    }
  }

  /** An await of session `me`: any others may commit anything meanwhile, but rows are never
      deleted. */
  method Await(db: Database, me: object)
    requires db.Valid()
    modifies db
    ensures db.Valid() && old(db.commits) <= db.commits
    ensures forall i :: |old(db.commits)| <= i < |db.commits| ==> db.commits[i].who != me
    ensures forall j :: old(db.store.jobs.Get(j)).Some? ==> db.store.jobs.Get(j).Some?
  {
  }

  // ---- Stretches of its history ----

  const PENDING_JOB := JobRow(JobStatus.Pending, 0)

  ghost predicate IsInsert(j: JobType, before: Store, after: Store) {
    before.jobs.Get(j).None? && after == before.(jobs := before.jobs.Set(j, Some(PENDING_JOB)))
  }

  /** In `commits[lo..hi]` session `me` commits nothing but inserts of a pending row where there
      was none. */
  ghost predicate OnlyInserts(me: object, j: JobType, commits: seq<Transaction>, lo: nat, hi: int) {
    forall i :: 0 < lo <= i < hi <= |commits| && commits[i].who == me ==>
      IsInsert(j, commits[i - 1].store, commits[i].store)
  }

  ghost predicate Silent(me: object, commits: seq<Transaction>, lo: nat, hi: int) {
    forall i :: lo <= i < hi <= |commits| ==> commits[i].who != me
  }

  /** In `commits[lo..hi]` no other session writes the job row. */
  ghost predicate LeftAlone(me: object, j: JobType, commits: seq<Transaction>, lo: nat, hi: int) {
    forall i :: 0 < lo <= i < hi <= |commits| && commits[i].who != me ==>
      commits[i].store.jobs.Get(j) == commits[i - 1].store.jobs.Get(j)
  }

  /** Some commit in `commits[lo..hi]` left this job row. */
  ghost predicate WasCommitted(row: JobRow, j: JobType, commits: seq<Transaction>, lo: int, hi: int) {
    exists i :: 0 <= lo <= i < hi <= |commits| && commits[i].store.jobs.Get(j) == Some(row)
  }

  /** A job row no other session writes stays as it is, or goes from missing to pending. */
  lemma {:induction false} RowLeftAlone(me: object, j: JobType, commits: seq<Transaction>, lo: nat, hi: int, k: nat)
    requires 0 < lo <= k + 1 <= hi <= |commits|
    requires OnlyInserts(me, j, commits, lo, hi) && LeftAlone(me, j, commits, lo, hi)
    ensures var first, row := commits[lo - 1].store.jobs.Get(j), commits[k].store.jobs.Get(j);
      && (first.Some? ==> row == first)
      && (first.None? ==> row == None || row == Some(PENDING_JOB))
      && (first.None? && Silent(me, commits, lo, hi) ==> row == None)
  {
    if k == lo - 1 {
    } else {
      RowLeftAlone(me, j, commits, lo, hi, k - 1);
      assert commits[k].who == me ==> IsInsert(j, commits[k - 1].store, commits[k].store);
    }
  }

  /** What a claim of `read` by a session that cached `video` changes: the job's status and attempts,
      and the video's status unless that already reads `processing` or is `completed`. */
  ghost predicate ClaimWrites(j: JobType, video: VideoRow, read: JobRow, before: Store, after: Store) {
    && (before.jobs.Get(j) == Some(read) ==> after.jobs.Get(j) == Some(JobRow(JobStatus.Processing, read.attempts + 1)))
    && (forall i :: i != j ==> after.jobs.Get(i) == before.jobs.Get(i))
    && after.video.SameMetadata(before.video) && after.assets == before.assets && after.objects == before.objects
    && after.video.status ==
         if video.status in {PendingUpload, VideoStatus.Failed} then VideoStatus.Processing else before.video.status
  }

  lemma FinishClaimWrites(j: JobType, video: VideoRow, read: JobRow, before: Store)
    requires !read.status.Completed?
    ensures var after := FinishClaim(j, video, read, before).store;
      && after == SaveCache(j, Cache(video, ClaimedVideo(video), read, ClaimedJob(read)), before)
      && ClaimWrites(j, video, read, before, after)
      && (after.jobs.Get(j).Some? <==> before.jobs.Get(j).Some?)
      && (before.jobs.Get(j) == Some(read) ==>
          after.jobs.Get(j) == Some(JobRow(JobStatus.Processing, read.attempts + 1)))
  {
  }

  function OrPending(row: Option<JobRow>): JobRow {
    if row.None? then PENDING_JOB else row.value
  }

  /** One more transaction leaves the stretch before it as it was. */
  lemma Appended(me: object, j: JobType, before: seq<Transaction>, after: seq<Transaction>, lo: nat, row: JobRow)
    requires |after| == |before| + 1 && before <= after && 0 < lo
    ensures OnlyInserts(me, j, before, lo, |before|) ==> OnlyInserts(me, j, after, lo, |before|)
    ensures LeftAlone(me, j, after, lo, |after|) ==> LeftAlone(me, j, before, lo, |before|)
    ensures WasCommitted(row, j, before, lo - 1, |before|) ==> WasCommitted(row, j, after, lo - 1, |before|)
  {
    assert forall i :: 0 <= i < |before| ==> after[i] == before[i];
    if WasCommitted(row, j, before, lo - 1, |before|) {
      var i :| lo - 1 <= i < |before| && before[i].store.jobs.Get(j) == Some(row);
      assert after[i].store.jobs.Get(j) == Some(row);
    }
  }

  // ---- Sessions ----

  /** `Unreadable`: the job insert was rejected, and reading the video's row after the rollback
      raised. */
  datatype ClaimOutcome = Claimed | CompletedAlready | Unreadable

  /** What every completion does to the rows, column by column, given what its session had cached:
      the job is completed and keeps its attempts, no other job changes, no object is touched, and
      the video becomes `completed` exactly if all three jobs then are. */
  ghost predicate Completes(j: JobType, cache: Cache, before: Store, after: Store) {
    && (before.jobs.Get(j).Some? && cache.jobBase.status != JobStatus.Completed ==>
          && after.jobs.Get(j).Some? && after.jobs.Get(j).value.status == JobStatus.Completed
          && (cache.job.attempts == cache.jobBase.attempts ==>
                after.jobs.Get(j).value.attempts == before.jobs.Get(j).value.attempts))
    && (forall i :: i != j ==> after.jobs.Get(i) == before.jobs.Get(i))
    && after.objects == before.objects
    && (var all := after.Done(Metadata) && after.Done(Thumbnail) && after.Done(Transcode);
        && (all && cache.videoBase.status != VideoStatus.Completed ==> after.video.status == VideoStatus.Completed)
        && (!all && cache.video.status == cache.videoBase.status ==> after.video.status == before.video.status))
  }

  ghost predicate KeepsMetadata(cache: Cache, before: Store, after: Store) {
    cache.video.SameMetadata(cache.videoBase) ==>
      && after.video.durationMs == before.video.durationMs
      && after.video.width == before.video.width
      && after.video.height == before.video.height
  }

  /** Of `count` commits, those before the save of a claim. */
  function BeforeSave(count: int, outcome: ClaimOutcome): int {
    if outcome.Claimed? then count - 1 else count
  }

  /** A session with its cached video and job rows and its unsaved asset changes. Once a flush has
      been rejected it is `broken`: nothing more can be committed through it. */
  class Session {
    const db: Database
    const jobType: JobType
    var cache: Cache
    var unsaved: Unsaved
    var broken: bool

    /** _load_video. */
    constructor (db: Database, jobType: JobType)
      ensures this.db == db && this.jobType == jobType
      ensures cache.video == cache.videoBase == db.store.video && unsaved == Unsaved([], []) && !broken
    {
      this.db := db;
      this.jobType := jobType;
      this.cache := Cache(db.store.video, db.store.video, PENDING_JOB, PENDING_JOB);
      this.unsaved := Unsaved([], []);
      this.broken := false;
    }

    method SelectJob() returns (row: Option<JobRow>)
      ensures row == db.store.jobs.Get(jobType)
    {
      row := db.store.jobs.Get(jobType);
    }

    /** db.add and commit of a new row; false is the IntegrityError. */
    method InsertJob() returns (ok: bool)
      requires db.Valid()
      modifies db`store, db`commits
      ensures db.Valid() && db.store.jobs.Get(jobType).Some?
      ensures ok == old(db.store.jobs.Get(jobType)).None?
      ensures ok ==> IsInsert(jobType, old(db.store), db.store)
      ensures ok ==> db.commits == old(db.commits) + [Transaction(this, db.store)]
      ensures !ok ==> db.store == old(db.store) && db.commits == old(db.commits)
    {
      ok := db.store.jobs.Get(jobType).None?;
      if ok {
        db.Write(this, db.store.(jobs := db.store.jobs.Set(jobType, Some(PENDING_JOB))));
      }
    }

    /** The row part of a commit: the changed columns of both cached rows, and nothing else. */
    method Save()
      requires db.Valid()
      modifies db`store, db`commits, this`cache
      ensures db.Valid() && db.store == SaveCache(jobType, old(cache), old(db.store))
      ensures db.commits == old(db.commits) + [Transaction(this, db.store)]
      ensures cache == Cache(old(cache).video, old(cache).video, old(cache).job, old(cache).job)
    {
      db.Write(this, SaveCache(jobType, cache, db.store));
      cache := Cache(cache.video, cache.video, cache.job, cache.job);
    }

    /** claim_job, with other sessions committing at every await, even other attempts of the same
        activity. `readable` is whether the video's row can still be read after a rollback. `read`
        is the row the decision is made on, committed at some moment between the call and the save;
        `at` is the store the save goes over, the last one committed before it. When no other
        session writes the job row, the outcome and the row it leaves are those of the last clause. */
    method ClaimJob(readable: bool) returns (outcome: ClaimOutcome, ghost read: JobRow, ghost at: Store)
      requires db.Valid() && cache.video == cache.videoBase
      modifies db, this`cache
      ensures db.Valid() && old(db.commits) <= db.commits && db.store.jobs.Get(jobType).Some?
      ensures OnlyInserts(this, jobType, db.commits, |old(db.commits)|, BeforeSave(|db.commits|, outcome))
      ensures outcome.Unreadable? ==>
        && !readable && cache == old(cache)
        && old(db.store.jobs.Get(jobType)).None? && Silent(this, db.commits, |old(db.commits)|, |db.commits|)
      ensures !outcome.Unreadable? ==>
        && (outcome.Claimed? <==> !read.status.Completed?)
        && WasCommitted(read, jobType, db.commits, |old(db.commits)| - 1, BeforeSave(|db.commits|, outcome))
        && cache.job == cache.jobBase == (if outcome.Claimed? then ClaimedJob(read) else read)
        && cache.video == cache.videoBase
        && cache.video == (if outcome.Claimed? then ClaimedVideo(old(cache).video) else old(cache).video)
      ensures outcome.Claimed? ==>
        && |db.commits| > |old(db.commits)| && db.commits[|db.commits| - 1].who == this
        && at == db.commits[|db.commits| - 2].store
        && db.store == FinishClaim(jobType, old(cache).video, read, at).store
        && ClaimWrites(jobType, old(cache).video, read, at, db.store)
      ensures LeftAlone(this, jobType, db.commits, |old(db.commits)|, |db.commits|) ==>
        && outcome == (if old(db.store.Done(jobType)) then CompletedAlready else Claimed)
        && db.store.jobs.Get(jobType) == Some(
             match old(db.store.jobs.Get(jobType))
             case None => JobRow(JobStatus.Processing, 1)
             case Some(row) => if row.status.Completed? then row else JobRow(JobStatus.Processing, row.attempts + 1))
    {
      hide SaveCache, FinishClaim, ClaimWrites, OnlyInserts, LeftAlone, WasCommitted, Silent, Put, KeysDistinct;
      ghost var start := |db.commits|;
      var found := FindJob(readable);
      read, at := if found.Some? then found.value else PENDING_JOB, db.store;
      if found.None? {
        outcome := Unreadable;
        return;
      }
      var job := found.value;
      cache := cache.(jobBase := job, job := job);
      if job.status.Completed? {
        outcome := CompletedAlready;
        return;
      }
      ghost var before := db.commits;
      cache := cache.(video := ClaimedVideo(cache.video), job := ClaimedJob(job));
      Save();
      outcome := Claimed;
      FinishClaimWrites(jobType, old(cache).video, job, at);
      assert db.store.jobs.Get(jobType).Some?;
      Appended(this, jobType, before, db.commits, start, job);
    }

    /** The head of claim_job: the job's row, inserted if it is missing, reread if the insert is
        rejected. None is the error on the video's row. */
    method FindJob(readable: bool) returns (row: Option<JobRow>)
      requires db.Valid()
      modifies db
      ensures db.Valid() && old(db.commits) <= db.commits && db.store.jobs.Get(jobType).Some?
      ensures OnlyInserts(this, jobType, db.commits, |old(db.commits)|, |db.commits|)
      ensures row.Some? ==> WasCommitted(row.value, jobType, db.commits, |old(db.commits)| - 1, |db.commits|)
      ensures row.None? ==>
        && !readable && old(db.store.jobs.Get(jobType)).None?
        && Silent(this, db.commits, |old(db.commits)|, |db.commits|)
      ensures LeftAlone(this, jobType, db.commits, |old(db.commits)|, |db.commits|) ==>
        row == db.store.jobs.Get(jobType) == Some(OrPending(old(db.store.jobs.Get(jobType))))
    {
      hide KeysDistinct, LeftAlone;
      ghost var start := |db.commits|;
      ghost var seen := start - 1;
      row := SelectJob();
      Await(db, this);
      if row.None? {
        var ok := InsertJob();
        row := Some(PENDING_JOB);
        seen := |db.commits| - 1;
        Await(db, this);
        if !ok {
          if !readable {
            row := None;
            WhenLeftAlone(start, |db.commits|, seen);
            return;
          }
          row := SelectJob();
          seen := |db.commits| - 1;
          Await(db, this);
        }
      }
      assert db.commits[seen].store.jobs.Get(jobType) == row;
      WhenLeftAlone(start, |db.commits|, seen);
    }

    /** `RowLeftAlone` for the row seen and for the row now. */
    lemma WhenLeftAlone(lo: nat, hi: nat, seen: nat)
      requires 0 < lo <= seen + 1 <= hi == |db.commits| && OnlyInserts(this, jobType, db.commits, lo, hi)
      ensures LeftAlone(this, jobType, db.commits, lo, hi) ==>
        forall k | k in {seen, hi - 1} ::
          var first, row := db.commits[lo - 1].store.jobs.Get(jobType), db.commits[k].store.jobs.Get(jobType);
          && (first.Some? ==> row == first)
          && (first.None? ==> row == None || row == Some(PENDING_JOB))
          && (first.None? && Silent(this, db.commits, lo, hi) ==> row == None)
    {
      if LeftAlone(this, jobType, db.commits, lo, hi) {
        RowLeftAlone(this, jobType, db.commits, lo, hi, seen);
        RowLeftAlone(this, jobType, db.commits, lo, hi, hi - 1);
      }
    }

    /** _upsert_asset: the lookup does not see the session's own adds. */
    method UpsertAsset(asset: Asset)
      modifies this`unsaved
      ensures unsaved == if asset.assetType in db.store.assets
        then old(unsaved).(edits := old(unsaved).edits + [asset])
        else old(unsaved).(adds := old(unsaved).adds + [asset])
    {
      if asset.assetType in db.store.assets {
        unsaved := unsaved.(edits := unsaved.edits + [asset]);
      } else {
        unsaved := unsaved.(adds := unsaved.adds + [asset]);
      }
    }

    /** _all_jobs_completed: flush, which the constraints may reject, then count with the
        session's own job row included. */
    method AllJobsCompleted() returns (ok: bool, all: bool)
      ensures ok <==> FlushAllowed(db.store.assets, unsaved.edits, unsaved.adds, db.taken)
      ensures ok ==> (all <==> SaveCache(jobType, cache, db.store).AllDone())
    {
      ok := FlushAllowed(db.store.assets, unsaved.edits, unsaved.adds, db.taken);
      all := CompletedCount(SaveCache(jobType, cache, db.store).jobs) >= JOB_TYPES;
    }

    method CommitWithAssets()
      requires db.Valid() && FlushAllowed(db.store.assets, unsaved.edits, unsaved.adds, db.taken)
      modifies db`store, db`commits, this`cache, this`unsaved
      ensures db.Valid() && db.commits == old(db.commits) + [Transaction(this, db.store)]
      ensures db.store == WithAssets(SaveCache(jobType, old(cache), old(db.store)), old(db.store.assets), old(unsaved))
      ensures unsaved == Unsaved([], [])
    {
      db.Write(this, WithAssets(SaveCache(jobType, cache, db.store), db.store.assets, unsaved));
      cache := Cache(cache.video, cache.video, cache.job, cache.job);
      unsaved := Unsaved([], []);
    }

    /** complete_metadata_job. */
    method CompleteMetadataJob(metadata: VideoMetadata) returns (ok: bool)
      requires db.Valid() && unsaved == Unsaved([], [])
      modifies db`store, db`commits, this`cache, this`unsaved, this`broken
      ensures db.Valid() && ok && broken == old(broken)
      ensures Completes(jobType, old(cache), old(db.store), db.store) && db.store.assets == old(db.store).assets
      ensures old(cache).videoBase.HasNoMetadata() ==>
        && db.store.video.durationMs == Some(metadata.durationMs)
        && db.store.video.width == Some(metadata.width)
        && db.store.video.height == Some(metadata.height)
      ensures db.commits == old(db.commits) + [Transaction(this, db.store)]
    {
      cache := cache.(video := cache.video.WithMetadata(metadata), job := cache.job.(status := JobStatus.Completed));
      ok := Finish([]);
    }

    /** complete_thumbnail_job. */
    method CompleteThumbnailJob(objectKey: string) returns (ok: bool)
      requires db.Valid() && unsaved == Unsaved([], [])
      modifies db`store, db`commits, this`cache, this`unsaved, this`broken
      ensures db.Valid() && (ok <==> Acceptable([Asset(ThumbnailImage, objectKey)], old(db.store).assets, db.taken))
      ensures broken == (old(broken) || !ok)
      ensures ok ==>
        && Completes(jobType, old(cache), old(db.store), db.store) && KeepsMetadata(old(cache), old(db.store), db.store)
        && db.store.assets == old(db.store).assets[ThumbnailImage := objectKey]
      ensures db.commits == old(db.commits) + if ok then [Transaction(this, db.store)] else []
    {
      cache := cache.(job := cache.job.(status := JobStatus.Completed));
      var list := [Asset(ThumbnailImage, objectKey)];
      assert list[..0] == [];
      assert Put(db.store.assets, list[..0]) == db.store.assets;
      ok := Finish(list);
    }

    /** complete_transcode_job. */
    method CompleteTranscodeJob(renditions: seq<Asset>) returns (ok: bool)
      requires db.Valid() && unsaved == Unsaved([], [])
      modifies db`store, db`commits, this`cache, this`unsaved, this`broken
      ensures db.Valid() && (ok <==> Acceptable(renditions, old(db.store).assets, db.taken))
      ensures broken == (old(broken) || !ok)
      ensures ok ==>
        && Completes(jobType, old(cache), old(db.store), db.store) && KeepsMetadata(old(cache), old(db.store), db.store)
        && db.store.assets == Put(old(db.store).assets, renditions)
      ensures db.commits == old(db.commits) + if ok then [Transaction(this, db.store)] else []
    {
      cache := cache.(job := cache.job.(status := JobStatus.Completed));
      ok := Finish(renditions);
    }

    /** The part the completions share: upsert each asset, flush and count, set the video's status,
        commit. False is a rejected flush. */
    method Finish(list: seq<Asset>) returns (ok: bool)
      requires db.Valid() && unsaved == Unsaved([], [])
      modifies db`store, db`commits, this`cache, this`unsaved, this`broken
      ensures db.Valid() && (ok <==> Acceptable(list, old(db.store).assets, db.taken))
      ensures broken == (old(broken) || !ok)
      ensures ok ==> db.store == AfterCompletion(jobType, old(cache), list, old(db.store))
      ensures db.commits == old(db.commits) + if ok then [Transaction(this, db.store)] else []
    {
      for i := 0 to |list|
        invariant unsaved == Upserted(list[..i], db.store.assets)
        invariant db.Valid() && db.store == old(db.store) && db.commits == old(db.commits)
        invariant cache == old(cache) && broken == old(broken)
      {
        assert list[..i + 1][..i] == list[..i];
        UpsertAsset(list[i]);
      }
      assert list[..|list|] == list;
      FlushAllowedIff(list, db.store.assets, db.taken);
      UpsertsOverride(list, db.store.assets);
      var all;
      ok, all := AllJobsCompleted();
      if ok {
        if all {
          cache := cache.(video := cache.video.(status := VideoStatus.Completed));
        }
        CommitWithAssets();
      } else {
        broken := true;
      }
    }

    /** fail_job: this job and the video, no other job row. Its commit also flushes whatever asset
        changes are pending, so it raises if the constraints reject them, or if a flush was
        rejected before. Columns other sessions wrote since this one loaded them stay as they are,
        unless this session has changed them too. */
    method FailJob() returns (ok: bool)
      requires db.Valid()
      modifies db`store, db`commits, this`cache, this`unsaved, this`broken
      ensures db.Valid()
      ensures ok <==>
        && !old(broken)
        && FlushAllowed(old(db.store).assets, old(unsaved).edits, old(unsaved).adds, db.taken)
      ensures old(unsaved) == Unsaved([], []) && !old(broken) ==> ok
      ensures !ok ==> broken && db.store == old(db.store) && db.commits == old(db.commits)
      ensures ok ==>
        && db.store ==
             WithAssets(SaveCache(jobType, Failing(old(cache)), old(db.store)), old(db.store).assets, old(unsaved))
        && db.commits == old(db.commits) + [Transaction(this, db.store)]
        && (forall j :: j != jobType ==> db.store.jobs.Get(j) == old(db.store).jobs.Get(j))
        && (old(cache).videoBase.status != VideoStatus.Failed ==> db.store.video.status == VideoStatus.Failed)
        && (old(cache).jobBase.status != JobStatus.Failed && old(db.store).jobs.Get(jobType).Some? ==>
              db.store.jobs.Get(jobType).Some? && db.store.jobs.Get(jobType).value.status == JobStatus.Failed)
        && (old(cache).video.SameMetadata(old(cache).videoBase) ==> db.store.video.SameMetadata(old(db.store).video))
      ensures ok && Saved(old(cache)) && old(unsaved) == Unsaved([], []) ==>
        db.store == Sessions.FailJob(jobType, old(cache).video, old(cache).job, false, old(db.store)).store
    {
      cache := Failing(cache);
      ok := !broken && FlushAllowed(db.store.assets, unsaved.edits, unsaved.adds, db.taken);
      if ok {
        CommitWithAssets();
      } else {
        broken := true;
      }
    }
  }

  function WithAssets(store: Store, assets: map<AssetType, string>, unsaved: Unsaved): Store {
    store.(assets := Put(Put(assets, unsaved.edits), unsaved.adds))
  }

  predicate Saved(cache: Cache) {
    cache.video == cache.videoBase && cache.job == cache.jobBase
  }

  function Failing(cache: Cache): Cache {
    cache.(video := cache.video.(status := VideoStatus.Failed), job := cache.job.(status := JobStatus.Failed))
  }
}

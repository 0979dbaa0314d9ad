/** What holds of one video's store, and of a live attempt next to it, after every move. */
module SessionInvariant {
  import opened Options
  import opened VideoIds
  import opened Rows
  import opened Sessions

  // ---- The store ----

  ghost predicate MetadataOk(st: Store) {
    if st.Done(Metadata) then st.video.HasMetadata() else st.video.HasNoMetadata()
  }

  ghost predicate AssetsOk(id: VideoId, st: Store) {
    && (forall t :: t in st.assets ==> st.assets[t] == AssetKey(id, t) && st.assets[t] in st.objects)
    && (ThumbnailImage in st.assets <==> st.Done(Thumbnail))
    && (forall t :: t != ThumbnailImage ==>
         (t in st.assets <==> st.Done(Transcode) && st.video.height.Some? && RungHeight(t) < st.video.height.value))
  }

  ghost predicate OrderOk(st: Store) {
    && (st.jobs.transcode.Some? ==> st.Done(Metadata) && st.Done(Thumbnail))
    && (st.Done(Transcode) ==> st.video.height.Some? && st.video.height.value > 0)
    && (st.video.status.Completed? ==> st.Done(Transcode))
  }

  ghost predicate StoreOk(id: VideoId, st: Store) {
    MetadataOk(st) && AssetsOk(id, st) && OrderOk(st)
  }

  // ---- A live attempt ----

  /** Transcode starts only after its two siblings, with the height metadata stored. */
  ghost predicate StageOk(j: JobType, h: int, st: Store) {
    j == Transcode ==> st.Done(Metadata) && st.Done(Thumbnail) && st.video.height == Some(h)
  }

  /** A cached video row may be stale in its status, but not in what its own attempt relies on. */
  ghost predicate CacheOk(j: JobType, v: VideoRow, st: Store) {
    && (v.status.Completed? ==> st.AllDone())
    && (j != Thumbnail ==> v.SameMetadata(st.video))
  }

  ghost predicate ClaimHeld(j: JobType, v: VideoRow, job: JobRow, st: Store) {
    && CacheOk(j, v, st)
    && v.status == VideoStatus.Processing
    && st.jobs.Get(j) == Some(job)
    && job.status == JobStatus.Processing
  }

  /** A claim held while the cached rows carry the changes a completion makes. */
  ghost predicate FinishOk(j: JobType, c: Cache, st: Store) {
    && ClaimHeld(j, c.videoBase, c.jobBase, st)
    && c.job == c.jobBase.(status := JobStatus.Completed)
    && c.video.status == VideoStatus.Processing
    && (if j == Metadata then c.video.HasMetadata() else c.video == c.videoBase)
  }

  ghost predicate UploadsOk(plan: seq<Asset>, j: JobType, h: int, list: seq<Asset>, st: Store) {
    && list <= plan
    && (list != [] ==> !Refused(j, h))
    && forall i :: 0 <= i < |list| ==> list[i].objectKey in st.objects
  }

  ghost predicate LiveOk(plan: seq<Asset>, j: JobType, h: int, pc: Pc, st: Store) {
    && StageOk(j, h, st)
    && match pc
       case Opened => true
       case Loaded(v) => CacheOk(j, v, st)
       case NoRow(v) => CacheOk(j, v, st) && st.jobs.Get(j) == None
       case Lost(v) => false
       case Found(v, job) => CacheOk(j, v, st) && st.jobs.Get(j) == Some(job)
       case Working(v, job, up) => ClaimHeld(j, v, job, st) && UploadsOk(plan, j, h, up, st)
       case Completing(c, list, n, edits, adds) =>
         FinishOk(j, c, st) && !Refused(j, h) && UploadsOk(plan, j, h, list, st) && list == plan
         && n <= |list| && edits == [] && adds == list[..n]
       case Counted(c, edits, adds, count) =>
         FinishOk(j, c, st) && !Refused(j, h) && UploadsOk(plan, j, h, adds, st) && adds == plan
         && edits == [] && (if j == Transcode then count == 3 else count < 3)
       case Returned(m) => st.Done(j) &&
         m == (if j == Metadata && st.video.HasMetadata() then Some(st.video.Stored()) else None)
       case Raised(nonRetryable) => nonRetryable ==> Refused(j, h)
  }

  // ---- What a move of job j may change ----

  ghost predicate Guarantee(j: JobType, st: Store, st': Store) {
    && (forall i :: i != j ==> st'.jobs.Get(i) == st.jobs.Get(i))
    && (st.Done(j) ==> st'.jobs.Get(j) == st.jobs.Get(j))
    && (j != Metadata || st.Done(Metadata) ==> st'.video.SameMetadata(st.video))
    && st.objects <= st'.objects
  }

  /** An attempt is undisturbed by moves of the other job of its stage. */
  lemma Undisturbed(plan: seq<Asset>, j: JobType, h: int, pc: Pc, i: JobType, st: Store, st': Store)
    requires LiveOk(plan, j, h, pc, st)
    requires Guarantee(i, st, st') && i != j
    ensures LiveOk(plan, j, h, pc, st')
  {
    assert st'.jobs.Get(j) == st.jobs.Get(j);
    assert forall k :: st.Done(k) ==> st'.jobs.Get(k) == st.jobs.Get(k);
    if i == Metadata && !st.Done(Metadata) {
      assert j == Thumbnail;
    }
  }

  // ---- Lemmas about the asset table ----

  lemma {:induction false} PutEntry(assets: map<AssetType, string>, list: seq<Asset>, t: AssetType, key: string)
    requires forall i :: 0 <= i < |list| && list[i].assetType == t ==> list[i].objectKey == key
    ensures var after := Put(assets, list);
      && (t in after <==> t in assets || Lists(list, t))
      && (t in after ==> after[t] == if Lists(list, t) then key else assets[t])
  {
    if list == [] {
    } else {
      var front, last := list[..|list| - 1], list[|list| - 1];
      PutEntry(assets, front, t, key);
      if t == last.assetType {
        assert list[|list| - 1].assetType == t;
      } else {
        assert forall i :: 0 <= i < |front| ==> front[i] == list[i];
        assert Lists(front, t) <==> Lists(list, t);
      }
    }
  }

  /** What the planned assets of a job leave in the table. */
  lemma PutPlan(id: VideoId, j: JobType, h: int, assets: map<AssetType, string>)
    ensures var after := Put(assets, Plan(id, j, h));
      && (forall t :: t in after <==> t in assets || Produces(j, h, t))
      && (forall t :: t in after ==> after[t] == if Produces(j, h, t) then AssetKey(id, t) else assets[t])
  {
    PlanProduces(id, j, h);
    var plan := Plan(id, j, h);
    var after := Put(assets, plan);
    forall t
      ensures t in after <==> t in assets || Produces(j, h, t)
      ensures t in after ==> after[t] == if Produces(j, h, t) then AssetKey(id, t) else assets[t]
    {
      PutEntry(assets, plan, t, AssetKey(id, t));
      assert Lists(plan, t) ==> Produces(j, h, t);
    }
  }

  /** The assets a job in progress is about to add are not in the table yet, and no key clashes. */
  lemma PlanIsNew(id: VideoId, j: JobType, h: int, st: Store)
    requires StoreOk(id, st) && StageOk(j, h, st) && !st.Done(j)
    ensures forall i :: 0 <= i < |Plan(id, j, h)| ==> Plan(id, j, h)[i].assetType !in st.assets
  {
    PlanProduces(id, j, h);
  }

  lemma KeysAfterPlan(id: VideoId, j: JobType, h: int, st: Store)
    requires AssetsOk(id, st)
    ensures var after := Put(st.assets, Plan(id, j, h));
      forall t :: t in after ==> after[t] == AssetKey(id, t)
  {
    PutPlan(id, j, h, st.assets);
  }

  // ---- Every move keeps the invariant ----

  lemma ClaimKeeps(id: VideoId, plan: seq<Asset>, j: JobType, h: int, v: VideoRow, job: JobRow, st: Store)
    requires StoreOk(id, st) && LiveOk(plan, j, h, Found(v, job), st)
    ensures var p := FinishClaim(j, v, job, st);
      StoreOk(id, p.store) && LiveOk(plan, j, h, p.pc, p.store) && Guarantee(j, st, p.store)
  {
    var p := FinishClaim(j, v, job, st);
    if !job.status.Completed? {
      assert !st.Done(j);
      assert p.store.jobs.Get(j) == Some(ClaimedJob(job));
      assert !p.store.Done(j);
      assert forall k :: p.store.Done(k) == st.Done(k);
    }
  }

  lemma FailKeeps(
      id: VideoId, plan: seq<Asset>, j: JobType, h: int, v: VideoRow, job: JobRow, up: seq<Asset>, st: Store)
    requires StoreOk(id, st) && LiveOk(plan, j, h, Working(v, job, up), st)
    ensures var p := FailJob(j, v, job, Refused(j, h), st);
      && StoreOk(id, p.store) && LiveOk(plan, j, h, p.pc, p.store) && Guarantee(j, st, p.store)
      && p.store.video.status == VideoStatus.Failed
      && p.store.jobs.Get(j) == Some(job.(status := JobStatus.Failed))
  {
    var p := FailJob(j, v, job, Refused(j, h), st);
    assert forall k :: p.store.Done(k) == st.Done(k);
  }

  lemma UploadKeeps(
      id: VideoId, plan: seq<Asset>, j: JobType, h: int, v: VideoRow, job: JobRow, up: seq<Asset>, st: Store)
    requires StoreOk(id, st) && LiveOk(plan, j, h, Working(v, job, up), st)
    requires !Refused(j, h) && |up| < |plan|
    ensures var p := UploadNext(plan, v, job, up, st);
      StoreOk(id, p.store) && LiveOk(plan, j, h, p.pc, p.store) && Guarantee(j, st, p.store)
  {
  }

  lemma UpsertKeeps(
      id: VideoId, plan: seq<Asset>, j: JobType, h: int, c: Cache, list: seq<Asset>, n: nat, edits: seq<Asset>,
      adds: seq<Asset>, st: Store)
    requires plan == Plan(id, j, h)
    requires StoreOk(id, st) && LiveOk(plan, j, h, Completing(c, list, n, edits, adds), st) && n < |list|
    ensures LiveOk(plan, j, h, UpsertOne(c, list, n, edits, adds, st.assets), st)
    ensures edits == []
  {
    PlanIsNew(id, j, h, st);
    assert list[..n + 1] == list[..n] + [list[n]];
  }

  /** The count a completion reads: exactly three for transcode, at most two for its siblings. */
  lemma CountIsExact(id: VideoId, j: JobType, h: int, c: Cache, st: Store)
    requires StoreOk(id, st) && StageOk(j, h, st) && FinishOk(j, c, st)
    ensures var count := CompletedCount(SaveCache(j, c, st).jobs);
      if j == Transcode then count == 3 else count < 3
  {
    var jobs := SaveCache(j, c, st).jobs;
    assert !st.Done(j);
    assert jobs.Get(j).Some? && jobs.Get(j).value.status.Completed?;
    if j != Transcode {
      assert st.jobs.transcode == None;
      assert jobs.transcode == None;
    }
  }

  /** The planned assets pass both unique constraints unless another video holds one of their keys. */
  lemma PlanPassesFlush(id: VideoId, j: JobType, h: int, taken: set<string>, st: Store)
    requires StoreOk(id, st) && StageOk(j, h, st) && !st.Done(j)
    requires forall t :: AssetKey(id, t) !in taken
    ensures FlushAllowed(st.assets, [], Plan(id, j, h), taken)
  {
    hide AssetKey, Plan, OrderOk, MetadataOk;
    PlanIsNew(id, j, h, st);
    KeysAfterPlan(id, j, h, st);
    PlanProduces(id, j, h);
    var after := Put(st.assets, Plan(id, j, h));
    assert Put(st.assets, []) == st.assets;
    forall s, t | s in after && t in after && s != t ensures after[s] != after[t] {
      if after[s] == after[t] {
        AssetKeyInjective(id, s, id, t);
      }
    }
  }

  lemma CountKeeps(
      id: VideoId, plan: seq<Asset>, j: JobType, h: int, c: Cache, list: seq<Asset>, n: nat, edits: seq<Asset>,
      adds: seq<Asset>, taken: set<string>, st: Store)
    requires plan == Plan(id, j, h)
    requires StoreOk(id, st) && LiveOk(plan, j, h, Completing(c, list, n, edits, adds), st) && n >= |list|
    ensures LiveOk(plan, j, h, FlushAndCount(j, c, edits, adds, taken, st), st)
    ensures (forall t :: AssetKey(id, t) !in taken) ==> FlushAndCount(j, c, edits, adds, taken, st).Counted?
  {
    hide StoreOk, FlushAllowed, AssetKey, Plan, CompletedCount, SaveCache;
    assert list[..|list|] == list;
    CountIsExact(id, j, h, c, st);
    if forall t :: AssetKey(id, t) !in taken {
      PlanPassesFlush(id, j, h, taken, st);
    }
  }

  lemma CommittedAssets(id: VideoId, plan: seq<Asset>, j: JobType, h: int, adds: seq<Asset>, st: Store, st': Store)
    requires StoreOk(id, st) && StageOk(j, h, st) && !st.Done(j)
    requires plan == Plan(id, j, h) && adds == plan && UploadsOk(plan, j, h, adds, st)
    requires st'.Done(j) && (forall k :: k != j ==> st'.Done(k) == st.Done(k))
    requires j == Metadata || st'.video.SameMetadata(st.video)
    requires st'.assets == Put(st.assets, adds) && st'.objects == st.objects
    ensures AssetsOk(id, st')
  {
    PutPlan(id, j, h, st.assets);
    PlanProduces(id, j, h);
    forall t | t in st'.assets ensures st'.assets[t] == AssetKey(id, t) && st'.assets[t] in st'.objects {
      if Produces(j, h, t) {
        var i :| 0 <= i < |adds| && adds[i].assetType == t;
        assert adds[i].objectKey in st.objects;
      }
    }
    if j == Metadata {
      assert st.jobs.transcode == None;
      assert !st'.Done(Transcode);
    }
  }

  lemma CommitKeeps(
      id: VideoId, plan: seq<Asset>, j: JobType, h: int, c: Cache, edits: seq<Asset>, adds: seq<Asset>, count: nat,
      st: Store)
    requires plan == Plan(id, j, h)
    requires StoreOk(id, st) && LiveOk(plan, j, h, Counted(c, edits, adds, count), st)
    ensures var p := CommitCompletion(j, c, edits, adds, count, st);
      && StoreOk(id, p.store) && LiveOk(plan, j, h, p.pc, p.store) && Guarantee(j, st, p.store)
      && (j == Transcode ==> p.store.video.status == VideoStatus.Completed)
      && (j != Transcode ==> p.store.video.status == st.video.status)
  {
    var p := CommitCompletion(j, c, edits, adds, count, st);
    var st' := p.store;
    assert !st.Done(j) && st'.Done(j);
    assert forall k :: k != j ==> st'.jobs.Get(k) == st.jobs.Get(k);
    assert Put(st.assets, edits) == st.assets;
    CommittedAssets(id, plan, j, h, adds, st, st');
    if j == Metadata {
      assert st.jobs.transcode == None;
      assert st'.video.HasMetadata();
      assert p.pc.metadata == Some(st'.video.Stored());
    }
  }

  lemma LookupKeeps(id: VideoId, plan: seq<Asset>, j: JobType, h: int, move: Move, pc: Pc, st: Store, p: Progress)
    requires pc.Opened? || pc.Loaded? || pc.NoRow?
    requires StoreOk(id, st) && LiveOk(plan, j, h, pc, st)
    requires Advance(plan, j, h, move, pc, st) == Some(p)
    ensures StoreOk(id, p.store) && LiveOk(plan, j, h, p.pc, p.store) && Guarantee(j, st, p.store)
    ensures p.pc.Loaded? || p.pc.NoRow? || p.pc.Found?
  {
    if pc.NoRow? {
      assert forall k :: p.store.Done(k) == st.Done(k);
    }
  }

  lemma FinishKeeps(
      plan: seq<Asset>, j: JobType, h: int, v: VideoRow, job: JobRow, up: seq<Asset>, probe: VideoMetadata, st: Store)
    requires LiveOk(plan, j, h, Working(v, job, up), st)
    requires !Refused(j, h) && |up| >= |plan|
    ensures LiveOk(plan, j, h, StartCompleting(j, probe, v, job, up), st)
  {
  }

  lemma NeverLost(plan: seq<Asset>, j: JobType, h: int, pc: Pc, st: Store)
    requires LiveOk(plan, j, h, pc, st)
    ensures !pc.Lost?
  {
  }

  lemma NothingChanges(j: JobType, st: Store)
    ensures Guarantee(j, st, st)
  {
  }

  lemma MoveKeeps(id: VideoId, plan: seq<Asset>, j: JobType, h: int, move: Move, pc: Pc, st: Store, p: Progress)
    requires plan == Plan(id, j, h)
    requires StoreOk(id, st) && LiveOk(plan, j, h, pc, st)
    requires Advance(plan, j, h, move, pc, st) == Some(p)
    ensures StoreOk(id, p.store) && LiveOk(plan, j, h, p.pc, p.store) && Guarantee(j, st, p.store)
  {
    hide StoreOk, LiveOk, Guarantee, Plan;
    NeverLost(plan, j, h, pc, st);
    NothingChanges(j, st);
    match pc
    case Opened => LookupKeeps(id, plan, j, h, move, pc, st, p);
    case Loaded(_) => LookupKeeps(id, plan, j, h, move, pc, st, p);
    case NoRow(_) => LookupKeeps(id, plan, j, h, move, pc, st, p);
    case Found(v, job) => ClaimKeeps(id, plan, j, h, v, job, st);
    case Working(v, job, up) =>
      if move.Upload? {
        UploadKeeps(id, plan, j, h, v, job, up, st);
      } else if move.Fail? {
        FailKeeps(id, plan, j, h, v, job, up, st);
      } else {
        FinishKeeps(plan, j, h, v, job, up, move.probe, st);
      }
    case Completing(c, list, n, edits, adds) =>
      if n < |list| {
        UpsertKeeps(id, plan, j, h, c, list, n, edits, adds, st);
      } else {
        CountKeeps(id, plan, j, h, c, list, n, edits, adds, move.taken, st);
      }
    case Counted(c, edits, adds, n) => CommitKeeps(id, plan, j, h, c, edits, adds, n, st);
    case _ =>
  }
}

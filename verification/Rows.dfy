/** The rows of one video: the `videos`, `processing_jobs` and `generated_assets` tables cut
    down to one video ID, and the objects stored under that video's assets prefix. */
module Rows {
  import opened Options
  import opened VideoIds

  datatype JobType = Metadata | Thumbnail | Transcode
  datatype JobStatus = Pending | Processing | Completed | Failed
  datatype VideoStatus = PendingUpload | Processing | Completed | Failed
  datatype AssetType = ThumbnailImage | Preview1080p | Preview720p | Preview480p

  datatype VideoMetadata = VideoMetadata(durationMs: int, width: int, height: int)

  datatype VideoRow = VideoRow(status: VideoStatus, durationMs: Option<int>, width: Option<int>, height: Option<int>) {
    predicate HasMetadata() {
      durationMs.Some? && width.Some? && height.Some?
    }

    predicate HasNoMetadata() {
      durationMs.None? && width.None? && height.None?
    }

    predicate SameMetadata(other: VideoRow) {
      durationMs == other.durationMs && width == other.width && height == other.height
    }

    function Stored(): VideoMetadata
      requires HasMetadata()
    {
      VideoMetadata(durationMs.value, width.value, height.value)
    }

    function WithMetadata(m: VideoMetadata): VideoRow {
      VideoRow(status, Some(m.durationMs), Some(m.width), Some(m.height))
    }
  }

  datatype JobRow = JobRow(status: JobStatus, attempts: int)

  /** One value per job type; a job row is found by (video, type), so there is at most one. */
  datatype PerJob<T> = PerJob(metadata: T, thumbnail: T, transcode: T) {
    function Get(j: JobType): T {
      match j case Metadata => metadata case Thumbnail => thumbnail case Transcode => transcode
    }

    function Set(j: JobType, x: T): PerJob<T> {
      match j
      case Metadata => this.(metadata := x)
      case Thumbnail => this.(thumbnail := x)
      case Transcode => this.(transcode := x)
    }
  }

  datatype Asset = Asset(assetType: AssetType, objectKey: string)

  datatype Store = Store(
    video: VideoRow,
    jobs: PerJob<Option<JobRow>>,
    assets: map<AssetType, string>,
    objects: set<string>)
  {
    predicate Done(j: JobType) {
      jobs.Get(j).Some? && jobs.Get(j).value.status.Completed?
    }

    predicate AllDone() {
      Done(Metadata) && Done(Thumbnail) && Done(Transcode)
    }
  }

  /** What `create_video` commits. */
  const NEW_STORE := Store(VideoRow(PendingUpload, None, None, None), PerJob(None, None, None), map[], {})

  function CompletedCount(jobs: PerJob<Option<JobRow>>): nat {
    var one := (row: Option<JobRow>) => if row.Some? && row.value.status.Completed? then 1 else 0;
    one(jobs.metadata) + one(jobs.thumbnail) + one(jobs.transcode)
  }

  /** len(JobType.__members__). */
  const JOB_TYPES: nat := 3

  // ---- Renditions and asset keys ----

  datatype Rendition = Rendition(assetType: AssetType, height: int)

  const RENDITIONS := [
    Rendition(Preview1080p, 1080),
    Rendition(Preview720p, 720),
    Rendition(Preview480p, 480)
  ]

  function Below(ladder: seq<Rendition>, sourceHeight: int): seq<Rendition> {
    if ladder == [] then []
    else (if ladder[0].height < sourceHeight then [ladder[0]] else []) + Below(ladder[1..], sourceHeight)
  }

  function RenditionsForSourceHeight(sourceHeight: int): seq<Rendition> {
    Below(RENDITIONS, sourceHeight)
  }

  function TypesOf(renditions: seq<Rendition>): (types: seq<AssetType>)
    ensures |types| == |renditions|
    ensures forall i :: 0 <= i < |types| ==> types[i] == renditions[i].assetType
  {
    seq(|renditions|, i requires 0 <= i < |renditions| => renditions[i].assetType)
  }

  /** The smallest source height that still produces this preview. */
  function RungHeight(t: AssetType): int {
    match t case ThumbnailImage => 0 case Preview1080p => 1080 case Preview720p => 720 case Preview480p => 480
  }

  ghost predicate Distinct<T(!new)>(s: seq<T>) {
    forall i, k :: 0 <= i < k < |s| ==> s[i] != s[k]
  }

  /** Which previews a source gets: exactly the rungs strictly below it, largest first. */
  lemma PreviewTypes(h: int)
    ensures var types := TypesOf(RenditionsForSourceHeight(h));
      && |types| <= 3
      && Distinct(types)
      && (forall i, k :: 0 <= i < k < |types| ==> RungHeight(types[i]) > RungHeight(types[k]))
      && forall t :: t in types <==> t != ThumbnailImage && RungHeight(t) < h
  {
    var types := TypesOf(RenditionsForSourceHeight(h));
    assert RENDITIONS[1..][1..][1..] == [];
    assert Below(RENDITIONS[1..][1..], h) == if 480 < h then [RENDITIONS[2]] else [];
    assert Below(RENDITIONS[1..], h) == (if 720 < h then [RENDITIONS[1]] else []) + Below(RENDITIONS[1..][1..], h);
    if 1080 < h {
      assert types == [Preview1080p, Preview720p, Preview480p];
    } else if 720 < h {
      assert types == [Preview720p, Preview480p];
    } else if 480 < h {
      assert types == [Preview480p];
    } else {
      assert types == [];
    }
  }

  function AssetName(t: AssetType): string {
    match t
    case ThumbnailImage => "thumbnail.jpg"
    case Preview1080p => "preview_1080p.mp4"
    case Preview720p => "preview_720p.mp4"
    case Preview480p => "preview_480p.mp4"
  }

  function AssetKey(id: VideoId, t: AssetType): string {
    "assets/" + Text(id) + "/" + AssetName(t)
  }

  lemma AppendInjective(p: string, r: string, q: string, s: string)
    requires |p| == |q| && p + r == q + s
    ensures p == q && r == s
  {
    assert p == (p + r)[..|p|] && q == (q + s)[..|p|];
    assert r == (p + r)[|p|..] && s == (q + s)[|p|..];
  }

  lemma AssetNameInjective(s: AssetType, t: AssetType)
    requires AssetName(s) == AssetName(t)
    ensures s == t
  {
    assert AssetName(s)[0] == AssetName(t)[0] && AssetName(s)[8] == AssetName(t)[8];
  }

  /** No two (video, type) pairs share an object key. */
  lemma AssetKeyInjective(a: VideoId, s: AssetType, b: VideoId, t: AssetType)
    requires AssetKey(a, s) == AssetKey(b, t)
    ensures a == b && s == t
  {
    AppendInjective("assets/" + Text(a) + "/", AssetName(s), "assets/" + Text(b) + "/", AssetName(t));
    AppendInjective("assets/" + Text(a), "/", "assets/" + Text(b), "/");
    AppendInjective("assets/", Text(a), "assets/", Text(b));
    TextInjective(a, b);
    AssetNameInjective(s, t);
  }

  /** An asset key is in the assets folder of its video, and a preview's file name gives the height
      it is scaled to. */
  lemma AssetKeyNames(id: VideoId)
    ensures AssetKey(id, ThumbnailImage) == "assets/" + Text(id) + "/" + "thumbnail.jpg"
    ensures RungHeight(Preview1080p) == 1080
    ensures AssetKey(id, Preview1080p) == "assets/" + Text(id) + "/" + "preview_1080p.mp4"
    ensures RungHeight(Preview720p) == 720
    ensures AssetKey(id, Preview720p) == "assets/" + Text(id) + "/" + "preview_720p.mp4"
    ensures RungHeight(Preview480p) == 480
    ensures AssetKey(id, Preview480p) == "assets/" + Text(id) + "/" + "preview_480p.mp4"
  {
    hide Text;
  }

  /** The assets one job uploads, in order. */
  function Plan(id: VideoId, j: JobType, sourceHeight: int): seq<Asset> {
    match j
    case Metadata => []
    case Thumbnail => [Asset(ThumbnailImage, AssetKey(id, ThumbnailImage))]
    case Transcode =>
      var types := TypesOf(RenditionsForSourceHeight(sourceHeight));
      seq(|types|, i requires 0 <= i < |types| => Asset(types[i], AssetKey(id, types[i])))
  }

  /** Whether an asset type is the job's to produce for a source of this height. */
  predicate Produces(j: JobType, sourceHeight: int, t: AssetType) {
    match j
    case Metadata => false
    case Thumbnail => t == ThumbnailImage
    case Transcode => t != ThumbnailImage && RungHeight(t) < sourceHeight
  }

  predicate DistinctTypes(list: seq<Asset>) {
    forall i, k :: 0 <= i < k < |list| ==> list[i].assetType != list[k].assetType
  }

  predicate Lists(list: seq<Asset>, t: AssetType) {
    exists i :: 0 <= i < |list| && list[i].assetType == t
  }

  lemma PlanProduces(id: VideoId, j: JobType, h: int)
    ensures var plan := Plan(id, j, h);
      && |plan| <= 3
      && DistinctTypes(plan)
      && (forall i :: 0 <= i < |plan| ==>
          plan[i].objectKey == AssetKey(id, plan[i].assetType) && Produces(j, h, plan[i].assetType))
      && (forall t :: Produces(j, h, t) ==> Lists(plan, t))
  {
    PreviewTypes(h);
    var plan := Plan(id, j, h);
    if j == Transcode {
      var types := TypesOf(RenditionsForSourceHeight(h));
      forall i | 0 <= i < |plan| ensures plan[i].assetType == types[i] && types[i] in types {}
      forall t | Produces(j, h, t) ensures Lists(plan, t) {
        assert t in types;
        var i :| 0 <= i < |types| && types[i] == t;
        assert plan[i].assetType == t;
      }
    } else if j == Thumbnail {
      assert plan[0].assetType == ThumbnailImage;
    }
  }
}

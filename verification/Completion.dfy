/** What the invariant says about reachable states and whole runs of one video. */
module Completion {
  import opened Options
  import opened VideoIds
  import opened Rows
  import opened Sessions
  import opened SessionInvariant
  import opened Workflow
  import opened WorkflowInvariant
  import opened StatusWrites

  // ---- Reachable states ----

  /** `completed` is true: everything the read model shows for it exists. */
  lemma CompletedMeansFinished(id: VideoId, v: Video)
    requires Reachable(id, v) && v.store.video.status.Completed?
    ensures v.store.AllDone()
    ensures v.store.video.HasMetadata() && v.store.video.height.value > 0
    ensures forall t :: t in v.store.assets <==>
      t == ThumbnailImage || t in TypesOf(RenditionsForSourceHeight(v.store.video.height.value))
    ensures forall t :: t in v.store.assets ==>
      v.store.assets[t] == AssetKey(id, t) && AssetKey(id, t) in v.store.objects
  {
    ReachableOk(id, v);
    PreviewTypes(v.store.video.height.value);
  }

  /** The executions under a workflow ID: Failed*, then at most one open or completed. */
  lemma ExecutionShape(id: VideoId, v: Video)
    requires Reachable(id, v)
    ensures forall i :: 0 <= i < |v.executions| - 1 ==> v.executions[i].phase.Failed?
    ensures forall i :: 0 <= i < |v.executions| && v.executions[i].phase.Completed? ==> v.store.AllDone()
    ensures forall i, k, j | 0 <= i < |v.executions| && 0 <= k < |v.executions| ::
      (v.executions[i].activities.Get(j).state.Live? && v.executions[k].activities.Get(j).state.Live? ==> i == k)
  {
    ReachableOk(id, v);
    forall i, j | 0 <= i < |v.executions| && v.executions[i].activities.Get(j).state.Live?
      ensures i == |v.executions| - 1
    {
      assert ExecutionOk(v.executions[i]);
    }
  }

  /** A start call adds an execution exactly when every execution so far has failed, however many
      there are: a new upload and a retry start one, a duplicate of an open or a completed
      execution does not. */
  lemma StartsExactly(id: VideoId, v: Video)
    requires Reachable(id, v)
    ensures (forall i :: 0 <= i < |v.executions| ==> v.executions[i].phase.Failed?)
      ==> AfterStart(v) == v.(executions := v.executions + [NEW_EXECUTION])
    ensures !(forall i :: 0 <= i < |v.executions| ==> v.executions[i].phase.Failed?) ==> AfterStart(v) == v
  {
    hide Reachable, Inv;
    ExecutionShape(id, v);
    if forall i :: 0 <= i < |v.executions| ==> v.executions[i].phase.Failed? {
      FailedMayStart(v.executions);
    }
  }

  /** An execution that failed had settled both parallel activities before it raised. */
  lemma SettledBeforeRaise(id: VideoId, v: Video, i: nat)
    requires Reachable(id, v) && i < |v.executions| && v.executions[i].phase.Failed?
    ensures var a := v.executions[i].activities;
      && a.metadata.Settled() && a.thumbnail.Settled()
      && ((a.metadata.state.Exhausted? || a.thumbnail.state.Exhausted?) ==> a.transcode == Activity(0, Waiting))
      && (a.metadata.state.Succeeded? && a.thumbnail.state.Succeeded? ==> a.transcode.state.Exhausted?)
  {
    ReachableOk(id, v);
    assert ExecutionOk(v.executions[i]);
  }

  /** What a live attempt cannot meet: the metadata job is never completed without stored
      metadata, the job insert never conflicts, only a source height that is not positive is
      reported as not worth retrying, and an attempt about to claim never holds a completed video,
      so claim_job's check for one never decides. */
  lemma ErrorsThatCannotHappen(id: VideoId, v: Video, i: nat, j: JobType)
    requires Reachable(id, v) && i < |v.executions| && v.executions[i].activities.Get(j).state.Live?
    ensures var pc := v.executions[i].activities.Get(j).state.pc;
      && !pc.Lost?
      && (pc == Raised(true) ==> j == Transcode && v.store.video.height.Some? && v.store.video.height.value <= 0)
      && (pc.Found? && j == Metadata && pc.job.status.Completed? ==> pc.video.HasMetadata())
      && (pc.Found? && !pc.job.status.Completed? ==> !pc.video.status.Completed?)
  {
    ReachableOk(id, v);
    LiveAttemptOk(id, v, i, j);
  }

  /** Transcode's completion always counts three, its siblings' never do. */
  lemma CountedJobs(id: VideoId, v: Video, i: nat, j: JobType)
    requires Reachable(id, v) && i < |v.executions| && v.executions[i].activities.Get(j).state.Live?
    requires v.executions[i].activities.Get(j).state.pc.Counted?
    ensures var count := v.executions[i].activities.Get(j).state.pc.count;
      if j == Transcode then count == JOB_TYPES else count < JOB_TYPES
  {
    ReachableOk(id, v);
    LiveAttemptOk(id, v, i, j);
  }

  lemma {:induction false} UsedBound(executions: seq<Execution>, j: JobType)
    requires forall i :: 0 <= i < |executions| ==> ExecutionOk(executions[i])
    ensures TotalUsed(executions, j) <= MAX_ATTEMPTS * |executions|
  {
    if executions == [] {
    } else {
      UsedBound(executions[..|executions| - 1], j);
      assert ExecutionOk(executions[|executions| - 1]);
    }
  }

  /** `attempts` is the number of committed claims, at most three per execution started. */
  lemma AttemptsBound(id: VideoId, v: Video, j: JobType)
    requires Reachable(id, v)
    ensures Attempts(v.store.jobs.Get(j)) == v.claims.Get(j) <= MAX_ATTEMPTS * |v.executions|
  {
    ReachableOk(id, v);
    assert CountsOk(v, j);
    UsedBound(v.executions, j);
  }

  // ---- Runs ----

  /** What no event undoes. */
  ghost predicate Extends(before: Store, after: Store) {
    && (forall j :: before.Done(j) ==> after.jobs.Get(j) == before.jobs.Get(j))
    && (forall j :: before.jobs.Get(j).Some? ==> after.jobs.Get(j).Some?)
    && (forall j :: Attempts(before.jobs.Get(j)) <= Attempts(after.jobs.Get(j)))
    && (before.Done(Metadata) ==> after.video.SameMetadata(before.video))
    && (forall t :: t in before.assets ==> t in after.assets && after.assets[t] == before.assets[t])
    && before.objects <= after.objects
  }

  lemma MoveExtends(id: VideoId, plan: seq<Asset>, j: JobType, h: int, move: Move, pc: Pc, st: Store, p: Progress)
    requires plan == Plan(id, j, h)
    requires StoreOk(id, st) && LiveOk(plan, j, h, pc, st)
    requires Advance(plan, j, h, move, pc, st) == Some(p)
    ensures Extends(st, p.store)
  {
    hide LiveOk, Advance, Plan;
    MoveCounts(plan, j, h, move, pc, st, p, 0);
    MoveKeeps(id, plan, j, h, move, pc, st, p);
    forall k ensures Attempts(st.jobs.Get(k)) <= Attempts(p.store.jobs.Get(k))
      && (st.jobs.Get(k).Some? ==> p.store.jobs.Get(k).Some?)
      && (st.Done(k) ==> p.store.jobs.Get(k) == st.jobs.Get(k))
    {
      if k != j {
        assert p.store.jobs.Get(k) == st.jobs.Get(k);
      }
    }
    assert forall k :: st.Done(k) ==> p.store.Done(k);
  }

  lemma EventExtends(id: VideoId, v: Video, event: Event, v': Video)
    requires Inv(id, v) && Next(id, v, event) == Some(v')
    ensures Extends(v.store, v'.store)
  {
    if event.Act? {
      var e := v.executions[event.i];
      var h, pc := e.Height(), e.activities.Get(event.j).state.pc;
      LiveAttemptOk(id, v, event.i, event.j);
      MoveExtends(id, Plan(id, event.j, h), event.j, h, event.move, pc, v.store,
        Advance(Plan(id, event.j, h), event.j, h, event.move, pc, v.store).value);
    }
  }

  /** A completed job is never left again, the stored metadata never changes, attempts never go
      down, and no asset row or object goes away. */
  lemma {:induction false} NothingIsUndone(
      id: VideoId, v: Video, events: seq<Event>, states: seq<Video>, k: nat, l: nat)
    requires Inv(id, v) && IsRun(id, v, events, states) && k <= l <= |events|
    ensures Extends(states[k].store, states[l].store)
    decreases l
  {
    hide Inv, Next;
    if k == l {
    } else {
      NothingIsUndone(id, v, events, states, k, l - 1);
      RunKeeps(id, v, events, states, l - 1);
      EventExtends(id, states[l - 1], events[l - 1], states[l]);
      ExtendsTransitive(states[k].store, states[l - 1].store, states[l].store);
    }
  }

  lemma ExtendsTransitive(a: Store, b: Store, c: Store)
    requires Extends(a, b) && Extends(b, c)
    ensures Extends(a, c)
  {
    forall j ensures a.Done(j) ==> c.jobs.Get(j) == a.jobs.Get(j) {}
    forall j ensures a.jobs.Get(j).Some? ==> c.jobs.Get(j).Some? {}
    forall j ensures Attempts(a.jobs.Get(j)) <= Attempts(c.jobs.Get(j)) {
      assert Attempts(a.jobs.Get(j)) <= Attempts(b.jobs.Get(j));
    }
    assert a.Done(Metadata) ==> b.Done(Metadata);
  }

  /** A video whose stored height is not positive never completes, however often it is retried. */
  lemma UnusableHeightNeverCompletes(id: VideoId, v: Video, events: seq<Event>, states: seq<Video>, k: nat)
    requires Reachable(id, v) && v.store.Done(Metadata)
    requires v.store.video.height.Some? && v.store.video.height.value <= 0
    requires IsRun(id, v, events, states) && k <= |events|
    ensures !states[k].store.Done(Transcode) && !states[k].store.video.status.Completed?
  {
    ReachableOk(id, v);
    NothingIsUndone(id, v, events, states, 0, k);
    RunKeeps(id, v, events, states, k);
  }

  /** The only event that makes a video `completed` is transcode's final commit. */
  lemma OnlyTranscodeCompletes(id: VideoId, v: Video, event: Event, v': Video)
    requires Reachable(id, v) && Next(id, v, event) == Some(v')
    requires !v.store.video.status.Completed? && v'.store.video.status.Completed?
    ensures event.Act? && event.j == Transcode && event.move.Commit?
    ensures !v.store.Done(Transcode) && v'.store.AllDone()
  {
    ReachableOk(id, v);
    EventWrites(id, v, event, v');
    EventKeeps(id, v, event, v');
  }

  lemma OnlyStartActsOnNew(id: VideoId, event: Event, v: Video)
    requires Next(id, NEW_VIDEO, event) == Some(v)
    ensures event.Start? && v.executions != []
  {
  }

  lemma ExecutionsStay(id: VideoId, v: Video, event: Event, v': Video)
    requires Next(id, v, event) == Some(v')
    ensures |v.executions| <= |v'.executions|
  {
  }

  lemma {:induction false} UnstartedInRun(id: VideoId, events: seq<Event>, states: seq<Video>, k: nat)
    requires IsRun(id, NEW_VIDEO, events, states) && k <= |events| && states[k].executions == []
    ensures states[k] == NEW_VIDEO
  {
    hide Next;
    if k == 0 {
    } else {
      ExecutionsStay(id, states[k - 1], events[k - 1], states[k]);
      UnstartedInRun(id, events, states, k - 1);
      OnlyStartActsOnNew(id, events[k - 1], states[k]);
    }
  }

  /** Until its first execution starts nothing at all has happened to a video. */
  lemma UnstartedIsNew(id: VideoId, v: Video)
    requires Reachable(id, v) && v.executions == []
    ensures v == NEW_VIDEO
  {
    hide Next;
    var events, states :| IsRun(id, NEW_VIDEO, events, states) && states[|events|] == v;
    UnstartedInRun(id, events, states, |events|);
  }

  // ---- What ffprobe reported ----

  /** One of the first k events is ffprobe's report of exactly these three values. */
  ghost predicate Reported(events: seq<Event>, k: nat, video: VideoRow)
    requires k <= |events|
  {
    exists l :: 0 <= l < k && Reports(events[l], video)
  }

  predicate Reports(event: Event, video: VideoRow) {
    && event.Act? && event.j == Metadata && event.move.Finish?
    && video.durationMs == Some(event.move.probe.durationMs)
    && video.width == Some(event.move.probe.width)
    && video.height == Some(event.move.probe.height)
  }

  predicate HoldsReport(pc: Pc) {
    pc.Completing? || pc.Counted?
  }

  ghost predicate ReportsOk(events: seq<Event>, k: nat, v: Video)
    requires k <= |events|
  {
    && (v.store.Done(Metadata) ==> Reported(events, k, v.store.video))
    && forall i | 0 <= i < |v.executions| ::
         var s := v.executions[i].activities.Get(Metadata).state;
         s.Live? && HoldsReport(s.pc) ==> Reported(events, k, s.pc.cache.video)
  }

  /** Where the metadata a move leaves in its cache or in the store comes from. */
  lemma MoveReports(
      id: VideoId, plan: seq<Asset>, i: nat, j: JobType, h: int, move: Move, pc: Pc, st: Store, p: Progress)
    requires plan == Plan(id, j, h)
    requires StoreOk(id, st) && LiveOk(plan, j, h, pc, st)
    requires Advance(plan, j, h, move, pc, st) == Some(p)
    ensures j == Metadata && HoldsReport(p.pc) ==>
      || Reports(Act(i, j, move), p.pc.cache.video)
      || (HoldsReport(pc) && p.pc.cache.video == pc.cache.video)
    ensures p.store.Done(Metadata) ==>
      || (st.Done(Metadata) && p.store.video.SameMetadata(st.video))
      || (j == Metadata && HoldsReport(pc) && p.store.video.SameMetadata(pc.cache.video))
  {
    hide AssetsOk, OrderOk, UploadsOk, Plan, FlushAllowed, Put;
    MoveDoesNotComplete(plan, j, h, move, pc, st, p);
  }

  /** Only a completion's commit completes a job, and only metadata's writes the three columns. */
  lemma MoveDoesNotComplete(plan: seq<Asset>, j: JobType, h: int, move: Move, pc: Pc, st: Store, p: Progress)
    requires LiveOk(plan, j, h, pc, st) && Advance(plan, j, h, move, pc, st) == Some(p)
    ensures !pc.Counted? ==> p.store.Done(Metadata) == st.Done(Metadata) && p.store.video.SameMetadata(st.video)
  {
    hide StageOk, UploadsOk, FlushAllowed, Put;
  }

  lemma ReportStays(events: seq<Event>, k: nat, l: nat, a: VideoRow, b: VideoRow)
    requires k <= l <= |events| && Reported(events, k, a) && b.SameMetadata(a)
    ensures Reported(events, l, b)
  {
    var n :| 0 <= n < k && Reports(events[n], a);
    assert Reports(events[n], b);
  }

  lemma EventReports(id: VideoId, events: seq<Event>, k: nat, v: Video, v': Video)
    requires k < |events| && Inv(id, v) && ReportsOk(events, k, v) && Next(id, v, events[k]) == Some(v')
    ensures ReportsOk(events, k + 1, v')
  {
    hide Inv, Reported;
    var event := events[k];
    if event.Act? {
      var e := v.executions[event.i];
      var h, pc := e.Height(), e.activities.Get(event.j).state.pc;
      LiveAttemptOk(id, v, event.i, event.j);
      StoreIsOk(id, v);
      ActReports(id, events, k, v, v', h, pc, Advance(Plan(id, event.j, h), event.j, h, event.move, pc, v.store).value);
    } else {
      OtherEventReports(id, events, k, v, v');
    }
  }

  lemma StoreIsOk(id: VideoId, v: Video)
    requires Inv(id, v)
    ensures StoreOk(id, v.store)
  {
  }

  lemma ActReports(id: VideoId, events: seq<Event>, k: nat, v: Video, v': Video, h: int, pc: Pc, p: Progress)
    requires k < |events| && ReportsOk(events, k, v) && events[k].Act? && events[k].i < |v.executions|
    requires var e, a := v.executions[events[k].i], v.executions[events[k].i].activities.Get(events[k].j);
      && a.state == Live(pc) && h == e.Height()
      && v' == AfterMove(v, events[k].i, events[k].j, a, p)
    requires var plan := Plan(id, events[k].j, h);
      && StoreOk(id, v.store) && LiveOk(plan, events[k].j, h, pc, v.store)
      && Advance(plan, events[k].j, h, events[k].move, pc, v.store) == Some(p)
    ensures ReportsOk(events, k + 1, v')
  {
    hide StoreOk, LiveOk, Advance, Plan, Reported;
    var i, j := events[k].i, events[k].j;
    MoveReports(id, Plan(id, j, h), i, j, h, events[k].move, pc, v.store, p);
    if v'.store.Done(Metadata) {
      var kept := v.store.Done(Metadata) && p.store.video.SameMetadata(v.store.video);
      var from := if kept then v.store.video else pc.cache.video;
      assert Reported(events, k, from);
      ReportStays(events, k, k + 1, from, v'.store.video);
    }
    forall n | 0 <= n < |v'.executions|
      ensures var s := v'.executions[n].activities.Get(Metadata).state;
        s.Live? && HoldsReport(s.pc) ==> Reported(events, k + 1, s.pc.cache.video)
    {
      var s := v'.executions[n].activities.Get(Metadata).state;
      if s.Live? && HoldsReport(s.pc) {
        if n == i && j == Metadata {
          if Reports(events[k], s.pc.cache.video) {
            NewReport(events, k, s.pc.cache.video);
          } else {
            ReportStays(events, k, k + 1, pc.cache.video, s.pc.cache.video);
          }
        } else {
          assert v.executions[n].activities.Get(Metadata).state == s;
          ReportStays(events, k, k + 1, s.pc.cache.video, s.pc.cache.video);
        }
      }
    }
  }

  lemma NewReport(events: seq<Event>, k: nat, video: VideoRow)
    requires k < |events| && Reports(events[k], video)
    ensures Reported(events, k + 1, video)
  {
  }

  lemma OtherEventReports(id: VideoId, events: seq<Event>, k: nat, v: Video, v': Video)
    requires k < |events| && ReportsOk(events, k, v) && !events[k].Act? && Next(id, v, events[k]) == Some(v')
    ensures ReportsOk(events, k + 1, v')
  {
    hide Next, Reported;
    OtherEventsHoldNothingNew(id, v, events[k], v');
    if v'.store.Done(Metadata) {
      ReportStays(events, k, k + 1, v.store.video, v'.store.video);
    }
    forall n | 0 <= n < |v'.executions|
      ensures var s := v'.executions[n].activities.Get(Metadata).state;
        s.Live? && HoldsReport(s.pc) ==> Reported(events, k + 1, s.pc.cache.video)
    {
      var s := v'.executions[n].activities.Get(Metadata).state;
      if s.Live? && HoldsReport(s.pc) {
        ReportStays(events, k, k + 1, s.pc.cache.video, s.pc.cache.video);
      }
    }
  }

  lemma OtherEventsHoldNothingNew(id: VideoId, v: Video, event: Event, v': Video)
    requires !event.Act? && Next(id, v, event) == Some(v')
    ensures v'.store.jobs == v.store.jobs && v'.store.video.SameMetadata(v.store.video)
    ensures forall i | 0 <= i < |v'.executions| ::
      var s := v'.executions[i].activities.Get(Metadata).state;
      (s.Live? && HoldsReport(s.pc) ==> i < |v.executions| && v.executions[i].activities.Get(Metadata).state == s)
  {
  }

  lemma {:induction false} ReportsInRun(id: VideoId, events: seq<Event>, states: seq<Video>, k: nat)
    requires IsRun(id, NEW_VIDEO, events, states) && k <= |events|
    ensures ReportsOk(events, k, states[k])
  {
    hide Inv, Next, Reported;
    if k == 0 {
    } else {
      NewVideoOk(id);
      ReportsInRun(id, events, states, k - 1);
      RunKeeps(id, NEW_VIDEO, events, states, k - 1);
      EventReports(id, events, k - 1, states[k - 1], states[k]);
    }
  }

  /** The stored duration, width and height are, each in its own column, what ffprobe reported in
      one earlier attempt of the metadata activity. */
  lemma MetadataIsProbed(id: VideoId, events: seq<Event>, states: seq<Video>, k: nat)
    requires IsRun(id, NEW_VIDEO, events, states) && k <= |events| && states[k].store.Done(Metadata)
    ensures exists l | 0 <= l < k ::
      && events[l].Act? && events[l].j == Metadata && events[l].move.Finish?
      && states[k].store.video.durationMs == Some(events[l].move.probe.durationMs)
      && states[k].store.video.width == Some(events[l].move.probe.width)
      && states[k].store.video.height == Some(events[l].move.probe.height)
  {
    hide Next;
    ReportsInRun(id, events, states, k);
    var l :| 0 <= l < k && Reports(events[l], states[k].store.video);
  }

  // ---- Completion and late retry calls ----

  /** A retry call that had read `failed` commits after the video was finished. */
  predicate LateRetry(event: Event, state: Video) {
    event.RetryCommit? && state.store.Done(Transcode)
  }

  /** A finished video reads `completed` exactly when no late retry call committed; otherwise it
      reads `processing`. */
  lemma {:induction false} FinishedStatus(id: VideoId, events: seq<Event>, states: seq<Video>, k: nat)
    requires IsRun(id, NEW_VIDEO, events, states) && k <= |events| && states[k].store.Done(Transcode)
    ensures states[k].store.video.status.Completed? <==> forall l :: 0 <= l < k ==> !LateRetry(events[l], states[l])
    ensures states[k].store.video.status.Completed? || states[k].store.video.status == VideoStatus.Processing
  {
    hide Inv, Next, WrittenByMove, Reachable;
    assert k > 0;
    NewVideoOk(id);
    RunKeeps(id, NEW_VIDEO, events, states, k - 1);
    EventWrites(id, states[k - 1], events[k - 1], states[k]);
    if states[k - 1].store.Done(Transcode) {
      FinishedStatus(id, events, states, k - 1);
      assert LateRetry(events[k - 1], states[k - 1]) <==> events[k - 1].RetryCommit?;
    } else {
      forall l | 0 <= l < k ensures !LateRetry(events[l], states[l]) {
        NothingIsUndone(id, NEW_VIDEO, events, states, l, k - 1);
      }
    }
  }

  lemma OverwrittenStep(id: VideoId, v: Video, event: Event, v': Video)
    requires Inv(id, v) && Next(id, v, event) == Some(v')
    requires v.store.Done(Transcode) && v.store.video.status == VideoStatus.Processing
    ensures v'.store.Done(Transcode) && v'.store.video.status == VideoStatus.Processing
  {
    EventWrites(id, v, event, v');
    EventExtends(id, v, event, v');
  }

  lemma {:induction false} OverwrittenStays(id: VideoId, v: Video, events: seq<Event>, states: seq<Video>, k: nat)
    requires Inv(id, v) && IsRun(id, v, events, states) && k <= |events|
    requires v.store.Done(Transcode) && v.store.video.status == VideoStatus.Processing
    ensures states[k].store.Done(Transcode) && states[k].store.video.status == VideoStatus.Processing
  {
    hide Inv, Next;
    if k == 0 {
    } else {
      OverwrittenStays(id, v, events, states, k - 1);
      RunKeeps(id, v, events, states, k - 1);
      OverwrittenStep(id, states[k - 1], events[k - 1], states[k]);
    }
  }

  /** After a late retry call the video reads `processing` in every continuation, and no further
      retry call is accepted. */
  lemma OverwrittenForGood(id: VideoId, v: Video, events: seq<Event>, states: seq<Video>, k: nat)
    requires Reachable(id, v) && IsRun(id, v, events, states) && k <= |events|
    requires v.store.Done(Transcode) && !v.store.video.status.Completed?
    ensures states[k].store.video.status == VideoStatus.Processing
    ensures Next(id, states[k], RetryCheck) == None
  {
    hide Inv, Reachable, IsRun;
    ReachableOk(id, v);
    FinishedReads(id, v);
    OverwrittenStays(id, v, events, states, k);
  }

  lemma FinishedReads(id: VideoId, v: Video)
    requires Reachable(id, v) && v.store.Done(Transcode) && !v.store.video.status.Completed?
    ensures v.store.video.status == VideoStatus.Processing
  {
    hide Inv, Next;
    var events, states :| IsRun(id, NEW_VIDEO, events, states) && states[|events|] == v;
    FinishedStatus(id, events, states, |events|);
  }
}

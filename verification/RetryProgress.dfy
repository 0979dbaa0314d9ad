/** From a failed execution, a fresh one that meets no fault completes the video, doing the work of
    exactly the jobs that were not completed before. */
module RetryProgress {
  import opened Options
  import opened VideoIds
  import opened Rows
  import opened Sessions
  import opened SessionInvariant
  import opened Workflow
  import opened WorkflowInvariant
  import opened StatusWrites
  import opened Completion
  import opened Termination
  import opened Closing

  /** Nothing crashes, no work raises, ffprobe reports a usable height, no retry call commits. */
  ghost predicate FaultFree(id: VideoId, event: Event) {
    && Calm(id, event)
    && (event.Act? ==> !event.move.Fail? && (event.j == Metadata && event.move.Finish? ==> event.move.probe.height > 0))
  }

  // ---- One activity of the fresh execution ----

  /** `was`: the job was completed before. `claims`: claims committed since. */
  ghost predicate Healthy(j: JobType, was: bool, a: Activity, st: Store, claims: int) {
    match a.state
    case Waiting => a.used == 0 && claims == 0 && st.Done(j) == was
    case Live(pc) =>
      && !pc.Raised?
      && (if Unclaimed(a.state) then claims == 0 && st.Done(j) == was
          else if pc.Returned? then claims == if was then 0 else 1
          else claims == 1 && !was)
      && (j == Metadata && pc.Completing? ==> pc.cache.video.height.Some? && pc.cache.video.height.value > 0)
      && (j == Metadata && pc.Counted? ==> pc.cache.video.height.Some? && pc.cache.video.height.value > 0)
    case Succeeded(_) => claims == if was then 0 else 1
    case Exhausted => false
  }

  ghost predicate HeightUsable(st: Store) {
    st.Done(Metadata) ==> st.video.height.Some? && st.video.height.value > 0
  }

  lemma HealthyClaim(
      id: VideoId, plan: seq<Asset>, j: JobType, h: int, move: Move, pc: Pc, st: Store, p: Progress, was: bool,
      used: nat, claims: int)
    requires !pc.Working? && !pc.Completing? && !pc.Counted?
    requires StoreOk(id, st) && LiveOk(plan, j, h, pc, st) && HeightUsable(st)
    requires Advance(plan, j, h, move, pc, st) == Some(p)
    requires Healthy(j, was, Activity(used, Live(pc)), st, claims)
    ensures Healthy(j, was, Activity(used, Live(p.pc)), p.store, claims + if pc.Found? && p.pc.Working? then 1 else 0)
    ensures HeightUsable(p.store)
  {
    hide AssetsOk, OrderOk;
    if pc.NoRow? {
      assert p.store.Done(j) == st.Done(j);
    }
  }

  lemma HealthyWork(
      plan: seq<Asset>, j: JobType, h: int, move: Move, v: VideoRow, job: JobRow, up: seq<Asset>, st: Store,
      p: Progress, was: bool, used: nat, claims: int)
    requires HeightUsable(st) && Advance(plan, j, h, move, Working(v, job, up), st) == Some(p)
    requires !move.Fail? && (j == Metadata && move.Finish? ==> move.probe.height > 0)
    requires Healthy(j, was, Activity(used, Live(Working(v, job, up))), st, claims)
    ensures Healthy(j, was, Activity(used, Live(p.pc)), p.store, claims)
    ensures HeightUsable(p.store)
  {
  }

  lemma HealthyCompleting(
      id: VideoId, plan: seq<Asset>, j: JobType, h: int, move: Move, c: Cache, list: seq<Asset>, n: nat,
      edits: seq<Asset>, adds: seq<Asset>, st: Store, p: Progress, was: bool, used: nat, claims: int)
    requires plan == Plan(id, j, h)
    requires StoreOk(id, st) && LiveOk(plan, j, h, Completing(c, list, n, edits, adds), st) && HeightUsable(st)
    requires Advance(plan, j, h, move, Completing(c, list, n, edits, adds), st) == Some(p)
    requires move.Count? ==> forall t :: AssetKey(id, t) !in move.taken
    requires Healthy(j, was, Activity(used, Live(Completing(c, list, n, edits, adds))), st, claims)
    ensures Healthy(j, was, Activity(used, Live(p.pc)), p.store, claims)
    ensures HeightUsable(p.store)
  {
    hide Plan, StoreOk, LiveOk, FlushAllowed;
    if n >= |list| {
      CountKeeps(id, plan, j, h, c, list, n, edits, adds, move.taken, st);
    }
  }

  lemma HealthyCommit(
      id: VideoId, plan: seq<Asset>, j: JobType, h: int, c: Cache, edits: seq<Asset>, adds: seq<Asset>, count: nat,
      st: Store, was: bool, used: nat, claims: int)
    requires plan == Plan(id, j, h)
    requires StoreOk(id, st) && LiveOk(plan, j, h, Counted(c, edits, adds, count), st) && HeightUsable(st)
    requires Healthy(j, was, Activity(used, Live(Counted(c, edits, adds, count))), st, claims)
    ensures var p := CommitCompletion(j, c, edits, adds, count, st);
      Healthy(j, was, Activity(used, Live(p.pc)), p.store, claims) && HeightUsable(p.store)
  {
    hide Plan, StoreOk, AssetsOk;
    CommitKeeps(id, plan, j, h, c, edits, adds, count, st);
  }

  lemma HealthyMove(
      id: VideoId, plan: seq<Asset>, j: JobType, h: int, move: Move, pc: Pc, st: Store, p: Progress, was: bool,
      used: nat, claims: int)
    requires plan == Plan(id, j, h)
    requires StoreOk(id, st) && LiveOk(plan, j, h, pc, st) && HeightUsable(st)
    requires Advance(plan, j, h, move, pc, st) == Some(p)
    requires !move.Fail? && (j == Metadata && move.Finish? ==> move.probe.height > 0)
    requires move.Count? ==> forall t :: AssetKey(id, t) !in move.taken
    requires Healthy(j, was, Activity(used, Live(pc)), st, claims)
    ensures Healthy(j, was, Activity(used, Live(p.pc)), p.store, claims + if pc.Found? && p.pc.Working? then 1 else 0)
    ensures HeightUsable(p.store)
  {
    hide Plan, StoreOk, Healthy, LiveOk;
    match pc
    case Completing(c, list, n, edits, adds) =>
      HealthyCompleting(id, plan, j, h, move, c, list, n, edits, adds, st, p, was, used, claims);
    case Counted(c, edits, adds, n) =>
      HealthyCommit(id, plan, j, h, c, edits, adds, n, st, was, used, claims);
    case Working(v, job, up) =>
      HealthyWork(plan, j, h, move, v, job, up, st, p, was, used, claims);
    case _ =>
      HealthyClaim(id, plan, j, h, move, pc, st, p, was, used, claims);
  }

  lemma HealthyUndisturbed(j: JobType, was: bool, a: Activity, st: Store, st': Store, claims: int)
    requires Healthy(j, was, a, st, claims) && st'.jobs.Get(j) == st.jobs.Get(j)
    ensures Healthy(j, was, a, st', claims)
  {
  }

  // ---- The fresh execution ----

  function NewClaims(before: Video, v: Video, j: JobType): int {
    v.claims.Get(j) - before.claims.Get(j)
  }

  ghost predicate AllHealthy(before: Video, v: Video)
    requires v.executions != []
  {
    forall k :: Healthy(k, before.store.Done(k), Last(v).activities.Get(k), v.store, NewClaims(before, v, k))
  }

  /** `v` is the video some fault-free events after `before` was given a fresh execution. */
  ghost predicate OnTrack(before: Video, v: Video) {
    && |v.executions| == |before.executions| + 1
    && !Last(v).phase.Failed?
    && HeightUsable(v.store)
    && AllHealthy(before, v)
    && (!before.store.Done(Transcode) && v.store.Done(Transcode) ==> v.store.video.status.Completed?)
  }

  lemma StartsOnTrack(before: Video)
    requires MayStart(before.executions) && HeightUsable(before.store)
    ensures OnTrack(before, AfterStart(before))
  {
    assert Last(AfterStart(before)) == NEW_EXECUTION;
  }

  lemma ActStaysHealthy(id: VideoId, before: Video, v: Video, event: Event, v': Video)
    requires Inv(id, v) && OnTrack(before, v) && event.Act?
    requires FaultFree(id, event) && Next(id, v, event) == Some(v')
    ensures v'.executions != [] && HeightUsable(v'.store) && AllHealthy(before, v')
  {
    hide Inv, StoreOk, LiveOk, Advance, Plan;
    var i, j := event.i, event.j;
    LiveAttemptOk(id, v, i, j);
    StoreIsOk(id, v);
    var e := v.executions[i];
    var a, h := e.activities.Get(j), e.Height();
    var plan := Plan(id, j, h);
    var p := Advance(plan, j, h, event.move, a.state.pc, v.store).value;
    MoveKeeps(id, plan, j, h, event.move, a.state.pc, v.store, p);
    HealthyMove(id, plan, j, h, event.move, a.state.pc, v.store, p, before.store.Done(j), a.used,
      NewClaims(before, v, j));
    forall k ensures Healthy(k, before.store.Done(k), Last(v').activities.Get(k), v'.store, NewClaims(before, v', k)) {
      if k != j {
        assert Last(v').activities.Get(k) == Last(v).activities.Get(k);
        HealthyUndisturbed(k, before.store.Done(k), Last(v).activities.Get(k), v.store, v'.store,
          NewClaims(before, v, k));
      }
    }
  }

  lemma StaysOnTrack(id: VideoId, before: Video, v: Video, event: Event, v': Video)
    requires Inv(id, v) && OnTrack(before, v)
    requires FaultFree(id, event) && Next(id, v, event) == Some(v')
    ensures OnTrack(before, v')
  {
    hide Inv, Healthy, AllHealthy, Advance, Plan, Honest;
    EventWrites(id, v, event, v');
    if event.Act? {
      ActStaysHealthy(id, before, v, event, v');
      ActKeepsPhase(id, v, event, v');
    } else {
      OtherEventsStayHealthy(id, before, v, event, v');
    }
  }

  lemma ActKeepsPhase(id: VideoId, v: Video, event: Event, v': Video)
    requires event.Act? && v.executions != [] && Next(id, v, event) == Some(v')
    ensures |v'.executions| == |v.executions| && Last(v').phase == Last(v).phase
  {
  }

  lemma ReplaceHealthy(before: Video, v: Video, j: JobType, a: Activity, v': Video)
    requires v.executions != [] && AllHealthy(before, v)
    requires v' == WithActivity(v, |v.executions| - 1, j, a)
    requires Healthy(j, before.store.Done(j), a, v.store, NewClaims(before, v, j))
    ensures AllHealthy(before, v') && Last(v').phase == Last(v).phase
  {
    forall k ensures Healthy(k, before.store.Done(k), Last(v').activities.Get(k), v'.store, NewClaims(before, v', k)) {
      assert Healthy(k, before.store.Done(k), Last(v).activities.Get(k), v.store, NewClaims(before, v, k));
      assert k != j ==> Last(v').activities.Get(k) == Last(v).activities.Get(k);
    }
  }

  lemma SettleStaysHealthy(before: Video, v: Video, e: Execution)
    requires v.executions != [] && AllHealthy(before, v) && AfterSettle(Last(v)) == Some(e)
    ensures !e.phase.Failed? && e.activities == Last(v).activities
  {
    var a := Last(v).activities;
    assert Healthy(Metadata, before.store.Done(Metadata), a.Get(Metadata), v.store, NewClaims(before, v, Metadata));
    assert Healthy(Thumbnail, before.store.Done(Thumbnail), a.Get(Thumbnail), v.store, NewClaims(before, v, Thumbnail));
    assert Healthy(Transcode, before.store.Done(Transcode), a.Get(Transcode), v.store, NewClaims(before, v, Transcode));
  }

  lemma OtherEventsStayHealthy(id: VideoId, before: Video, v: Video, event: Event, v': Video)
    requires Inv(id, v) && v.executions != [] && AllHealthy(before, v) && !Last(v).phase.Failed? && !event.Act?
    requires FaultFree(id, event) && Next(id, v, event) == Some(v')
    ensures |v'.executions| == |v.executions| && !Last(v').phase.Failed? && v'.store == v.store
    ensures AllHealthy(before, v')
  {
    hide Inv, Healthy, AllHealthy, Advance, Honest;
    match event
    case Dispatch(i, j) =>
      OpenIsLastOf(id, v, i);
      HealthyOf(before, v, j);
      DispatchHealthy(j, before.store.Done(j), Last(v).activities.Get(j), v.store, NewClaims(before, v, j));
      ReplaceHealthy(before, v, j, Activity(Last(v).activities.Get(j).used + 1, Live(Opened)), v');
    case Report(i, j) =>
      OpenIsLastOf(id, v, i);
      HealthyOf(before, v, j);
      ReportHealthy(j, before.store.Done(j), Last(v).activities.Get(j), v.store, NewClaims(before, v, j));
      ReplaceHealthy(before, v, j, AfterReport(Last(v).activities.Get(j)).value, v');
    case Settle(i) =>
      OpenIsLastOf(id, v, i);
      SettleStaysHealthy(before, v, AfterSettle(Last(v)).value);
      SameActivities(before, v, v');
    case Start => assert v' == v;
    case _ => SameActivities(before, v, v');
  }

  lemma HealthyOf(before: Video, v: Video, j: JobType)
    requires v.executions != [] && AllHealthy(before, v)
    ensures Healthy(j, before.store.Done(j), Last(v).activities.Get(j), v.store, NewClaims(before, v, j))
  {
  }

  lemma SameActivities(before: Video, v: Video, v': Video)
    requires v.executions != [] && v'.executions != [] && AllHealthy(before, v)
    requires Last(v').activities == Last(v).activities && v'.store == v.store && v'.claims == v.claims
    ensures AllHealthy(before, v')
  {
    forall k ensures Healthy(k, before.store.Done(k), Last(v').activities.Get(k), v'.store, NewClaims(before, v', k)) {
      HealthyOf(before, v, k);
    }
  }

  lemma DispatchHealthy(j: JobType, was: bool, a: Activity, st: Store, claims: int)
    requires Healthy(j, was, a, st, claims) && a.state.Waiting?
    ensures Healthy(j, was, Activity(a.used + 1, Live(Opened)), st, claims)
  {
  }

  lemma ReportHealthy(j: JobType, was: bool, a: Activity, st: Store, claims: int)
    requires Healthy(j, was, a, st, claims) && AfterReport(a).Some?
    ensures Healthy(j, was, AfterReport(a).value, st, claims)
  {
  }

  // ---- Outcomes ----

  lemma {:induction false} RunStaysOnTrack(
      id: VideoId, before: Video, v: Video, events: seq<Event>, states: seq<Video>, k: nat)
    requires Inv(id, v) && OnTrack(before, v) && IsRun(id, v, events, states) && k <= |events|
    requires forall l :: 0 <= l < |events| ==> FaultFree(id, events[l])
    ensures OnTrack(before, states[k])
  {
    hide Inv, Next, OnTrack, FaultFree;
    if k == 0 {
    } else {
      RunStaysOnTrack(id, before, v, events, states, k - 1);
      RunKeeps(id, v, events, states, k - 1);
      StaysOnTrack(id, before, states[k - 1], events[k - 1], states[k]);
    }
  }

  /** What a fault-free execution did when it closes: it did not fail, every job is completed, and
      exactly the jobs not completed before were claimed, once each. */
  ghost predicate FinishedCleanly(before: Video, v: Video) {
    && v.store.AllDone()
    && (forall j :: v.claims.Get(j) == before.claims.Get(j) + if before.store.Done(j) then 0 else 1)
    && (!before.store.Done(Transcode) ==> v.store.video.status.Completed?)
  }

  lemma ClosedOnTrack(id: VideoId, before: Video, v: Video)
    requires Inv(id, v) && OnTrack(before, v) && !Last(v).Open()
    ensures Last(v).phase.Completed? && FinishedCleanly(before, v)
  {
    assert ExecutionOk(Last(v));
    forall j ensures v.claims.Get(j) == before.claims.Get(j) + if before.store.Done(j) then 0 else 1 {
      assert Healthy(j, before.store.Done(j), Last(v).activities.Get(j), v.store, NewClaims(before, v, j));
      assert Last(v).activities.Get(j).state.Succeeded?;
    }
  }

  /** Every fault-free run of a fresh execution can only end in completion. */
  lemma FaultFreeOutcome(id: VideoId, before: Video, events: seq<Event>, states: seq<Video>)
    requires Reachable(id, before) && HeightUsable(before.store)
    requires forall i :: 0 <= i < |before.executions| ==> before.executions[i].phase.Failed?
    requires IsRun(id, AfterStart(before), events, states)
    requires forall l :: 0 <= l < |events| ==> FaultFree(id, events[l])
    ensures var end := states[|events|];
      && |end.executions| == |before.executions| + 1
      && (!Last(end).Open() ==> Last(end).phase.Completed? && FinishedCleanly(before, end))
  {
    hide Inv, Next, FaultFree, FinishedCleanly;
    ReachableOk(id, before);
    StartKeeps(id, before);
    FailedMayStart(before.executions);
    StartsOnTrack(before);
    RunStaysOnTrack(id, before, AfterStart(before), events, states, |events|);
    RunKeeps(id, AfterStart(before), events, states, |events|);
    if !Last(states[|events|]).Open() {
      ClosedOnTrack(id, before, states[|events|]);
    }
  }

  lemma NotRefused(id: VideoId, before: Video, v: Video, i: nat, j: JobType)
    requires Inv(id, v) && OnTrack(before, v) && i < |v.executions| && v.executions[i].activities.Get(j).state.Live?
    ensures !Refused(j, v.executions[i].Height())
  {
    hide AllHealthy, Healthy;
    LiveAttemptOk(id, v, i, j);
  }

  /** A flush meets exactly the asset keys in `taken`. */
  predicate CountsAgainst(event: Event, taken: set<string>) {
    event.Act? && event.move.Count? ==> event.move.taken == taken
  }

  lemma NextEventIsFaultFree(id: VideoId, before: Video, v: Video, taken: set<string>)
    requires forall t :: AssetKey(id, t) !in taken
    requires Inv(id, v) && OnTrack(before, v) && Last(v).Open()
    ensures FaultFree(id, NextEvent(id, Last(v), |v.executions| - 1, taken))
    ensures CountsAgainst(NextEvent(id, Last(v), |v.executions| - 1, taken), taken)
  {
    hide Next, Inv, AllHealthy, Plan;
    var event := NextEvent(id, Last(v), |v.executions| - 1, taken);
    if event.Act? && event.move.Fail? {
      NotRefused(id, before, v, event.i, event.j);
    }
  }

  lemma OnTrackHasExecution(before: Video, v: Video)
    requires OnTrack(before, v)
    ensures v.executions != [] && |v.executions| == |before.executions| + 1
  {
  }

  /** And one always gets there, within the bound on an execution's events. */
  lemma RunToCompletion(
      id: VideoId, before: Video, v: Video, taken: set<string>)
    returns (events: seq<Event>, states: seq<Video>)
    requires Inv(id, v) && OnTrack(before, v)
    requires forall t :: AssetKey(id, t) !in taken
    ensures IsRun(id, v, events, states)
    ensures |events| <= Measure(Last(v))
    ensures forall l :: 0 <= l < |events| ==>
      FaultFree(id, events[l]) && Concerns(events[l], |v.executions| - 1) && CountsAgainst(events[l], taken)
    ensures OnTrack(before, states[|events|]) && Last(states[|events|]).phase.Completed?
    decreases Measure(Last(v))
  {
    hide Inv, Next, FaultFree, OnTrack, NextEvent, Measure, CountsAgainst;
    OnTrackHasExecution(before, v);
    var i := |v.executions| - 1;
    MeasureNatural(id, v, i);
    if Last(v).Open() {
      var event := NextEvent(id, Last(v), i, taken);
      OpenExecutionCanMove(id, v, i, taken);
      NextEventIsFaultFree(id, before, v, taken);
      var v' := Next(id, v, event).value;
      EventKeeps(id, v, event, v');
      StaysOnTrack(id, before, v, event, v');
      OnTrackHasExecution(before, v');
      MeasureDecreases(id, v, event, v', i);
      var rest, path := RunToCompletion(id, before, v', taken);
      events, states := [event] + rest, [v] + path;
    } else {
      ClosedOnTrack(id, before, v);
      events, states := [], [v];
    }
  }

  /** A retry call that committed, redelivered after the last execution failed, reaches
      `completed` through a fault-free execution of at most 146 events. */
  lemma RetryReachesCompleted(
      id: VideoId, before: Video, taken: set<string>)
    returns (events: seq<Event>, states: seq<Video>)
    requires forall t :: AssetKey(id, t) !in taken
    requires Reachable(id, before) && HeightUsable(before.store)
    requires forall i :: 0 <= i < |before.executions| ==> before.executions[i].phase.Failed?
    requires !before.store.Done(Transcode)
    ensures IsRun(id, AfterStart(before), events, states) && |events| <= STEP_BOUND
    ensures forall l :: 0 <= l < |events| ==>
      FaultFree(id, events[l]) && Concerns(events[l], |before.executions|) && CountsAgainst(events[l], taken)
    ensures var end := states[|events|];
      && end.executions != [] && Last(end).phase.Completed?
      && end.store.video.status.Completed? && FinishedCleanly(before, end)
  {
    hide Inv, Next, FaultFree;
    ReachableOk(id, before);
    StartKeeps(id, before);
    FailedMayStart(before.executions);
    StartsOnTrack(before);
    assert Measure(NEW_EXECUTION) == STEP_BOUND;
    events, states := RunToCompletion(id, before, AfterStart(before), taken);
    RunKeeps(id, AfterStart(before), events, states, |events|);
    ClosedOnTrack(id, before, states[|events|]);
  }

  /** Every video a retry call accepts has an uncompleted transcode job, so the lemma above applies
      to it once its executions are closed. */
  lemma FailedIsUnfinished(id: VideoId, v: Video)
    requires Reachable(id, v) && Next(id, v, RetryCheck).Some?
    ensures !v.store.Done(Transcode) && v.store.video.status.Failed?
  {
    var events, states :| IsRun(id, NEW_VIDEO, events, states) && states[|events|] == v;
    RetryAcceptedExactly(id, events, states, |events|);
    FailedExactly(id, events, states, |events|);
    if v.store.Done(Transcode) {
      FinishedStatus(id, events, states, |events|);
    }
  }

  ghost predicate RunsToCompleted(id: VideoId, v: Video, events: seq<Event>, states: seq<Video>) {
    IsRun(id, v, events, states) && states[|events|].store.video.status.Completed?
  }

  /** A fresh execution can still complete the video exactly when no unusable height is stored. */
  lemma CompletableIff(id: VideoId, before: Video)
    requires Reachable(id, before) && !before.store.Done(Transcode)
    requires forall i :: 0 <= i < |before.executions| ==> before.executions[i].phase.Failed?
    ensures HeightUsable(before.store)
       <==> exists events: seq<Event>, states: seq<Video> :: RunsToCompleted(id, AfterStart(before), events, states)
  {
    hide Inv, Next;
    if HeightUsable(before.store) {
      var events, states := RetryReachesCompleted(id, before, {});
      assert RunsToCompleted(id, AfterStart(before), events, states);
    } else {
      StartIsReachable(id, before);
      MetadataWhenDone(id, before);
      forall events: seq<Event>, states: seq<Video> | IsRun(id, AfterStart(before), events, states)
        ensures !states[|events|].store.video.status.Completed?
      {
        UnusableHeightNeverCompletes(id, AfterStart(before), events, states, |events|);
      }
    }
  }

  lemma MetadataWhenDone(id: VideoId, v: Video)
    requires Reachable(id, v) && v.store.Done(Metadata)
    ensures v.store.video.height.Some?
  {
    ReachableOk(id, v);
  }

  lemma StartIsReachable(id: VideoId, v: Video)
    requires Reachable(id, v)
    ensures Reachable(id, AfterStart(v))
  {
    ReachableStep(id, v, Start, AfterStart(v));
  }
}

/** One video's part of the platform as a step relation: its store, the executions under its
    workflow ID with their activity attempts, and the API's retry calls. Every interleaving of
    commits, uploads, crashes, reports and starts is a sequence of events.

    Environment assumptions. T1: the server allows one open execution per workflow ID. T2: an
    activity has at most one live attempt, and a crash or timeout kills it. */
module Workflow {
  import opened Options
  import opened VideoIds
  import opened Rows
  import opened Sessions

  /** _RETRY_POLICY.maximum_attempts. */
  const MAX_ATTEMPTS: nat := 3

  datatype ActivityState =
    | Waiting                                        // no attempt is live; one may be dispatched
    | Live(pc: Pc)
    | Succeeded(metadata: Option<VideoMetadata>)
    | Exhausted                                      // failed for good

  datatype Activity = Activity(used: nat, state: ActivityState) {
    predicate Settled() {
      state.Succeeded? || state.Exhausted?
    }

    /** The activity after its live attempt failed. */
    function Retried(nonRetryable: bool): Activity {
      this.(state := if nonRetryable || used >= MAX_ATTEMPTS then Exhausted else Waiting)
    }
  }

  datatype Phase = Parallel | Transcoding(height: int) | Completed | Failed

  datatype Execution = Execution(phase: Phase, activities: PerJob<Activity>) {
    predicate Open() {
      phase.Parallel? || phase.Transcoding?
    }

    predicate Schedules(j: JobType) {
      match phase
      case Parallel => j != Transcode
      case Transcoding(_) => j == Transcode
      case _ => false
    }

    /** The argument transcode_activity runs with; the other two take none. */
    function Height(): int {
      if phase.Transcoding? then phase.height else 0
    }

    function With(j: JobType, a: Activity): Execution {
      this.(activities := activities.Set(j, a))
    }
  }

  const NEW_EXECUTION :=
    Execution(Parallel, PerJob(Activity(0, Waiting), Activity(0, Waiting), Activity(0, Waiting)))

  /** A POST /videos/{id}/retry in progress: it read `failed`, sent the message, committed. */
  datatype RetryCall = Checked | Sent | Answered

  /** `claims` is history: how many claims of each job were committed. */
  datatype Video = Video(store: Store, executions: seq<Execution>, retries: seq<RetryCall>, claims: PerJob<nat>)

  const NEW_VIDEO := Video(NEW_STORE, [], [], PerJob(0, 0, 0))

  datatype Event =
    | Start                                          // the shim calls start_workflow
    | Dispatch(i: nat, j: JobType)                   // execution i: a new attempt of activity j
    | Act(i: nat, j: JobType, move: Move)            // its live attempt moves
    | Report(i: nat, j: JobType)                     // its attempt's outcome reaches the server
    | Crash(i: nat, j: JobType)                      // its attempt dies or times out
    | Settle(i: nat)                                 // the workflow takes its next decision
    | RetryCheck | RetrySend(k: nat) | RetryCommit(k: nat)

  /** ALLOW_DUPLICATE_FAILED_ONLY for closed executions, FAIL for an open one. */
  predicate MayStart(executions: seq<Execution>) {
    && (forall i :: 0 <= i < |executions| ==> !executions[i].Open())
    && (executions == [] || executions[|executions| - 1].phase.Failed?)
  }

  /** A refused start is WorkflowAlreadyStartedError, which the shim takes for a duplicate. */
  function AfterStart(v: Video): Video {
    if MayStart(v.executions) then v.(executions := v.executions + [NEW_EXECUTION]) else v
  }

  /** run(): both parallel activities settle before either failure is raised. */
  function AfterSettle(e: Execution): Option<Execution> {
    var m, t, x := e.activities.metadata, e.activities.thumbnail, e.activities.transcode;
    match e.phase
    case Parallel =>
      if !m.Settled() || !t.Settled() then None
      else if m.state.Exhausted? || t.state.Exhausted? then Some(e.(phase := Phase.Failed))
      else if m.state.metadata.None? then None
      else Some(e.(phase := Transcoding(m.state.metadata.value.height)))
    case Transcoding(_) =>
      if !x.Settled() then None
      else Some(e.(phase := if x.state.Exhausted? then Phase.Failed else Phase.Completed))
    case _ => None
  }

  function AfterReport(a: Activity): Option<Activity> {
    match a.state
    case Live(Returned(m)) => Some(a.(state := Succeeded(m)))
    case Live(Raised(nonRetryable)) => Some(a.Retried(nonRetryable))
    case _ => None
  }

  function CountClaim(claims: PerJob<nat>, j: JobType, pc: Pc, next: Pc): PerJob<nat> {
    if pc.Found? && next.Working? then claims.Set(j, claims.Get(j) + 1) else claims
  }

  predicate Scheduled(v: Video, i: nat, j: JobType) {
    i < |v.executions| && v.executions[i].Schedules(j)
  }

  function WithActivity(v: Video, i: nat, j: JobType, a: Activity): Video
    requires i < |v.executions|
  {
    v.(executions := v.executions[i := v.executions[i].With(j, a)])
  }

  function AfterMove(v: Video, i: nat, j: JobType, a: Activity, p: Progress): Video
    requires i < |v.executions| && a.state.Live?
  {
    WithActivity(v, i, j, a.(state := Live(p.pc)))
    .(store := p.store, claims := CountClaim(v.claims, j, a.state.pc, p.pc))
  }

  /** The video after an event; None when the event cannot happen now. */
  function Next(id: VideoId, v: Video, event: Event): Option<Video> {
    match event
    case Start => Some(AfterStart(v))
    case Dispatch(i, j) =>
      if !Scheduled(v, i, j) then None
      else
        var a := v.executions[i].activities.Get(j);
        if !a.state.Waiting? || a.used >= MAX_ATTEMPTS then None
        else Some(WithActivity(v, i, j, Activity(a.used + 1, Live(Opened))))
    case Act(i, j, move) =>
      if !Scheduled(v, i, j) then None
      else
        var e := v.executions[i];
        var a := e.activities.Get(j);
        if !a.state.Live? then None
        else
          var next := Advance(Plan(id, j, e.Height()), j, e.Height(), move, a.state.pc, v.store);
          if next.None? then None else Some(AfterMove(v, i, j, a, next.value))
    case Report(i, j) =>
      if !Scheduled(v, i, j) then None
      else
        var a := AfterReport(v.executions[i].activities.Get(j));
        if a.None? then None else Some(WithActivity(v, i, j, a.value))
    case Crash(i, j) =>
      if !Scheduled(v, i, j) then None
      else
        var a := v.executions[i].activities.Get(j);
        if !a.state.Live? then None else Some(WithActivity(v, i, j, a.Retried(false)))
    case Settle(i) =>
      if i >= |v.executions| then None
      else
        var e := AfterSettle(v.executions[i]);
        if e.None? then None else Some(v.(executions := v.executions[i := e.value]))
    case RetryCheck =>
      if v.store.video.status.Failed? then Some(v.(retries := v.retries + [Checked])) else None
    case RetrySend(k) =>
      if k < |v.retries| && v.retries[k].Checked? then Some(v.(retries := v.retries[k := Sent])) else None
    case RetryCommit(k) =>
      if k < |v.retries| && v.retries[k].Sent?
      then Some(v.(retries := v.retries[k := Answered],
                   store := v.store.(video := v.store.video.(status := VideoStatus.Processing))))
      else None
  }

  lemma FailedMayStart(executions: seq<Execution>)
    requires forall i :: 0 <= i < |executions| ==> executions[i].phase.Failed?
    ensures MayStart(executions)
  {
  }

  // ---- Runs ----

  /** The states a sequence of events leads through, starting from `v`. */
  ghost predicate IsRun(id: VideoId, v: Video, events: seq<Event>, states: seq<Video>) {
    && |states| == |events| + 1
    && states[0] == v
    && forall k :: 0 <= k < |events| ==> Next(id, states[k], events[k]) == Some(states[k + 1])
  }

  ghost predicate Reachable(id: VideoId, v: Video) {
    exists events, states :: IsRun(id, NEW_VIDEO, events, states) && states[|events|] == v
  }

  lemma NewVideoReachable(id: VideoId)
    ensures Reachable(id, NEW_VIDEO)
  {
    assert IsRun(id, NEW_VIDEO, [], [NEW_VIDEO]);
  }

  lemma ReachableStep(id: VideoId, v: Video, event: Event, v': Video)
    requires Reachable(id, v) && Next(id, v, event) == Some(v')
    ensures Reachable(id, v')
  {
    hide Next;
    var events, states :| IsRun(id, NEW_VIDEO, events, states) && states[|events|] == v;
    var events', states' := events + [event], states + [v'];
    assert forall k :: 0 <= k < |events| ==> events'[k] == events[k] && states'[k] == states[k];
    assert IsRun(id, NEW_VIDEO, events', states');
    assert states'[|events'|] == v';
  }
}

/** Runs that leave a video reading `processing` with nothing driving it, although the
    documentation says a failed execution leaves it `failed` and retryable. */
module Scenarios {
  import opened Options
  import opened VideoIds
  import opened Rows
  import opened Sessions
  import opened SessionInvariant
  import opened Workflow
  import opened WorkflowInvariant
  import opened StatusWrites
  import opened Completion
  import opened Termination
  import opened Closing
  import opened RetryProgress

  /** Every execution has failed, the status says otherwise, and POST /videos/{id}/retry refuses. */
  ghost predicate Stranded(id: VideoId, v: Video) {
    && v.executions != [] && (forall i :: 0 <= i < |v.executions| ==> v.executions[i].phase.Failed?)
    && v.store.video.status == VideoStatus.Processing
    && Next(id, v, RetryCheck) == None
  }

  // ---- Runs of a video's first execution ----

  const FRESH := AfterStart(NEW_VIDEO)

  datatype Trace = Trace(events: seq<Event>, states: seq<Video>) {
    function Then(event: Event, v: Video): Trace {
      Trace(events + [event], states + [v])
    }

    function End(): Video
      requires |states| == |events| + 1
    {
      states[|events|]
    }
  }

  /** What the events of a run are limited to. */
  datatype Rule =
    | CrashesOnly              // no work raises and nobody calls retry
    | CrashFree                // nothing crashes
    | HiddenBy(m: nat)         // nothing crashes, and no fail_job comes after event m, a claim

  ghost predicate Obeys(id: VideoId, rule: Rule, k: nat, event: Event) {
    && CountsAgainst(event, {}) && !event.Start? && !event.RetrySend? && !event.RetryCommit?
    && match rule
       case CrashesOnly => !FailsJob(event) && !event.RetryCheck?
       case CrashFree => !event.Crash?
       case HiddenBy(m) => !event.Crash? && (k > m ==> !FailsJob(event))
  }

  ghost predicate LeadsTo(id: VideoId, rule: Rule, tr: Trace, v: Video) {
    && IsRun(id, FRESH, tr.events, tr.states) && tr.End() == v
    && (forall k :: 0 <= k < |tr.events| ==> Obeys(id, rule, k, tr.events[k]))
    && (rule.HiddenBy? ==> rule.m < |tr.events| && Reclaims(tr.states[rule.m], tr.events[rule.m]))
  }

  lemma RunStep(id: VideoId, tr: Trace, event: Event, v: Video)
    requires IsRun(id, FRESH, tr.events, tr.states) && Next(id, tr.End(), event) == Some(v)
    ensures IsRun(id, FRESH, tr.Then(event, v).events, tr.Then(event, v).states)
  {
    hide Next;
    var tr' := tr.Then(event, v);
    assert forall k :: 0 <= k < |tr.events| ==> tr'.events[k] == tr.events[k] && tr'.states[k] == tr.states[k];
  }

  lemma Step(id: VideoId, rule: Rule, tr: Trace, v: Video, event: Event, v': Video)
    requires LeadsTo(id, rule, tr, v) && Next(id, v, event) == Some(v') && Obeys(id, rule, |tr.events|, event)
    ensures LeadsTo(id, rule, tr.Then(event, v'), v')
  {
    hide Next, Obeys, Reclaims;
    RunStep(id, tr, event, v');
    var tr' := tr.Then(event, v');
    assert forall k :: 0 <= k < |tr.events| ==> tr'.events[k] == tr.events[k] && tr'.states[k] == tr.states[k];
  }

  lemma Started(id: VideoId, rule: Rule)
    requires !rule.HiddenBy?
    ensures LeadsTo(id, rule, Trace([], [FRESH]), FRESH)
    ensures FRESH == First(NEW_STORE, Activity(0, Waiting), Activity(0, Waiting), [], PerJob(0, 0, 0))
  {
  }

  lemma FreshIsReachable(id: VideoId)
    ensures Reachable(id, FRESH)
  {
    NewVideoReachable(id);
    ReachableStep(id, NEW_VIDEO, Start, FRESH);
  }

  lemma TraceIsReachable(id: VideoId, tr: Trace)
    requires IsRun(id, FRESH, tr.events, tr.states)
    ensures Reachable(id, tr.End())
  {
    hide Reachable, Next;
    FreshIsReachable(id);
    RunIsReachable(id, FRESH, tr.events, tr.states, |tr.events|);
  }

  lemma {:induction false} RunIsReachable(id: VideoId, v: Video, events: seq<Event>, states: seq<Video>, k: nat)
    requires Reachable(id, v) && IsRun(id, v, events, states) && k <= |events|
    ensures Reachable(id, states[k])
  {
    hide Reachable, Next;
    if k == 0 {
    } else {
      RunIsReachable(id, v, events, states, k - 1);
      ReachableStep(id, states[k - 1], events[k - 1], states[k]);
    }
  }

  /** A video whose first execution is in its parallel phase. */
  function First(store: Store, m: Activity, t: Activity, retries: seq<RetryCall>, claims: PerJob<nat>): Video {
    Video(store, [Execution(Parallel, PerJob(m, t, Activity(0, Waiting)))], retries, claims)
  }

  function Closed(store: Store, m: Activity, t: Activity, retries: seq<RetryCall>, claims: PerJob<nat>): Video {
    Video(store, [Execution(Phase.Failed, PerJob(m, t, Activity(0, Waiting)))], retries, claims)
  }

  lemma MetadataMoves(
      id: VideoId, rule: Rule, tr: Trace, st: Store, used: nat, pc: Pc, t: Activity, claims: PerJob<nat>, move: Move,
      p: Progress)
    returns (tr': Trace)
    requires LeadsTo(id, rule, tr, First(st, Activity(used, Live(pc)), t, [], claims))
    requires Advance([], Metadata, 0, move, pc, st) == Some(p)
    requires Obeys(id, rule, |tr.events|, Act(0, Metadata, move))
    ensures LeadsTo(id, rule, tr',
      First(p.store, Activity(used, Live(p.pc)), t, [], CountClaim(claims, Metadata, pc, p.pc)))
  {
    hide LeadsTo, Obeys, Advance;
    var v := First(st, Activity(used, Live(pc)), t, [], claims);
    var v' := First(p.store, Activity(used, Live(p.pc)), t, [], CountClaim(claims, Metadata, pc, p.pc));
    assert AfterMove(v, 0, Metadata, Activity(used, Live(pc)), p).executions == v'.executions;
    tr' := tr.Then(Act(0, Metadata, move), v');
    Step(id, rule, tr, v, Act(0, Metadata, move), v');
  }

  lemma ThumbnailMoves(
      id: VideoId, rule: Rule, tr: Trace, st: Store, used: nat, pc: Pc, m: Activity, claims: PerJob<nat>, move: Move,
      p: Progress)
    returns (tr': Trace)
    requires LeadsTo(id, rule, tr, First(st, m, Activity(used, Live(pc)), [], claims))
    requires Advance(Plan(id, Thumbnail, 0), Thumbnail, 0, move, pc, st) == Some(p)
    requires Obeys(id, rule, |tr.events|, Act(0, Thumbnail, move))
    ensures tr' == tr.Then(
      Act(0, Thumbnail, move),
      First(p.store, m, Activity(used, Live(p.pc)), [], CountClaim(claims, Thumbnail, pc, p.pc)))
    ensures LeadsTo(id, rule, tr',
      First(p.store, m, Activity(used, Live(p.pc)), [], CountClaim(claims, Thumbnail, pc, p.pc)))
  {
    hide LeadsTo, Obeys, Advance, Plan;
    var v := First(st, m, Activity(used, Live(pc)), [], claims);
    var v' := First(p.store, m, Activity(used, Live(p.pc)), [], CountClaim(claims, Thumbnail, pc, p.pc));
    assert AfterMove(v, 0, Thumbnail, Activity(used, Live(pc)), p).executions == v'.executions;
    tr' := tr.Then(Act(0, Thumbnail, move), v');
    Step(id, rule, tr, v, Act(0, Thumbnail, move), v');
  }

  /** Any event that replaces one of the two activities and nothing else. */
  lemma Replaced(
      id: VideoId, rule: Rule, tr: Trace, st: Store, m: Activity, t: Activity, m': Activity, t': Activity,
      claims: PerJob<nat>, event: Event)
    returns (tr': Trace)
    requires LeadsTo(id, rule, tr, First(st, m, t, [], claims)) && Obeys(id, rule, |tr.events|, event)
    requires var v := First(st, m, t, [], claims);
      || (m' == m && Next(id, v, event) == Some(WithActivity(v, 0, Thumbnail, t')))
      || (t' == t && Next(id, v, event) == Some(WithActivity(v, 0, Metadata, m')))
    ensures LeadsTo(id, rule, tr', First(st, m', t', [], claims))
  {
    hide LeadsTo, Obeys, Next;
    var v := First(st, m, t, [], claims);
    if m' == m && Next(id, v, event) == Some(WithActivity(v, 0, Thumbnail, t')) {
      assert WithActivity(v, 0, Thumbnail, t').executions == First(st, m', t', [], claims).executions;
    } else {
      assert WithActivity(v, 0, Metadata, m').executions == First(st, m', t', [], claims).executions;
    }
    tr' := tr.Then(event, First(st, m', t', [], claims));
    Step(id, rule, tr, v, event, First(st, m', t', [], claims));
  }

  lemma MetadataDispatched(id: VideoId, rule: Rule, tr: Trace, st: Store, used: nat, t: Activity, claims: PerJob<nat>)
    returns (tr': Trace)
    requires LeadsTo(id, rule, tr, First(st, Activity(used, Waiting), t, [], claims)) && used < 3
    ensures LeadsTo(id, rule, tr', First(st, Activity(used + 1, Live(Opened)), t, [], claims))
  {
    hide LeadsTo;
    tr' := Replaced(id, rule, tr, st, Activity(used, Waiting), t, Activity(used + 1, Live(Opened)), t, claims,
      Dispatch(0, Metadata));
  }

  lemma ThumbnailDispatched(id: VideoId, rule: Rule, tr: Trace, st: Store, used: nat, m: Activity, claims: PerJob<nat>)
    returns (tr': Trace)
    requires LeadsTo(id, rule, tr, First(st, m, Activity(used, Waiting), [], claims)) && used < 3
    ensures LeadsTo(id, rule, tr', First(st, m, Activity(used + 1, Live(Opened)), [], claims))
  {
    hide LeadsTo;
    tr' := Replaced(id, rule, tr, st, m, Activity(used, Waiting), m, Activity(used + 1, Live(Opened)), claims,
      Dispatch(0, Thumbnail));
  }

  /** What a failed attempt leaves of its activity. */
  function AfterFailure(used: nat): Activity {
    Activity(used, if used >= 3 then Exhausted else Waiting)
  }

  lemma ClosesFailed(id: VideoId, rule: Rule, tr: Trace, st: Store, m: Activity, t: Activity, claims: PerJob<nat>)
    returns (tr': Trace)
    requires LeadsTo(id, rule, tr, First(st, m, t, [], claims)) && m.Settled() && t.Settled() && m.state.Exhausted?
    ensures LeadsTo(id, rule, tr', Closed(st, m, t, [], claims))
  {
    hide LeadsTo;
    SettlesFailed(id, st, m, t, [], claims);
    tr' := tr.Then(Settle(0), Closed(st, m, t, [], claims));
    Step(id, rule, tr, First(st, m, t, [], claims), Settle(0), Closed(st, m, t, [], claims));
  }

  lemma SettlesFailed(id: VideoId, st: Store, m: Activity, t: Activity, r: seq<RetryCall>, claims: PerJob<nat>)
    requires m.Settled() && t.Settled() && m.state.Exhausted?
    ensures Next(id, First(st, m, t, r, claims), Settle(0)) == Some(Closed(st, m, t, r, claims))
  {
    var v := First(st, m, t, r, claims);
    assert v.executions[0 := AfterSettle(v.executions[0]).value] == Closed(st, m, t, r, claims).executions;
  }

  // ---- A worker that keeps dying ----

  const CLAIMED_ROW := VideoRow(VideoStatus.Processing, None, None, None)
  const NEW_ROW := VideoRow(PendingUpload, None, None, None)
  const FAILED_ROW := VideoRow(VideoStatus.Failed, None, None, None)

  function StoreWith(video: VideoRow, job: JobRow): Store {
    Store(video, PerJob(Some(job), None, None), map[], {})
  }

  /** The metadata activity's first attempt, up to its committed claim. */
  lemma FirstClaim(id: VideoId, rule: Rule) returns (tr: Trace)
    requires !rule.HiddenBy?
    ensures var job := JobRow(JobStatus.Processing, 1);
      LeadsTo(id, rule, tr,
        First(StoreWith(CLAIMED_ROW, job), Activity(1, Live(Working(CLAIMED_ROW, job, []))), Activity(0, Waiting),
          [], PerJob(1, 0, 0)))
  {
    hide LeadsTo;
    var t, zero := Activity(0, Waiting), PerJob(0, 0, 0);
    Started(id, rule);
    tr := MetadataDispatched(id, rule, Trace([], [FRESH]), NEW_STORE, 0, t, zero);
    tr := MetadataMoves(id, rule, tr, NEW_STORE, 1, Opened, t, zero, Load, Progress(Loaded(NEW_ROW), NEW_STORE));
    tr := MetadataMoves(id, rule, tr, NEW_STORE, 1, Loaded(NEW_ROW), t, zero, Select,
      Progress(NoRow(NEW_ROW), NEW_STORE));
    var pending, job := JobRow(JobStatus.Pending, 0), JobRow(JobStatus.Processing, 1);
    tr := MetadataMoves(id, rule, tr, NEW_STORE, 1, NoRow(NEW_ROW), t, zero, Insert,
      Progress(Found(NEW_ROW, pending), StoreWith(NEW_ROW, pending)));
    tr := MetadataMoves(id, rule, tr, StoreWith(NEW_ROW, pending), 1, Found(NEW_ROW, pending), t, zero, Claim,
      Progress(Working(CLAIMED_ROW, job, []), StoreWith(CLAIMED_ROW, job)));
  }

  lemma MetadataDies(
      id: VideoId, tr: Trace, st: Store, used: nat, pc: Pc, t: Activity, claims: PerJob<nat>)
    returns (tr': Trace)
    requires LeadsTo(id, CrashesOnly, tr, First(st, Activity(used, Live(pc)), t, [], claims))
    ensures LeadsTo(id, CrashesOnly, tr', First(st, AfterFailure(used), t, [], claims))
  {
    hide LeadsTo;
    tr' := Replaced(id, CrashesOnly, tr, st, Activity(used, Live(pc)), t, AfterFailure(used), t, claims,
      Crash(0, Metadata));
  }

  lemma ThumbnailDies(
      id: VideoId, tr: Trace, st: Store, used: nat, pc: Pc, m: Activity, claims: PerJob<nat>)
    returns (tr': Trace)
    requires LeadsTo(id, CrashesOnly, tr, First(st, m, Activity(used, Live(pc)), [], claims))
    ensures LeadsTo(id, CrashesOnly, tr', First(st, m, AfterFailure(used), [], claims))
  {
    hide LeadsTo;
    tr' := Replaced(id, CrashesOnly, tr, st, m, Activity(used, Live(pc)), m, AfterFailure(used), claims,
      Crash(0, Thumbnail));
  }

  /** Both parallel activities use up their attempts, the first claim's aside, by dying early. */
  lemma EverythingDies(id: VideoId, tr: Trace, st: Store, pc: Pc, claims: PerJob<nat>) returns (tr': Trace)
    requires LeadsTo(id, CrashesOnly, tr, First(st, Activity(1, Live(pc)), Activity(0, Waiting), [], claims))
    ensures LeadsTo(id, CrashesOnly, tr', First(st, Activity(3, Exhausted), Activity(3, Exhausted), [], claims))
  {
    hide LeadsTo;
    var t := Activity(0, Waiting);
    tr' := MetadataDies(id, tr, st, 1, pc, t, claims);
    tr' := MetadataDispatched(id, CrashesOnly, tr', st, 1, t, claims);
    tr' := MetadataDies(id, tr', st, 2, Opened, t, claims);
    tr' := MetadataDispatched(id, CrashesOnly, tr', st, 2, t, claims);
    tr' := MetadataDies(id, tr', st, 3, Opened, t, claims);
    var m := Activity(3, Exhausted);
    tr' := ThumbnailDispatched(id, CrashesOnly, tr', st, 0, m, claims);
    tr' := ThumbnailDies(id, tr', st, 1, Opened, m, claims);
    tr' := ThumbnailDispatched(id, CrashesOnly, tr', st, 1, m, claims);
    tr' := ThumbnailDies(id, tr', st, 2, Opened, m, claims);
    tr' := ThumbnailDispatched(id, CrashesOnly, tr', st, 2, m, claims);
    tr' := ThumbnailDies(id, tr', st, 3, Opened, m, claims);
  }

  /** Crashes alone strand a video: no work raises and nobody calls retry, but nobody is left to
      call fail_job either. */
  lemma CrashesStrand(id: VideoId) returns (tr: Trace)
    ensures IsRun(id, FRESH, tr.events, tr.states)
    ensures forall k | 0 <= k < |tr.events| ::
      var event := tr.events[k];
      && CountsAgainst(event, {}) && !FailsJob(event)
      && !event.Start? && !event.RetryCheck? && !event.RetrySend? && !event.RetryCommit?
    ensures Reachable(id, tr.End()) && Stranded(id, tr.End())
  {
    hide Reachable;
    var job := JobRow(JobStatus.Processing, 1);
    var st, claims := StoreWith(CLAIMED_ROW, job), PerJob(1, 0, 0);
    tr := FirstClaim(id, CrashesOnly);
    tr := EverythingDies(id, tr, st, Working(CLAIMED_ROW, job, []), claims);
    tr := ClosesFailed(id, CrashesOnly, tr, st, Activity(3, Exhausted), Activity(3, Exhausted), claims);
    TraceIsReachable(id, tr);
    assert forall k :: 0 <= k < |tr.events| ==> Obeys(id, CrashesOnly, k, tr.events[k]);
  }

  // ---- A claim that commits after its sibling has failed for good ----

  /** The metadata activity's attempt number `used` fails through fail_job after claiming. */
  lemma FailedAttempt(id: VideoId, tr: Trace, used: nat, t: Activity) returns (tr': Trace)
    requires 1 <= used < 3
    requires LeadsTo(id, CrashFree, tr,
      First(StoreWith(FAILED_ROW, JobRow(JobStatus.Failed, used)), Activity(used, Waiting), t, [], PerJob(used, 0, 0)))
    ensures LeadsTo(id, CrashFree, tr',
      First(StoreWith(FAILED_ROW, JobRow(JobStatus.Failed, used + 1)), AfterFailure(used + 1), t, [],
        PerJob(used + 1, 0, 0)))
  {
    hide LeadsTo;
    var failed, claims := JobRow(JobStatus.Failed, used), PerJob(used, 0, 0);
    var st := StoreWith(FAILED_ROW, failed);
    tr' := MetadataDispatched(id, CrashFree, tr, st, used, t, claims);
    tr' := MetadataMoves(id, CrashFree, tr', st, used + 1, Opened, t, claims, Load, Progress(Loaded(FAILED_ROW), st));
    tr' := MetadataMoves(id, CrashFree, tr', st, used + 1, Loaded(FAILED_ROW), t, claims, Select,
      Progress(Found(FAILED_ROW, failed), st));
    var job := JobRow(JobStatus.Processing, used + 1);
    tr' := MetadataMoves(id, CrashFree, tr', st, used + 1, Found(FAILED_ROW, failed), t, claims, Claim,
      Progress(Working(CLAIMED_ROW, job, []), StoreWith(CLAIMED_ROW, job)));
    tr' := WorkRaises(id, tr', used + 1, t);
  }

  lemma WorkRaises(id: VideoId, tr: Trace, used: nat, t: Activity) returns (tr': Trace)
    requires 1 <= used <= 3
    requires var job := JobRow(JobStatus.Processing, used);
      LeadsTo(id, CrashFree, tr,
        First(StoreWith(CLAIMED_ROW, job), Activity(used, Live(Working(CLAIMED_ROW, job, []))), t, [],
          PerJob(used, 0, 0)))
    ensures LeadsTo(id, CrashFree, tr',
      First(StoreWith(FAILED_ROW, JobRow(JobStatus.Failed, used)), AfterFailure(used), t, [], PerJob(used, 0, 0)))
  {
    hide LeadsTo;
    var job := JobRow(JobStatus.Processing, used);
    var st := StoreWith(FAILED_ROW, JobRow(JobStatus.Failed, used));
    tr' := MetadataMoves(id, CrashFree, tr, StoreWith(CLAIMED_ROW, job), used, Working(CLAIMED_ROW, job, []), t,
      PerJob(used, 0, 0), Fail, Progress(Raised(false), st));
    tr' := Replaced(id, CrashFree, tr', st, Activity(used, Live(Raised(false))), t, AfterFailure(used), t,
      PerJob(used, 0, 0), Report(0, Metadata));
  }

  const METADATA_FAILED := JobRow(JobStatus.Failed, 3)
  const EXHAUSTED := Activity(3, Exhausted)

  /** Metadata fails three times while the thumbnail activity waits for a worker. */
  lemma MetadataFailsForGood(id: VideoId) returns (tr: Trace)
    ensures LeadsTo(id, CrashFree, tr,
      First(StoreWith(FAILED_ROW, METADATA_FAILED), EXHAUSTED, Activity(0, Waiting), [], PerJob(3, 0, 0)))
  {
    hide LeadsTo;
    tr := FirstClaim(id, CrashFree);
    tr := WorkRaises(id, tr, 1, Activity(0, Waiting));
    tr := FailedAttempt(id, tr, 1, Activity(0, Waiting));
    tr := FailedAttempt(id, tr, 2, Activity(0, Waiting));
  }

  /** The store once metadata has failed for good and thumbnail has a row. */
  function StoreWithThumbnail(video: VideoRow, thumbnail: JobRow): Store {
    Store(video, PerJob(Some(METADATA_FAILED), Some(thumbnail), None), map[], {})
  }

  /** The thumbnail activity's first attempt, up to where it is about to claim. */
  lemma ThumbnailFound(id: VideoId) returns (tr: Trace)
    ensures var pending := JobRow(JobStatus.Pending, 0);
      LeadsTo(id, CrashFree, tr,
        First(StoreWithThumbnail(FAILED_ROW, pending), EXHAUSTED, Activity(1, Live(Found(FAILED_ROW, pending))), [],
          PerJob(3, 0, 0)))
  {
    hide LeadsTo, Plan;
    var claims, st := PerJob(3, 0, 0), StoreWith(FAILED_ROW, METADATA_FAILED);
    tr := MetadataFailsForGood(id);
    tr := ThumbnailDispatched(id, CrashFree, tr, st, 0, EXHAUSTED, claims);
    tr := ThumbnailMoves(id, CrashFree, tr, st, 1, Opened, EXHAUSTED, claims, Load, Progress(Loaded(FAILED_ROW), st));
    tr := ThumbnailMoves(id, CrashFree, tr, st, 1, Loaded(FAILED_ROW), EXHAUSTED, claims, Select,
      Progress(NoRow(FAILED_ROW), st));
    var pending := JobRow(JobStatus.Pending, 0);
    tr := ThumbnailMoves(id, CrashFree, tr, st, 1, NoRow(FAILED_ROW), EXHAUSTED, claims, Insert,
      Progress(Found(FAILED_ROW, pending), StoreWithThumbnail(FAILED_ROW, pending)));
  }

  lemma ThumbnailClaims(id: VideoId, tr: Trace, used: nat, job: JobRow) returns (tr': Trace)
    requires used >= 1 && (job.status.Pending? || job.status.Failed?) && job.attempts == used - 1
    requires LeadsTo(id, CrashFree, tr,
      First(StoreWithThumbnail(FAILED_ROW, job), EXHAUSTED, Activity(used, Live(Found(FAILED_ROW, job))), [],
        PerJob(3, used - 1, 0)))
    ensures var claimed := JobRow(JobStatus.Processing, used);
      LeadsTo(id, HiddenBy(|tr.events|), tr',
        First(StoreWithThumbnail(CLAIMED_ROW, claimed), EXHAUSTED,
          Activity(used, Live(Working(CLAIMED_ROW, claimed, []))), [], PerJob(3, used, 0)))
      && LeadsTo(id, CrashFree, tr',
        First(StoreWithThumbnail(CLAIMED_ROW, claimed), EXHAUSTED,
          Activity(used, Live(Working(CLAIMED_ROW, claimed, []))), [], PerJob(3, used, 0)))
  {
    hide Plan, Next;
    var claimed := JobRow(JobStatus.Processing, used);
    tr' := ThumbnailMoves(id, CrashFree, tr, StoreWithThumbnail(FAILED_ROW, job), used, Found(FAILED_ROW, job),
      EXHAUSTED, PerJob(3, used - 1, 0), Claim,
      Progress(Working(CLAIMED_ROW, claimed, []), StoreWithThumbnail(CLAIMED_ROW, claimed)));
    assert tr'.states[|tr.events|] == tr.End();
  }

  /** Then the thumbnail activity claims, turning `failed` back into `processing`, and succeeds. No
      crash is involved and nothing fails after the claim: the execution closes Failed on the
      metadata error. So the condition of `ClosingStatus` is needed. */
  lemma LateClaimStrands(id: VideoId) returns (tr: Trace, m: nat)
    ensures Reachable(id, FRESH) && CalmRun(id, FRESH, tr.events, tr.states) && LateClaim(tr.events, tr.states, m)
    ensures forall k :: 0 <= k < |tr.events| ==>
      CountsAgainst(tr.events[k], {}) && !tr.events[k].Start? && !tr.events[k].RetrySend?
    ensures Reachable(id, tr.End()) && Stranded(id, tr.End())
    ensures tr.End().store.jobs.metadata == Some(METADATA_FAILED) && tr.End().store.Done(Thumbnail)
  {
    hide Reachable, Next, Plan, AssetKey;
    FreshIsReachable(id);
    tr := ThumbnailFound(id);
    m := |tr.events|;
    tr := ThumbnailClaims(id, tr, 1, JobRow(JobStatus.Pending, 0));
    tr := ThumbnailFinishes(id, HiddenBy(m), tr);
    TraceIsReachable(id, tr);
    assert forall k :: 0 <= k < |tr.events| ==> Obeys(id, HiddenBy(m), k, tr.events[k]);
    assert Last(FRESH) == NEW_EXECUTION;
  }

  lemma ThumbnailFinishes(id: VideoId, rule: Rule, tr: Trace) returns (tr': Trace)
    requires var job := JobRow(JobStatus.Processing, 1);
      LeadsTo(id, rule, tr,
        First(StoreWithThumbnail(CLAIMED_ROW, job), EXHAUSTED, Activity(1, Live(Working(CLAIMED_ROW, job, []))), [],
          PerJob(3, 1, 0)))
    ensures IsRun(id, FRESH, tr'.events, tr'.states) && LeadsTo(id, rule, tr', tr'.End()) && Stranded(id, tr'.End())
    ensures tr'.End().store.jobs.metadata == Some(METADATA_FAILED) && tr'.End().store.Done(Thumbnail)
  {
    hide LeadsTo, AssetKey, Stranded;
    var plan := Plan(id, Thumbnail, 0);
    tr' := ThumbnailUploads(id, rule, tr, plan[0].objectKey, plan);
  }

  lemma ThumbnailUploads(id: VideoId, rule: Rule, tr: Trace, key: string, plan: seq<Asset>) returns (tr': Trace)
    requires plan == Plan(id, Thumbnail, 0) == [Asset(ThumbnailImage, key)]
    requires var job := JobRow(JobStatus.Processing, 1);
      LeadsTo(id, rule, tr,
        First(StoreWithThumbnail(CLAIMED_ROW, job), EXHAUSTED, Activity(1, Live(Working(CLAIMED_ROW, job, []))), [],
          PerJob(3, 1, 0)))
    ensures IsRun(id, FRESH, tr'.events, tr'.states) && LeadsTo(id, rule, tr', tr'.End()) && Stranded(id, tr'.End())
    ensures tr'.End().store.jobs.metadata == Some(METADATA_FAILED) && tr'.End().store.Done(Thumbnail)
  {
    hide LeadsTo, Plan, Stranded;
    var job, claims := JobRow(JobStatus.Processing, 1), PerJob(3, 1, 0);
    var st := StoreWithThumbnail(CLAIMED_ROW, job);
    assert [] + [plan[0]] == plan && {} + {key} == {key};
    tr' := ThumbnailMoves(id, rule, tr, st, 1, Working(CLAIMED_ROW, job, []), EXHAUSTED, claims, Upload,
      Progress(Working(CLAIMED_ROW, job, plan), st.(objects := {key})));
    tr' := ThumbnailCompletes(id, rule, tr', key, plan);
  }

  lemma ThumbnailCompletes(id: VideoId, rule: Rule, tr: Trace, key: string, plan: seq<Asset>) returns (tr': Trace)
    requires plan == Plan(id, Thumbnail, 0) == [Asset(ThumbnailImage, key)]
    requires var job := JobRow(JobStatus.Processing, 1);
      LeadsTo(id, rule, tr,
        First(StoreWithThumbnail(CLAIMED_ROW, job).(objects := {key}), EXHAUSTED,
          Activity(1, Live(Working(CLAIMED_ROW, job, plan))), [], PerJob(3, 1, 0)))
    ensures IsRun(id, FRESH, tr'.events, tr'.states) && LeadsTo(id, rule, tr', tr'.End()) && Stranded(id, tr'.End())
    ensures tr'.End().store.jobs.metadata == Some(METADATA_FAILED) && tr'.End().store.Done(Thumbnail)
  {
    hide LeadsTo, Plan, Stranded;
    var job, claims := JobRow(JobStatus.Processing, 1), PerJob(3, 1, 0);
    var st := StoreWithThumbnail(CLAIMED_ROW, job).(objects := {key});
    var cache := Cache(CLAIMED_ROW, CLAIMED_ROW, job, JobRow(JobStatus.Completed, 1));
    assert [] + [plan[0]] == plan;
    tr' := ThumbnailMoves(id, rule, tr, st, 1, Working(CLAIMED_ROW, job, plan), EXHAUSTED, claims,
      Finish(VideoMetadata(1, 1, 1)),
      Progress(Completing(cache, plan, 0, [], []), st));
    tr' := ThumbnailMoves(id, rule, tr', st, 1, Completing(cache, plan, 0, [], []), EXHAUSTED, claims, Upsert,
      Progress(Completing(cache, plan, 1, [], plan), st));
    tr' := ThumbnailCommits(id, rule, tr', key, plan);
  }

  lemma ThumbnailCommits(id: VideoId, rule: Rule, tr: Trace, key: string, plan: seq<Asset>) returns (tr': Trace)
    requires plan == [Asset(ThumbnailImage, key)]
    requires var job := JobRow(JobStatus.Processing, 1);
      var cache := Cache(CLAIMED_ROW, CLAIMED_ROW, job, JobRow(JobStatus.Completed, 1));
      LeadsTo(id, rule, tr,
        First(StoreWithThumbnail(CLAIMED_ROW, job).(objects := {key}), EXHAUSTED,
          Activity(1, Live(Completing(cache, plan, 1, [], plan))), [], PerJob(3, 1, 0)))
    ensures IsRun(id, FRESH, tr'.events, tr'.states) && LeadsTo(id, rule, tr', tr'.End()) && Stranded(id, tr'.End())
    ensures tr'.End().store.jobs.metadata == Some(METADATA_FAILED) && tr'.End().store.Done(Thumbnail)
  {
    hide LeadsTo, Plan, Put, FlushAllowed, Stranded;
    var job, done, claims := JobRow(JobStatus.Processing, 1), JobRow(JobStatus.Completed, 1), PerJob(3, 1, 0);
    var cache := Cache(CLAIMED_ROW, CLAIMED_ROW, job, done);
    var st1 := StoreWithThumbnail(CLAIMED_ROW, job).(objects := {key});
    ThumbnailCounts(cache, plan, key, st1);
    tr' := ThumbnailMoves(id, rule, tr, st1, 1, Completing(cache, plan, 1, [], plan), EXHAUSTED, claims, Count({}),
      Progress(Pc.Counted(cache, [], plan, 1), st1));
    var st2 := StoreWithThumbnail(CLAIMED_ROW, done).(assets := map[ThumbnailImage := key], objects := {key});
    tr' := ThumbnailMoves(id, rule, tr', st1, 1, Pc.Counted(cache, [], plan, 1), EXHAUSTED, claims, Commit,
      Progress(Returned(None), st2));
    tr' := ThumbnailCloses(id, rule, tr', st2);
  }

  lemma ThumbnailCloses(id: VideoId, rule: Rule, tr: Trace, st2: Store) returns (tr': Trace)
    requires st2.video == CLAIMED_ROW && st2.jobs.metadata == Some(METADATA_FAILED) && st2.Done(Thumbnail)
    requires LeadsTo(id, rule, tr, First(st2, EXHAUSTED, Activity(1, Live(Returned(None))), [], PerJob(3, 1, 0)))
    ensures IsRun(id, FRESH, tr'.events, tr'.states) && LeadsTo(id, rule, tr', tr'.End()) && Stranded(id, tr'.End())
    ensures tr'.End().store == st2
  {
    hide LeadsTo;
    var t, claims := Activity(1, Succeeded(None)), PerJob(3, 1, 0);
    tr' := Replaced(id, rule, tr, st2, EXHAUSTED, Activity(1, Live(Returned(None))), EXHAUSTED, t, claims,
      Report(0, Thumbnail));
    tr' := ClosesFailed(id, rule, tr', st2, EXHAUSTED, t, claims);
    EndsAt(id, rule, tr', Closed(st2, EXHAUSTED, t, [], claims));
  }

  lemma EndsAt(id: VideoId, rule: Rule, tr: Trace, v: Video)
    requires LeadsTo(id, rule, tr, v)
    ensures IsRun(id, FRESH, tr.events, tr.states) && tr.End() == v
  {
  }

  lemma ThumbnailCounts(cache: Cache, plan: seq<Asset>, key: string, st: Store)
    requires plan == [Asset(ThumbnailImage, key)] && st.assets == map[]
    ensures Put(Put(map[], []), plan) == map[ThumbnailImage := key]
    ensures FlushAllowed(st.assets, [], plan, {})
  {
    assert plan[..0] == [];
    assert Put(map[], plan[..0]) == map[];
  }

  // ---- A retry call during a failing execution ----

  lemma ThumbnailRaises(id: VideoId, tr: Trace, used: nat) returns (tr': Trace)
    requires 1 <= used <= 3
    requires var job := JobRow(JobStatus.Processing, used);
      LeadsTo(id, CrashFree, tr,
        First(StoreWithThumbnail(CLAIMED_ROW, job), EXHAUSTED, Activity(used, Live(Working(CLAIMED_ROW, job, []))),
          [], PerJob(3, used, 0)))
    ensures LeadsTo(id, CrashFree, tr',
      First(StoreWithThumbnail(FAILED_ROW, JobRow(JobStatus.Failed, used)), EXHAUSTED, AfterFailure(used), [],
        PerJob(3, used, 0)))
  {
    hide LeadsTo, Plan;
    var job := JobRow(JobStatus.Processing, used);
    var st := StoreWithThumbnail(FAILED_ROW, JobRow(JobStatus.Failed, used));
    tr' := ThumbnailMoves(id, CrashFree, tr, StoreWithThumbnail(CLAIMED_ROW, job), used,
      Working(CLAIMED_ROW, job, []), EXHAUSTED, PerJob(3, used, 0), Fail, Progress(Raised(false), st));
    tr' := Replaced(id, CrashFree, tr', st, EXHAUSTED, Activity(used, Live(Raised(false))), EXHAUSTED,
      AfterFailure(used), PerJob(3, used, 0), Report(0, Thumbnail));
  }

  lemma ThumbnailFailsAgain(id: VideoId, tr: Trace, used: nat) returns (tr': Trace)
    requires 1 <= used < 3
    requires LeadsTo(id, CrashFree, tr,
      First(StoreWithThumbnail(FAILED_ROW, JobRow(JobStatus.Failed, used)), EXHAUSTED, Activity(used, Waiting), [],
        PerJob(3, used, 0)))
    ensures LeadsTo(id, CrashFree, tr',
      First(StoreWithThumbnail(FAILED_ROW, JobRow(JobStatus.Failed, used + 1)), EXHAUSTED, AfterFailure(used + 1),
        [], PerJob(3, used + 1, 0)))
  {
    hide LeadsTo, Plan;
    var failed, claims := JobRow(JobStatus.Failed, used), PerJob(3, used, 0);
    var st := StoreWithThumbnail(FAILED_ROW, failed);
    tr' := ThumbnailDispatched(id, CrashFree, tr, st, used, EXHAUSTED, claims);
    tr' := ThumbnailMoves(id, CrashFree, tr', st, used + 1, Opened, EXHAUSTED, claims, Load,
      Progress(Loaded(FAILED_ROW), st));
    tr' := ThumbnailMoves(id, CrashFree, tr', st, used + 1, Loaded(FAILED_ROW), EXHAUSTED, claims, Select,
      Progress(Found(FAILED_ROW, failed), st));
    tr' := ThumbnailClaims(id, tr', used + 1, failed);
    tr' := ThumbnailRaises(id, tr', used + 1);
  }

  const BOTH_FAILED := StoreWithThumbnail(FAILED_ROW, JobRow(JobStatus.Failed, 3))

  /** An original neither activity can read: metadata fails three times, then thumbnail does. */
  lemma BothFail(id: VideoId) returns (tr: Trace)
    ensures LeadsTo(id, CrashFree, tr, First(BOTH_FAILED, EXHAUSTED, EXHAUSTED, [], PerJob(3, 3, 0)))
  {
    hide LeadsTo;
    tr := ThumbnailFound(id);
    tr := ThumbnailClaims(id, tr, 1, JobRow(JobStatus.Pending, 0));
    tr := ThumbnailRaises(id, tr, 1);
    tr := ThumbnailFailsAgain(id, tr, 1);
    tr := ThumbnailFailsAgain(id, tr, 2);
  }

  lemma RetryLists()
    ensures [] + [Checked] == [Checked] && [Checked][0 := Sent] == [Sent] && [Sent][0 := Answered] == [Answered]
  {
  }

  /** The video between both activities' last failures and the execution's close, and later. */
  function BothFailed(retries: seq<RetryCall>): Video {
    First(BOTH_FAILED, EXHAUSTED, EXHAUSTED, retries, PerJob(3, 3, 0))
  }

  function BothFailedClosed(store: Store, retries: seq<RetryCall>): Video {
    Closed(store, EXHAUSTED, EXHAUSTED, retries, PerJob(3, 3, 0))
  }

  const SWALLOWED := [RetryCheck, RetrySend(0), Start, Settle(0), RetryCommit(0)]

  /** What the five events of a swallowed retry lead through. */
  const SWALLOWED_STATES :=
    [BothFailed([Checked]), BothFailed([Sent]), BothFailed([Sent]), BothFailedClosed(BOTH_FAILED, [Sent]),
     BothFailedClosed(StoreWithThumbnail(CLAIMED_ROW, JobRow(JobStatus.Failed, 3)), [Answered])]

  lemma SwallowedSteps(id: VideoId)
    ensures Next(id, BothFailed([]), RetryCheck) == Some(SWALLOWED_STATES[0])
    ensures Next(id, SWALLOWED_STATES[0], RetrySend(0)) == Some(SWALLOWED_STATES[1])
    ensures Next(id, SWALLOWED_STATES[1], Start) == Some(SWALLOWED_STATES[2])
    ensures !MayStart(SWALLOWED_STATES[1].executions)
    ensures Next(id, SWALLOWED_STATES[2], Settle(0)) == Some(SWALLOWED_STATES[3])
    ensures Next(id, SWALLOWED_STATES[3], RetryCommit(0)) == Some(SWALLOWED_STATES[4])
    ensures Stranded(id, SWALLOWED_STATES[4])
  {
    RetryLists();
    SettlesFailed(id, BOTH_FAILED, EXHAUSTED, EXHAUSTED, [Sent], PerJob(3, 3, 0));
  }

  /** A client sees `failed` between the activities' last failures and the workflow's close, and
      calls retry. The shim finds the execution still open, takes the redelivered message for a
      duplicate and deletes it; the execution closes; the retry call then commits `processing`.
      Nothing crashes in the whole run. */
  lemma SwallowedRetryStrands(id: VideoId) returns (tr: Trace, k: nat)
    ensures IsRun(id, FRESH, tr.events, tr.states)
    ensures |tr.events| == k + 5 && tr.events[k..] == SWALLOWED
    ensures forall l :: 0 <= l < |tr.events| ==> !tr.events[l].Crash? && CountsAgainst(tr.events[l], {})
    ensures forall l :: 0 <= l < k ==> !tr.events[l].Start? && !tr.events[l].RetrySend?
    ensures !MayStart(tr.states[k + 2].executions) && tr.states[k + 3] == tr.states[k + 2]
    ensures tr.states[k..] == [BothFailed([])] + SWALLOWED_STATES
    ensures Reachable(id, tr.End()) && Stranded(id, tr.End())
  {
    hide Reachable, Next;
    var prefix := BothFail(id);
    k := |prefix.events|;
    SwallowedSteps(id);
    tr := Trace(prefix.events + SWALLOWED, prefix.states + SWALLOWED_STATES);
    assert prefix.states[k] == BothFailed([]);
    assert tr.states[k..] == [prefix.states[k]] + SWALLOWED_STATES;
    forall l | 0 <= l < |tr.events| ensures Next(id, tr.states[l], tr.events[l]) == Some(tr.states[l + 1]) {
      if l < k {
        assert tr.states[l] == prefix.states[l] && tr.states[l + 1] == prefix.states[l + 1];
      } else {
        assert tr.events[l] == SWALLOWED[l - k];
        assert tr.states[l + 1] == SWALLOWED_STATES[l - k];
        assert tr.states[l] == if l == k then BothFailed([]) else SWALLOWED_STATES[l - k - 1];
      }
    }
    assert forall l :: 0 <= l < k ==> Obeys(id, CrashFree, l, prefix.events[l]);
    TraceIsReachable(id, tr);
  }

  // ---- A retry call that commits after its own execution has finished ----

  /** The video is complete, its execution Completed, and it reads `processing` for good. */
  lemma LateRetryOverwrites(id: VideoId) returns (v: Video)
    ensures Reachable(id, v)
    ensures v.executions != [] && Last(v).phase.Completed? && v.store.AllDone()
    ensures v.store.video.status == VideoStatus.Processing
  {
    hide Reachable, Next, Inv, OnTrack, FaultFree;
    var before := FailedWithRetrySent(id);
    StartIsReachable(id, before);
    ReachableOk(id, AfterStart(before));
    StartsOnTrack(before);
    var events, states := RunToCompletion(id, before, AfterStart(before), {});
    RunIsReachable(id, AfterStart(before), events, states, |events|);
    RetriesKept(id, AfterStart(before), events, states, |events|);
    var end := states[|events|];
    ReachableOk(id, end);
    OnTrackHasExecution(before, end);
    ClosedOnTrack(id, before, end);
    v := end.(retries := [Answered], store := end.store.(video := end.store.video.(status := VideoStatus.Processing)));
    CommitsRetry(id, end, v);
    ReachableStep(id, end, RetryCommit(0), v);
  }

  lemma CommitsRetry(id: VideoId, end: Video, v: Video)
    requires end.retries == [Sent]
    requires v == end.(
      retries := [Answered], store := end.store.(video := end.store.video.(status := VideoStatus.Processing)))
    ensures Next(id, end, RetryCommit(0)) == Some(v)
  {
    assert end.retries[0 := Answered] == [Answered];
  }

  lemma FailedWithRetrySent(id: VideoId) returns (v: Video)
    ensures Reachable(id, v) && MayStart(v.executions) && HeightUsable(v.store) && v.retries == [Sent]
  {
    hide Reachable;
    var tr := BothFail(id);
    tr := ClosesFailed(id, CrashFree, tr, BOTH_FAILED, EXHAUSTED, EXHAUSTED, PerJob(3, 3, 0));
    TraceIsReachable(id, tr);
    RetryLists();
    ReachableStep(id, BothFailedClosed(BOTH_FAILED, []), RetryCheck, BothFailedClosed(BOTH_FAILED, [Checked]));
    v := BothFailedClosed(BOTH_FAILED, [Sent]);
    ReachableStep(id, BothFailedClosed(BOTH_FAILED, [Checked]), RetrySend(0), v);
  }

  lemma {:induction false} RetriesKept(id: VideoId, v: Video, events: seq<Event>, states: seq<Video>, k: nat)
    requires v.executions != [] && IsRun(id, v, events, states) && k <= |events|
    requires forall l :: 0 <= l < |events| ==> Concerns(events[l], |v.executions| - 1)
    ensures states[k].retries == v.retries
  {
    hide Next;
    if k == 0 {
    } else {
      RetriesKept(id, v, events, states, k - 1);
      ExecutionEventsKeepRetries(id, states[k - 1], events[k - 1], states[k], |v.executions| - 1);
    }
  }

  lemma ExecutionEventsKeepRetries(id: VideoId, v: Video, event: Event, v': Video, i: nat)
    requires Next(id, v, event) == Some(v') && Concerns(event, i)
    ensures v'.retries == v.retries
  {
  }
}

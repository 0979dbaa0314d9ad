/** Every execution closes after a bounded number of events, whatever crashes, times out or fails,
    and an open execution always has an event left to take. */
module Termination {
  import opened Options
  import opened VideoIds
  import opened Rows
  import opened Sessions
  import opened SessionInvariant
  import opened Workflow
  import opened WorkflowInvariant
  import opened StatusWrites
  import opened Completion

  /** The longest way an attempt has left from here to its report. */
  function Rank(pc: Pc): int {
    match pc
    case Opened => 15
    case Loaded(_) => 14
    case NoRow(_) => 13
    case Lost(_) => 12
    case Found(_, _) => 11
    case Working(_, _, up) => 10 - |up|
    case Completing(_, list, n, _, _) => 3 + |list| - n
    case Counted(_, _, _, _) => 2
    case Returned(_) => 1
    case Raised(_) => 1
  }

  function ActivityMeasure(a: Activity): int {
    match a.state
    case Waiting => (MAX_ATTEMPTS - a.used) * 16
    case Live(pc) => (MAX_ATTEMPTS - a.used) * 16 + Rank(pc)
    case _ => 0
  }

  function Measure(e: Execution): int {
    ActivityMeasure(e.activities.metadata)
    + ActivityMeasure(e.activities.thumbnail)
    + ActivityMeasure(e.activities.transcode)
    + match e.phase case Parallel => 2 case Transcoding(_) => 1 case _ => 0
  }

  const STEP_BOUND: nat := 146

  predicate Concerns(event: Event, i: nat) {
    match event
    case Dispatch(n, _) => n == i
    case Act(n, _, _) => n == i
    case Report(n, _) => n == i
    case Crash(n, _) => n == i
    case Settle(n) => n == i
    case _ => false
  }

  lemma PlanIsShort(id: VideoId, j: JobType, h: int)
    ensures |Plan(id, j, h)| <= 3
  {
    PlanProduces(id, j, h);
  }

  lemma RankDecreases(plan: seq<Asset>, j: JobType, h: int, move: Move, pc: Pc, st: Store, p: Progress)
    requires |plan| <= 3 && LiveOk(plan, j, h, pc, st)
    requires Advance(plan, j, h, move, pc, st) == Some(p)
    ensures 1 <= Rank(p.pc) < Rank(pc) <= 15
  {
  }

  lemma RankRange(plan: seq<Asset>, j: JobType, h: int, pc: Pc, st: Store)
    requires |plan| <= 3 && LiveOk(plan, j, h, pc, st)
    ensures 1 <= Rank(pc) <= 15
  {
  }

  /** Replacing one activity by one with a smaller measure shrinks the execution's. */
  lemma SmallerActivity(e: Execution, j: JobType, a: Activity)
    requires ActivityMeasure(a) < ActivityMeasure(e.activities.Get(j))
    ensures Measure(e.With(j, a)) < Measure(e)
  {
  }

  lemma MeasureDecreases(id: VideoId, v: Video, event: Event, v': Video, i: nat)
    requires Inv(id, v) && Next(id, v, event) == Some(v') && i < |v.executions|
    ensures i < |v'.executions|
    ensures if Concerns(event, i) then Measure(v'.executions[i]) < Measure(v.executions[i])
      else v'.executions[i] == v.executions[i]
  {
    hide Inv;
    if Concerns(event, i) {
      var e := v.executions[i];
      match event
      case Dispatch(_, j) => SmallerActivity(e, j, Activity(e.activities.Get(j).used + 1, Live(Opened)));
      case Act(_, j, move) =>
        var a, h := e.activities.Get(j), e.Height();
        LiveAttemptOk(id, v, i, j);
        PlanIsShort(id, j, h);
        var p := Advance(Plan(id, j, h), j, h, move, a.state.pc, v.store).value;
        RankDecreases(Plan(id, j, h), j, h, move, a.state.pc, v.store, p);
        SmallerActivity(e, j, a.(state := Live(p.pc)));
      case Report(_, j) =>
        AttemptEnds(id, v, i, j);
        SmallerActivity(e, j, AfterReport(e.activities.Get(j)).value);
      case Crash(_, j) =>
        AttemptEnds(id, v, i, j);
        SmallerActivity(e, j, e.activities.Get(j).Retried(false));
      case Settle(_) =>
      case _ =>
    }
  }

  lemma AttemptEnds(id: VideoId, v: Video, i: nat, j: JobType)
    requires Inv(id, v) && i < |v.executions| && v.executions[i].activities.Get(j).state.Live?
    ensures var a := v.executions[i].activities.Get(j);
      ActivityMeasure(a) > 0 && (a.used < MAX_ATTEMPTS ==> (MAX_ATTEMPTS - a.used) * 16 < ActivityMeasure(a))
  {
    var h := v.executions[i].Height();
    LiveAttemptOk(id, v, i, j);
    assert ActivityOk(v.executions[i].activities.Get(j));
    PlanIsShort(id, j, h);
    RankRange(Plan(id, j, h), j, h, v.executions[i].activities.Get(j).state.pc, v.store);
  }

  lemma ActivityMeasureNatural(id: VideoId, v: Video, i: nat, j: JobType)
    requires Inv(id, v) && i < |v.executions|
    ensures ActivityMeasure(v.executions[i].activities.Get(j)) >= 0
  {
    assert ExecutionOk(v.executions[i]);
    assert ActivityOk(v.executions[i].activities.Get(j));
    if v.executions[i].activities.Get(j).state.Live? {
      AttemptEnds(id, v, i, j);
    }
  }

  lemma MeasureNatural(id: VideoId, v: Video, i: nat)
    requires Inv(id, v) && i < |v.executions|
    ensures Measure(v.executions[i]) >= 0
  {
    ActivityMeasureNatural(id, v, i, Metadata);
    ActivityMeasureNatural(id, v, i, Thumbnail);
    ActivityMeasureNatural(id, v, i, Transcode);
  }

  /** How many of the first k events concern execution i. */
  function StepsOf(i: nat, events: seq<Event>, k: nat): nat
    requires k <= |events|
  {
    if k == 0 then 0 else StepsOf(i, events, k - 1) + if Concerns(events[k - 1], i) then 1 else 0
  }

  /** Steps taken so far and steps left stay within the bound. */
  ghost predicate WithinBudget(v: Video, i: nat, spent: nat) {
    if i < |v.executions| then spent + Measure(v.executions[i]) <= STEP_BOUND else spent == 0
  }

  lemma BudgetKept(id: VideoId, v: Video, event: Event, v': Video, i: nat, spent: nat)
    requires Inv(id, v) && Next(id, v, event) == Some(v') && WithinBudget(v, i, spent)
    ensures WithinBudget(v', i, spent + if Concerns(event, i) then 1 else 0)
  {
    if i < |v.executions| {
      MeasureDecreases(id, v, event, v', i);
    } else {
      NewExecutionsAreFresh(id, v, event, v', i);
      assert Measure(NEW_EXECUTION) == STEP_BOUND;
    }
  }

  lemma NewExecutionsAreFresh(id: VideoId, v: Video, event: Event, v': Video, i: nat)
    requires Next(id, v, event) == Some(v') && i >= |v.executions|
    ensures !Concerns(event, i)
    ensures i < |v'.executions| ==> v'.executions[i] == NEW_EXECUTION
  {
  }

  lemma {:induction false} StepsAndMeasure(id: VideoId, events: seq<Event>, states: seq<Video>, i: nat, k: nat)
    requires IsRun(id, NEW_VIDEO, events, states) && k <= |events|
    ensures WithinBudget(states[k], i, StepsOf(i, events, k))
  {
    hide Inv, Next, Concerns;
    if k == 0 {
    } else {
      StepsAndMeasure(id, events, states, i, k - 1);
      NewVideoOk(id);
      RunKeeps(id, NEW_VIDEO, events, states, k - 1);
      BudgetKept(id, states[k - 1], events[k - 1], states[k], i, StepsOf(i, events, k - 1));
    }
  }

  /** In any run at all, an execution takes part in at most 146 events. */
  lemma EveryExecutionTerminates(id: VideoId, events: seq<Event>, states: seq<Video>, i: nat)
    requires IsRun(id, NEW_VIDEO, events, states)
    ensures StepsOf(i, events, |events|) <= STEP_BOUND
  {
    StepsAndMeasure(id, events, states, i, |events|);
    if i < |states[|events|].executions| {
      NewVideoOk(id);
      RunKeeps(id, NEW_VIDEO, events, states, |events|);
      MeasureNatural(id, states[|events|], i);
    }
  }

  // ---- An open execution is never stuck ----

  /** The next move of an attempt when its work succeeds; `taken` are other videos' asset keys. */
  function NextMove(j: JobType, h: int, plan: seq<Asset>, pc: Pc, taken: set<string>): Move {
    match pc
    case Opened => Load
    case Loaded(_) => Select
    case NoRow(_) => Insert
    case Lost(_) => Reread
    case Found(_, _) => Claim
    case Working(_, _, up) =>
      if Refused(j, h) then Fail else if |up| < |plan| then Upload else Finish(VideoMetadata(1, 1, 1))
    case Completing(_, list, n, _, _) => if n < |list| then Upsert else Count(taken)
    case _ => Commit
  }

  function ActivityEvent(id: VideoId, e: Execution, i: nat, j: JobType, taken: set<string>): Event {
    match e.activities.Get(j).state
    case Live(pc) =>
      if pc.Returned? || pc.Raised? then Report(i, j)
        else Act(i, j, NextMove(j, e.Height(), Plan(id, j, e.Height()), pc, taken))
    case _ => Dispatch(i, j)
  }

  function NextEvent(id: VideoId, e: Execution, i: nat, taken: set<string>): Event {
    if e.phase.Parallel? then
      if !e.activities.metadata.Settled() then ActivityEvent(id, e, i, Metadata, taken)
      else if !e.activities.thumbnail.Settled() then ActivityEvent(id, e, i, Thumbnail, taken)
      else Settle(i)
    else if !e.activities.transcode.Settled() then ActivityEvent(id, e, i, Transcode, taken)
    else Settle(i)
  }

  lemma MoveEnabled(plan: seq<Asset>, j: JobType, h: int, pc: Pc, taken: set<string>, st: Store)
    requires LiveOk(plan, j, h, pc, st) && !pc.Returned? && !pc.Raised?
    ensures Advance(plan, j, h, NextMove(j, h, plan, pc, taken), pc, st).Some?
  {
  }

  lemma ActivityEventEnabled(id: VideoId, v: Video, i: nat, j: JobType, taken: set<string>)
    requires Inv(id, v) && Scheduled(v, i, j) && !v.executions[i].activities.Get(j).Settled()
    ensures Next(id, v, ActivityEvent(id, v.executions[i], i, j, taken)).Some?
  {
    hide LiveOk, StoreOk, Plan, Advance, NextMove;
    var e := v.executions[i];
    var a := e.activities.Get(j);
    if a.state.Live? {
      LiveAttemptOk(id, v, i, j);
      if !a.state.pc.Returned? && !a.state.pc.Raised? {
        MoveEnabled(Plan(id, j, e.Height()), j, e.Height(), a.state.pc, taken, v.store);
      }
    } else {
      assert ExecutionOk(e) && ActivityOk(a);
    }
  }

  /** Whatever has happened, an open execution can always take another step. */
  lemma OpenExecutionCanMove(id: VideoId, v: Video, i: nat, taken: set<string>)
    requires Inv(id, v) && i < |v.executions| && v.executions[i].Open()
    ensures var event := NextEvent(id, v.executions[i], i, taken);
      Concerns(event, i) && Next(id, v, event).Some?
  {
    var e := v.executions[i];
    OpenIsLast(v, i);
    if e.phase.Parallel? {
      if !e.activities.metadata.Settled() {
        ActivityEventEnabled(id, v, i, Metadata, taken);
      } else if !e.activities.thumbnail.Settled() {
        ActivityEventEnabled(id, v, i, Thumbnail, taken);
      } else {
        assert e.Schedules(Metadata) && e.activities.Get(Metadata) == e.activities.metadata;
      }
    } else if !e.activities.transcode.Settled() {
      ActivityEventEnabled(id, v, i, Transcode, taken);
    }
  }

  // ---- What ends an attempt, and what it leads to ----

  /** Whatever state it is in, a live attempt may die; while it works, its work may also raise, the
      next upload may succeed, and once everything is uploaded ffprobe may have reported anything. */
  lemma FaultsMayStrike(id: VideoId, v: Video, i: nat, j: JobType)
    requires Inv(id, v) && i < |v.executions| && v.executions[i].activities.Get(j).state.Live?
    ensures Next(id, v, Crash(i, j)).Some?
    ensures var e, pc := v.executions[i], v.executions[i].activities.Get(j).state.pc;
      pc.Working? ==>
        && Next(id, v, Act(i, j, Fail)).Some?
        && (j != Transcode || e.Height() > 0 ==>
              if |pc.uploaded| < |Plan(id, j, e.Height())| then Next(id, v, Act(i, j, Upload)).Some?
              else forall m :: Next(id, v, Act(i, j, Finish(m))).Some?)
  {
    hide Inv, Plan;
    LiveAttemptOk(id, v, i, j);
  }

  /** The retry policy: a failed attempt is followed by another until three are used, at once by none
      if its error is not worth retrying; a dead attempt counts like a failed one. */
  lemma RetryPolicy(id: VideoId, v: Video, event: Event, v': Video)
    requires (event.Report? || event.Crash?) && Next(id, v, event) == Some(v')
    ensures var a, a' := v.executions[event.i].activities.Get(event.j), v'.executions[event.i].activities.Get(event.j);
      && a.state.Live? && a'.used == a.used
      && (event.Crash? || a.state.pc == Raised(false) ==> a'.state == if a.used >= 3 then Exhausted else Waiting)
      && (event.Report? && a.state.pc == Raised(true) ==> a'.state == Exhausted)
      && (event.Report? && a.state.pc.Returned? ==> a'.state == Succeeded(a.state.pc.metadata))
  {
  }

  /** A transcode attempt that was given no usable height uploads nothing: all it can do is fail the
      job, and then the activity is over whatever attempts are left. */
  lemma UnusableHeightIsNotRetried(id: VideoId, v: Video, i: nat, move: Move, v1: Video, v2: Video)
    requires Inv(id, v) && i < |v.executions| && v.executions[i].Height() <= 0
    requires var s := v.executions[i].activities.Get(Transcode).state; s.Live? && s.pc.Working?
    requires Next(id, v, Act(i, Transcode, move)) == Some(v1) && Next(id, v1, Report(i, Transcode)) == Some(v2)
    ensures move == Fail && v1.store.video.status.Failed? && v1.store.jobs.transcode.Some?
    ensures v1.store.jobs.transcode.value.status.Failed?
    ensures v2.executions[i].activities.Get(Transcode).state == Exhausted
    ensures v2.store.assets == v.store.assets && v2.store.objects == v.store.objects
  {
    hide Inv, Plan, StoreOk, LiveOk;
    var h, pc := v.executions[i].Height(), v.executions[i].activities.Get(Transcode).state.pc;
    LiveAttemptOk(id, v, i, Transcode);
    StoreIsOk(id, v);
    FailKeeps(id, Plan(id, Transcode, h), Transcode, h, pc.video, pc.job, pc.uploaded, v.store);
  }
}

/** One inductive invariant of a video, kept by every event and so true in every reachable state. */
module WorkflowInvariant {
  import opened Options
  import opened VideoIds
  import opened Rows
  import opened Sessions
  import opened SessionInvariant
  import opened Workflow

  // ---- Executions ----

  ghost predicate ActivityOk(a: Activity) {
    a.used <= MAX_ATTEMPTS && (if a.state.Waiting? then a.used < MAX_ATTEMPTS else a.used >= 1)
  }

  ghost predicate ExecutionOk(e: Execution) {
    var m, t, x := e.activities.metadata, e.activities.thumbnail, e.activities.transcode;
    && ActivityOk(m) && ActivityOk(t) && ActivityOk(x)
    && match e.phase
       case Parallel => x == Activity(0, Waiting)
       case Transcoding(_) => m.state.Succeeded? && t.state.Succeeded?
       case Completed => m.state.Succeeded? && t.state.Succeeded? && x.state.Succeeded?
       case Failed =>
         || (m.Settled() && t.Settled() && (m.state.Exhausted? || t.state.Exhausted?) && x == Activity(0, Waiting))
         || (m.state.Succeeded? && t.state.Succeeded? && x.state.Exhausted?)
  }

  /** Failed*, then at most one execution in any phase. */
  ghost predicate ShapeOk(executions: seq<Execution>) {
    && (forall i :: 0 <= i < |executions| ==> ExecutionOk(executions[i]))
    && (forall i :: 0 <= i < |executions| - 1 ==> executions[i].phase.Failed?)
  }

  // ---- Executions and the store ----

  ghost predicate StateOk(plan: seq<Asset>, j: JobType, h: int, s: ActivityState, st: Store) {
    && StageOk(j, h, st)
    && match s
       case Live(pc) => LiveOk(plan, j, h, pc, st)
       case Succeeded(m) => LiveOk(plan, j, h, Returned(m), st)
       case _ => true
  }

  ghost predicate Linked(id: VideoId, e: Execution, st: Store) {
    && (forall j :: e.Schedules(j) ==> StateOk(Plan(id, j, e.Height()), j, e.Height(), e.activities.Get(j).state, st))
    && (e.phase.Completed? ==> st.AllDone())
  }

  // ---- Attempt bookkeeping ----

  function Attempts(row: Option<JobRow>): int {
    if row.None? then 0 else row.value.attempts
  }

  function TotalUsed(executions: seq<Execution>, j: JobType): nat {
    if executions == [] then 0
    else TotalUsed(executions[..|executions| - 1], j) + executions[|executions| - 1].activities.Get(j).used
  }

  /** A dispatched attempt that has not claimed its job yet. */
  predicate Unclaimed(s: ActivityState) {
    s.Live? && (s.pc.Opened? || s.pc.Loaded? || s.pc.NoRow? || s.pc.Lost? || s.pc.Found?)
  }

  function Last(v: Video): Execution
    requires v.executions != []
  {
    v.executions[|v.executions| - 1]
  }

  /** Attempts whose claim may already be committed. */
  function PastClaim(a: Activity): int {
    if Unclaimed(a.state) then a.used - 1 else a.used
  }

  function TotalPastClaim(executions: seq<Execution>, j: JobType): int {
    if executions == [] then 0
    else TotalUsed(executions[..|executions| - 1], j) + PastClaim(executions[|executions| - 1].activities.Get(j))
  }

  ghost predicate CountsOk(v: Video, j: JobType) {
    && v.claims.Get(j) == Attempts(v.store.jobs.Get(j))
    && v.claims.Get(j) <= TotalPastClaim(v.executions, j)
  }

  ghost predicate Inv(id: VideoId, v: Video) {
    && StoreOk(id, v.store)
    && ShapeOk(v.executions)
    && (v.executions != [] ==> Linked(id, Last(v), v.store))
    && (forall j :: CountsOk(v, j))
  }

  lemma NewVideoOk(id: VideoId)
    ensures Inv(id, NEW_VIDEO)
  {
  }

  /** Only the last execution can be open. */
  lemma OpenIsLast(v: Video, i: nat)
    requires ShapeOk(v.executions) && i < |v.executions| && v.executions[i].Open()
    ensures i == |v.executions| - 1
  {
  }

  lemma OpenIsLastOf(id: VideoId, v: Video, i: nat)
    requires Inv(id, v) && i < |v.executions| && v.executions[i].Open()
    ensures i == |v.executions| - 1
  {
  }

  // ---- Every event keeps the invariant ----

  /** The bookkeeping of job j after the last execution becomes `e`. */
  ghost predicate Tallies(v: Video, e: Execution, store: Store, claims: PerJob<nat>, j: JobType)
    requires v.executions != []
  {
    && claims.Get(j) == Attempts(store.jobs.Get(j))
    && claims.Get(j) - v.claims.Get(j) <= PastClaim(e.activities.Get(j)) - PastClaim(Last(v).activities.Get(j))
  }

  /** The invariant after the last execution is replaced, from what changed. */
  lemma ReplaceLast(id: VideoId, v: Video, e: Execution, store: Store, claims: PerJob<nat>, v': Video)
    requires Inv(id, v) && v.executions != []
    requires v'.executions == v.executions[|v.executions| - 1 := e] && v'.store == store && v'.claims == claims
    requires ExecutionOk(e) && StoreOk(id, store) && Linked(id, e, store)
    requires forall j :: Tallies(v, e, store, claims, j)
    ensures Inv(id, v')
  {
    var n := |v.executions| - 1;
    assert v'.executions[..n] == v.executions[..n];
    forall j ensures CountsOk(v', j) {
      assert CountsOk(v, j) && Tallies(v, e, store, claims, j);
    }
  }

  lemma StartKeeps(id: VideoId, v: Video)
    requires Inv(id, v)
    ensures Inv(id, AfterStart(v))
  {
    var v' := AfterStart(v);
    if MayStart(v.executions) {
      assert v'.executions[..|v.executions|] == v.executions;
      assert Last(v') == NEW_EXECUTION;
      forall j ensures CountsOk(v', j) {
        assert CountsOk(v, j);
      }
    }
  }

  /** Replacing the state of one scheduled activity, with the store as it is. */
  lemma ActivityKeeps(id: VideoId, v: Video, i: nat, j: JobType, a: Activity)
    requires Inv(id, v) && Scheduled(v, i, j)
    requires ActivityOk(a) && PastClaim(v.executions[i].activities.Get(j)) <= PastClaim(a)
    requires var h := v.executions[i].Height(); StateOk(Plan(id, j, h), j, h, a.state, v.store)
    ensures Inv(id, WithActivity(v, i, j, a))
  {
    hide StoreOk, Plan, LiveOk, StageOk, TotalUsed, TotalPastClaim;
    OpenIsLast(v, i);
    var e := v.executions[i];
    var e' := e.With(j, a);
    assert forall k :: k != j ==> e'.activities.Get(k) == e.activities.Get(k);
    assert Linked(id, e', v.store);
    forall k ensures Tallies(v, e', v.store, v.claims, k) {
      assert CountsOk(v, k);
    }
    ReplaceLast(id, v, e', v.store, v.claims, WithActivity(v, i, j, a));
  }

  lemma DispatchKeeps(id: VideoId, v: Video, i: nat, j: JobType, v': Video)
    requires Inv(id, v) && Next(id, v, Dispatch(i, j)) == Some(v')
    ensures Inv(id, v')
  {
    hide StoreOk, Plan, StageOk, TotalUsed, TotalPastClaim;
    OpenIsLast(v, i);
    assert Linked(id, v.executions[i], v.store);
    ActivityKeeps(id, v, i, j, Activity(v.executions[i].activities.Get(j).used + 1, Live(Opened)));
  }

  lemma ReportKeeps(id: VideoId, v: Video, i: nat, j: JobType, v': Video)
    requires Inv(id, v) && Next(id, v, Report(i, j)) == Some(v')
    ensures Inv(id, v')
  {
    hide StoreOk, Plan, LiveOk, StageOk, TotalUsed, TotalPastClaim;
    OpenIsLast(v, i);
    assert Linked(id, v.executions[i], v.store);
    ActivityKeeps(id, v, i, j, AfterReport(v.executions[i].activities.Get(j)).value);
  }

  lemma CrashKeeps(id: VideoId, v: Video, i: nat, j: JobType, v': Video)
    requires Inv(id, v) && Next(id, v, Crash(i, j)) == Some(v')
    ensures Inv(id, v')
  {
    hide StoreOk, Plan, LiveOk, StageOk, TotalUsed, TotalPastClaim;
    OpenIsLast(v, i);
    assert Linked(id, v.executions[i], v.store);
    ActivityKeeps(id, v, i, j, v.executions[i].activities.Get(j).Retried(false));
  }

  lemma SettledPhase(e: Execution)
    requires AfterSettle(e).Some?
    ensures e.Open() && AfterSettle(e).value.activities == e.activities
  {
  }

  lemma SettledExecution(id: VideoId, e: Execution, st: Store)
    requires ExecutionOk(e) && Linked(id, e, st) && AfterSettle(e).Some?
    ensures ExecutionOk(AfterSettle(e).value) && Linked(id, AfterSettle(e).value, st)
  {
    var e' := AfterSettle(e).value;
    var m, t, x := e.activities.metadata, e.activities.thumbnail, e.activities.transcode;
    if e.phase.Parallel? {
      assert e.Schedules(Metadata) && e.Schedules(Thumbnail);
      assert m.state == e.activities.Get(Metadata).state && t.state == e.activities.Get(Thumbnail).state;
      if m.state.Succeeded? && t.state.Succeeded? {
        assert st.Done(Metadata) && st.Done(Thumbnail);
        assert st.video.height == Some(e'.Height());
      }
    } else {
      assert e.Schedules(Transcode) && x.state == e.activities.Get(Transcode).state;
    }
  }

  lemma SettleKeeps(id: VideoId, v: Video, i: nat)
    requires Inv(id, v) && i < |v.executions| && AfterSettle(v.executions[i]).Some?
    ensures Inv(id, v.(executions := v.executions[i := AfterSettle(v.executions[i]).value]))
  {
    hide Linked, StoreOk, AfterSettle;
    var e := v.executions[i];
    var e' := AfterSettle(e).value;
    SettledPhase(e);
    OpenIsLast(v, i);
    SettledExecution(id, e, v.store);
    forall j ensures Tallies(v, e', v.store, v.claims, j) {
      assert CountsOk(v, j);
    }
    ReplaceLast(id, v, e', v.store, v.claims, v.(executions := v.executions[i := e']));
  }

  /** How one move shows in the job's `attempts` column. */
  lemma MoveCounts(plan: seq<Asset>, j: JobType, h: int, move: Move, pc: Pc, st: Store, p: Progress, used: nat)
    requires LiveOk(plan, j, h, pc, st)
    requires Advance(plan, j, h, move, pc, st) == Some(p)
    ensures var claimed := if pc.Found? && p.pc.Working? then 1 else 0;
      && Attempts(p.store.jobs.Get(j)) == Attempts(st.jobs.Get(j)) + claimed
      && claimed <= PastClaim(Activity(used, Live(p.pc))) - PastClaim(Activity(used, Live(pc)))
      && (st.jobs.Get(j).Some? ==> p.store.jobs.Get(j).Some?)
  {
    hide UploadsOk, FlushAllowed, Put, CompletedCount, StageOk;
  }

  lemma MoveKeepsVideo(id: VideoId, v: Video, i: nat, j: JobType, move: Move, p: Progress)
    requires Inv(id, v) && Scheduled(v, i, j)
    requires var e := v.executions[i]; var a := e.activities.Get(j);
      a.state.Live? && Advance(Plan(id, j, e.Height()), j, e.Height(), move, a.state.pc, v.store) == Some(p)
    ensures Inv(id, AfterMove(v, i, j, v.executions[i].activities.Get(j), p))
    ensures Guarantee(j, v.store, p.store)
  {
    hide StoreOk, Plan, Advance, Guarantee, TotalUsed, TotalPastClaim, Attempts, UploadsOk, FinishOk;
    OpenIsLast(v, i);
    var e := v.executions[i];
    var h := e.Height();
    var plan := Plan(id, j, h);
    var a := e.activities.Get(j);
    assert StateOk(plan, j, h, a.state, v.store);
    MoveKeeps(id, plan, j, h, move, a.state.pc, v.store, p);
    MoveCounts(plan, j, h, move, a.state.pc, v.store, p, a.used);
    var e' := e.With(j, a.(state := Live(p.pc)));
    var claims := CountClaim(v.claims, j, a.state.pc, p.pc);
    LinkedAfterMove(id, e, j, a.(state := Live(p.pc)), v.store, p.store);
    MoveTallies(id, v, j, p);
    ReplaceLast(id, v, e', p.store, claims, AfterMove(v, i, j, a, p));
  }

  lemma MoveTallies(id: VideoId, v: Video, j: JobType, p: Progress)
    requires v.executions != [] && Last(v).activities.Get(j).state.Live? && (forall k :: CountsOk(v, k))
    requires Guarantee(j, v.store, p.store)
    requires var a := Last(v).activities.Get(j); var pc := a.state.pc;
      var claimed := if pc.Found? && p.pc.Working? then 1 else 0;
      && Attempts(p.store.jobs.Get(j)) == Attempts(v.store.jobs.Get(j)) + claimed
      && claimed <= PastClaim(Activity(a.used, Live(p.pc))) - PastClaim(Activity(a.used, Live(pc)))
    ensures var a := Last(v).activities.Get(j);
      forall k :: Tallies(v, Last(v).With(j, a.(state := Live(p.pc))), p.store,
        CountClaim(v.claims, j, a.state.pc, p.pc), k)
  {
    var a := Last(v).activities.Get(j);
    var e', claims := Last(v).With(j, a.(state := Live(p.pc))), CountClaim(v.claims, j, a.state.pc, p.pc);
    forall k ensures Tallies(v, e', p.store, claims, k) {
      assert CountsOk(v, k);
      if k != j {
        assert e'.activities.Get(k) == Last(v).activities.Get(k) && claims.Get(k) == v.claims.Get(k);
      }
    }
  }

  lemma LinkedAfterMove(id: VideoId, e: Execution, j: JobType, a: Activity, st: Store, st': Store)
    requires Linked(id, e, st) && e.Schedules(j) && Guarantee(j, st, st')
    requires StateOk(Plan(id, j, e.Height()), j, e.Height(), a.state, st')
    ensures Linked(id, e.With(j, a), st')
  {
    var e' := e.With(j, a);
    var h := e.Height();
    forall k | e'.Schedules(k)
      ensures StateOk(Plan(id, k, h), k, h, e'.activities.Get(k).state, st')
    {
      if k != j {
        assert e'.activities.Get(k) == e.activities.Get(k);
        SiblingUndisturbed(Plan(id, k, h), k, h, e.activities.Get(k).state, j, st, st');
      }
    }
  }

  lemma SiblingUndisturbed(plan: seq<Asset>, k: JobType, h: int, s: ActivityState, j: JobType, st: Store, st': Store)
    requires StateOk(plan, k, h, s, st) && Guarantee(j, st, st') && k != j
    ensures StateOk(plan, k, h, s, st')
  {
    match s
    case Live(pc) => Undisturbed(plan, k, h, pc, j, st, st');
    case Succeeded(m) => Undisturbed(plan, k, h, Returned(m), j, st, st');
    case _ => Undisturbed(plan, k, h, Opened, j, st, st');
  }

  /** A retry call's commit touches only the video's status. */
  lemma RetryCommitKeeps(id: VideoId, v: Video, k: nat)
    requires Inv(id, v) && k < |v.retries|
    ensures Inv(id, v.(retries := v.retries[k := Answered],
                       store := v.store.(video := v.store.video.(status := VideoStatus.Processing))))
  {
    var v' := v.(
      retries := v.retries[k := Answered],
      store := v.store.(video := v.store.video.(status := VideoStatus.Processing)));
    assert forall j :: v'.store.Done(j) == v.store.Done(j);
    assert StoreOk(id, v'.store);
    if v.executions != [] {
      assert Linked(id, Last(v), v.store);
      forall j | Last(v).Schedules(j)
        ensures StateOk(Plan(id, j, Last(v).Height()), j, Last(v).Height(), Last(v).activities.Get(j).state, v'.store)
      {
        StatusIrrelevant(Plan(id, j, Last(v).Height()), j, Last(v).Height(), Last(v).activities.Get(j).state,
          v.store, v'.store);
      }
    }
    forall j ensures CountsOk(v', j) {
      assert CountsOk(v, j);
    }
  }

  lemma StatusIrrelevant(plan: seq<Asset>, j: JobType, h: int, s: ActivityState, st: Store, st': Store)
    requires StateOk(plan, j, h, s, st)
    requires st' == st.(video := st.video.(status := VideoStatus.Processing))
    ensures StateOk(plan, j, h, s, st')
  {
    assert forall k :: st'.Done(k) == st.Done(k);
  }

  lemma RetryKeeps(id: VideoId, v: Video, retries: seq<RetryCall>)
    requires Inv(id, v)
    ensures Inv(id, v.(retries := retries))
  {
    forall j ensures CountsOk(v.(retries := retries), j) {
      assert CountsOk(v, j);
    }
  }

  lemma ActKeeps(id: VideoId, v: Video, i: nat, j: JobType, move: Move, v': Video)
    requires Inv(id, v) && Next(id, v, Act(i, j, move)) == Some(v')
    ensures Inv(id, v')
  {
    var e := v.executions[i];
    MoveKeepsVideo(id, v, i, j, move,
      Advance(Plan(id, j, e.Height()), j, e.Height(), move, e.activities.Get(j).state.pc, v.store).value);
  }

  lemma EventKeeps(id: VideoId, v: Video, event: Event, v': Video)
    requires Inv(id, v) && Next(id, v, event) == Some(v')
    ensures Inv(id, v')
  {
    match event
    case Start => StartKeeps(id, v);
    case Dispatch(i, j) => DispatchKeeps(id, v, i, j, v');
    case Act(i, j, move) => ActKeeps(id, v, i, j, move, v');
    case Report(i, j) => ReportKeeps(id, v, i, j, v');
    case Crash(i, j) => CrashKeeps(id, v, i, j, v');
    case Settle(i) => SettleKeeps(id, v, i);
    case RetryCheck => RetryKeeps(id, v, v'.retries);
    case RetrySend(k) => RetryKeeps(id, v, v'.retries);
    case RetryCommit(k) => RetryCommitKeeps(id, v, k);
  }

  lemma {:induction false} RunKeeps(id: VideoId, v: Video, events: seq<Event>, states: seq<Video>, k: nat)
    requires Inv(id, v) && IsRun(id, v, events, states) && k <= |events|
    ensures Inv(id, states[k])
  {
    if k == 0 {
    } else {
      RunKeeps(id, v, events, states, k - 1);
      EventKeeps(id, states[k - 1], events[k - 1], states[k]);
    }
  }

  /** The invariant holds in every reachable state. */
  lemma ReachableOk(id: VideoId, v: Video)
    requires Reachable(id, v)
    ensures Inv(id, v)
  {
    var events, states :| IsRun(id, NEW_VIDEO, events, states) && states[|events|] == v;
    NewVideoOk(id);
    RunKeeps(id, NEW_VIDEO, events, states, |events|);
  }
}

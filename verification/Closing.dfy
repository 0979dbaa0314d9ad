/** What a client polling `videos.status` sees when an execution closes Failed. */
module Closing {
  import opened Options
  import opened VideoIds
  import opened Rows
  import opened Sessions
  import opened SessionInvariant
  import opened Workflow
  import opened WorkflowInvariant
  import opened StatusWrites
  import opened Completion

  /** No other video's row holds one of this video's asset keys. */
  ghost predicate Honest(id: VideoId, event: Event) {
    event.Act? && event.move.Count? ==> forall t :: AssetKey(id, t) !in event.move.taken
  }

  /** No attempt dies and no retry call commits. */
  ghost predicate Calm(id: VideoId, event: Event) {
    !event.Crash? && !event.RetryCommit? && Honest(id, event)
  }

  ghost predicate CalmRun(id: VideoId, v: Video, events: seq<Event>, states: seq<Video>) {
    && IsRun(id, v, events, states)
    && (forall k :: 0 <= k < |events| ==> Calm(id, events[k]))
    && v.executions != [] && Last(v) == NEW_EXECUTION
  }

  /** The activity's last attempt raised. */
  predicate HasRaised(a: Activity) {
    a.state.Exhausted? || (a.state.Live? && a.state.pc.Raised?)
  }

  lemma MoveRaises(id: VideoId, plan: seq<Asset>, j: JobType, h: int, move: Move, pc: Pc, st: Store, p: Progress)
    requires plan == Plan(id, j, h)
    requires StoreOk(id, st) && LiveOk(plan, j, h, pc, st)
    requires Advance(plan, j, h, move, pc, st) == Some(p)
    requires move.Count? ==> forall t :: AssetKey(id, t) !in move.taken
    requires p.pc.Raised?
    ensures move.Fail? && !p.store.Done(j) && WrittenByMove(j, move, pc) == Some(VideoStatus.Failed)
  {
    match pc
    case Working(v, job, up) => FailKeeps(id, plan, j, h, v, job, up, st);
    case Completing(c, list, n, edits, adds) =>
      CountKeeps(id, plan, j, h, c, list, n, edits, adds, move.taken, st);
    case _ =>
  }

  /** Without crashes an activity raises only through fail_job, and its job stays as it left it. */
  lemma RaisedByFail(id: VideoId, v: Video, event: Event, v': Video, j: JobType)
    requires Inv(id, v) && Next(id, v, event) == Some(v') && Calm(id, event)
    requires v.executions != [] && |v'.executions| == |v.executions| && HasRaised(Last(v').activities.Get(j))
    ensures HasRaised(Last(v).activities.Get(j)) ==> v'.store.jobs.Get(j) == v.store.jobs.Get(j)
    ensures !HasRaised(Last(v).activities.Get(j)) ==>
      && event == Act(|v.executions| - 1, j, Fail)
      && !v'.store.Done(j) && Written(v, event) == Some(VideoStatus.Failed)
  {
    hide Inv;
    if event.Act? {
      var e := v.executions[event.i];
      var h, pc := e.Height(), e.activities.Get(event.j).state.pc;
      LiveAttemptOk(id, v, event.i, event.j);
      RaisedMove(id, v, event.i, event.j, event.move,
        Advance(Plan(id, event.j, h), event.j, h, event.move, pc, v.store).value, j);
    }
  }

  lemma RaisedMove(id: VideoId, v: Video, i: nat, k: JobType, move: Move, p: Progress, j: JobType)
    requires Inv(id, v) && Scheduled(v, i, k)
    requires var e := v.executions[i]; var a := e.activities.Get(k);
      a.state.Live? && Advance(Plan(id, k, e.Height()), k, e.Height(), move, a.state.pc, v.store) == Some(p)
    requires move.Count? ==> forall t :: AssetKey(id, t) !in move.taken
    ensures k != j ==> p.store.jobs.Get(j) == v.store.jobs.Get(j)
    ensures k == j && p.pc.Raised? ==>
      && move.Fail? && !p.store.Done(j)
      && WrittenByMove(j, move, v.executions[i].activities.Get(k).state.pc) == Some(VideoStatus.Failed)
  {
    var e := v.executions[i];
    var h, pc := e.Height(), e.activities.Get(k).state.pc;
    LiveAttemptOk(id, v, i, k);
    MoveKeeps(id, Plan(id, k, h), k, h, move, pc, v.store, p);
    if k == j && p.pc.Raised? {
      MoveRaises(id, Plan(id, j, h), j, h, move, pc, v.store, p);
    }
  }

  lemma {:induction false} ExecutionsGrow(id: VideoId, v: Video, events: seq<Event>, states: seq<Video>, k: nat, l: nat)
    requires IsRun(id, v, events, states) && k <= l <= |events|
    ensures |states[k].executions| <= |states[l].executions|
    decreases l
  {
    if k == l {
    } else {
      ExecutionsGrow(id, v, events, states, k, l - 1);
    }
  }

  /** A calm stretch of a run that begins as an execution starts and ends with it the last one. */
  lemma {:induction false} RaisedMeansFailed(
      id: VideoId, v: Video, events: seq<Event>, states: seq<Video>, j: JobType, k: nat)
    requires Inv(id, v) && CalmRun(id, v, events, states) && k <= |events|
    requires |states[|events|].executions| == |v.executions|
    requires states[k].executions != [] && HasRaised(Last(states[k]).activities.Get(j))
    ensures !states[k].store.Done(j)
    ensures exists l :: 0 <= l < k && events[l] == Act(|v.executions| - 1, j, Fail)
  {
    hide Inv, Next, Honest, Written;
    assert k > 0;
    ExecutionsGrow(id, v, events, states, 0, k - 1);
    ExecutionsGrow(id, v, events, states, k - 1, k);
    ExecutionsGrow(id, v, events, states, k, |events|);
    RunKeeps(id, v, events, states, k - 1);
    RaisedByFail(id, states[k - 1], events[k - 1], states[k], j);
    if HasRaised(Last(states[k - 1]).activities.Get(j)) {
      RaisedMeansFailed(id, v, events, states, j, k - 1);
    }
  }

  /** The status is what the last event to write it wrote. */
  lemma {:induction false} LastWrite(
      id: VideoId, v: Video, events: seq<Event>, states: seq<Video>, k: nat, w: nat)
    returns (m: nat)
    requires Inv(id, v) && IsRun(id, v, events, states) && w < k <= |events|
    requires Written(states[w], events[w]).Some?
    ensures w <= m < k && Written(states[m], events[m]) == Some(states[k].store.video.status)
    ensures forall l :: m < l < k ==> Written(states[l], events[l]) == None
  {
    hide Inv, Next, Written;
    RunKeeps(id, v, events, states, k - 1);
    EventWrites(id, states[k - 1], events[k - 1], states[k]);
    if Written(states[k - 1], events[k - 1]).Some? {
      m := k - 1;
    } else {
      m := LastWrite(id, v, events, states, k - 1, w);
    }
  }

  /** A call of fail_job. */
  predicate FailsJob(event: Event) {
    event.Act? && event.move.Fail?
  }

  /** A claim_job call that claims although the video row its session read is not `processing`. */
  predicate Reclaims(v: Video, event: Event) {
    event.Act? && event.move.Claim? && event.i < |v.executions|
    && var s := v.executions[event.i].activities.Get(event.j).state;
       s.Live? && s.pc.Found? && !s.pc.job.status.Completed? && s.pc.video.status != VideoStatus.Processing
  }

  /** Such a claim after the last fail_job. */
  ghost predicate LateClaim(events: seq<Event>, states: seq<Video>, m: nat)
    requires |states| == |events| + 1
  {
    m < |events| && Reclaims(states[m], events[m]) && forall l :: m < l < |events| ==> !FailsJob(events[l])
  }

  lemma WritesOfCalls(id: VideoId, v: Video, event: Event, v': Video)
    requires Next(id, v, event) == Some(v') && !event.RetryCommit?
    ensures Written(v, event) == Some(VideoStatus.Failed) <==> FailsJob(event)
    ensures Written(v, event) == Some(VideoStatus.Processing) <==> Reclaims(v, event)
  {
  }

  lemma WritesInRun(id: VideoId, v: Video, events: seq<Event>, states: seq<Video>)
    requires CalmRun(id, v, events, states)
    ensures forall l :: 0 <= l < |events| ==>
      && (Written(states[l], events[l]) == Some(VideoStatus.Failed) <==> FailsJob(events[l]))
      && (Written(states[l], events[l]) == Some(VideoStatus.Processing) <==> Reclaims(states[l], events[l]))
  {
    hide Next, Written, Reclaims, FailsJob;
    forall l | 0 <= l < |events|
      ensures Written(states[l], events[l]) == Some(VideoStatus.Failed) <==> FailsJob(events[l])
      ensures Written(states[l], events[l]) == Some(VideoStatus.Processing) <==> Reclaims(states[l], events[l])
    {
      assert Calm(id, events[l]);
      WritesOfCalls(id, states[l], events[l], states[l + 1]);
    }
  }

  lemma FailedExecutionRaised(id: VideoId, v: Video)
    requires Inv(id, v) && v.executions != [] && Last(v).phase.Failed?
    ensures exists j :: HasRaised(Last(v).activities.Get(j))
  {
    assert ExecutionOk(Last(v));
    var a := Last(v).activities;
    if a.metadata.state.Exhausted? {
      assert HasRaised(a.Get(Metadata));
    } else if a.thumbnail.state.Exhausted? {
      assert HasRaised(a.Get(Thumbnail));
    } else {
      assert HasRaised(a.Get(Transcode));
    }
  }

  lemma NotFinished(id: VideoId, v: Video, j: JobType)
    requires Inv(id, v) && !v.store.Done(j)
    ensures !v.store.video.status.Completed?
  {
  }

  lemma WrittenValues(v: Video, event: Event)
    ensures Written(v, event).Some? ==> !Written(v, event).value.PendingUpload?
  {
  }

  /** When an execution closes Failed without crashes, the video reads `failed` exactly if no
      late claim hid the failure; otherwise it reads `processing`. */
  lemma ClosingStatus(id: VideoId, v: Video, events: seq<Event>, states: seq<Video>)
    requires Reachable(id, v) && CalmRun(id, v, events, states)
    requires var end := states[|events|]; |end.executions| == |v.executions| && Last(end).phase.Failed?
    ensures states[|events|].store.video.status.Failed? <==> !exists m :: LateClaim(events, states, m)
    ensures states[|events|].store.video.status.Failed? || states[|events|].store.video.status == VideoStatus.Processing
  {
    hide Inv, Next, Honest, Written, HasRaised, Reclaims;
    var n := |events|;
    WritesInRun(id, v, events, states);
    ReachableOk(id, v);
    RunKeeps(id, v, events, states, n);
    FailedExecutionRaised(id, states[n]);
    var j :| HasRaised(Last(states[n]).activities.Get(j));
    RaisedMeansFailed(id, v, events, states, j, n);
    var w :| 0 <= w < n && events[w] == Act(|v.executions| - 1, j, Fail);
    assert Written(states[w], events[w]) == Some(VideoStatus.Failed);
    var m := LastWrite(id, v, events, states, n, w);
    NotFinished(id, states[n], j);
    WrittenValues(states[m], events[m]);
    assert Written(states[m], events[m]) == Some(VideoStatus.Processing) ==> LateClaim(events, states, m);
  }

  // ---- Any run at all ----

  /** The calls that write another status: a claim, a retry call's commit, transcode's commit. */
  predicate Overrides(v: Video, event: Event) {
    Reclaims(v, event) || event.RetryCommit? || (event.Act? && event.j == Transcode && event.move.Commit?)
  }

  ghost predicate FailedLast(events: seq<Event>, states: seq<Video>, k: nat, w: nat)
    requires |states| == |events| + 1 && k <= |events|
  {
    w < k && FailsJob(events[w]) && forall l :: w < l < k ==> !Overrides(states[l], events[l])
  }

  lemma WrittenByCall(id: VideoId, v: Video, event: Event, v': Video)
    requires Next(id, v, event) == Some(v')
    ensures Written(v, event) == Some(VideoStatus.Failed) <==> FailsJob(event)
    ensures Written(v, event) == None || Written(v, event) == Some(VideoStatus.Failed) <==> !Overrides(v, event)
  {
  }

  /** Over any run, with crashes, retries and duplicates: a video reads `failed` exactly when some
      fail_job has not been overridden since. */
  lemma {:induction false} FailedExactly(id: VideoId, events: seq<Event>, states: seq<Video>, k: nat)
    requires IsRun(id, NEW_VIDEO, events, states) && k <= |events|
    ensures states[k].store.video.status.Failed? <==> exists w :: FailedLast(events, states, k, w)
  {
    hide Inv, Next, Written, Overrides, FailsJob;
    if k == 0 {
    } else {
      var last: nat := k - 1;
      var v, event := states[last], events[last];
      FailedExactly(id, events, states, last);
      NewVideoOk(id);
      RunKeeps(id, NEW_VIDEO, events, states, last);
      EventWrites(id, v, event, states[k]);
      WrittenByCall(id, v, event, states[k]);
      if FailsJob(event) {
        assert FailedLast(events, states, k, last);
      } else if !Overrides(v, event) {
        if w: nat :| FailedLast(events, states, k, w) {
          assert FailedLast(events, states, last, w);
        }
        if w: nat :| FailedLast(events, states, last, w) {
          assert FailedLast(events, states, k, w);
        }
      } else {
        forall w: nat ensures !FailedLast(events, states, k, w) {
          assert w < last ==> Overrides(states[last], events[last]);
        }
      }
    }
  }

  /** Over any run: a retry call is accepted exactly when some fail_job has not been overridden
      since, so never before processing, while it goes well, or once the video is finished. */
  lemma RetryAcceptedExactly(id: VideoId, events: seq<Event>, states: seq<Video>, k: nat)
    requires IsRun(id, NEW_VIDEO, events, states) && k <= |events|
    ensures Next(id, states[k], RetryCheck).Some? <==> exists w :: FailedLast(events, states, k, w)
  {
    hide Overrides, FailsJob, IsRun;
    FailedExactly(id, events, states, k);
  }

  // ---- A failure in transcode ----

  /** While transcode has raised, the video reads `failed`. */
  ghost predicate TranscodeShown(v: Video) {
    v.executions != [] && HasRaised(Last(v).activities.Get(Transcode)) ==> v.store.video.status.Failed?
  }

  /** Once transcode has raised, no attempt has a status left to write. */
  lemma OtherMovesAreSilent(id: VideoId, v: Video, event: Event)
    requires Inv(id, v) && v.executions != [] && HasRaised(Last(v).activities.Get(Transcode))
    requires event.Act? && Scheduled(v, event.i, event.j) && event.i == |v.executions| - 1
    ensures Written(v, event) == None
  {
    assert ExecutionOk(Last(v));
  }

  lemma TranscodeShownKept(id: VideoId, v: Video, event: Event, v': Video)
    requires Inv(id, v) && Next(id, v, event) == Some(v') && Calm(id, event) && TranscodeShown(v)
    ensures TranscodeShown(v')
  {
    hide Inv, Written;
    EventWrites(id, v, event, v');
    if event.Start? {
      if |v'.executions| > |v.executions| {
        assert Last(v') == NEW_EXECUTION;
      }
    } else if v'.executions != [] && HasRaised(Last(v').activities.Get(Transcode)) {
      RaisedByFail(id, v, event, v', Transcode);
      if HasRaised(Last(v).activities.Get(Transcode)) && event.Act? {
        LiveAttemptOk(id, v, event.i, event.j);
        OtherMovesAreSilent(id, v, event);
      }
    }
  }

  lemma {:induction false} TranscodeShownInRun(id: VideoId, v: Video, events: seq<Event>, states: seq<Video>, k: nat)
    requires Inv(id, v) && CalmRun(id, v, events, states) && k <= |events|
    ensures TranscodeShown(states[k])
  {
    if k == 0 {
    } else {
      TranscodeShownInRun(id, v, events, states, k - 1);
      RunKeeps(id, v, events, states, k - 1);
      TranscodeShownKept(id, states[k - 1], events[k - 1], states[k]);
    }
  }

  /** An execution that fails in transcode always leaves the video `failed`. */
  lemma TranscodeFailureShows(id: VideoId, v: Video, events: seq<Event>, states: seq<Video>)
    requires Reachable(id, v) && CalmRun(id, v, events, states)
    requires var end := states[|events|];
      end.executions != [] && Last(end).phase.Failed? && Last(end).activities.transcode.state.Exhausted?
    ensures states[|events|].store.video.status.Failed?
  {
    ReachableOk(id, v);
    TranscodeShownInRun(id, v, events, states, |events|);
    assert Last(states[|events|]).activities.Get(Transcode) == Last(states[|events|]).activities.transcode;
  }
}

/** Runs of the platform put together from runs of one video: a retry from end to end, and the
    stranding runs with an empty queue. */
module PlatformRuns {
  import opened Options
  import opened VideoIds
  import opened UploadKeys
  import opened S3Events
  import opened Rows
  import opened Sessions
  import Workflow
  import WorkflowInvariant
  import Completion
  import Closing
  import Termination
  import RetryProgress
  import Scenarios
  import opened Platform
  import opened PlatformInvariant
  import opened PlatformTheorems

  // ---- Paths ----

  datatype Path = Path(actions: seq<Action>, states: seq<System>) {
    function Then(action: Action, sys: System): Path {
      Path(actions + [action], states + [sys])
    }
  }

  /** A path of actions from one system to another. */
  ghost predicate Leads(start: System, p: Path, end: System) {
    && |p.states| == |p.actions| + 1
    && p.states[0] == start && p.states[|p.actions|] == end
    && forall k :: 0 <= k < |p.actions| ==> Do(p.states[k], p.actions[k]) == Some(p.states[k + 1])
  }

  lemma Extended(start: System, p: Path, end: System, action: Action, end': System)
    requires Leads(start, p, end) && Do(end, action) == Some(end')
    ensures Leads(start, p.Then(action, end'), end')
  {
    hide Do;
    var p' := p.Then(action, end');
    assert forall k :: 0 <= k < |p.actions| ==> p'.actions[k] == p.actions[k] && p'.states[k] == p.states[k];
  }

  lemma StaysReachable(sys: System, action: Action, sys': System)
    requires ReachableSystem(sys) && Do(sys, action) == Some(sys')
    ensures ReachableSystem(sys')
  {
    hide Do;
    BucketStays(sys, action, sys');
    var actions, states :| IsSystemRun(sys.bucket, actions, states) && states[|actions|] == sys;
    var actions', states' := actions + [action], states + [sys'];
    assert forall k :: 0 <= k < |actions| ==> actions'[k] == actions[k] && states'[k] == states[k];
    assert IsSystemRun(sys.bucket, actions', states') && states'[|actions'|] == sys';
  }

  lemma BucketStays(sys: System, action: Action, sys': System)
    requires Do(sys, action) == Some(sys')
    ensures sys'.bucket == sys.bucket
  {
    hide ParsedEvents, ResolveVideoId, Workflow.Next, Mentions, IsBytes, BuildUploadObjectKey,
      BuildObjectCreatedMessage;
  }

  lemma {:induction false} PathIsReachable(start: System, p: Path, end: System, k: nat)
    requires ReachableSystem(start) && Leads(start, p, end) && k <= |p.actions|
    ensures ReachableSystem(p.states[k])
  {
    hide Do, ReachableSystem;
    if k == 0 {
    } else {
      PathIsReachable(start, p, end, k - 1);
      StaysReachable(p.states[k - 1], p.actions[k - 1], p.states[k]);
    }
  }

  // ---- Events of one video ----

  function WithVideo(sys: System, id: VideoId, v: Workflow.Video): System {
    sys.(videos := sys.videos[id := v])
  }

  lemma OthersKeepTheirKeys(sys: System, id: VideoId, v: Workflow.Video)
    ensures KeysOfOthers(WithVideo(sys, id, v), id) == KeysOfOthers(sys, id)
  {
    forall key ensures key in KeysOfOthers(WithVideo(sys, id, v), id) <==> key in KeysOfOthers(sys, id) {
      if o, t :| o in sys.videos && o != id && t in sys.videos[o].store.assets && key == sys.videos[o].store.assets[t] {
        assert WithVideo(sys, id, v).videos[o] == sys.videos[o];
      }
    }
  }

  /** The video events that are actions of the platform as they stand. */
  ghost predicate Lifts(sys: System, id: VideoId, event: Workflow.Event) {
    !event.Start? && !event.RetrySend? && RetryProgress.CountsAgainst(event, KeysOfOthers(sys, id))
  }

  predicate Known(sys: System, id: VideoId) {
    id in sys.videos && id in sys.keys && IsBytes(sys.keys[id])
  }

  lemma EventLifts(sys: System, id: VideoId, event: Workflow.Event, v: Workflow.Video)
    requires Known(sys, id) && Lifts(sys, id, event) && Workflow.Next(id, sys.videos[id], event) == Some(v)
    ensures Do(sys, VideoEvent(id, event)) == Some(WithVideo(sys, id, v))
  {
    hide Workflow.Next, IsBytes;
  }

  function VideoEvents(id: VideoId, events: seq<Workflow.Event>): (actions: seq<Action>)
    ensures |actions| == |events|
    ensures forall k :: 0 <= k < |events| ==> actions[k] == VideoEvent(id, events[k])
  {
    seq(|events|, k requires 0 <= k < |events| => VideoEvent(id, events[k]))
  }

  /** A run of one video is a path of the platform, with the other videos as they are. */
  lemma {:induction false} RunLifts(
      start: System, p: Path, sys: System, id: VideoId, events: seq<Workflow.Event>, states: seq<Workflow.Video>)
    returns (p': Path)
    requires Leads(start, p, sys) && Known(sys, id)
    requires Workflow.IsRun(id, sys.videos[id], events, states)
    requires forall k :: 0 <= k < |events| ==> Lifts(sys, id, events[k])
    ensures Leads(start, p', WithVideo(sys, id, states[|events|])) && p'.actions == p.actions + VideoEvents(id, events)
    decreases |events|
  {
    hide Do, Workflow.Next, Lifts, Leads;
    if events == [] {
      p' := p;
      assert WithVideo(sys, id, states[0]) == sys;
      assert p.actions + VideoEvents(id, events) == p.actions;
    } else {
      var n := |events| - 1;
      assert forall k :: 0 <= k < n ==> events[..n][k] == events[k] && states[..n + 1][k] == states[k];
      var q := RunLifts(start, p, sys, id, events[..n], states[..n + 1]);
      var before, after := WithVideo(sys, id, states[n]), WithVideo(sys, id, states[n + 1]);
      LiftsStill(sys, id, states[n], events[n]);
      EventLifts(before, id, events[n], states[n + 1]);
      assert WithVideo(before, id, states[n + 1]) == after;
      Extended(start, q, before, VideoEvent(id, events[n]), after);
      p' := q.Then(VideoEvent(id, events[n]), after);
      assert VideoEvents(id, events) == VideoEvents(id, events[..n]) + [VideoEvent(id, events[n])];
    }
  }

  lemma LiftsStill(sys: System, id: VideoId, v: Workflow.Video, event: Workflow.Event)
    requires Lifts(sys, id, event)
    ensures Lifts(WithVideo(sys, id, v), id, event)
  {
    OthersKeepTheirKeys(sys, id, v);
  }

  // ---- Delivering a message about one video ----

  /** The message waits for delivery and its one event resolves to the video. */
  ghost predicate Waits(sys: System, m: nat, id: VideoId) {
    && sys.keys.Keys == sys.videos.Keys && id in sys.videos
    && m in sys.queue && sys.queue[m].place.Visible? && sys.queue[m].receives == 0
    && |ParsedEvents(sys.queue[m].body)| == 1
    && ResolveVideoId(sys.keys, ParsedEvents(sys.queue[m].body)[0].key) == Some(id)
  }

  function Deliver(m: nat, h: nat): seq<Action> {
    [Receive(m), Handle(h, StartOutcome.Accepted), Acknowledge(h)]
  }

  /** What a delivery leaves: the video's workflow started unless that is refused, the message gone. */
  function AfterDelivery(sys: System, m: nat, id: VideoId): System
    requires id in sys.videos
  {
    WithVideo(sys, id, Workflow.AfterStart(sys.videos[id]))
    .(queue := Remove(sys.queue, m), handlers := Remove(sys.handlers, sys.counter), counter := sys.counter + 1)
  }

  lemma Delivered(start: System, p: Path, sys: System, m: nat, id: VideoId) returns (p': Path)
    requires Leads(start, p, sys) && Waits(sys, m, id)
    ensures Leads(start, p', AfterDelivery(sys, m, id)) && p'.actions == p.actions + Deliver(m, sys.counter)
  {
    hide Leads, ParsedEvents, ResolveVideoId, Workflow.AfterStart;
    var h, msg := sys.counter, sys.queue[m];
    var events := ParsedEvents(msg.body);
    var s1 := Received(sys, m);
    var s2 := Handled(s1, h, StartOutcome.Accepted);
    var s3 := Acknowledged(s2, h);
    assert Do(sys, Receive(m)) == Some(s1);
    assert Do(s1, Handle(h, StartOutcome.Accepted)) == Some(s2);
    assert Do(s2, Acknowledge(h)) == Some(s3);
    Extended(start, p, sys, Receive(m), s1);
    p' := p.Then(Receive(m), s1);
    Extended(start, p', s1, Handle(h, StartOutcome.Accepted), s2);
    p' := p'.Then(Handle(h, StartOutcome.Accepted), s2);
    Extended(start, p', s2, Acknowledge(h), s3);
    p' := p'.Then(Acknowledge(h), s3);
    assert s3.queue == Remove(sys.queue, m);
    assert s3.handlers == Remove(sys.handlers, h);
    assert s3 == AfterDelivery(sys, m, id);
  }

  // ---- A retry from end to end ----

  function Calling(k: nat): seq<Workflow.Event> {
    [Workflow.RetryCheck, Workflow.RetrySend(k), Workflow.RetryCommit(k)]
  }

  /** The video once a retry call has answered. */
  function Asked(v: Workflow.Video): Workflow.Video {
    v.(retries := v.retries + [Workflow.Answered],
       store := v.store.(video := v.store.video.(status := VideoStatus.Processing)))
  }

  lemma CallSteps(id: VideoId, v: Workflow.Video) returns (v1: Workflow.Video, v2: Workflow.Video)
    requires v.store.video.status.Failed?
    ensures var k := |v.retries|;
      && Workflow.Next(id, v, Workflow.RetryCheck) == Some(v1)
      && Workflow.Next(id, v1, Workflow.RetrySend(k)) == Some(v2)
      && Workflow.Next(id, v2, Workflow.RetryCommit(k)) == Some(Asked(v))
  {
    var k := |v.retries|;
    v1 := v.(retries := v.retries + [Workflow.Checked]);
    v2 := v.(retries := v.retries + [Workflow.Sent]);
    assert v1.retries[k := Workflow.Sent] == v2.retries;
    assert v2.retries[k := Workflow.Answered] == v.retries + [Workflow.Answered];
  }

  /** A retry call that runs through leaves one message waiting. */
  lemma Called(sys: System, id: VideoId) returns (p: Path, end: System)
    requires ReachableSystem(sys) && id in sys.videos && sys.videos[id].store.video.status.Failed?
    ensures Leads(sys, p, end) && p.actions == VideoEvents(id, Calling(|sys.videos[id].retries|))
    ensures Waits(end, sys.counter, id) && end.videos[id] == Asked(sys.videos[id])
    ensures Known(end, id) && end.counter == sys.counter + 1 && Remove(end.queue, sys.counter) == sys.queue
  {
    hide ParsedEvents, ResolveVideoId, Workflow.Next, Workflow.Reachable, ReachableSystem, Leads,
      BuildObjectCreatedMessage, IsBytes;
    var v, k, m := sys.videos[id], |sys.videos[id].retries|, sys.counter;
    var v1, v2 := CallSteps(id, v);
    IsKnown(sys, id);
    p := Path([], [sys]);
    assert Leads(sys, p, sys) by { Stays(sys); }
    var s1 := WithVideo(sys, id, v1);
    EventLifts(sys, id, Workflow.RetryCheck, v1);
    Extended(sys, p, sys, VideoEvent(id, Workflow.RetryCheck), s1);
    StaysReachable(sys, VideoEvent(id, Workflow.RetryCheck), s1);
    p := p.Then(VideoEvent(id, Workflow.RetryCheck), s1);
    var s2 := Send(WithVideo(s1, id, v2), BuildObjectCreatedMessage(sys.bucket, sys.keys[id]));
    assert Do(s1, VideoEvent(id, Workflow.RetrySend(k))) == Some(s2);
    RetryIsSent(s1, id, k, s2);
    Extended(sys, p, s1, VideoEvent(id, Workflow.RetrySend(k)), s2);
    p := p.Then(VideoEvent(id, Workflow.RetrySend(k)), s2);
    end := WithVideo(s2, id, Asked(v));
    EventLifts(s2, id, Workflow.RetryCommit(k), Asked(v));
    Extended(sys, p, s2, VideoEvent(id, Workflow.RetryCommit(k)), end);
    p := p.Then(VideoEvent(id, Workflow.RetryCommit(k)), end);
    assert p.actions == VideoEvents(id, Calling(k));
    VideosAndKeys(sys);
    assert Remove(end.queue, m) == sys.queue;
  }

  lemma Stays(sys: System)
    ensures Leads(sys, Path([], [sys]), sys)
  {
  }

  lemma IsKnown(sys: System, id: VideoId)
    requires ReachableSystem(sys) && id in sys.videos
    ensures Known(sys, id)
  {
    hide Do, IsBytes;
    ReachableSystemOk(sys);
  }

  lemma OthersHoldNoKey(sys: System, id: VideoId)
    requires ReachableSystem(sys) && id in sys.videos
    ensures forall t :: AssetKey(id, t) !in KeysOfOthers(sys, id)
  {
    hide ReachableSystem, AssetKey;
    FlushesAreHonest(sys, id, Workflow.Act(0, Transcode, Count(KeysOfOthers(sys, id))));
  }

  /** A fault-free run of the fresh execution, on the platform. */
  lemma Completes(start: System, p: Path, sys: System, id: VideoId, before: Workflow.Video)
    returns (p': Path, events: seq<Workflow.Event>, v: Workflow.Video)
    requires ReachableSystem(start) && Leads(start, p, sys) && id in sys.videos
    requires Workflow.Reachable(id, before) && sys.videos[id] == Workflow.AfterStart(before)
    requires forall i :: 0 <= i < |before.executions| ==> before.executions[i].phase.Failed?
    requires !before.store.Done(Transcode)
    requires RetryProgress.HeightUsable(before.store)
    ensures Leads(start, p', WithVideo(sys, id, v)) && p'.actions == p.actions + VideoEvents(id, events)
    ensures |events| <= Termination.STEP_BOUND
    ensures forall k :: 0 <= k < |events| ==> RetryProgress.FaultFree(id, events[k])
    ensures v.store.video.status.Completed? && RetryProgress.FinishedCleanly(before, v)
  {
    hide ReachableSystem, Workflow.Next, Workflow.AfterStart, RetryProgress.HeightUsable, Workflow.Reachable;
    hide RetryProgress.FinishedCleanly, RetryProgress.FaultFree, Do;
    PathIsReachable(start, p, sys, |p.actions|);
    IsKnown(sys, id);
    OthersHoldNoKey(sys, id);
    var states;
    events, states := RetryProgress.RetryReachesCompleted(id, before, KeysOfOthers(sys, id));
    assert forall k :: 0 <= k < |events| && Termination.Concerns(events[k], |before.executions|) ==>
      Lifts(sys, id, events[k]);
    p' := RunLifts(start, p, sys, id, events, states);
    v := states[|events|];
  }

  /** From any reachable state of the platform in which a retry call is accepted, the video's
      executions have all failed and no unusable height is stored: a retry call, the delivery of its message and a
      fault-free run of the fresh execution lead to `completed`, with exactly the jobs not completed
      before claimed once more, and no message left over. */
  lemma RetryCompletes(sys: System, id: VideoId) returns (p: Path, end: System, events: seq<Workflow.Event>)
    requires ReachableSystem(sys) && id in sys.videos
    requires Workflow.Next(id, sys.videos[id], Workflow.RetryCheck).Some?
    requires forall i :: 0 <= i < |sys.videos[id].executions| ==> sys.videos[id].executions[i].phase.Failed?
    requires RetryProgress.HeightUsable(sys.videos[id].store)
    ensures Leads(sys, p, end) && id in end.videos
    ensures p.actions ==
      VideoEvents(id, Calling(|sys.videos[id].retries|))
      + Deliver(sys.counter, sys.counter + 1)
      + VideoEvents(id, events)
    ensures |events| <= Termination.STEP_BOUND
    ensures forall k :: 0 <= k < |events| ==> RetryProgress.FaultFree(id, events[k])
    ensures end.videos[id].store.video.status.Completed?
    ensures RetryProgress.FinishedCleanly(sys.videos[id], end.videos[id])
    ensures end.queue == sys.queue
  {
    hide ReachableSystem, Leads, Workflow.Next, Workflow.Reachable, Waits, RetryProgress.FaultFree, Workflow.AfterStart;
    var v := sys.videos[id];
    VideoIsReachable(sys, id);
    RetryProgress.FailedIsUnfinished(id, v);
    var waiting;
    p, waiting := Called(sys, id);
    PathEnds(sys, p, waiting);
    VideoIsReachable(waiting, id);
    p := Delivered(sys, p, waiting, sys.counter, id);
    var delivered := AfterDelivery(waiting, sys.counter, id);
    var done;
    p, events, done := Completes(sys, p, delivered, id, Asked(v));
    end := WithVideo(delivered, id, done);
    SameJobsBefore(v, done);
  }

  lemma PathEnds(start: System, p: Path, end: System)
    requires ReachableSystem(start) && Leads(start, p, end)
    ensures ReachableSystem(end)
  {
    hide Do, ReachableSystem;
    PathIsReachable(start, p, end, |p.actions|);
  }

  lemma SameJobsBefore(v: Workflow.Video, done: Workflow.Video)
    requires RetryProgress.FinishedCleanly(Asked(v), done)
    ensures RetryProgress.FinishedCleanly(v, done)
  {
    assert forall j :: Asked(v).store.Done(j) == v.store.Done(j);
  }

  // ---- Stranded, with an empty queue ----

  const CLIP := "clip.mp4"

  /** A platform with one video, nothing in its queue and no message being handled. */
  ghost predicate Alone(sys: System, id: VideoId, v: Workflow.Video) {
    && sys.keys == map[id := BuildUploadObjectKey(id, CLIP)] && sys.videos == map[id := v]
    && sys.queue == map[] && sys.handlers == map[]
  }

  lemma ClipResolves(id: VideoId, keys: map<VideoId, string>)
    requires keys == map[id := BuildUploadObjectKey(id, CLIP)]
    ensures ValidFilename(CLIP) && IsBytes(CLIP) && IsBytes(keys[id]) && ResolveVideoId(keys, keys[id]) == Some(id)
  {
    hide ResolveVideoId, BuildUploadObjectKey, Suffix, ValidFilename;
    assert "clip" + "." + "mp4" == CLIP && "clip"[0] != '.';
    assert IsExtension("." + "mp4");
    PlainNamesAreRecognised(keys, id, "clip", "mp4");
    BuiltKeyIsBytes(id, CLIP);
  }

  lemma NewSystemIsReachable(bucket: string)
    ensures ReachableSystem(NewSystem(bucket))
  {
    assert IsSystemRun(bucket, [], [NewSystem(bucket)]);
  }

  /** A video created, uploaded and started. */
  lemma FreshOnPlatform(id: VideoId) returns (sys: System)
    ensures ReachableSystem(sys) && Alone(sys, id, Scenarios.FRESH)
  {
    hide ResolveVideoId, BuildUploadObjectKey, ParsedEvents, ReachableSystem, Leads, ValidFilename, Suffix, IsBytes,
      Workflow.AfterStart;
    hide BuildObjectCreatedMessage;
    var key := BuildUploadObjectKey(id, CLIP);
    ClipResolves(id, map[id := key]);
    var body := BuildObjectCreatedMessage("", key);
    var s0 := NewSystem("");
    NewSystemIsReachable("");
    var s1 := s0.(keys := map[id := key], videos := map[id := Workflow.NEW_VIDEO]);
    assert s0.keys[id := key] == s1.keys && s0.videos[id := Workflow.NEW_VIDEO] == s1.videos;
    assert Do(s0, CreateVideo(id, CLIP)) == Some(s1);
    StaysReachable(s0, CreateVideo(id, CLIP), s1);
    MessageRoundTrip("", key);
    var upload := Original(id, key);
    assert ParsedEvents(body)[0].key == key;
    var s2 := Send(s1.(uploads := s1.uploads + {upload}), body);
    assert Do(s1, PutObject(upload, body)) == Some(s2);
    StaysReachable(s1, PutObject(upload, body), s2);
    Stays(s2);
    var p := Delivered(s2, Path([], [s2]), s2, 0, id);
    sys := AfterDelivery(s2, 0, id);
    PathEnds(s2, p, sys);
    assert sys.queue == map[] && sys.handlers == map[];
    assert sys.videos == map[id := Scenarios.FRESH];
  }

  lemma NobodyElse(sys: System, id: VideoId, v: Workflow.Video)
    requires Alone(sys, id, v)
    ensures KeysOfOthers(sys, id) == {}
  {
  }

  /** A run of its execution, on such a platform. */
  lemma AloneRuns(
      sys: System, id: VideoId, v: Workflow.Video, events: seq<Workflow.Event>, states: seq<Workflow.Video>)
    returns (end: System)
    requires ReachableSystem(sys) && Alone(sys, id, v) && Workflow.IsRun(id, v, events, states)
    requires forall k :: 0 <= k < |events| ==>
      !events[k].Start? && !events[k].RetrySend? && RetryProgress.CountsAgainst(events[k], {})
    ensures ReachableSystem(end) && Alone(end, id, states[|events|])
  {
    hide ReachableSystem, Leads, Workflow.Next, BuildUploadObjectKey, RetryProgress.CountsAgainst, IsBytes;
    NobodyElse(sys, id, v);
    IsKnown(sys, id);
    Stays(sys);
    var p := RunLifts(sys, Path([], [sys]), sys, id, events, states);
    end := WithVideo(sys, id, states[|events|]);
    PathEnds(sys, p, end);
    assert end.videos == map[id := states[|events|]];
  }

  /** The late claim strands a video of the platform: nothing crashed, nothing is
      in the queue, no execution is open, and retry is refused. */
  lemma LateClaimOnPlatform(id: VideoId) returns (sys: System)
    ensures ReachableSystem(sys) && id in sys.videos && Scenarios.Stranded(id, sys.videos[id])
    ensures sys.queue == map[] && sys.handlers == map[]
  {
    hide ReachableSystem, Workflow.Next, Workflow.Reachable, BuildUploadObjectKey, Scenarios.Stranded;
    var first := FreshOnPlatform(id);
    var tr, m := Scenarios.LateClaimStrands(id);
    sys := AloneRuns(first, id, Scenarios.FRESH, tr.events, tr.states);
  }

  /** So does a retry call whose own message is taken for a duplicate. */
  lemma SwallowedRetryOnPlatform(id: VideoId) returns (sys: System)
    ensures ReachableSystem(sys) && id in sys.videos && Scenarios.Stranded(id, sys.videos[id])
    ensures sys.queue == map[] && sys.handlers == map[]
    ensures sys.videos[id].retries == [Workflow.Answered]
  {
    hide ReachableSystem, Workflow.Next, Workflow.Reachable, BuildUploadObjectKey, Scenarios.Stranded;
    var first := FreshOnPlatform(id);
    var tr, k := Scenarios.SwallowedRetryStrands(id);
    assert tr.events[k] == tr.events[k..][0];
    assert forall l :: 0 <= l <= k ==> tr.events[..k + 1][l] == tr.events[l] && tr.states[..k + 2][l] == tr.states[l];
    var checked := AloneRuns(first, id, Scenarios.FRESH, tr.events[..k + 1], tr.states[..k + 2]);
    assert tr.states[k + 1] == tr.states[k..][1];
    sys := Swallowed(checked, id);
  }

  lemma Swallowed(sys: System, id: VideoId) returns (end: System)
    requires ReachableSystem(sys) && Alone(sys, id, Scenarios.BothFailed([Workflow.Checked]))
    ensures ReachableSystem(end) && Alone(end, id, Scenarios.SWALLOWED_STATES[4])
    ensures Scenarios.Stranded(id, end.videos[id])
  {
    hide ReachableSystem, Leads, ParsedEvents, ResolveVideoId, BuildUploadObjectKey, BuildObjectCreatedMessage, IsBytes;
    hide Workflow.Next, Workflow.AfterStart, Scenarios.Stranded;
    Scenarios.SwallowedSteps(id);
    IsKnown(sys, id);
    var s1 := Send(WithVideo(sys, id, Scenarios.BothFailed([Workflow.Sent])),
      BuildObjectCreatedMessage(sys.bucket, sys.keys[id]));
    assert Do(sys, VideoEvent(id, Workflow.RetrySend(0))) == Some(s1);
    RetryIsSent(sys, id, 0, s1);
    StaysReachable(sys, VideoEvent(id, Workflow.RetrySend(0)), s1);
    Stays(s1);
    var p := Delivered(s1, Path([], [s1]), s1, sys.counter, id);
    var s2 := AfterDelivery(s1, sys.counter, id);
    PathEnds(s1, p, s2);
    Refused(Scenarios.BothFailed([Workflow.Sent]));
    assert s2.queue == map[] && s2.handlers == map[];
    assert s2.videos == map[id := Scenarios.BothFailed([Workflow.Sent])];
    var events := [Workflow.Settle(0), Workflow.RetryCommit(0)];
    var states := Scenarios.SWALLOWED_STATES[2..];
    assert Workflow.IsRun(id, Scenarios.BothFailed([Workflow.Sent]), events, states);
    end := AloneRuns(s2, id, Scenarios.BothFailed([Workflow.Sent]), events, states);
  }

  lemma Refused(v: Workflow.Video)
    requires !Workflow.MayStart(v.executions)
    ensures Workflow.AfterStart(v) == v
  {
  }
}

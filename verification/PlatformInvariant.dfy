/** Every action of the platform keeps its invariant. */
module PlatformInvariant {
  import opened Options
  import opened VideoIds
  import opened UploadKeys
  import opened S3Events
  import opened Rows
  import opened Sessions
  import Workflow
  import opened Platform

  // ---- Keys are bytes ----

  lemma BuiltKeyIsBytes(id: VideoId, filename: string)
    requires IsBytes(filename)
    ensures IsBytes(BuildUploadObjectKey(id, filename))
  {
    TextRoundTrip(id);
    var text := Text(id);
    forall i | 0 <= i < |text| ensures text[i] < 256 as char {
      if i < 8 {
        assert text[i] == text[..8][i];
      } else if 8 < i < 13 {
        assert text[i] == text[9..13][i - 9];
      } else if 13 < i < 18 {
        assert text[i] == text[14..18][i - 14];
      } else if 18 < i < 23 {
        assert text[i] == text[19..23][i - 19];
      } else if 23 < i {
        assert text[i] == text[24..][i - 24];
      }
    }
  }

  // ---- Growth ----

  /** Rows and started workflows are only ever added. */
  ghost predicate Grows(sys: System, sys': System) {
    && (forall id :: id in sys.keys ==> id in sys'.keys && sys'.keys[id] == sys.keys[id])
    && (forall id :: Started(sys, id) ==> Started(sys', id))
    && sys.counter <= sys'.counter
  }

  lemma MentionsStable(
      keys: map<VideoId, string>, keys': map<VideoId, string>, events: seq<ObjectCreatedEvent>, end: nat, id: VideoId)
    requires id in keys && id in keys' && keys'[id] == keys[id]
    ensures Mentions(keys, events, end, id) <==> Mentions(keys', events, end, id)
  {
    forall k | 0 <= k < end && k < |events|
      ensures ResolveVideoId(keys, events[k].key) == Some(id) <==> ResolveVideoId(keys', events[k].key) == Some(id)
    {
      ResolveIsLocal(keys, keys', events[k].key, id);
    }
  }

  lemma MentionedIsKnown(keys: map<VideoId, string>, events: seq<ObjectCreatedEvent>, end: nat, id: VideoId)
    requires Mentions(keys, events, end, id)
    ensures id in keys
  {
  }

  ghost predicate CountedOk(msg: Message) {
    msg.receives <= MAX_RECEIVES && (msg.place.DeadLettered? ==> msg.receives == MAX_RECEIVES)
  }

  lemma MessageStays(sys: System, sys': System, m: nat)
    requires Grows(sys, sys') && m in sys.queue && MessageOk(sys, m)
    requires m in sys'.queue && sys'.queue[m].body == sys.queue[m].body && sys'.queue[m].about == sys.queue[m].about
    requires CountedOk(sys'.queue[m])
    ensures MessageOk(sys', m)
  {
    var events := ParsedEvents(sys.queue[m].body);
    forall id | id in sys.queue[m].about ensures Mentions(sys'.keys, events, |events|, id) {
      MentionedIsKnown(sys.keys, events, |events|, id);
      MentionsStable(sys.keys, sys'.keys, events, |events|, id);
    }
  }

  lemma HandlerStays(sys: System, sys': System, h: nat)
    requires Grows(sys, sys') && h in sys.handlers && HandlerOk(sys, h)
    requires h in sys'.handlers && sys'.handlers[h] == sys.handlers[h]
    requires var m := sys.handlers[h].message;
      m in sys'.queue ==>
        && m in sys.queue && MessageOk(sys, m)
        && sys'.queue[m].body == sys.queue[m].body && sys'.queue[m].about == sys.queue[m].about
    ensures HandlerOk(sys', h)
  {
    var handler := sys.handlers[h];
    if handler.message in sys'.queue {
      var msg := sys.queue[handler.message];
      forall id | id in msg.about && Mentions(sys'.keys, handler.events, handler.next, id) ensures Started(sys', id) {
        MentionedIsKnown(sys.keys, handler.events, |handler.events|, id);
        MentionsStable(sys.keys, sys'.keys, handler.events, handler.next, id);
      }
    }
  }

  lemma UploadStays(sys: System, sys': System, u: Original)
    requires Grows(sys, sys') && UploadOk(sys, u)
    requires forall m :: m in sys.queue && u.id in sys.queue[m].about ==>
      Started(sys', u.id) || (m in sys'.queue && sys'.queue[m].about == sys.queue[m].about)
    ensures UploadOk(sys', u)
  {
    if ResolveVideoId(sys'.keys, u.key) == Some(u.id) && !Started(sys', u.id) {
      assert ResolveVideoId(sys.keys, u.key) == Some(u.id);
      var m :| m in sys.queue && u.id in sys.queue[m].about;
      assert m in sys'.queue && u.id in sys'.queue[m].about;
    }
  }

  /** Each old message is kept as it is, up to its place and receive count. */
  ghost predicate QueueKept(sys: System, sys': System) {
    forall m :: m in sys.queue ==>
      && m in sys'.queue && sys'.queue[m].body == sys.queue[m].body && sys'.queue[m].about == sys.queue[m].about
      && (sys'.queue[m] == sys.queue[m] || CountedOk(sys'.queue[m]))
  }

  /** The invariant after an action that adds, and what is left to show about the additions. */
  lemma Kept(sys: System, sys': System)
    requires SystemOk(sys) && VideosOk(sys') && Grows(sys, sys') && QueueKept(sys, sys')
    requires forall m :: m in sys'.queue && m !in sys.queue ==> sys.counter <= m && MessageOk(sys', m)
    requires forall h :: h in sys'.handlers && (h !in sys.handlers || sys'.handlers[h] != sys.handlers[h]) ==>
      HandlerOk(sys', h)
    requires forall u :: u in sys'.uploads && u !in sys.uploads ==> UploadOk(sys', u)
    ensures SystemOk(sys')
  {
    forall m | m in sys'.queue ensures MessageOk(sys', m) {
      if m in sys.queue {
        MessageStays(sys, sys', m);
      }
    }
    forall h | h in sys'.handlers ensures HandlerOk(sys', h) {
      if h in sys.handlers && sys'.handlers[h] == sys.handlers[h] {
        assert HandlerOk(sys, h);
        HandlerStays(sys, sys', h);
      }
    }
    forall u | u in sys'.uploads ensures UploadOk(sys', u) {
      if u in sys.uploads {
        UploadStays(sys, sys', u);
      }
    }
  }

  // ---- Actions ----

  lemma AddVideoKeeps(sys: System, id: VideoId, key: string, sys': System)
    requires SystemOk(sys) && id !in sys.keys && IsBytes(key)
    requires sys' == sys.(keys := sys.keys[id := key], videos := sys.videos[id := Workflow.NEW_VIDEO])
    ensures SystemOk(sys')
  {
    hide ParsedEvents, Workflow.Reachable, ResolveVideoId, Mentions;
    Workflow.NewVideoReachable(id);
    forall i | Started(sys', i) ensures ResolveVideoId(sys'.keys, sys'.keys[i]) == Some(i) {
      assert Started(sys, i);
      ResolveIsLocal(sys.keys, sys'.keys, sys.keys[i], i);
    }
    assert VideosOk(sys');
    Kept(sys, sys');
  }

  lemma CreateKeeps(sys: System, id: VideoId, filename: string, sys': System)
    requires SystemOk(sys) && Do(sys, CreateVideo(id, filename)) == Some(sys')
    ensures SystemOk(sys')
  {
    hide SystemOk, BuildUploadObjectKey;
    BuiltKeyIsBytes(id, filename);
    AddVideoKeeps(sys, id, BuildUploadObjectKey(id, filename), sys');
  }

  lemma SendKeeps(sys: System, body: Body)
    requires SystemOk(sys)
    ensures SystemOk(Send(sys, body))
  {
    var sys' := Send(sys, body);
    forall m | m in sys.queue ensures m < sys.counter {
      assert MessageOk(sys, m);
    }
    Kept(sys, sys');
  }

  lemma PutKeeps(sys: System, u: Original, body: Body, sys': System)
    requires SystemOk(sys) && Do(sys, PutObject(u, body)) == Some(sys')
    ensures SystemOk(sys')
  {
    hide ParsedEvents, ResolveVideoId, Workflow.Reachable;
    SendKeeps(sys, body);
    var sent := Send(sys, body);
    assert UploadOk(sys', u) by {
      if ResolveVideoId(sys.keys, u.key) == Some(u.id) {
        var events := ParsedEvents(body);
        var k :| 0 <= k < |events| && events[k].key == u.key;
        assert Mentions(sys.keys, events, |events|, u.id);
        assert u.id in sys'.queue[sys.counter].about;
      }
    }
    Kept(sent, sys');
  }

  lemma PlaceKeeps(sys: System, m: nat, place: Place, receives: nat)
    requires SystemOk(sys) && m in sys.queue
    requires CountedOk(sys.queue[m].(place := place, receives := receives))
    ensures SystemOk(sys.(queue := sys.queue[m := sys.queue[m].(place := place, receives := receives)]))
  {
    Kept(sys, sys.(queue := sys.queue[m := sys.queue[m].(place := place, receives := receives)]));
  }

  lemma NewHandlerKeeps(sys: System, m: nat, sys': System)
    requires SystemOk(sys) && m in sys.queue
    requires sys' == sys.(
      handlers := sys.handlers[sys.counter := Handler(m, ParsedEvents(sys.queue[m].body), 0)],
      counter := sys.counter + 1)
    ensures SystemOk(sys')
  {
    hide ParsedEvents, ResolveVideoId;
    assert MessageOk(sys, m);
    assert HandlerOk(sys', sys.counter);
    Kept(sys, sys');
  }

  lemma ReceivesInRange(sys: System, m: nat)
    requires SystemOk(sys) && m in sys.queue
    ensures CountedOk(sys.queue[m])
  {
    assert MessageOk(sys, m);
  }

  lemma ReceiveKeeps(sys: System, m: nat)
    requires SystemOk(sys) && m in sys.queue
    ensures SystemOk(Received(sys, m))
  {
    hide SystemOk, ParsedEvents;
    ReceivesInRange(sys, m);
    var msg := sys.queue[m];
    if msg.receives >= MAX_RECEIVES {
      PlaceKeeps(sys, m, DeadLettered, msg.receives);
    } else {
      PlaceKeeps(sys, m, InFlight, msg.receives + 1);
      var placed := sys.(queue := sys.queue[m := msg.(place := InFlight, receives := msg.receives + 1)]);
      NewHandlerKeeps(placed, m, Received(sys, m));
    }
  }

  lemma StartedExecutions(v: Workflow.Video)
    ensures Workflow.AfterStart(v).executions != []
  {
  }

  lemma StartKeepsVideos(sys: System, id: VideoId)
    requires VideosOk(sys) && id in sys.videos && ResolveVideoId(sys.keys, sys.keys[id]) == Some(id)
    ensures VideosOk(StartVideo(sys, id))
  {
    hide Workflow.Reachable, Workflow.AfterStart, ResolveVideoId;
    forall i | Started(StartVideo(sys, id), i) && i != id ensures ResolveVideoId(sys.keys, sys.keys[i]) == Some(i) {
      assert Started(sys, i);
    }
    Workflow.ReachableStep(id, sys.videos[id], Workflow.Start, Workflow.AfterStart(sys.videos[id]));
  }

  lemma StartKeepsSystem(sys: System, id: VideoId)
    requires SystemOk(sys) && id in sys.videos && id in sys.keys && ResolveVideoId(sys.keys, sys.keys[id]) == Some(id)
    ensures SystemOk(StartVideo(sys, id)) && Started(StartVideo(sys, id), id)
    ensures Grows(sys, StartVideo(sys, id))
  {
    hide ParsedEvents, Workflow.AfterStart, ResolveVideoId, Mentions, VideosOk, HandlerOk, UploadOk, MessageOk;
    StartKeepsVideos(sys, id);
    StartedExecutions(sys.videos[id]);
    Kept(sys, StartVideo(sys, id));
  }

  lemma DropHandlerKeeps(sys: System, h: nat)
    requires SystemOk(sys)
    ensures SystemOk(sys.(handlers := Remove(sys.handlers, h)))
  {
    Kept(sys, sys.(handlers := Remove(sys.handlers, h)));
  }

  /** A handler moves past one event, which resolved to nothing or to a started video. */
  lemma AdvanceKeeps(sys: System, h: nat, sys': System)
    requires SystemOk(sys) && h in sys.handlers && sys.handlers[h].next < |sys.handlers[h].events|
    requires var handler := sys.handlers[h];
      && sys' == sys.(handlers := sys.handlers[h := handler.(next := handler.next + 1)])
      && var id := ResolveVideoId(sys.keys, handler.events[handler.next].key); id.Some? ==> Started(sys, id.value)
    ensures SystemOk(sys')
  {
    hide ParsedEvents, ResolveVideoId, Mentions;
    AdvancedHandlerOk(sys, h, sys');
    Kept(sys, sys');
  }

  lemma AdvancedHandlerOk(sys: System, h: nat, sys': System)
    requires h in sys.handlers && HandlerOk(sys, h) && sys.handlers[h].next < |sys.handlers[h].events|
    requires var handler := sys.handlers[h];
      && sys' == sys.(handlers := sys.handlers[h := handler.(next := handler.next + 1)])
      && var id := ResolveVideoId(sys.keys, handler.events[handler.next].key); id.Some? ==> Started(sys, id.value)
    ensures HandlerOk(sys', h)
  {
    hide ParsedEvents, ResolveVideoId;
    var handler := sys.handlers[h];
    if handler.message in sys.queue {
      forall id | id in sys.queue[handler.message].about && Mentions(sys.keys, handler.events, handler.next + 1, id)
        ensures Started(sys', id)
      {
        var k :| 0 <= k < handler.next + 1 && k < |handler.events| &&
          ResolveVideoId(sys.keys, handler.events[k].key) == Some(id);
        if k < handler.next {
          assert Mentions(sys.keys, handler.events, handler.next, id);
        }
      }
    }
  }

  lemma ResolvedIsKnown(keys: map<VideoId, string>, key: string)
    ensures ResolveVideoId(keys, key).Some? ==> ResolveVideoId(keys, key).value in keys
  {
  }

  lemma HandleKeeps(sys: System, h: nat, outcome: StartOutcome, sys': System)
    requires SystemOk(sys) && Do(sys, Handle(h, outcome)) == Some(sys')
    ensures SystemOk(sys')
  {
    hide SystemOk, ResolveVideoId, Workflow.AfterStart;
    var handler := sys.handlers[h];
    var found := ResolveVideoId(sys.keys, handler.events[handler.next].key);
    if found.Some? {
      StoredKeyResolves(sys.keys, handler.events[handler.next].key, found.value);
    }
    if found.None? {
      AdvanceKeeps(sys, h, sys');
    } else if outcome.Unreachable? {
      DropHandlerKeeps(sys, h);
    } else if outcome.ReplyLost? {
      DropHandlerKeeps(sys, h);
      StartKeepsSystem(sys.(handlers := Remove(sys.handlers, h)), found.value);
    } else {
      StartKeepsSystem(sys, found.value);
      AdvanceKeeps(StartVideo(sys, found.value), h, sys');
    }
  }

  /** When a handler is through, every video its message is about has been started. */
  lemma ThroughMeansStarted(sys: System, h: nat, id: VideoId)
    requires SystemOk(sys) && h in sys.handlers && sys.handlers[h].next == |sys.handlers[h].events|
    requires var m := sys.handlers[h].message; m in sys.queue && id in sys.queue[m].about
    ensures Started(sys, id)
  {
    assert HandlerOk(sys, h) && MessageOk(sys, sys.handlers[h].message);
  }

  lemma AcknowledgeKeeps(sys: System, h: nat, sys': System)
    requires SystemOk(sys) && Do(sys, Acknowledge(h)) == Some(sys')
    ensures SystemOk(sys')
  {
    hide ParsedEvents, ResolveVideoId, Mentions, Workflow.Reachable, HandlerOk, MessageOk, UploadOk;
    var m := sys.handlers[h].message;
    forall k | k in sys'.queue ensures MessageOk(sys', k) {
      ReceivesInRange(sys, k);
      MessageStays(sys, sys', k);
    }
    forall k | k in sys'.handlers ensures HandlerOk(sys', k) {
      assert HandlerOk(sys, k);
      HandlerStays(sys, sys', k);
    }
    forall u | u in sys'.uploads ensures UploadOk(sys', u) {
      if m in sys.queue && u.id in sys.queue[m].about {
        ThroughMeansStarted(sys, h, u.id);
      }
      UploadStays(sys, sys', u);
    }
  }

  lemma ExecutionsStay(id: VideoId, v: Workflow.Video, event: Workflow.Event, v': Workflow.Video)
    requires Workflow.Next(id, v, event) == Some(v') && !event.Start?
    ensures |v'.executions| == |v.executions|
  {
  }

  lemma MovedVideosOk(sys: System, id: VideoId, v: Workflow.Video)
    requires VideosOk(sys) && id in sys.videos && Workflow.Reachable(id, v)
    requires |v.executions| == |sys.videos[id].executions|
    ensures VideosOk(sys.(videos := sys.videos[id := v]))
  {
    hide Workflow.Reachable, ResolveVideoId;
    forall i | Started(sys.(videos := sys.videos[id := v]), i)
      ensures ResolveVideoId(sys.keys, sys.keys[i]) == Some(i)
    {
      assert Started(sys, i);
    }
  }

  lemma VideoEventKeeps(sys: System, id: VideoId, event: Workflow.Event, sys': System)
    requires SystemOk(sys) && Do(sys, VideoEvent(id, event)) == Some(sys')
    ensures SystemOk(sys')
  {
    hide Workflow.Next, Workflow.Reachable;
    var v' := Workflow.Next(id, sys.videos[id], event).value;
    var moved := sys.(videos := sys.videos[id := v']);
    Workflow.ReachableStep(id, sys.videos[id], event, v');
    ExecutionsStay(id, sys.videos[id], event, v');
    MovedVideosOk(sys, id, v');
    Kept(sys, moved);
    if event.RetrySend? {
      SendKeeps(moved, BuildObjectCreatedMessage(sys.bucket, sys.keys[id]));
    }
  }

  lemma ActionKeeps(sys: System, action: Action, sys': System)
    requires SystemOk(sys) && Do(sys, action) == Some(sys')
    ensures SystemOk(sys')
  {
    hide SystemOk;
    match action
    case CreateVideo(id, filename) => CreateKeeps(sys, id, filename, sys');
    case PutObject(u, body) => PutKeeps(sys, u, body, sys');
    case Notify(body) => SendKeeps(sys, body);
    case Receive(m) => ReceiveKeeps(sys, m);
    case Expire(m) =>
      ReceivesInRange(sys, m);
      PlaceKeeps(sys, m, Visible, sys.queue[m].receives);
    case Handle(h, outcome) => HandleKeeps(sys, h, outcome, sys');
    case Abandon(h) => DropHandlerKeeps(sys, h);
    case Acknowledge(h) => AcknowledgeKeeps(sys, h, sys');
    case VideoEvent(id, event) => VideoEventKeeps(sys, id, event, sys');
  }

  lemma {:induction false} SystemRunKeeps(bucket: string, actions: seq<Action>, states: seq<System>, k: nat)
    requires IsSystemRun(bucket, actions, states) && k <= |actions|
    ensures SystemOk(states[k])
  {
    hide Do;
    if k == 0 {
    } else {
      SystemRunKeeps(bucket, actions, states, k - 1);
      ActionKeeps(states[k - 1], actions[k - 1], states[k]);
    }
  }

  lemma ReachableSystemOk(sys: System)
    requires ReachableSystem(sys)
    ensures SystemOk(sys)
  {
    hide Do, SystemOk;
    var actions, states :| IsSystemRun(sys.bucket, actions, states) && states[|actions|] == sys;
    SystemRunKeeps(sys.bucket, actions, states, |actions|);
  }
}

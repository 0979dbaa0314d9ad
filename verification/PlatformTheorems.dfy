/** What holds of the whole platform in every reachable state, over any interleaving. */
module PlatformTheorems {
  import opened Options
  import opened VideoIds
  import opened UploadKeys
  import opened S3Events
  import opened Rows
  import opened Sessions
  import Workflow
  import WorkflowInvariant
  import Completion
  import Closing
  import opened Platform
  import opened PlatformInvariant

  lemma VideoIsReachable(sys: System, id: VideoId)
    requires ReachableSystem(sys) && id in sys.videos
    ensures id in sys.keys && Workflow.Reachable(id, sys.videos[id])
  {
    hide Workflow.Reachable;
    ReachableSystemOk(sys);
  }

  predicate InMessage(keys: map<VideoId, string>, body: Body, id: VideoId) {
    Mentions(keys, ParsedEvents(body), |ParsedEvents(body)|, id)
  }

  /** A message with an event for the video is waiting, in flight or dead-lettered. */
  ghost predicate OnItsWay(sys: System, id: VideoId) {
    exists m :: m in sys.queue && InMessage(sys.keys, sys.queue[m].body, id)
  }

  /** Every upload the shim can recognise has a workflow execution or a message on its way. */
  lemma NoUploadIsLost(sys: System, u: Original)
    requires ReachableSystem(sys) && u in sys.uploads
    ensures ResolveVideoId(sys.keys, u.key) == Some(u.id) ==> Started(sys, u.id) || OnItsWay(sys, u.id)
  {
    hide ParsedEvents, ResolveVideoId, Mentions;
    ReachableSystemOk(sys);
    assert UploadOk(sys, u);
    if ResolveVideoId(sys.keys, u.key) == Some(u.id) && !Started(sys, u.id) {
      var m :| m in sys.queue && u.id in sys.queue[m].about;
      assert MessageOk(sys, m);
    }
  }

  /** In particular every upload of a file named `<stem>.<letters and digits>`, under its key or
      under the key with the backslash an emulator adds. */
  lemma PlainUploadsAreNotLost(sys: System, id: VideoId, stem: string, ext: string, key: string)
    requires ReachableSystem(sys) && id in sys.keys && sys.keys[id] == BuildUploadObjectKey(id, stem + "." + ext)
    requires '/' !in stem && (exists k :: 0 <= k < |stem| && stem[k] != '.') && ext != ""
    requires forall c :: c in ext ==> '0' <= c <= '9' || 'a' <= c <= 'z' || 'A' <= c <= 'Z'
    requires Original(id, key) in sys.uploads && (key == sys.keys[id] || key == sys.keys[id] + BACKSLASH)
    ensures Started(sys, id) || OnItsWay(sys, id)
  {
    hide ResolveVideoId, BuildUploadObjectKey, ReachableSystem, OnItsWay, Started;
    PlainNamesAreRecognised(sys.keys, id, stem, ext);
    NoUploadIsLost(sys, Original(id, key));
  }

  // ---- Deleted messages ----

  lemma HandleGrows(sys: System, h: nat, outcome: StartOutcome, sys': System)
    requires VideosOk(sys) && Do(sys, Handle(h, outcome)) == Some(sys')
    ensures Grows(sys, sys')
  {
    hide ParsedEvents, ResolveVideoId, VideosOk, Workflow.AfterStart;
    var handler := sys.handlers[h];
    var found := ResolveVideoId(sys.keys, handler.events[handler.next].key);
    if found.Some? && !outcome.Unreachable? {
      ResolvedIsKnown(sys.keys, handler.events[handler.next].key);
      StartedExecutions(sys.videos[found.value]);
    }
  }

  lemma VideoEventGrows(sys: System, id: VideoId, event: Workflow.Event, sys': System)
    requires VideosOk(sys) && Do(sys, VideoEvent(id, event)) == Some(sys')
    ensures Grows(sys, sys')
  {
    hide ParsedEvents, ResolveVideoId, VideosOk, Workflow.Next, IsBytes, BuildObjectCreatedMessage, About;
    Completion.ExecutionsStay(id, sys.videos[id], event, Workflow.Next(id, sys.videos[id], event).value);
  }

  lemma ActionGrows(sys: System, action: Action, sys': System)
    requires VideosOk(sys) && Do(sys, action) == Some(sys')
    ensures Grows(sys, sys')
  {
    hide ParsedEvents, ResolveVideoId, Mentions, IsBytes, BuildUploadObjectKey, About;
    match action
    case Handle(h, outcome) => HandleGrows(sys, h, outcome, sys');
    case VideoEvent(id, event) => VideoEventGrows(sys, id, event, sys');
    case _ => OtherActionGrows(sys, action, sys');
  }

  lemma OtherActionGrows(sys: System, action: Action, sys': System)
    requires VideosOk(sys) && !action.Handle? && !action.VideoEvent? && Do(sys, action) == Some(sys')
    ensures Grows(sys, sys')
  {
    hide ParsedEvents, ResolveVideoId, Mentions, IsBytes, BuildUploadObjectKey, About, Workflow.Reachable;
  }

  /** One action keeps a message as it was sent, or deletes it with every video it is about
      started. */
  lemma MessageStaysOrDone(sys: System, action: Action, sys': System, m: nat)
    requires SystemOk(sys) && Do(sys, action) == Some(sys') && m in sys.queue
    ensures m in sys'.queue ==> sys'.queue[m].body == sys.queue[m].body && sys'.queue[m].about == sys.queue[m].about
    ensures m !in sys'.queue ==> action.Acknowledge? && forall id :: id in sys.queue[m].about ==> Started(sys, id)
    ensures sys.queue[m].place.DeadLettered? ==> m in sys'.queue && sys'.queue[m] == sys.queue[m]
  {
    hide ParsedEvents, ResolveVideoId, Workflow.Next, Mentions, Workflow.Reachable, BuildUploadObjectKey, IsBytes;
    assert MessageOk(sys, m);
    if m !in sys'.queue {
      forall id | id in sys.queue[m].about ensures Started(sys, id) {
        ThroughMeansStarted(sys, action.h, id);
      }
    }
  }

  /** A new message is about every video one of its records resolves to when it is sent. */
  lemma NewMessageIsAbout(sys: System, action: Action, sys': System, m: nat, e: ObjectCreatedEvent, id: VideoId)
    requires Do(sys, action) == Some(sys') && m !in sys.queue && m in sys'.queue
    requires e in ParsedEvents(sys'.queue[m].body) && ResolveVideoId(sys.keys, e.key) == Some(id)
    ensures id in sys'.queue[m].about
  {
    hide ParsedEvents, ResolveVideoId, Workflow.Next, BuildUploadObjectKey, IsBytes, BuildObjectCreatedMessage;
    var events := ParsedEvents(sys'.queue[m].body);
    var k :| 0 <= k < |events| && events[k] == e;
    assert Mentions(sys.keys, events, |events|, id);
    ResolvedIsKnown(sys.keys, e.key);
    assert sys'.queue[m].about == About(sys.keys, sys'.queue[m].body);
  }

  lemma {:induction false} KeptUntilStarted(
      bucket: string, actions: seq<Action>, states: seq<System>, k: nat, l: nat, m: nat, id: VideoId)
    requires IsSystemRun(bucket, actions, states) && k <= l <= |actions|
    requires m in states[k].queue && id in states[k].queue[m].about
    ensures Started(states[l], id)
      || (m in states[l].queue && states[l].queue[m].body == states[k].queue[m].body && id in states[l].queue[m].about)
    decreases l
  {
    hide Do, SystemOk, Started;
    if k == l {
    } else {
      var before, action, after := states[l - 1], actions[l - 1], states[l];
      KeptUntilStarted(bucket, actions, states, k, l - 1, m, id);
      SystemRunKeeps(bucket, actions, states, l - 1);
      GrowsStarted(before, action, after, id);
      if !Started(before, id) {
        MessageStaysOrDone(before, action, after, m);
      }
    }
  }

  lemma GrowsStarted(sys: System, action: Action, sys': System, id: VideoId)
    requires SystemOk(sys) && Do(sys, action) == Some(sys')
    ensures Started(sys, id) ==> Started(sys', id)
  {
    hide Do, Started;
    ActionGrows(sys, action, sys');
  }

  /** A message sent at some point of a run, one of whose records then resolved to a video: at any
      later point the video has an execution, or the message is still in the queue or the dead
      letters as it was sent. However often it is delivered, and wherever deliveries break off, it
      is never deleted before. */
  lemma DeletedOnlyWhenStarted(
      bucket: string, actions: seq<Action>, states: seq<System>, k: nat, l: nat, m: nat, e: ObjectCreatedEvent,
      id: VideoId)
    requires IsSystemRun(bucket, actions, states) && k < l <= |actions|
    requires m !in states[k].queue && m in states[k + 1].queue
    requires e in ParsedEvents(states[k + 1].queue[m].body) && ResolveVideoId(states[k].keys, e.key) == Some(id)
    ensures Started(states[l], id) || (m in states[l].queue && states[l].queue[m].body == states[k + 1].queue[m].body)
  {
    hide Do, ParsedEvents, ResolveVideoId, Started;
    NewMessageIsAbout(states[k], actions[k], states[k + 1], m, e, id);
    KeptUntilStarted(bucket, actions, states, k + 1, l, m, id);
  }

  // ---- Deliveries ----

  /** How many of the first l actions handed message m to a handler. */
  ghost function Deliveries(actions: seq<Action>, states: seq<System>, l: nat, m: nat): nat
    requires |states| == |actions| + 1 && l <= |actions|
  {
    if l == 0 then 0
    else
      Deliveries(actions, states, l - 1, m)
      + if actions[l - 1] == Receive(m) && m in states[l].queue && states[l].queue[m].place.InFlight? then 1 else 0
  }

  lemma ReceiveCounts(sys: System, action: Action, sys': System, m: nat)
    requires SystemOk(sys) && Do(sys, action) == Some(sys') && m in sys'.queue
    ensures m in sys.queue ==>
      sys'.queue[m].receives - sys.queue[m].receives
      == if action == Receive(m) && sys'.queue[m].place.InFlight? then 1 else 0
    ensures m !in sys.queue ==> sys'.queue[m].receives == 0 && action != Receive(m) && m == sys.counter
  {
    hide ParsedEvents, ResolveVideoId, Workflow.Next, Mentions, Workflow.Reachable, BuildUploadObjectKey, IsBytes;
    if m in sys.queue {
      assert MessageOk(sys, m);
    }
  }

  lemma {:induction false} NotDeliveredBefore(
      bucket: string, actions: seq<Action>, states: seq<System>, l: nat, m: nat)
    requires IsSystemRun(bucket, actions, states) && l <= |actions| && states[l].counter <= m
    ensures Deliveries(actions, states, l, m) == 0
  {
    hide Do, SystemOk;
    if l == 0 {
    } else {
      SystemRunKeeps(bucket, actions, states, l - 1);
      ReceivedIsOld(states[l - 1], actions[l - 1], states[l], m);
      NotDeliveredBefore(bucket, actions, states, l - 1, m);
    }
  }

  lemma ReceivedIsOld(sys: System, action: Action, sys': System, m: nat)
    requires SystemOk(sys) && Do(sys, action) == Some(sys')
    ensures sys.counter <= sys'.counter && (action == Receive(m) ==> m < sys.counter)
  {
    hide Do;
    ActionGrows(sys, action, sys');
    if action == Receive(m) {
      ReceivedIsQueued(sys, action, sys', m);
      assert MessageOk(sys, m);
    }
  }

  lemma ReceivedIsQueued(sys: System, action: Action, sys': System, m: nat)
    requires Do(sys, action) == Some(sys') && action == Receive(m)
    ensures m in sys.queue
  {
  }

  /** The receive count is the number of times the message has been handed to a handler. */
  lemma {:induction false} ReceivesAreDeliveries(
      bucket: string, actions: seq<Action>, states: seq<System>, l: nat, m: nat)
    requires IsSystemRun(bucket, actions, states) && l <= |actions| && m in states[l].queue
    ensures states[l].queue[m].receives == Deliveries(actions, states, l, m)
  {
    hide Do, SystemOk;
    if l == 0 {
      assert false;
    } else {
      SystemRunKeeps(bucket, actions, states, l - 1);
      ReceiveCounts(states[l - 1], actions[l - 1], states[l], m);
      if m in states[l - 1].queue {
        ReceivesAreDeliveries(bucket, actions, states, l - 1, m);
      } else {
        NotDeliveredBefore(bucket, actions, states, l - 1, m);
      }
    }
  }

  /** So over any run no message is handed out a fourth time. */
  lemma AtMostThreeDeliveries(bucket: string, actions: seq<Action>, states: seq<System>, l: nat, m: nat)
    requires IsSystemRun(bucket, actions, states) && l <= |actions| && m in states[l].queue
    ensures Deliveries(actions, states, l, m) <= 3
    ensures states[l].queue[m].place.DeadLettered? ==> Deliveries(actions, states, l, m) == 3
  {
    hide Do, SystemOk;
    ReceivesAreDeliveries(bucket, actions, states, l, m);
    SystemRunKeeps(bucket, actions, states, l);
    ReceivesInRange(states[l], m);
  }

  /** A message whose handler broke off is delivered again: once it is visible, it is handed out with
      all its events still to do, or after the third time becomes a dead letter. */
  lemma DeliveredAgain(sys: System, m: nat) returns (again: System)
    requires m in sys.queue && !sys.queue[m].place.DeadLettered?
    ensures var sys1 := if sys.queue[m].place.InFlight? then Do(sys, Expire(m)) else Some(sys);
      sys1.Some? && Do(sys1.value, Receive(m)) == Some(again)
    ensures m in again.queue && again.queue[m].body == sys.queue[m].body
    ensures if sys.queue[m].receives >= 3 then again.queue[m].place.DeadLettered? && again.handlers == sys.handlers
      else again.handlers == sys.handlers[sys.counter := Handler(m, ParsedEvents(sys.queue[m].body), 0)]
  {
    hide ParsedEvents;
    var visible := if sys.queue[m].place.InFlight? then Do(sys, Expire(m)).value else sys;
    again := Received(visible, m);
  }

  // ---- What is left open ----

  /** A handler may stop at any point: before a start call, after one whose reply is lost, or for no
      reason. Its message stays as it is, and a workflow that the lost call started is started. */
  lemma HandlersMayStop(sys: System, h: nat, outcome: StartOutcome, sys': System)
    requires VideosOk(sys) && h in sys.handlers
    ensures Do(sys, Abandon(h)).Some? && Do(sys, Abandon(h)).value == sys.(handlers := Remove(sys.handlers, h))
    ensures Do(sys, Handle(h, outcome)) == Some(sys') && !outcome.Accepted? ==>
      var found := ResolveVideoId(sys.keys, sys.handlers[h].events[sys.handlers[h].next].key);
      && (found.Some? ==> h !in sys'.handlers && sys'.queue == sys.queue)
      && (found.Some? && outcome.ReplyLost? ==> Started(sys', found.value))
      && (outcome.Unreachable? ==> sys'.videos == sys.videos)
  {
    hide ResolveVideoId, ParsedEvents, Workflow.AfterStart;
    if Do(sys, Handle(h, outcome)) == Some(sys') {
      var key := sys.handlers[h].events[sys.handlers[h].next].key;
      ResolvedIsKnown(sys.keys, key);
      if ResolveVideoId(sys.keys, key).Some? {
        StartedExecutions(sys.videos[ResolveVideoId(sys.keys, key).value]);
      }
    }
  }

  predicate NamesKey(body: Body, key: string) {
    exists e :: e in ParsedEvents(body) && e.key == key
  }

  /** Any message may arrive at any time; a video may be created under any new ID with any name
      validation accepts; and an upload is on record once its notification is sent. */
  lemma AnyoneMaySend(sys: System, body: Body, id: VideoId, filename: string, u: Original)
    ensures var next := Do(sys, Notify(body));
      && next.Some? && sys.counter in next.value.queue && next.value.queue[sys.counter].body == body
      && next.value.queue[sys.counter].place.Visible? && next.value.videos == sys.videos && next.value.keys == sys.keys
    ensures id !in sys.keys && ValidFilename(filename) && IsBytes(filename) ==> Do(sys, CreateVideo(id, filename)).Some?
    ensures u.id in sys.keys && u.key in {sys.keys[u.id], sys.keys[u.id] + BACKSLASH} && NamesKey(body, u.key) ==>
      Do(sys, PutObject(u, body)).Some?
    ensures var next := Do(sys, PutObject(u, body));
      next.Some? ==> next.value.uploads == sys.uploads + {u} && next.value.queue == Do(sys, Notify(body)).value.queue
  {
    hide ParsedEvents, ValidFilename, BuildUploadObjectKey;
  }

  // ---- Stored keys ----

  lemma KeyStays(sys: System, action: Action, sys': System, id: VideoId)
    requires SystemOk(sys) && Do(sys, action) == Some(sys') && id in sys.keys
    ensures id in sys'.keys && sys'.keys[id] == sys.keys[id] && !(action.CreateVideo? && action.id == id)
  {
    hide Do;
    ActionGrows(sys, action, sys');
    if action.CreateVideo? && action.id == id {
      CreatedIsNew(sys, action, sys', id);
    }
  }

  lemma CreatedIsNew(sys: System, action: Action, sys': System, id: VideoId)
    requires Do(sys, action) == Some(sys') && action.CreateVideo? && action.id == id
    ensures id !in sys.keys && id in sys'.keys && sys'.keys[id] == BuildUploadObjectKey(id, action.filename)
    ensures ValidFilename(action.filename)
  {
    hide BuildUploadObjectKey, ValidFilename, IsBytes;
  }

  /** The key stored for a video is the one built from its ID and the name it was created with, for
      good. */
  lemma {:induction false} KeyIsBuilt(
      bucket: string, actions: seq<Action>, states: seq<System>, k: nat, l: nat, id: VideoId, filename: string)
    requires IsSystemRun(bucket, actions, states) && k < l <= |actions| && actions[k] == CreateVideo(id, filename)
    ensures id in states[l].keys && states[l].keys[id] == BuildUploadObjectKey(id, filename)
    decreases l
  {
    hide Do, SystemOk, BuildUploadObjectKey, ValidFilename;
    if l == k + 1 {
      CreatedIsNew(states[k], actions[k], states[l], id);
    } else {
      KeyIsBuilt(bucket, actions, states, k, l - 1, id, filename);
      SystemRunKeeps(bucket, actions, states, l - 1);
      KeyStays(states[l - 1], actions[l - 1], states[l], id);
    }
  }

  /** Objects the pipeline generates are outside the prefix the bucket reports, and would not be
      taken for an upload. */
  lemma AssetKeyIsNoUpload(id: VideoId, t: AssetType)
    ensures !("uploads/" <= AssetKey(id, t)) && ParseVideoIdFromKey(AssetKey(id, t)) == None
  {
    hide Text, AssetName;
    assert AssetKey(id, t)[0] == 'a';
  }

  /** No message is delivered a fourth time, and a dead letter has been delivered three times. */
  lemma DeliveriesAreBounded(sys: System, m: nat)
    requires ReachableSystem(sys) && m in sys.queue
    ensures sys.queue[m].receives <= 3
    ensures sys.queue[m].place.DeadLettered? ==> sys.queue[m].receives == 3
  {
    hide Do;
    ReachableSystemOk(sys);
    ReceivesInRange(sys, m);
  }

  // ---- Retry calls ----

  /** Once a video has been started, the event for its stored key resolves to it. */
  lemma StartedResolves(sys: System, id: VideoId)
    requires ReachableSystem(sys) && Started(sys, id)
    ensures id in sys.keys && IsBytes(sys.keys[id]) && ResolveVideoId(sys.keys, sys.keys[id]) == Some(id)
  {
    hide Do, ResolveVideoId;
    ReachableSystemOk(sys);
  }

  /** Every retry call that sends puts a message about its video on the queue: one with exactly one
      event, which resolves to the video. */
  lemma RetryIsSent(sys: System, id: VideoId, k: nat, sys': System)
    requires ReachableSystem(sys) && Do(sys, VideoEvent(id, Workflow.RetrySend(k))) == Some(sys')
    ensures sys.counter !in sys.queue && sys.counter in sys'.queue
    ensures sys'.queue[sys.counter].place.Visible? && sys'.queue[sys.counter].receives == 0
    ensures ParsedEvents(sys'.queue[sys.counter].body) == [ObjectCreatedEvent(sys.bucket, sys.keys[id])]
    ensures ResolveVideoId(sys.keys, sys.keys[id]) == Some(id) && id in sys'.queue[sys.counter].about
  {
    hide ParsedEvents, ResolveVideoId, Workflow.Reachable, ReachableSystem;
    CounterIsNew(sys);
    VideoIsReachable(sys, id);
    assert Started(sys, id) by {
      if sys.videos[id].executions == [] {
        Completion.UnstartedIsNew(id, sys.videos[id]);
      }
    }
    StartedResolves(sys, id);
    MessageRoundTrip(sys.bucket, sys.keys[id]);
    NewMessageIsAbout(sys, VideoEvent(id, Workflow.RetrySend(k)), sys', sys.counter,
      ObjectCreatedEvent(sys.bucket, sys.keys[id]), id);
  }

  lemma CounterIsNew(sys: System)
    requires ReachableSystem(sys)
    ensures sys.counter !in sys.queue
  {
    hide Do;
    ReachableSystemOk(sys);
    forall m | m in sys.queue ensures m < sys.counter {
      assert MessageOk(sys, m);
    }
  }

  /** Handling an event for a video whose executions have all failed starts a fresh one, on the
      store as it is. */
  lemma RetryStartsAfresh(sys: System, h: nat, id: VideoId) returns (sys': System)
    requires ReachableSystem(sys) && id in sys.videos
    requires forall i :: 0 <= i < |sys.videos[id].executions| ==> sys.videos[id].executions[i].phase.Failed?
    requires h in sys.handlers && sys.handlers[h].next < |sys.handlers[h].events|
    requires ResolveVideoId(sys.keys, sys.handlers[h].events[sys.handlers[h].next].key) == Some(id)
    ensures Do(sys, Handle(h, StartOutcome.Accepted)) == Some(sys') && id in sys'.videos
    ensures sys'.videos[id] == sys.videos[id].(executions := sys.videos[id].executions + [Workflow.NEW_EXECUTION])
  {
    hide ParsedEvents, ResolveVideoId, Workflow.Reachable, Workflow.Next;
    VideosAndKeys(sys);
    Workflow.FailedMayStart(sys.videos[id].executions);
    sys' := Handled(sys, h, StartOutcome.Accepted);
  }

  lemma VideosAndKeys(sys: System)
    requires ReachableSystem(sys)
    ensures sys.keys.Keys == sys.videos.Keys
  {
    hide Do;
    ReachableSystemOk(sys);
  }

  /** No two asset rows of the whole table share an object key, and each names a stored object. */
  lemma AssetRowsAreUnique(sys: System, a: VideoId, s: AssetType, b: VideoId, t: AssetType)
    requires ReachableSystem(sys) && a in sys.videos && b in sys.videos
    requires s in sys.videos[a].store.assets && t in sys.videos[b].store.assets
    requires sys.videos[a].store.assets[s] == sys.videos[b].store.assets[t]
    ensures a == b && s == t
    ensures sys.videos[a].store.assets[s] in sys.videos[a].store.objects
  {
    VideoIsReachable(sys, a);
    VideoIsReachable(sys, b);
    WorkflowInvariant.ReachableOk(a, sys.videos[a]);
    WorkflowInvariant.ReachableOk(b, sys.videos[b]);
    AssetKeyInjective(a, s, b, t);
  }

  /** So the unique constraint on object keys never rejects a flush: what the other videos hold
      never meets this video's keys. */
  lemma FlushesAreHonest(sys: System, id: VideoId, event: Workflow.Event)
    requires ReachableSystem(sys) && id in sys.videos && EventAllowed(sys, id, event)
    ensures event.Act? && event.move.Count? ==>
      && (forall o, t :: o in sys.videos && o != id && t in sys.videos[o].store.assets ==>
            sys.videos[o].store.assets[t] in event.move.taken)
      && (forall t :: AssetKey(id, t) !in event.move.taken)
    ensures Closing.Honest(id, event)
  {
    if event.Act? && event.move.Count? {
      assert event.move.taken == KeysOfOthers(sys, id);
      forall t ensures AssetKey(id, t) !in event.move.taken {
        if AssetKey(id, t) in event.move.taken {
          var o, s :| o in sys.videos && o != id && s in sys.videos[o].store.assets &&
            sys.videos[o].store.assets[s] == AssetKey(id, t);
          VideoIsReachable(sys, o);
          WorkflowInvariant.ReachableOk(o, sys.videos[o]);
          AssetKeyInjective(o, s, id, t);
        }
      }
    }
  }

  /** `completed` is true of every video of the platform. */
  lemma CompletedEverywhere(sys: System, id: VideoId)
    requires ReachableSystem(sys) && id in sys.videos && sys.videos[id].store.video.status.Completed?
    ensures var st := sys.videos[id].store;
      && st.AllDone() && st.video.HasMetadata() && st.video.height.value > 0
      && (forall t :: t in st.assets <==>
          t == ThumbnailImage || t in TypesOf(RenditionsForSourceHeight(st.video.height.value)))
      && (forall t :: t in st.assets ==> st.assets[t] in st.objects)
  {
    VideoIsReachable(sys, id);
    Completion.CompletedMeansFinished(id, sys.videos[id]);
  }
}

/** The whole platform: any number of videos, the upload queue with its dead letters, and any
    number of shim handlers working on messages at once. */
module Platform {
  import opened Options
  import opened VideoIds
  import opened UploadKeys
  import opened S3Events
  import opened Rows
  import opened Sessions
  import Workflow

  /** maxReceiveCount of the processing queue. */
  const MAX_RECEIVES: nat := 3

  datatype Place = Visible | InFlight | DeadLettered

  /** `about` is history: the videos its records resolved to when it was sent. */
  datatype Message = Message(body: Body, place: Place, receives: nat, about: set<VideoId>)

  /** A delivery being processed: the events before `next` are done. */
  datatype Handler = Handler(message: nat, events: seq<ObjectCreatedEvent>, next: nat)

  /** An original stored under a video's presigned key, as the store reports the key. */
  datatype Original = Original(id: VideoId, key: string)

  datatype System = System(
    bucket: string,
    keys: map<VideoId, string>,              // videos.original_object_key
    videos: map<VideoId, Workflow.Video>,
    uploads: set<Original>,
    queue: map<nat, Message>,
    handlers: map<nat, Handler>,
    counter: nat)                            // message and handler numbers not used yet

  function NewSystem(bucket: string): System {
    System(bucket, map[], map[], {}, map[], map[], 0)
  }

  /** How starting the workflow for one event goes. */
  datatype StartOutcome =
    | Accepted       // started, or refused as a duplicate
    | ReplyLost      // the server started it, but the call raised
    | Unreachable    // the call raised

  datatype Action =
    | CreateVideo(id: VideoId, filename: string)
    | PutObject(upload: Original, body: Body)     // the client uploads; S3 notifies
    | Notify(body: Body)                        // any other message: duplicates, test events, strays
    | Receive(m: nat) | Expire(m: nat)
    | Handle(h: nat, outcome: StartOutcome)
    | Abandon(h: nat)                           // the shim dies in the middle
    | Acknowledge(h: nat)
    | VideoEvent(id: VideoId, event: Workflow.Event)

  predicate Mentions(keys: map<VideoId, string>, events: seq<ObjectCreatedEvent>, end: nat, id: VideoId) {
    exists k :: 0 <= k < end && k < |events| && ResolveVideoId(keys, events[k].key) == Some(id)
  }

  function About(keys: map<VideoId, string>, body: Body): set<VideoId> {
    set id | id in keys && Mentions(keys, ParsedEvents(body), |ParsedEvents(body)|, id)
  }

  function Send(sys: System, body: Body): System {
    sys.(queue := sys.queue[sys.counter := Message(body, Visible, 0, About(sys.keys, body))],
         counter := sys.counter + 1)
  }

  function StartVideo(sys: System, id: VideoId): System
    requires id in sys.videos
  {
    sys.(videos := sys.videos[id := Workflow.AfterStart(sys.videos[id])])
  }

  function Remove<T>(m: map<nat, T>, k: nat): map<nat, T> {
    map i | i in m && i != k :: m[i]
  }

  /** Object keys in the asset rows of every other video. */
  function KeysOfOthers(sys: System, id: VideoId): set<string> {
    set o, t | o in sys.videos && o != id && t in sys.videos[o].store.assets :: sys.videos[o].store.assets[t]
  }

  /** SQS moves a message to the dead-letter queue instead of delivering it a fourth time. */
  function Received(sys: System, m: nat): System
    requires m in sys.queue
  {
    var msg := sys.queue[m];
    if msg.receives >= MAX_RECEIVES then sys.(queue := sys.queue[m := msg.(place := DeadLettered)])
    else sys.(queue := sys.queue[m := msg.(place := InFlight, receives := msg.receives + 1)],
              handlers := sys.handlers[sys.counter := Handler(m, ParsedEvents(msg.body), 0)],
              counter := sys.counter + 1)
  }

  /** One turn of process_message's loop; an error leaves the message for redelivery. */
  function Handled(sys: System, h: nat, outcome: StartOutcome): System
    requires h in sys.handlers && sys.handlers[h].next < |sys.handlers[h].events|
    requires sys.keys.Keys == sys.videos.Keys
  {
    var handler := sys.handlers[h];
    var advanced := sys.(handlers := sys.handlers[h := handler.(next := handler.next + 1)]);
    match ResolveVideoId(sys.keys, handler.events[handler.next].key)
    case None => advanced
    case Some(id) =>
      match outcome
      case Accepted => StartVideo(advanced, id)
      case ReplyLost => StartVideo(sys.(handlers := Remove(sys.handlers, h)), id)
      case Unreachable => sys.(handlers := Remove(sys.handlers, h))
  }

  /** delete_message reaches the message wherever it is in the queue, but not a dead letter. */
  function Acknowledged(sys: System, h: nat): System
    requires h in sys.handlers
  {
    var m := sys.handlers[h].message;
    var queue := if m in sys.queue && !sys.queue[m].place.DeadLettered? then Remove(sys.queue, m) else sys.queue;
    sys.(queue := queue, handlers := Remove(sys.handlers, h))
  }

  /** The shim is the only one to start workflows, and a flush sees every other video's rows. */
  ghost predicate EventAllowed(sys: System, id: VideoId, event: Workflow.Event) {
    && !event.Start?
    && (event.Act? && event.move.Count? ==> event.move.taken == KeysOfOthers(sys, id))
  }

  ghost function Do(sys: System, action: Action): Option<System> {
    match action
    case CreateVideo(id, filename) =>
      if id in sys.keys || !ValidFilename(filename) || !IsBytes(filename) then None
      else Some(sys.(keys := sys.keys[id := BuildUploadObjectKey(id, filename)],
                     videos := sys.videos[id := Workflow.NEW_VIDEO]))
    case PutObject(u, body) =>
      if u.id in sys.keys && (u.key == sys.keys[u.id] || u.key == sys.keys[u.id] + BACKSLASH)
         && exists k :: 0 <= k < |ParsedEvents(body)| && ParsedEvents(body)[k].key == u.key
      then Some(Send(sys.(uploads := sys.uploads + {u}), body))
      else None
    case Notify(body) => Some(Send(sys, body))
    case Receive(m) =>
      if m in sys.queue && sys.queue[m].place.Visible? then Some(Received(sys, m)) else None
    case Expire(m) =>
      if m in sys.queue && sys.queue[m].place.InFlight?
      then Some(sys.(queue := sys.queue[m := sys.queue[m].(place := Visible)]))
      else None
    case Handle(h, outcome) =>
      if h in sys.handlers && sys.handlers[h].next < |sys.handlers[h].events| && sys.keys.Keys == sys.videos.Keys
      then Some(Handled(sys, h, outcome))
      else None
    case Abandon(h) =>
      if h in sys.handlers then Some(sys.(handlers := Remove(sys.handlers, h))) else None
    case Acknowledge(h) =>
      if h in sys.handlers && sys.handlers[h].next == |sys.handlers[h].events| then Some(Acknowledged(sys, h)) else None
    case VideoEvent(id, event) =>
      if id !in sys.videos || id !in sys.keys || !EventAllowed(sys, id, event) || !IsBytes(sys.keys[id]) then None
      else
        var next := Workflow.Next(id, sys.videos[id], event);
        if next.None? then None
        else
          var moved := sys.(videos := sys.videos[id := next.value]);
          // retry_video publishes the stored key's event before it commits
          Some(if event.RetrySend? then Send(moved, BuildObjectCreatedMessage(sys.bucket, sys.keys[id])) else moved)
  }

  ghost predicate IsSystemRun(bucket: string, actions: seq<Action>, states: seq<System>) {
    && |states| == |actions| + 1
    && states[0] == NewSystem(bucket)
    && forall k :: 0 <= k < |actions| ==> Do(states[k], actions[k]) == Some(states[k + 1])
  }

  ghost predicate ReachableSystem(sys: System) {
    exists actions, states :: IsSystemRun(sys.bucket, actions, states) && states[|actions|] == sys
  }

  // ---- The invariant ----

  predicate Started(sys: System, id: VideoId) {
    id in sys.videos && sys.videos[id].executions != []
  }

  ghost predicate VideosOk(sys: System) {
    && sys.keys.Keys == sys.videos.Keys
    && (forall id :: id in sys.keys ==> IsBytes(sys.keys[id]) && Workflow.Reachable(id, sys.videos[id]))
    && (forall id :: Started(sys, id) ==> ResolveVideoId(sys.keys, sys.keys[id]) == Some(id))
  }

  /** Whatever a message is about, its events still resolve to; its deliveries are counted. */
  ghost predicate MessageOk(sys: System, m: nat)
    requires m in sys.queue
  {
    var msg := sys.queue[m];
    && m < sys.counter
    && msg.receives <= MAX_RECEIVES && (msg.place.DeadLettered? ==> msg.receives == MAX_RECEIVES)
    && forall id :: id in msg.about ==> Mentions(sys.keys, ParsedEvents(msg.body), |ParsedEvents(msg.body)|, id)
  }

  /** Every video the message is about that the handler has passed has been started. */
  ghost predicate HandlerOk(sys: System, h: nat)
    requires h in sys.handlers
  {
    var handler := sys.handlers[h];
    h < sys.counter && handler.message < sys.counter && handler.next <= |handler.events|
    && (handler.message in sys.queue ==>
          var msg := sys.queue[handler.message];
          handler.events == ParsedEvents(msg.body)
          && forall id :: id in msg.about && Mentions(sys.keys, handler.events, handler.next, id) ==> Started(sys, id))
  }

  /** A recognised upload is started or still on its way. */
  ghost predicate UploadOk(sys: System, u: Original) {
    u.id in sys.keys
    && (ResolveVideoId(sys.keys, u.key) == Some(u.id) ==>
          Started(sys, u.id) || exists m :: m in sys.queue && u.id in sys.queue[m].about)
  }

  ghost predicate SystemOk(sys: System) {
    && VideosOk(sys)
    && (forall m :: m in sys.queue ==> MessageOk(sys, m))
    && (forall h :: h in sys.handlers ==> HandlerOk(sys, h))
    && (forall u :: u in sys.uploads ==> UploadOk(sys, u))
  }
}

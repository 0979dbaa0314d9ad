/** The shim's message loop, run in place on the workflow server and the queue. */
module SqsShim {
  import opened Options
  import opened VideoIds
  import opened UploadKeys
  import opened S3Events
  import opened Rows
  import opened Sessions
  import opened Workflow

  type Executions = map<VideoId, seq<Execution>>

  function Of(executions: Executions, id: VideoId): seq<Execution> {
    if id in executions then executions[id] else []
  }

  /** start_workflow under both ID policies. */
  function AfterStartCall(executions: Executions, id: VideoId): Executions {
    if MayStart(Of(executions, id)) then executions[id := Of(executions, id) + [NEW_EXECUTION]] else executions
  }

  class Server {
    var executions: Executions

    constructor ()
      ensures executions == map[]
    {
      executions := map[];
    }

    /** True is a start, false WorkflowAlreadyStartedError. */
    method StartWorkflow(id: VideoId) returns (started: bool)
      modifies this
      ensures executions == AfterStartCall(old(executions), id)
      ensures started == MayStart(Of(old(executions), id))
    {
      started := MayStart(Of(executions, id));
      if started {
        executions := executions[id := Of(executions, id) + [NEW_EXECUTION]];
      }
    }
  }

  /** The executions once each of the events has been resolved and its workflow started. */
  function AfterEvents(
      executions: Executions, keys: map<VideoId, string>, events: seq<ObjectCreatedEvent>): Executions {
    if events == [] then executions
    else
      var before := AfterEvents(executions, keys, events[..|events| - 1]);
      match ResolveVideoId(keys, events[|events| - 1].key)
      case None => before
      case Some(id) => AfterStartCall(before, id)
  }

  /** How many start calls the events lead to. */
  function StartCalls(keys: map<VideoId, string>, events: seq<ObjectCreatedEvent>): nat {
    if events == [] then 0
    else
      var last := ResolveVideoId(keys, events[|events| - 1].key);
      StartCalls(keys, events[..|events| - 1]) + if last.Some? then 1 else 0
  }

  lemma {:induction false} StartCallsOfPrefix(keys: map<VideoId, string>, events: seq<ObjectCreatedEvent>, k: nat)
    requires k <= |events|
    ensures StartCalls(keys, events[..k]) <= StartCalls(keys, events)
  {
    if k < |events| {
      var front := events[..|events| - 1];
      assert front[..k] == events[..k];
      StartCallsOfPrefix(keys, front, k);
    } else {
      assert events[..k] == events;
    }
  }

  /** process_message. `reachable` is how many start calls reach the server before one raises;
      `done` events were processed, all of them if nothing raised. */
  method ProcessMessage(
      server: Server, keys: map<VideoId, string>, body: Body, reachable: nat)
    returns (ok: bool, done: nat)
    modifies server
    ensures done <= |ParsedEvents(body)| && (ok <==> done == |ParsedEvents(body)|)
    ensures ok <==> StartCalls(keys, ParsedEvents(body)) <= reachable
    ensures server.executions == AfterEvents(old(server.executions), keys, ParsedEvents(body)[..done])
    ensures !ok ==> StartCalls(keys, ParsedEvents(body)[..done]) == reachable
    ensures !ok ==> ResolveVideoId(keys, ParsedEvents(body)[done].key).Some?
  {
    var events := ParseObjectCreatedEvents(body);
    var calls := 0;
    done := 0;
    while done < |events|
      invariant done <= |events|
      invariant server.executions == AfterEvents(old(server.executions), keys, events[..done])
      invariant calls == StartCalls(keys, events[..done]) <= reachable
    {
      assert events[..done + 1][..done] == events[..done];
      var id := ResolveVideoId(keys, events[done].key);
      if id.Some? {
        if calls == reachable {
          StartCallsOfPrefix(keys, events, done + 1);
          ok := false;
          return;
        }
        calls := calls + 1;
        var _ := server.StartWorkflow(id.value);
      }
      done := done + 1;
    }
    assert events[..done] == events;
    ok := true;
  }

  class Queue {
    var messages: map<nat, Body>

    constructor (messages: map<nat, Body>)
      ensures this.messages == messages
    {
      this.messages := messages;
    }

    method DeleteMessage(receipt: nat)
      modifies this
      ensures messages == map m | m in old(messages) && m != receipt :: old(messages)[m]
    {
      messages := map m | m in messages && m != receipt :: messages[m];
    }
  }

  /** _handle_message, for a delivered message that may have been deleted meanwhile: it is deleted
      exactly when every start call reached the server. */
  method HandleMessage(
      queue: Queue, server: Server, keys: map<VideoId, string>, receipt: nat, body: Body, reachable: nat)
    modifies queue, server
    ensures queue.messages ==
      if StartCalls(keys, ParsedEvents(body)) > reachable then old(queue.messages)
      else map m | m in old(queue.messages) && m != receipt :: old(queue.messages)[m]
    ensures StartCalls(keys, ParsedEvents(body)) <= reachable ==>
      && server.executions == AfterEvents(old(server.executions), keys, ParsedEvents(body))
      && forall e, id :: e in ParsedEvents(body) && ResolveVideoId(keys, e.key) == Some(id) ==>
          Of(server.executions, id) != []
    ensures forall id :: Of(old(server.executions), id) <= Of(server.executions, id)
  {
    var ok, done := ProcessMessage(server, keys, body, reachable);
    EventsOnlyAdd(old(server.executions), keys, ParsedEvents(body)[..done]);
    if ok {
      assert ParsedEvents(body)[..done] == ParsedEvents(body);
      EventsStart(old(server.executions), keys, ParsedEvents(body));
      queue.DeleteMessage(receipt);
    }
  }

  // ---- What processing a message means ----

  lemma StartCall(executions: Executions, id: VideoId)
    ensures Of(AfterStartCall(executions, id), id) != []
    ensures !MayStart(Of(AfterStartCall(executions, id), id))
    ensures forall o :: o != id ==> Of(AfterStartCall(executions, id), o) == Of(executions, o)
    ensures Of(executions, id) <= Of(AfterStartCall(executions, id), id)
  {
    var before := Of(executions, id);
    if MayStart(before) {
      assert (before + [NEW_EXECUTION])[|before|].Open();
    }
  }

  lemma {:induction false} EventsOnlyAdd(
      executions: Executions, keys: map<VideoId, string>, events: seq<ObjectCreatedEvent>)
    ensures forall id :: Of(executions, id) <= Of(AfterEvents(executions, keys, events), id)
  {
    if events == [] {
    } else {
      var front := events[..|events| - 1];
      EventsOnlyAdd(executions, keys, front);
      var found := ResolveVideoId(keys, events[|events| - 1].key);
      if found.Some? {
        StartCall(AfterEvents(executions, keys, front), found.value);
      }
    }
  }

  /** After its events are processed, every video a message resolves to has an execution and would
      refuse another start. */
  lemma {:induction false} EventsStart(
      executions: Executions, keys: map<VideoId, string>, events: seq<ObjectCreatedEvent>)
    ensures forall e, id :: e in events && ResolveVideoId(keys, e.key) == Some(id) ==>
      Of(AfterEvents(executions, keys, events), id) != [] && !MayStart(Of(AfterEvents(executions, keys, events), id))
  {
    hide ResolveVideoId, MayStart, AfterStartCall, Of;
    if events == [] {
    } else {
      var front, last := events[..|events| - 1], events[|events| - 1];
      EventsStart(executions, keys, front);
      var before := AfterEvents(executions, keys, front);
      var found := ResolveVideoId(keys, last.key);
      if found.Some? {
        StartCall(before, found.value);
      }
      forall e, id | e in events && ResolveVideoId(keys, e.key) == Some(id)
        ensures Of(AfterEvents(executions, keys, events), id) != [] &&
          !MayStart(Of(AfterEvents(executions, keys, events), id))
      {
        if e != last {
          assert e in front;
        }
      }
    }
  }

  /** Some event is about the video. */
  predicate IsAbout(keys: map<VideoId, string>, events: seq<ObjectCreatedEvent>, id: VideoId) {
    exists e :: e in events && ResolveVideoId(keys, e.key) == Some(id)
  }

  /** Whatever executions there are when a message is delivered, and however often it has been
      delivered before: a video gets one more execution exactly if an event is about it, none of its
      executions is open and the last one, if any, failed. In particular however many have failed. */
  lemma {:induction false} StartedExactly(
      executions: Executions, keys: map<VideoId, string>, events: seq<ObjectCreatedEvent>, id: VideoId)
    ensures Of(AfterEvents(executions, keys, events), id)
         == if IsAbout(keys, events, id)
               && (forall i :: 0 <= i < |Of(executions, id)| ==> !Of(executions, id)[i].Open())
               && (Of(executions, id) != [] ==> Of(executions, id)[|Of(executions, id)| - 1].phase.Failed?)
            then Of(executions, id) + [NEW_EXECUTION]
            else Of(executions, id)
    ensures IsAbout(keys, events, id)
      && (forall i :: 0 <= i < |Of(executions, id)| ==> Of(executions, id)[i].phase.Failed?)
      ==> Of(AfterEvents(executions, keys, events), id) == Of(executions, id) + [NEW_EXECUTION]
  {
    if events == [] {
    } else {
      hide ResolveVideoId, MayStart, IsAbout, Of, AfterStartCall;
      var front, last := events[..|events| - 1], events[|events| - 1];
      var before := AfterEvents(executions, keys, front);
      StartedExactly(executions, keys, front, id);
      AboutLast(keys, events, id);
      if IsAbout(keys, front, id) {
        RefusesAnother(executions, keys, front, id);
      }
      var found := ResolveVideoId(keys, last.key);
      if found.Some? {
        StartedBy(before, found.value, id);
      }
    }
  }

  lemma RefusesAnother(executions: Executions, keys: map<VideoId, string>, events: seq<ObjectCreatedEvent>, id: VideoId)
    requires IsAbout(keys, events, id)
    ensures !MayStart(Of(AfterEvents(executions, keys, events), id))
  {
    hide ResolveVideoId, MayStart, Of, AfterStartCall;
    EventsStart(executions, keys, events);
  }

  lemma StartedBy(executions: Executions, found: VideoId, id: VideoId)
    ensures Of(AfterStartCall(executions, found), id)
         == if found == id && MayStart(Of(executions, id)) then Of(executions, id) + [NEW_EXECUTION]
            else Of(executions, id)
  {
  }

  lemma AboutLast(keys: map<VideoId, string>, events: seq<ObjectCreatedEvent>, id: VideoId)
    requires events != []
    ensures IsAbout(keys, events, id) <==>
      IsAbout(keys, events[..|events| - 1], id) || ResolveVideoId(keys, events[|events| - 1].key) == Some(id)
  {
    hide ResolveVideoId;
    var front, last := events[..|events| - 1], events[|events| - 1];
    assert events == front + [last];
  }

  lemma {:induction false} NothingToStart(
      executions: Executions, keys: map<VideoId, string>, events: seq<ObjectCreatedEvent>)
    requires forall e, id :: e in events && ResolveVideoId(keys, e.key) == Some(id) ==> !MayStart(Of(executions, id))
    ensures AfterEvents(executions, keys, events) == executions
  {
    if events == [] {
    } else {
      var front := events[..|events| - 1];
      NothingToStart(executions, keys, front);
      assert events[|events| - 1] in events;
    }
  }

  /** Delivering a message again before any execution closes changes nothing. */
  lemma DuplicateDelivery(executions: Executions, keys: map<VideoId, string>, events: seq<ObjectCreatedEvent>)
    ensures var once := AfterEvents(executions, keys, events); AfterEvents(once, keys, events) == once
  {
    EventsStart(executions, keys, events);
    NothingToStart(AfterEvents(executions, keys, events), keys, events);
  }

  /** Finishing a delivery that broke off equals one that did not. */
  lemma {:induction false} ResumedDelivery(
      executions: Executions, keys: map<VideoId, string>, events: seq<ObjectCreatedEvent>, done: nat)
    requires done <= |events|
    ensures AfterEvents(AfterEvents(executions, keys, events[..done]), keys, events)
      == AfterEvents(executions, keys, events)
    decreases |events|
  {
    if done == |events| {
      assert events[..done] == events;
      DuplicateDelivery(executions, keys, events);
    } else {
      var front := events[..|events| - 1];
      assert front[..done] == events[..done];
      ResumedDelivery(executions, keys, front, done);
    }
  }

  /** The server's start is the protocol's: a video's executions after the call are those of the
      video after a Start event. */
  lemma StartIsTheProtocols(executions: Executions, id: VideoId, v: Video)
    requires v.executions == Of(executions, id)
    ensures Next(id, v, Start).value.executions == Of(AfterStartCall(executions, id), id)
  {
  }
}

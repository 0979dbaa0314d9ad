/** The order inside a retry call: it reads `failed`, then sends, then commits, each at most once. */
module RetryCalls {
  import opened Options
  import opened VideoIds
  import opened Rows
  import opened Sessions
  import opened Workflow

  ghost predicate Happened(events: seq<Event>, k: nat, event: Event)
    requires k <= |events|
  {
    exists l :: 0 <= l < k && events[l] == event
  }

  /** One of the first k events is the check that became retry call c, on a video that reads
      `failed`. */
  ghost predicate CheckedBefore(events: seq<Event>, states: seq<Video>, k: nat, c: nat)
    requires k <= |events| && |states| == |events| + 1
  {
    exists l :: 0 <= l < k && IsCheck(events[l], states[l], c)
  }

  predicate IsCheck(event: Event, state: Video, c: nat) {
    event.RetryCheck? && |state.retries| == c && state.store.video.status.Failed?
  }

  /** What the first k events say of retry call c. */
  ghost predicate CallOk(events: seq<Event>, states: seq<Video>, k: nat, c: nat)
    requires k <= |events| && |states| == |events| + 1
  {
    var calls := states[k].retries;
    && (c >= |calls| || calls[c].Checked? ==> !Happened(events, k, RetrySend(c)))
    && (c >= |calls| || !calls[c].Answered? ==> !Happened(events, k, RetryCommit(c)))
    && (c < |calls| ==> CheckedBefore(events, states, k, c))
    && (c < |calls| && !calls[c].Checked? ==> Happened(events, k, RetrySend(c)))
  }

  lemma HappenedNext(events: seq<Event>, k: nat, event: Event)
    requires k < |events|
    ensures Happened(events, k + 1, event) <==> Happened(events, k, event) || events[k] == event
  {
    if Happened(events, k, event) {
      var l :| 0 <= l < k && events[l] == event;
      assert events[l] == event;
    }
  }

  lemma CheckedNext(events: seq<Event>, states: seq<Video>, k: nat, c: nat)
    requires k < |events| && |states| == |events| + 1
    requires CheckedBefore(events, states, k, c) || IsCheck(events[k], states[k], c)
    ensures CheckedBefore(events, states, k + 1, c)
  {
    if CheckedBefore(events, states, k, c) {
      var l :| 0 <= l < k && IsCheck(events[l], states[l], c);
      assert IsCheck(events[l], states[l], c);
    }
  }

  /** How one event moves the calls. */
  lemma CallsAfter(id: VideoId, v: Video, event: Event, v': Video)
    requires Next(id, v, event) == Some(v')
    ensures event.RetryCheck? ==> v'.retries == v.retries + [Checked] && v.store.video.status.Failed?
    ensures event.RetrySend? ==>
      event.k < |v.retries| && v.retries[event.k] == Checked && v'.retries == v.retries[event.k := Sent]
    ensures event.RetryCommit? ==>
      event.k < |v.retries| && v.retries[event.k] == Sent && v'.retries == v.retries[event.k := Answered]
    ensures !event.RetryCheck? && !event.RetrySend? && !event.RetryCommit? ==> v'.retries == v.retries
  {
  }

  lemma CallStep(id: VideoId, events: seq<Event>, states: seq<Video>, k: nat, c: nat)
    requires k < |events| && |states| == |events| + 1 && Next(id, states[k], events[k]) == Some(states[k + 1])
    requires CallOk(events, states, k, c)
    ensures CallOk(events, states, k + 1, c)
  {
    hide Next, Happened, CheckedBefore;
    CallsAfter(id, states[k], events[k], states[k + 1]);
    HappenedNext(events, k, RetrySend(c));
    HappenedNext(events, k, RetryCommit(c));
    if c < |states[k + 1].retries| {
      CheckedNext(events, states, k, c);
    }
  }

  lemma {:induction false} CallsOk(id: VideoId, events: seq<Event>, states: seq<Video>, k: nat, c: nat)
    requires IsRun(id, NEW_VIDEO, events, states) && k <= |events|
    ensures CallOk(events, states, k, c)
  {
    hide Next;
    if k == 0 {
    } else {
      hide CallOk;
      CallsOk(id, events, states, k - 1, c);
      CallStep(id, events, states, k - 1, c);
    }
  }

  /** A message is sent only for a call that read `failed` before, and once; its status change is
      committed only after that message was sent, and once. */
  lemma RetryCallOrder(id: VideoId, events: seq<Event>, states: seq<Video>, k: nat, c: nat)
    requires IsRun(id, NEW_VIDEO, events, states) && k < |events|
    ensures events[k] == RetrySend(c) ==> CheckedBefore(events, states, k, c) && !Happened(events, k, RetrySend(c))
    ensures events[k] == RetryCommit(c) ==> Happened(events, k, RetrySend(c)) && !Happened(events, k, RetryCommit(c))
  {
    hide Next, Happened, CheckedBefore;
    CallsOk(id, events, states, k, c);
    CallsAfter(id, states[k], events[k], states[k + 1]);
  }
}

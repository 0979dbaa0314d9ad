/** Which events write `videos.status`, and what. */
module StatusWrites {
  import opened Options
  import opened VideoIds
  import opened Rows
  import opened Sessions
  import opened SessionInvariant
  import opened Workflow
  import opened WorkflowInvariant

  /** The status a move writes. A claim whose cached row already reads `processing` writes none. */
  function WrittenByMove(j: JobType, move: Move, pc: Pc): Option<VideoStatus> {
    match (move, pc)
    case (Claim, Found(v, job)) =>
      if job.status.Completed? || v.status == VideoStatus.Processing then None else Some(VideoStatus.Processing)
    case (Fail, Working(_, _, _)) => Some(VideoStatus.Failed)
    case (Commit, Counted(_, _, _, _)) => if j == Transcode then Some(VideoStatus.Completed) else None
    case _ => None
  }

  function Written(v: Video, event: Event): Option<VideoStatus> {
    match event
    case Act(i, j, move) =>
      if i < |v.executions| && v.executions[i].activities.Get(j).state.Live?
      then WrittenByMove(j, move, v.executions[i].activities.Get(j).state.pc)
      else None
    case RetryCommit(_) => Some(VideoStatus.Processing)
    case _ => None
  }

  function Apply(written: Option<VideoStatus>, status: VideoStatus): VideoStatus {
    if written.Some? then written.value else status
  }

  lemma LiveAttemptOk(id: VideoId, v: Video, i: nat, j: JobType)
    requires Inv(id, v) && i < |v.executions| && v.executions[i].activities.Get(j).state.Live?
    ensures Scheduled(v, i, j) && i == |v.executions| - 1
    ensures var e := v.executions[i];
      LiveOk(Plan(id, j, e.Height()), j, e.Height(), e.activities.Get(j).state.pc, v.store)
  {
    var e := v.executions[i];
    assert ExecutionOk(e);
    assert e.Schedules(j);
    OpenIsLast(v, i);
    assert StateOk(Plan(id, j, e.Height()), j, e.Height(), e.activities.Get(j).state, v.store);
  }

  lemma MoveWrites(id: VideoId, plan: seq<Asset>, j: JobType, h: int, move: Move, pc: Pc, st: Store, p: Progress)
    requires plan == Plan(id, j, h)
    requires StoreOk(id, st) && LiveOk(plan, j, h, pc, st)
    requires Advance(plan, j, h, move, pc, st) == Some(p)
    ensures p.store.video.status == Apply(WrittenByMove(j, move, pc), st.video.status)
    ensures p.store.Done(Transcode) ==> st.Done(Transcode) || WrittenByMove(j, move, pc) == Some(VideoStatus.Completed)
    ensures st.Done(j) ==> WrittenByMove(j, move, pc) == None
  {
    hide Plan, AssetsOk, MetadataOk, UploadsOk, FlushAllowed, Put;
    match pc
    case Found(v, job) =>
      assert !job.status.Completed? ==> !v.status.Completed?;
    case Working(v, job, up) =>
      if move.Fail? {
        FailKeeps(id, plan, j, h, v, job, up, st);
      }
    case Counted(c, edits, adds, n) => CommitKeeps(id, plan, j, h, c, edits, adds, n, st);
    case _ =>
  }

  /** `Written` is exact, `completed` and the transcode job come together, and after that only a
      retry call's commit writes the status. */
  lemma EventWrites(id: VideoId, v: Video, event: Event, v': Video)
    requires Inv(id, v) && Next(id, v, event) == Some(v')
    ensures v'.store.video.status == Apply(Written(v, event), v.store.video.status)
    ensures v'.store.Done(Transcode) ==> v.store.Done(Transcode) || Written(v, event) == Some(VideoStatus.Completed)
    ensures v.store.Done(Transcode) && !event.RetryCommit? ==> Written(v, event) == None
  {
    if event.Act? {
      var e := v.executions[event.i];
      var h, pc := e.Height(), e.activities.Get(event.j).state.pc;
      LiveAttemptOk(id, v, event.i, event.j);
      MoveWrites(id, Plan(id, event.j, h), event.j, h, event.move, pc, v.store,
        Advance(Plan(id, event.j, h), event.j, h, event.move, pc, v.store).value);
    }
  }
}

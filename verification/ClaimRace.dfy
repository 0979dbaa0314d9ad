/** claim_job raced by any number of sessions, for any videos and job types, without assuming that
    attempts of one activity never overlap. The table is a list of rows with a unique constraint;
    a row's position stands for its primary key. */
module ClaimRace {
  import opened Options
  import opened VideoIds
  import opened Rows
  import opened Sessions

  datatype Row = Row(id: VideoId, jobType: JobType, job: JobRow)

  /** Where a session is inside claim_job; `at` is the primary key of the row it caches. */
  datatype Stage =
    | Selecting
    | Missing                     // the select found nothing
    | Rejected                    // the insert hit the constraint
    | Holding(at: nat, job: JobRow)
    | Claimed(at: nat)
    | NotClaimed(at: nat)         // returned None: completed already
    | Unreadable                  // reading the video's row after the rollback raised
    | Broken                      // several rows, or none on the reread

  datatype Claimer = Claimer(id: VideoId, jobType: JobType, stage: Stage)

  datatype Race = Race(rows: seq<Row>, claimers: seq<Claimer>)

  predicate Matches(row: Row, c: Claimer) {
    row.id == c.id && row.jobType == c.jobType
  }

  function MatchesIn(rows: seq<Row>, c: Claimer): seq<nat> {
    if rows == [] then []
    else MatchesIn(rows[..|rows| - 1], c) + if Matches(rows[|rows| - 1], c) then [|rows| - 1] else []
  }

  datatype Turn =
    | Join(id: VideoId, jobType: JobType)            // one more claim_job call
    | Select(s: nat) | Insert(s: nat) | Reread(s: nat) | Decide(s: nat)
    | Expire(s: nat)                                 // the rollback expired the video's row
    | Other(at: nat, job: JobRow)                    // any other commit on a row

  /** scalar_one_or_none, with what no row leads to. */
  function Looked(rows: seq<Row>, c: Claimer, none: Stage): Stage {
    var found := MatchesIn(rows, c);
    if found == [] then none
    else if |found| == 1 && found[0] < |rows| then Holding(found[0], rows[found[0]].job)
    else Broken
  }

  function WithStage(r: Race, s: nat, stage: Stage): Race
    requires s < |r.claimers|
  {
    r.(claimers := r.claimers[s := r.claimers[s].(stage := stage)])
  }

  function Turned(r: Race, turn: Turn): Option<Race> {
    match turn
    case Join(id, j) => Some(r.(claimers := r.claimers + [Claimer(id, j, Selecting)]))
    case Other(at, job) =>
      if at < |r.rows| then Some(r.(rows := r.rows[at := r.rows[at].(job := job)])) else None
    case Select(s) =>
      if s < |r.claimers| && r.claimers[s].stage.Selecting?
      then Some(WithStage(r, s, Looked(r.rows, r.claimers[s], Missing))) else None
    case Insert(s) =>
      if s >= |r.claimers| || !r.claimers[s].stage.Missing? then None
      else
        var c := r.claimers[s];
        if MatchesIn(r.rows, c) != [] then Some(WithStage(r, s, Rejected))
        else
          var job := JobRow(JobStatus.Pending, 0);
          Some(WithStage(r.(rows := r.rows + [Row(c.id, c.jobType, job)]), s, Holding(|r.rows|, job)))
    case Reread(s) =>
      if s < |r.claimers| && r.claimers[s].stage.Rejected?
      then Some(WithStage(r, s, Looked(r.rows, r.claimers[s], Broken))) else None
    case Expire(s) =>
      if s < |r.claimers| && r.claimers[s].stage.Rejected? then Some(WithStage(r, s, Unreadable)) else None
    case Decide(s) =>
      if s >= |r.claimers| || !r.claimers[s].stage.Holding? then None
      else
        var at, job := r.claimers[s].stage.at, r.claimers[s].stage.job;
        if job.status.Completed? then Some(WithStage(r, s, NotClaimed(at)))
        else if at >= |r.rows| then Some(WithStage(r, s, Broken))
        else
          var saved := UpdateJob(Some(r.rows[at].job), job, ClaimedJob(job)).value;
          Some(WithStage(r.(rows := r.rows[at := r.rows[at].(job := saved)]), s, Claimed(at)))
  }

  ghost predicate IsRace(turns: seq<Turn>, states: seq<Race>) {
    && |states| == |turns| + 1
    && states[0] == Race([], [])
    && forall k :: 0 <= k < |turns| ==> Turned(states[k], turns[k]) == Some(states[k + 1])
  }

  // ---- The invariant ----

  ghost predicate Unique(rows: seq<Row>) {
    forall i, k :: 0 <= i < k < |rows| ==> rows[i].id != rows[k].id || rows[i].jobType != rows[k].jobType
  }

  ghost predicate HasRow(rows: seq<Row>, c: Claimer, at: nat) {
    at < |rows| && Matches(rows[at], c)
  }

  ghost predicate ClaimerOk(rows: seq<Row>, c: Claimer) {
    match c.stage
    case Selecting => true
    case Missing => true
    case Rejected => exists at :: HasRow(rows, c, at)
    case Holding(at, _) => HasRow(rows, c, at)
    case Claimed(at) => HasRow(rows, c, at)
    case NotClaimed(at) => HasRow(rows, c, at)
    case Unreadable => exists at :: HasRow(rows, c, at)
    case Broken => false
  }

  ghost predicate RaceOk(r: Race) {
    Unique(r.rows) && forall s :: 0 <= s < |r.claimers| ==> ClaimerOk(r.rows, r.claimers[s])
  }

  lemma {:induction false} MatchesFound(rows: seq<Row>, c: Claimer)
    ensures MatchesIn(rows, c) == [] <==> forall at :: 0 <= at < |rows| ==> !Matches(rows[at], c)
    ensures forall i :: 0 <= i < |MatchesIn(rows, c)| ==> HasRow(rows, c, MatchesIn(rows, c)[i])
    ensures Unique(rows) ==> |MatchesIn(rows, c)| <= 1
  {
    if rows == [] {
    } else {
      var front, n := rows[..|rows| - 1], |rows| - 1;
      MatchesFound(front, c);
      assert forall at :: 0 <= at < n ==> front[at] == rows[at];
      if MatchesIn(front, c) != [] {
        assert HasRow(front, c, MatchesIn(front, c)[0]);
        if Matches(rows[n], c) {
          assert rows[MatchesIn(front, c)[0]].id == rows[n].id;
        }
      }
    }
  }

  /** Rows keep their identity while their jobs change and new rows are added. */
  ghost predicate RowsKept(rows: seq<Row>, rows': seq<Row>) {
    |rows| <= |rows'| && forall at :: 0 <= at < |rows| ==>
      rows'[at].id == rows[at].id && rows'[at].jobType == rows[at].jobType
  }

  lemma ClaimerStays(rows: seq<Row>, rows': seq<Row>, c: Claimer)
    requires ClaimerOk(rows, c) && RowsKept(rows, rows')
    ensures ClaimerOk(rows', c)
  {
    if c.stage.Rejected? || c.stage.Unreadable? {
      var at: nat :| HasRow(rows, c, at);
      assert HasRow(rows', c, at);
    }
  }

  lemma StageKeeps(r: Race, rows: seq<Row>, s: nat, stage: Stage)
    requires RaceOk(r) && s < |r.claimers| && RowsKept(r.rows, rows) && Unique(rows)
    requires ClaimerOk(rows, r.claimers[s].(stage := stage))
    ensures RaceOk(WithStage(r.(rows := rows), s, stage))
  {
    var r' := WithStage(r.(rows := rows), s, stage);
    forall i | 0 <= i < |r'.claimers| ensures ClaimerOk(rows, r'.claimers[i]) {
      if i != s {
        ClaimerStays(r.rows, rows, r.claimers[i]);
      }
    }
  }

  lemma LookKeeps(r: Race, s: nat, none: Stage)
    requires RaceOk(r) && s < |r.claimers|
    requires none.Missing? || ClaimerOk(r.rows, r.claimers[s].(stage := Rejected))
    ensures RaceOk(WithStage(r, s, Looked(r.rows, r.claimers[s], none)))
  {
    var c := r.claimers[s];
    MatchesFound(r.rows, c);
    var found := MatchesIn(r.rows, c);
    if !none.Missing? {
      var at: nat :| HasRow(r.rows, c.(stage := Rejected), at);
      assert Matches(r.rows[at], c);
    }
    if found != [] {
      assert HasRow(r.rows, c, found[0]);
    }
    StageKeeps(r, r.rows, s, Looked(r.rows, c, none));
    assert r.(rows := r.rows) == r;
  }

  lemma InsertKeeps(r: Race, s: nat, r': Race)
    requires RaceOk(r) && Turned(r, Turn.Insert(s)) == Some(r')
    ensures RaceOk(r')
  {
    var c := r.claimers[s];
    MatchesFound(r.rows, c);
    if MatchesIn(r.rows, c) != [] {
      assert HasRow(r.rows, c.(stage := Rejected), MatchesIn(r.rows, c)[0]);
      StageKeeps(r, r.rows, s, Rejected);
    } else {
      var job := JobRow(JobStatus.Pending, 0);
      StageKeeps(r, r.rows + [Row(c.id, c.jobType, job)], s, Holding(|r.rows|, job));
    }
  }

  lemma DecideKeeps(r: Race, s: nat, r': Race)
    requires RaceOk(r) && Turned(r, Decide(s)) == Some(r')
    ensures RaceOk(r')
  {
    var c := r.claimers[s];
    assert ClaimerOk(r.rows, c);
    StageKeeps(r, r'.rows, s, r'.claimers[s].stage);
  }

  lemma TurnKeeps(r: Race, turn: Turn, r': Race)
    requires RaceOk(r) && Turned(r, turn) == Some(r')
    ensures RaceOk(r') && RowsKept(r.rows, r'.rows)
  {
    match turn
    case Join(_, _) =>
    case Other(at, job) =>
      forall i | 0 <= i < |r'.claimers| ensures ClaimerOk(r'.rows, r'.claimers[i]) {
        ClaimerStays(r.rows, r'.rows, r.claimers[i]);
      }
    case Select(s) => LookKeeps(r, s, Missing);
    case Insert(s) => InsertKeeps(r, s, r');
    case Reread(s) =>
      assert ClaimerOk(r.rows, r.claimers[s]);
      LookKeeps(r, s, Broken);
    case Expire(s) =>
      assert ClaimerOk(r.rows, r.claimers[s]);
      var at: nat :| HasRow(r.rows, r.claimers[s], at);
      assert HasRow(r.rows, r.claimers[s].(stage := Unreadable), at);
      StageKeeps(r, r.rows, s, Unreadable);
      assert r.(rows := r.rows) == r;
    case Decide(s) => DecideKeeps(r, s, r');
  }

  /** What the two committing turns write, and where: an insert appends one pending row, a claim
      sets the status and the attempts of the one row the session holds. */
  lemma TurnWrites(r: Race, s: nat, r': Race)
    requires RaceOk(r) && s < |r.claimers|
    ensures Turned(r, Turn.Insert(s)) == Some(r') ==>
      var c := r.claimers[s];
      if r'.claimers[s].stage.Rejected? then r'.rows == r.rows && MatchesIn(r.rows, c) != []
      else r'.rows == r.rows + [Row(c.id, c.jobType, JobRow(JobStatus.Pending, 0))]
    ensures forall id, j :: Turned(r, Join(id, j)) == Some(r.(claimers := r.claimers + [Claimer(id, j, Selecting)]))
    ensures Turned(r, Decide(s)) == Some(r') ==>
      var stage := r.claimers[s].stage;
      && stage.Holding? && stage.at < |r.rows| == |r'.rows|
      && (forall i :: 0 <= i < |r.rows| && i != stage.at ==> r'.rows[i] == r.rows[i])
      && (stage.job.status.Completed? ==> r'.rows == r.rows && r'.claimers[s].stage == NotClaimed(stage.at))
      && (!stage.job.status.Completed? ==>
            && r'.claimers[s].stage == Claimed(stage.at)
            && (r.rows[stage.at].job == stage.job ==>
                  r'.rows[stage.at].job == JobRow(JobStatus.Processing, stage.job.attempts + 1)))
  {
    assert ClaimerOk(r.rows, r.claimers[s]);
  }

  lemma {:induction false} RaceKeeps(turns: seq<Turn>, states: seq<Race>, k: nat)
    requires IsRace(turns, states) && k <= |turns|
    ensures RaceOk(states[k])
  {
    if k == 0 {
    } else {
      RaceKeeps(turns, states, k - 1);
      TurnKeeps(states[k - 1], turns[k - 1], states[k]);
    }
  }

  /** However the calls interleave: no lookup finds several rows and no reread finds none, whether or
      not the video's row can still be read after the rollback; past its lookup or insert a session's
      video and job type have exactly one row, and the session holds that row or, if that read
      raised, nothing. */
  lemma OneRowPerJob(turns: seq<Turn>, states: seq<Race>, k: nat, s: nat)
    requires IsRace(turns, states) && k <= |turns| && s < |states[k].claimers|
    ensures var r := states[k]; var c := r.claimers[s];
      && !c.stage.Broken?
      && |MatchesIn(r.rows, c)| <= 1
      && (!c.stage.Selecting? && !c.stage.Missing? ==> |MatchesIn(r.rows, c)| == 1)
      && ((c.stage.Holding? || c.stage.Claimed? || c.stage.NotClaimed?) ==> MatchesIn(r.rows, c) == [c.stage.at])
  {
    RaceKeeps(turns, states, k);
    var r := states[k];
    var c := r.claimers[s];
    assert ClaimerOk(r.rows, c);
    MatchesFound(r.rows, c);
    if c.stage.Rejected? || c.stage.Unreadable? {
      var at: nat :| HasRow(r.rows, c, at);
    }
    if c.stage.Holding? || c.stage.Claimed? || c.stage.NotClaimed? {
      var found := MatchesIn(r.rows, c)[0];
      assert HasRow(r.rows, c, found) && HasRow(r.rows, c, c.stage.at);
      assert found == c.stage.at;
    }
  }
}

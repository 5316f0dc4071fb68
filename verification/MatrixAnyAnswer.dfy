/** Runs in which workers may also answer a chunk with node information. */
module MatrixAnyAnswer {
  import opened Core
  import opened Executor
  import opened MatrixModel
  import opened MatrixInvariant
  import opened MatrixRuns
  import opened MatrixTheorems

  /** What is assumed of a turn: a remote worker may answer anything, and an honest checksum if it sends one. */
  ghost predicate Plausible(s: Coordinator, turn: Turn) {
    || Admissible(s, turn)
    || (turn.event.ReplyArrives? && turn.event.reply.NodeInfoReply?
        && (turn.event.request in s.flights ==> s.flights[turn.event.request].worker.Remote?))
  }

  ghost predicate PlausibleRun(turns: seq<Turn>) {
    turns == [] || (PlausibleRun(Init(turns)) && Plausible(Run(INITIAL, Init(turns)), Last(turns)))
  }

  /** The turn as a coordinator sees it that keeps the record of a request until its job is told about it. */
  function Heard(s: Coordinator, turn: Turn): Turn {
    match turn.event
    case ReplyArrives(r, reply) => if r in s.flights && !reply.NodeInfoReply? then turn else turn.(event := Tick)
    case RequestFails(r) => if r in s.flights then turn else turn.(event := Tick)
    case _ => turn
  }

  function HeardAll(turns: seq<Turn>): (heard: seq<Turn>)
    ensures |heard| == |turns|
  {
    if turns == [] then [] else HeardAll(Init(turns)) + [Heard(Run(INITIAL, Init(turns)), Last(turns))]
  }

  /** Equal but for the records of requests whose answers the jobs were never told about. */
  ghost predicate Alike(s: Coordinator, t: Coordinator) {
    && s == t.(flights := s.flights)
    && forall r | r in s.flights :: r in t.flights && t.flights[r] == s.flights[r]
  }

  lemma StartAlike(s: Coordinator, t: Coordinator, size: U16, chunkRows: U16, workers: seq<Worker>)
    requires Alike(s, t)
    ensures Alike(Start(s, size, chunkRows, workers), Start(t, size, chunkRows, workers))
  {
    hide Plan;
  }

  lemma CompleteAlike(s: Coordinator, t: Coordinator, id: JobId, worker: Worker, chunk: Option<ChunkPlan>, reply: Reply)
    requires Alike(s, t)
    ensures Alike(CompleteChunk(s, id, worker, chunk, reply), CompleteChunk(t, id, worker, chunk, reply))
  {
    hide Accepts, WithResult, RetryChunk;
    if chunk.Some? {
      RetryAlike(s, t, id, worker, chunk.value);
    }
  }

  lemma RetryAlike(s: Coordinator, t: Coordinator, id: JobId, worker: Worker, chunk: ChunkPlan)
    requires Alike(s, t)
    ensures Alike(RetryChunk(s, id, worker, chunk), RetryChunk(t, id, worker, chunk))
  {
    hide Requeued;
  }

  /** A request on both records is the same on both, and taking it out of one or both keeps them alike. */
  lemma RecordsAlike(s: Coordinator, t: Coordinator, r: RequestId)
    requires Alike(s, t)
    ensures r in s.flights ==> r in t.flights && t.flights[r] == s.flights[r]
    ensures Alike(s.(flights := s.flights - {r}), t)
    ensures Alike(s.(flights := s.flights - {r}), t.(flights := t.flights - {r}))
  {
  }

  lemma HandleAlike(s: Coordinator, t: Coordinator, turn: Turn)
    requires Alike(s, t)
    ensures Alike(Handle(s, turn.event), Handle(t, Heard(s, turn).event))
  {
    hide Start, CompleteChunk, RetryChunk, Alike;
    match turn.event
    case StartJob(size, chunkRows, workers) => StartAlike(s, t, size, chunkRows, workers);
    case ReplyArrives(r, reply) =>
      RecordsAlike(s, t, r);
      if r in s.flights && !reply.NodeInfoReply? {
        var f := s.flights[r];
        CompleteAlike(s.(flights := s.flights - {r}), t.(flights := t.flights - {r}), f.job, f.worker,
          if f.worker.Local? then None else Some(f.chunk), reply);
      }
    case RequestFails(r) =>
      RecordsAlike(s, t, r);
      if r in s.flights {
        var f := s.flights[r];
        RetryAlike(s.(flights := s.flights - {r}), t.(flights := t.flights - {r}), f.job, f.worker, f.chunk);
      }
    case Tick =>
  }

  lemma {:induction false} LaunchedAlike(
      x: map<RequestId, Flight>, y: map<RequestId, Flight>, next: RequestId, taken: seq<Flight>)
    requires forall r | r in x :: r in y && y[r] == x[r]
    ensures forall r | r in Launched(x, next, taken) ::
      r in Launched(y, next, taken) && Launched(y, next, taken)[r] == Launched(x, next, taken)[r]
  {
    if taken != [] {
      LaunchedAlike(x, y, next, taken[..|taken| - 1]);
    }
  }

  lemma StepAlike(s: Coordinator, t: Coordinator, turn: Turn)
    requires Alike(s, t)
    ensures Alike(Step(s, turn), Step(t, Heard(s, turn)))
  {
    hide Handle, Harvest, StuckReports, GivenUp, Take, Launched;
    HandleAlike(s, t, turn);
    var u, v := Handle(s, turn.event), Handle(t, Heard(s, turn).event);
    LaunchedAlike(u.flights, v.flights, u.nextRequest, Harvest(u.jobs, u.nextJob, turn.resources));
  }

  lemma HeardAdmissible(s: Coordinator, t: Coordinator, turn: Turn)
    requires Alike(s, t) && Plausible(s, turn)
    ensures Admissible(t, Heard(s, turn))
  {
    hide Selection, Executed;
  }

  /** A run is alike the run that its coordinator heard of, and that one has expected answers only. */
  lemma {:induction false} RunAlike(turns: seq<Turn>)
    requires PlausibleRun(turns)
    ensures Alike(Run(INITIAL, turns), Run(INITIAL, HeardAll(turns)))
    ensures AdmissibleRun(INITIAL, HeardAll(turns))
  {
    hide Alike, Step, Heard, Admissible, Plausible;
    if turns == [] {
      assert Alike(INITIAL, INITIAL) by {
        AlikeItself(INITIAL);
      }
    } else {
      RunAlike(Init(turns));
      var s, t, heard := Run(INITIAL, Init(turns)), Run(INITIAL, HeardAll(Init(turns))), HeardAll(turns);
      assert heard[..|heard| - 1] == HeardAll(Init(turns)) && heard[|heard| - 1] == Heard(s, Last(turns));
      HeardAdmissible(s, t, Last(turns));
      StepAlike(s, t, Last(turns));
    }
  }

  lemma AlikeItself(s: Coordinator)
    ensures Alike(s, s)
  {
  }

  lemma {:induction false} HeardPrefix(turns: seq<Turn>, n: nat)
    requires n <= |turns|
    ensures HeardAll(turns)[..n] == HeardAll(turns[..n])
    ensures n < |turns| ==> HeardAll(turns)[n] == Heard(Run(INITIAL, turns[..n]), turns[n])
    decreases |turns|
  {
    hide Heard;
    if n < |turns| {
      HeardPrefix(Init(turns), n);
      assert Init(turns)[..n] == turns[..n];
      if n == |turns| - 1 {
        assert turns[..n] == Init(turns);
      }
    } else {
      assert turns[..n] == turns && HeardAll(turns)[..n] == HeardAll(turns);
    }
  }

  lemma {:induction false} PlausiblePrefix(turns: seq<Turn>, n: nat)
    requires PlausibleRun(turns) && n <= |turns|
    ensures PlausibleRun(turns[..n])
    decreases |turns|
  {
    hide Plausible;
    if n == |turns| {
      assert turns[..n] == turns;
    } else {
      PlausiblePrefix(Init(turns), n);
      assert Init(turns)[..n] == turns[..n];
    }
  }

  /** Whatever the workers answer, in whatever order, with any failures and retries and any other jobs beside it: if
      a job is reported as finished, the report carries the size that was asked for, the number of planned chunks,
      and the checksum of the whole matrix. */
  lemma FinishedJobIsTheWholeMatrix(before: seq<Turn>, start: Turn, after: seq<Turn>, report: Report)
    requires PlausibleRun(before + [start] + after)
    requires start.event.StartJob? && ValidPlan(start.event.size, start.event.chunkRows)
    requires report.Finished? && report.job == Run(INITIAL, before).nextJob
    requires report in Run(INITIAL, before + [start] + after).reports
    ensures report.size == start.event.size
    ensures report.chunks == TotalChunks(start.event.size, start.event.chunkRows)
    ensures report.checksum == ChunkChecksum(start.event.size, 0, start.event.size)
  {
    hide ChunkChecksum, TotalChunks, Run, PlausibleRun, HeardAll, AdmissibleRun;
    var turns, n := before + [start] + after, |before|;
    var heard := HeardAll(turns);
    assert turns[..n] == before && turns[n] == start;
    HeardPrefix(turns, n);
    PlausiblePrefix(turns, n);
    RunAlike(before);
    RunAlike(turns);
    assert heard == HeardAll(before) + [start] + heard[n + 1..];
    MatrixTheorems.FinishedJobIsTheWholeMatrix(HeardAll(before), start, heard[n + 1..], report);
  }

  /** Whatever the workers answer, every numbered job is live or has exactly one report. */
  lemma EveryJobIsLiveOrReportedOnce(turns: seq<Turn>)
    requires PlausibleRun(turns)
    ensures ReportsOk(Run(INITIAL, turns))
  {
    hide Run, PlausibleRun, HeardAll, AdmissibleRun;
    RunAlike(turns);
    MatrixTheorems.EveryJobIsLiveOrReportedOnce(HeardAll(turns));
  }

  /** Whatever the workers answer, the chunks of a live job are the disjoint union of pending ones, completed ones and
      those that some worker was sent and the job was not told about; its counters are the true counts of these; a
      worker holds at most one chunk of it; and all attempts of a chunk went to different workers, at most three. */
  lemma ChunksAreConserved(turns: seq<Turn>, id: JobId)
    requires PlausibleRun(turns) && id in Run(INITIAL, turns).jobs
    ensures var t := TracedRun(HeardAll(turns));
      && id in t.traces && id in t.now.jobs && t.now.jobs[id] == Run(INITIAL, turns).jobs[id]
      && JobOk(id, LiveJob(t, id)) && Bounded(t.traces[id])
      && Air(Run(INITIAL, turns).flights, id) <= LiveJob(t, id).air
  {
    hide Run, PlausibleRun, HeardAll, AdmissibleRun, JobOk, Bounded, ReportsOk, FlightsOk, TrueReport;
    RunAlike(turns);
    RunKeeps(HeardAll(turns));
  }
}

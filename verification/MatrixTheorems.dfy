/** What holds over whole runs of the distributed-matrix coordinator. */
module MatrixTheorems {
  import opened Core
  import opened Executor
  import opened MatrixModel
  import opened MatrixInvariant
  import opened MatrixDispatch
  import opened MatrixRuns

  ghost function TracedRun(turns: seq<Turn>): Traced {
    if turns == [] then Traced(INITIAL, map[])
    else TracedStep(TracedRun(turns[..|turns| - 1]), turns[|turns| - 1])
  }

  /** The invariant holds after every admissible run from the empty coordinator. */
  lemma {:induction false} RunKeeps(turns: seq<Turn>)
    requires AdmissibleRun(INITIAL, turns)
    ensures Inv(TracedRun(turns)) && Quiet(TracedRun(turns).now)
    ensures TracedRun(turns).now == Run(INITIAL, turns)
  {
    if turns == [] {
      assert Reported([]) == {};
    } else {
      hide Inv, Quiet, Admissible;
      RunKeeps(turns[..|turns| - 1]);
      StepKeeps(TracedRun(turns[..|turns| - 1]), turns[|turns| - 1]);
    }
  }

  // ---------- A reported success is the whole matrix that was asked for ----------

  ghost function TracedFrom(t: Traced, turns: seq<Turn>): Traced {
    if turns == [] then t else TracedStep(TracedFrom(t, turns[..|turns| - 1]), turns[|turns| - 1])
  }

  /** A plan is written down when its job starts, and never changes. */
  ghost predicate PlanStaysAs(t: Traced, u: Traced, id: JobId) {
    && id < u.now.nextJob
    && (id in u.traces <==> id in t.traces)
    && (id in t.traces ==> SamePlan(u.traces[id], t.traces[id]))
  }

  lemma PlanStaysHandled(t: Traced, event: Event, id: JobId)
    requires id < t.now.nextJob
    ensures PlanStaysAs(t, TracedHandle(t, event), id)
  {
    hide Plan, Accepts;
  }

  lemma PlanStays(t: Traced, turn: Turn, id: JobId)
    requires id < t.now.nextJob
    ensures PlanStaysAs(t, TracedStep(t, turn), id)
  {
    hide TakenFlights, TracedHandle, Harvest, StuckReports, Launched, GivenUp, Take;
    var h := TracedHandle(t, turn.event);
    PlanStaysHandled(t, turn.event, id);
    if id in h.traces && id in h.now.jobs {
      RecordingKeepsPlan(h.traces[id], TakenFlights(id, h.now.jobs[id], turn.resources));
    }
  }

  lemma {:induction false} PlansStay(t: Traced, turns: seq<Turn>, id: JobId)
    requires id < t.now.nextJob
    ensures PlanStaysAs(t, TracedFrom(t, turns), id)
  {
    if turns != [] {
      var before := turns[..|turns| - 1];
      PlansStay(t, before, id);
      hide TracedStep;
      PlanStays(TracedFrom(t, before), turns[|turns| - 1], id);
    }
  }

  lemma {:induction false} TracedRunFrom(before: seq<Turn>, after: seq<Turn>)
    ensures TracedRun(before + after) == TracedFrom(TracedRun(before), after)
  {
    var all := before + after;
    hide TracedStep;
    if after == [] {
      assert all == before;
    } else {
      assert all[..|all| - 1] == before + after[..|after| - 1];
      TracedRunFrom(before, after[..|after| - 1]);
    }
  }

  lemma {:induction false} PrefixAdmissible(before: seq<Turn>, after: seq<Turn>)
    requires AdmissibleRun(INITIAL, before + after)
    ensures AdmissibleRun(INITIAL, before)
    decreases |after|
  {
    var all := before + after;
    hide Admissible;
    if after == [] {
      assert all == before;
    } else {
      assert all[..|all| - 1] == before + after[..|after| - 1];
      PrefixAdmissible(before, after[..|after| - 1]);
    }
  }

  /** What an accepted start command writes down for its job. */
  lemma StartRecorded(t: Traced, start: Turn)
    requires start.event.StartJob? && ValidPlan(start.event.size, start.event.chunkRows)
    requires forall id | id in t.traces :: id < t.now.nextJob
    ensures var u, id := TracedStep(t, start), t.now.nextJob;
      && id < u.now.nextJob
      && (id in u.traces ==>
            && u.traces[id].size == start.event.size
            && |u.traces[id].plan| == TotalChunks(start.event.size, start.event.chunkRows))
  {
    hide TakenFlights;
    var h, id := TracedHandle(t, start.event), t.now.nextJob;
    if id in h.traces && id in h.now.jobs {
      RecordingKeepsPlan(h.traces[id], TakenFlights(id, h.now.jobs[id], start.resources));
    }
  }

  /** Whatever happens between an accepted start command and the end of its job (any completion order, any set of
      workers, any failures and retries, other jobs beside it): if the job is reported as finished, the report
      carries the size that was asked for, the number of planned chunks, and the checksum of the whole matrix. */
  lemma FinishedJobIsTheWholeMatrix(before: seq<Turn>, start: Turn, after: seq<Turn>, report: Report)
    requires AdmissibleRun(INITIAL, before + [start] + after)
    requires start.event.StartJob? && ValidPlan(start.event.size, start.event.chunkRows)
    requires report.Finished? && report.job == Run(INITIAL, before).nextJob
    requires report in Run(INITIAL, before + [start] + after).reports
    ensures report.size == start.event.size
    ensures report.chunks == TotalChunks(start.event.size, start.event.chunkRows)
    ensures report.checksum == ChunkChecksum(start.event.size, 0, start.event.size)
  {
    hide ChunkChecksum, JobsOk, FlightsOk, ReportsOk, Bounded, Quiet, TracedStep, Step, TotalChunks;
    var early := before + [start];
    PrefixAdmissible(early, after);
    PrefixAdmissible(before, [start]);
    RunKeeps(early + after);
    RunKeeps(before);
    assert early[..|early| - 1] == before;
    StartRecorded(TracedRun(before), start);
    TracedRunFrom(early, after);
    PlansStay(TracedRun(early), after, report.job);
    assert TrueReport(TracedRun(early + after).traces, report);
  }

  // ---------- Every job is accounted for, and none waits for nothing ----------

  /** Every job that was ever numbered is either live or has exactly one report. */
  lemma EveryJobIsLiveOrReportedOnce(turns: seq<Turn>)
    requires AdmissibleRun(INITIAL, turns)
    ensures ReportsOk(Run(INITIAL, turns))
  {
    hide JobsOk, FlightsOk, ReportsOk, Bounded, TrueReport;
    RunKeeps(turns);
  }

  /** After every turn each live job has a request or a local chunk outstanding that will wake it, its chunks are
      the disjoint union of pending, outstanding and completed ones, its workers the disjoint union of waiting,
      busy and failed ones, and its counters are the true counts. */
  lemma NoJobHangs(turns: seq<Turn>, id: JobId)
    requires AdmissibleRun(INITIAL, turns) && id in Run(INITIAL, turns).jobs
    ensures exists r :: r in Run(INITIAL, turns).flights && Run(INITIAL, turns).flights[r].job == id
    ensures id in TracedRun(turns).traces && TracedRun(turns).now == Run(INITIAL, turns)
    ensures JobOk(id, LiveJob(TracedRun(turns), id))
  {
    RunKeeps(turns);
    hide FlightsOk, ReportsOk, Bounded, TrueReport, PlanOk, ChunksOk, WorkersOk, AttemptsOk;
    var t := TracedRun(turns);
    assert |Air(t.now.flights, id)| > 0;
    var f :| f in Air(t.now.flights, id);
  }

  /** In every run, all attempts of one chunk go to different workers, no chunk is sent more than three times, and
      a job sends at most as many requests as it has chunks and initial remote workers. */
  lemma RetriesAreBounded(turns: seq<Turn>, id: JobId)
    requires AdmissibleRun(INITIAL, turns) && id in TracedRun(turns).traces
    ensures var trace := TracedRun(turns).traces[id];
      && (forall i: nat :: NoDuplicates(Tried(trace, i)) && |Tried(trace, i)| <= 3)
      && trace.dispatched <= |trace.plan| + |Remotes(trace.workers)|
  {
    hide JobsOk, FlightsOk, ReportsOk, TrueReport;
    RunKeeps(turns);
    assert Bounded(TracedRun(turns).traces[id]);
  }

  // ---------- Every job ends ----------

  /** Workers that have not failed, plus chunks that are not completed. */
  function Measure(job: Job): int {
    |job.availableWorkers| + job.inFlight + job.totalChunks - job.completedChunks
  }

  /** The event answers a chunk of the live job. */
  predicate Answers(s: Coordinator, event: Event, id: JobId) {
    && id in s.jobs
    && (event.ReplyArrives? || event.RequestFails?)
    && event.request in s.flights
    && s.flights[event.request].job == id
  }

  lemma DispatchKeepsMeasure(job: Job, resources: Resources)
    requires NoDuplicates(job.availableWorkers)
    ensures Measure(Take(job, resources)) == Measure(job)
  {
    var ranked := Ranked(job.availableWorkers, resources);
    var n := Min(|ranked|, |job.pending|);
    RankedIs(job.availableWorkers, resources);
    RemovingDistinct(job.availableWorkers, ranked[..n]);
  }

  lemma {:induction false} RemovingDistinct(workers: seq<Worker>, gone: seq<Worker>)
    requires NoDuplicates(workers) && NoDuplicates(gone) && forall w | w in gone :: w in workers
    ensures NoDuplicates(WithoutAll(workers, gone)) && |WithoutAll(workers, gone)| == |workers| - |gone|
  {
    if gone != [] {
      var last := |gone| - 1;
      assert forall w | w in gone[..last] :: w in gone;
      RemovingDistinct(workers, gone[..last]);
      WithoutAllIs(workers, gone[..last]);
      WithoutKeepsDistinct(WithoutAll(workers, gone[..last]), gone[last]);
    }
  }

  lemma BusyIsNotWaiting(id: JobId, l: Live, f: Flight)
    requires JobOk(id, l) && f in l.air
    ensures f.worker !in l.job.availableWorkers && l.job.inFlight > 0
  {
    hide PlanOk, ChunksOk, AttemptsOk;
    assert f.worker in AirWorkers(l.air) && f.worker !in Waiting(l.job.availableWorkers);
  }

  /** An answer takes one from the measure of its job, or ends the job. */
  lemma AnswerLowersMeasure(t: Traced, turn: Turn, id: JobId)
    requires Inv(t) && Admissible(t.now, turn) && Answers(t.now, turn.event, id)
    ensures var jobs := Handle(t.now, turn.event).jobs; id in jobs ==> Measure(jobs[id]) == Measure(t.now.jobs[id]) - 1
  {
    hide Inv, JobOk, Selection;
    var f := t.now.flights[turn.event.request];
    LiveFlight(t, turn.event.request);
    BusyIsNotWaiting(id, LiveJob(t, id), f);
    hide LiveJob, Executed, ChunkChecksum;
    WithoutIs(t.now.jobs[id].availableWorkers, f.worker);
  }

  /** Any other event leaves the job alone. */
  lemma OthersKeepJob(s: Coordinator, event: Event, id: JobId)
    requires id in s.jobs && id < s.nextJob && !Answers(s, event, id)
    ensures id in Handle(s, event).jobs && Handle(s, event).jobs[id] == s.jobs[id]
  {
  }

  /** How many answers for a job arrive while it is live. */
  ghost function Answered(s: Coordinator, turns: seq<Turn>, id: JobId): nat {
    if turns == [] then 0 else
    var before, last := turns[..|turns| - 1], turns[|turns| - 1];
    Answered(s, before, id) + if Answers(Run(s, before), last.event, id) then 1 else 0
  }

  lemma JobsStayOld(t: Traced, event: Event, id: JobId)
    requires id < t.now.nextJob && id !in t.now.jobs
    ensures id !in Handle(t.now, event).jobs
  {
  }

  lemma DistinctWaiting(t: Traced, id: JobId)
    requires Inv(t) && id in t.now.jobs
    ensures id < t.now.nextJob && NoDuplicates(t.now.jobs[id].availableWorkers)
  {
    hide FlightsOk, ReportsOk, Bounded, TrueReport, PlanOk, ChunksOk, AttemptsOk;
  }

  /** One turn: an answer takes one from the measure of its live job or ends it; anything else leaves it alone. */
  lemma StepMeasure(t: Traced, turn: Turn, id: JobId)
    requires Inv(t) && Admissible(t.now, turn) && id < t.now.nextJob && id in Step(t.now, turn).jobs
    ensures id in t.now.jobs
    ensures Measure(Step(t.now, turn).jobs[id])
         == Measure(t.now.jobs[id]) - if Answers(t.now, turn.event, id) then 1 else 0
  {
    hide Inv, Take, GivenUp, Admissible, Handle, Measure, Answers;
    var h := TracedHandle(t, turn.event);
    HandleKeeps(t, turn);
    if id !in t.now.jobs {
      JobsStayOld(t, turn.event, id);
    }
    if Answers(t.now, turn.event, id) {
      AnswerLowersMeasure(t, turn, id);
    } else {
      OthersKeepJob(t.now, turn.event, id);
    }
    DistinctWaiting(h, id);
    DispatchKeepsMeasure(h.now.jobs[id], turn.resources);
  }

  lemma NumbersGrow(s: Coordinator, turn: Turn)
    ensures s.nextJob <= Step(s, turn).nextJob
  {
    hide Harvest, StuckReports, Take, GivenUp, Launched;
  }

  lemma {:induction false} RunFromKeeps(t: Traced, turns: seq<Turn>)
    requires Inv(t) && AdmissibleRun(t.now, turns)
    ensures Inv(TracedFrom(t, turns)) && TracedFrom(t, turns).now == Run(t.now, turns)
    ensures t.now.nextJob <= Run(t.now, turns).nextJob
  {
    if turns != [] {
      hide Inv, Quiet, Admissible, Step, TracedStep;
      var before := turns[..|turns| - 1];
      RunFromKeeps(t, before);
      StepKeeps(TracedFrom(t, before), turns[|turns| - 1]);
      NumbersGrow(Run(t.now, before), turns[|turns| - 1]);
    }
  }

  lemma {:induction false} MeasureAfter(t: Traced, turns: seq<Turn>, id: JobId)
    requires Inv(t) && AdmissibleRun(t.now, turns) && id < t.now.nextJob && id in Run(t.now, turns).jobs
    ensures id in t.now.jobs
    ensures Measure(Run(t.now, turns).jobs[id]) == Measure(t.now.jobs[id]) - Answered(t.now, turns, id)
  {
    hide Inv, Admissible, Measure, Step, Answers;
    if turns != [] {
      var before := turns[..|turns| - 1];
      RunFromKeeps(t, before);
      StepMeasure(TracedFrom(t, before), turns[|turns| - 1], id);
      MeasureAfter(t, before, id);
    }
  }

  /** Every job ends: from any state that can be reached, a live job survives fewer answers than it has healthy
      workers and uncompleted chunks, whatever else happens in between. With `NoJobHangs`, an answer is always
      due while it lives. */
  lemma JobsEnd(early: seq<Turn>, later: seq<Turn>, id: JobId)
    requires AdmissibleRun(INITIAL, early) && AdmissibleRun(Run(INITIAL, early), later)
    requires id in Run(INITIAL, early).jobs
    requires Answered(Run(INITIAL, early), later, id) >= Measure(Run(INITIAL, early).jobs[id])
    ensures id !in Run(Run(INITIAL, early), later).jobs
  {
    hide Answered;
    RunKeeps(early);
    var t := TracedRun(early);
    DistinctWaiting(t, id);
    RunFromKeeps(t, later);
    if id in Run(t.now, later).jobs {
      MeasureAfter(t, later, id);
      MeasureIsPositive(TracedFrom(t, later), id);
    }
  }

  lemma MeasureIsPositive(t: Traced, id: JobId)
    requires Inv(t) && id in t.now.jobs
    ensures Measure(t.now.jobs[id]) > 0
  {
    hide JobOk, FlightsOk, ReportsOk, Bounded, TrueReport;
  }
}

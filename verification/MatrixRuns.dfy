/** Every run of the distributed-matrix coordinator. */
module MatrixRuns {
  import opened Core
  import opened Executor
  import opened MatrixModel
  import opened MatrixPlan
  import opened MatrixInvariant
  import opened MatrixDispatch

  // ---------- The coordinator with the history of its jobs ----------

  datatype Traced = Traced(now: Coordinator, traces: map<JobId, Trace>)

  ghost function Air(flights: map<RequestId, Flight>, id: JobId): set<Flight> {
    set r | r in flights && flights[r].job == id :: flights[r]
  }

  ghost function LiveJob(t: Traced, id: JobId): Live
    requires id in t.now.jobs && id in t.traces
  {
    Live(t.now.jobs[id], t.traces[id], Air(t.now.flights, id))
  }

  ghost function TracedStart(t: Traced, size: U16, chunkRows: U16, workers: seq<Worker>): map<JobId, Trace> {
    if ValidPlan(size, chunkRows) && workers != []
    then t.traces[t.now.nextJob := NewTrace(size, Plan(size, chunkRows), workers)]
    else t.traces
  }

  ghost function TracedFailure(t: Traced, flight: Flight): map<JobId, Trace>
    requires flight.job in t.traces
  {
    var trace := t.traces[flight.job];
    t.traces[flight.job := trace.(failed := trace.failed + {flight.worker})]
  }

  ghost function TracedReply(t: Traced, request: RequestId, reply: Reply): map<JobId, Trace> {
    if request !in t.now.flights then t.traces else
    var flight := t.now.flights[request];
    if flight.job !in t.now.jobs || flight.job !in t.traces then t.traces
    else if Accepts(t.now.jobs[flight.job], if flight.worker.Local? then None else Some(flight.chunk), reply) then
      var trace := t.traces[flight.job];
      t.traces[flight.job := trace.(done := trace.done + {flight.chunk.index})]
    else if flight.worker.Remote? then TracedFailure(t, flight)
    else t.traces
  }

  ghost function TracedHandle(t: Traced, event: Event): Traced {
    var traces := match event
      case StartJob(size, chunkRows, workers) => TracedStart(t, size, chunkRows, workers)
      case ReplyArrives(request, reply) => TracedReply(t, request, reply)
      case RequestFails(request) =>
        if request in t.now.flights && t.now.flights[request].job in t.now.jobs
            && t.now.flights[request].job in t.traces
        then TracedFailure(t, t.now.flights[request]) else t.traces
      case Tick => t.traces;
    Traced(Handle(t.now, event), traces)
  }

  ghost function TracedDispatch(t: Traced, resources: Resources): Traced {
    Traced(
      Dispatch(t.now, resources),
      map id | id in t.traces ::
        if id in t.now.jobs then RecordedAll(t.traces[id], TakenFlights(id, t.now.jobs[id],
            resources)) else t.traces[id])
  }

  ghost function TracedStep(t: Traced, turn: Turn): Traced {
    TracedDispatch(TracedHandle(t, turn.event), turn.resources)
  }

  // ---------- The invariant ----------

  ghost predicate JobsOk(t: Traced) {
    forall id | id in t.now.jobs ::
      && id < t.now.nextJob && id in t.traces
      && JobOk(id, LiveJob(t, id))
      && t.now.jobs[id].completedChunks < t.now.jobs[id].totalChunks
  }

  ghost predicate TwinFree(flights: map<RequestId, Flight>, live: set<JobId>) {
    forall q, r | q in flights && r in flights && q != r && flights[q].job in live :: flights[q] != flights[r]
  }

  ghost predicate FlightsOk(s: Coordinator) {
    && (forall r | r in s.flights :: r < s.nextRequest && s.flights[r].job < s.nextJob)
    && TwinFree(s.flights, s.jobs.Keys)
  }

  ghost function Reported(reports: seq<Report>): set<JobId> {
    set r | r in reports :: r.job
  }

  /** Every started job is live or reported, never both, and reported at most once. */
  ghost predicate ReportsOk(s: Coordinator) {
    && (forall i, j | 0 <= i < j < |s.reports| :: s.reports[i].job != s.reports[j].job)
    && Reported(s.reports) !! s.jobs.Keys
    && Reported(s.reports) + s.jobs.Keys == Below(s.nextJob)
  }

  /** A success reports the checksum of the whole matrix of the size that was planned. */
  ghost predicate TrueReport(traces: map<JobId, Trace>, r: Report) {
    r.Finished? ==>
      && r.job in traces
      && r.size == traces[r.job].size
      && r.chunks == |traces[r.job].plan|
      && r.checksum == ChunkChecksum(r.size, 0, r.size)
  }

  ghost function Remotes(workers: set<Worker>): set<Worker> {
    set w | w in workers && w.Remote?
  }

  /** All attempts of a chunk went to different workers, at most three, and there were few in all. */
  ghost predicate Bounded(trace: Trace) {
    && (forall i: nat :: NoDuplicates(Tried(trace, i)) && |Tried(trace, i)| <= MAX_MATRIX_CHUNK_ATTEMPTS)
    && trace.dispatched <= |trace.plan| + |Remotes(trace.workers)|
  }

  ghost predicate Inv(t: Traced) {
    && JobsOk(t)
    && FlightsOk(t.now)
    && ReportsOk(t.now)
    && (forall r | r in t.now.reports :: TrueReport(t.traces, r))
    && (forall id | id in t.traces :: id < t.now.nextJob && Bounded(t.traces[id]))
  }

  /** No live job waits for nothing: each has a request or a local chunk outstanding. */
  ghost predicate Quiet(s: Coordinator) {
    forall id | id in s.jobs :: s.jobs[id].inFlight > 0
  }

  lemma JobIsBounded(id: JobId, l: Live)
    requires JobOk(id, l)
    ensures Bounded(l.trace)
  {
    var used := AirIndices(l.air) + l.trace.done;
    SizeOfBelow(l.job.totalChunks);
    SubsetIsSmaller(used, Below(l.job.totalChunks));
    ImageSize(l.air);
    assert |used| == |AirIndices(l.air)| + |l.trace.done|;
    SubsetIsSmaller(l.trace.failed, Remotes(l.trace.workers));
  }

  lemma {:induction false} ImageSize(air: set<Flight>)
    requires forall f, g | f in air && g in air && f.chunk.index == g.chunk.index :: f == g
    ensures |AirIndices(air)| == |air|
    decreases |air|
  {
    if air != {} {
      var f :| f in air;
      ImageSize(air - {f});
      assert AirIndices(air) == AirIndices(air - {f}) + {f.chunk.index};
    }
  }

  // ---------- Handling one event ----------

  lemma AirWithout(flights: map<RequestId, Flight>, r: RequestId, live: set<JobId>, id: JobId)
    requires TwinFree(flights, live) && r in flights && id in live
    ensures Air(flights - {r}, id) == if flights[r].job == id then Air(flights, id) - {flights[r]} else Air(flights, id)
    ensures flights[r].job == id ==> flights[r] in Air(flights, id)
  {
    var rest := flights - {r};
    forall f | f in Air(flights, id) && f != flights[r] ensures f in Air(rest, id) {
      var q :| q in flights && flights[q].job == id && flights[q] == f;
      assert q in rest && rest[q] == f;
    }
    forall f | f in Air(rest, id) ensures f in Air(flights, id) && (flights[r].job == id ==> f != flights[r]) {
      var q :| q in rest && rest[q].job == id && rest[q] == f;
      assert q in flights && flights[q] == f && q != r;
    }
  }

  lemma ReportOne(s: Coordinator, id: JobId, report: Report)
    requires ReportsOk(s) && id in s.jobs && report.job == id
    ensures ReportsOk(s.(jobs := s.jobs - {id}, reports := s.reports + [report]))
  {
    assert Reported(s.reports + [report]) == Reported(s.reports) + {id};
    forall i | 0 <= i < |s.reports| ensures s.reports[i].job != id {
      assert s.reports[i].job in Reported(s.reports);
    }
  }

  lemma RefusedStartKeeps(t: Traced, report: Report)
    requires Inv(t) && report.job == t.now.nextJob && report.Failed?
    ensures Inv(t.(now := t.now.(nextJob := t.now.nextJob + 1, reports := t.now.reports + [report])))
  {
    hide JobOk, ChunkChecksum, LiveJob, ReportsOk, Bounded, TwinFree;
    RefusedReports(t.now, report);
    var u := t.(now := t.now.(nextJob := t.now.nextJob + 1, reports := t.now.reports + [report]));
    SameLiveJobs(t, u);
    assert JobsOk(u);
    assert FlightsOk(u.now);
  }

  lemma RefusedReports(s: Coordinator, report: Report)
    requires ReportsOk(s) && report.job == s.nextJob && forall id | id in s.jobs :: id < s.nextJob
    ensures ReportsOk(s.(nextJob := s.nextJob + 1, reports := s.reports + [report]))
  {
    assert Reported(s.reports + [report]) == Reported(s.reports) + {report.job};
    assert Below(s.nextJob + 1) == Below(s.nextJob) + {s.nextJob};
    forall i | 0 <= i < |s.reports| ensures s.reports[i].job != report.job {
      assert s.reports[i].job in Reported(s.reports);
      BelowIs(s.nextJob, s.reports[i].job);
    }
  }

  lemma {:induction false} BelowIs(n: nat, k: nat)
    ensures k in Below(n) <==> k < n
  {
    if n > 0 {
      BelowIs(n - 1, k);
    }
  }

  lemma SameLiveJobs(t: Traced, u: Traced)
    requires t.now.jobs == u.now.jobs && t.now.flights == u.now.flights && t.traces == u.traces
    ensures forall id | id in t.now.jobs && id in t.traces :: LiveJob(u, id) == LiveJob(t, id)
  {
  }

  lemma NewJobKeepsJobs(t: Traced, job: Job, trace: Trace)
    requires JobsOk(t) && FlightsOk(t.now) && job.completedChunks < job.totalChunks
    requires JobOk(t.now.nextJob, Live(job, trace, {}))
    ensures var id := t.now.nextJob;
      JobsOk(Traced(t.now.(nextJob := id + 1, jobs := t.now.jobs[id := job]), t.traces[id := trace]))
  {
    hide JobOk;
    var id := t.now.nextJob;
    var u := Traced(t.now.(nextJob := id + 1, jobs := t.now.jobs[id := job]), t.traces[id := trace]);
    assert Air(u.now.flights, id) == {};
    assert forall other | other in t.now.jobs :: LiveJob(u, other) == LiveJob(t, other);
  }

  lemma NewJobKeepsReports(s: Coordinator, job: Job)
    requires ReportsOk(s)
    ensures ReportsOk(s.(nextJob := s.nextJob + 1, jobs := s.jobs[s.nextJob := job]))
  {
    assert Below(s.nextJob + 1) == Below(s.nextJob) + {s.nextJob};
  }

  lemma NewJobKeeps(t: Traced, job: Job, trace: Trace)
    requires Inv(t) && job.completedChunks < job.totalChunks
    requires JobOk(t.now.nextJob, Live(job, trace, {}))
    ensures var id := t.now.nextJob;
      Inv(Traced(t.now.(nextJob := id + 1, jobs := t.now.jobs[id := job]), t.traces[id := trace]))
  {
    hide JobOk, JobsOk, ReportsOk, Bounded, TrueReport;
    var id := t.now.nextJob;
    var u := Traced(t.now.(nextJob := id + 1, jobs := t.now.jobs[id := job]), t.traces[id := trace]);
    NewJobKeepsJobs(t, job, trace);
    NewJobKeepsReports(t.now, job);
    JobIsBounded(id, Live(job, trace, {}));
    forall r | r in u.now.reports ensures TrueReport(u.traces, r) {
      assert id !in t.traces;
      SamePlanSameReport(t.traces, id, trace, r);
    }
  }

  lemma StartKeeps(t: Traced, size: U16, chunkRows: U16, workers: seq<Worker>)
    requires Inv(t) && NoDuplicates(workers)
    ensures Inv(TracedHandle(t, StartJob(size, chunkRows, workers)))
  {
    hide Inv, JobOk, Tiles;
    if ValidPlan(size, chunkRows) {
      if workers == [] {
        RefusedStartKeeps(t, Failed(t.now.nextJob, NoEligibleResources));
      } else {
        var plan := Plan(size, chunkRows);
        PlanTiles(size, chunkRows);
        StartOk(t.now.nextJob, size, plan, workers);
        NewJobKeeps(t, Job(size, |plan|, 0, 0, plan, workers, 0), NewTrace(size, plan, workers));
      }
    }
  }

  /** The state after the record of a reply's request was taken out. */
  ghost function Received(t: Traced, r: RequestId): Traced {
    t.(now := t.now.(flights := t.now.flights - {r}))
  }

  ghost predicate SamePlan(x: Trace, y: Trace) {
    x.size == y.size && x.plan == y.plan && x.workers == y.workers
  }

  /** Replaces one live job and its history after its flight `r` came back. */
  lemma ReplaceKeeps(t: Traced, r: RequestId, l: Live)
    requires Inv(t) && r in t.now.flights && t.now.flights[r].job in t.now.jobs
    requires var id := t.now.flights[r].job;
      && JobOk(id, l) && l.job.completedChunks < l.job.totalChunks
      && l.air == Air(t.now.flights, id) - {t.now.flights[r]}
      && id in t.traces && SamePlan(l.trace, t.traces[id])
    ensures var id := t.now.flights[r].job;
      Inv(Traced(
        t.now.(flights := t.now.flights - {r}, jobs := t.now.jobs[id := l.job]),
        t.traces[id := l.trace]))
  {
    hide JobOk, Bounded, ReportsOk, TrueReport;
    var id := t.now.flights[r].job;
    var u := Traced(t.now.(flights := t.now.flights - {r}, jobs := t.now.jobs[id := l.job]), t.traces[id := l.trace]);
    assert u.now.jobs.Keys == t.now.jobs.Keys;
    assert JobsOk(u) by {
      forall other | other in t.now.jobs
        ensures LiveJob(u, other) == if other == id then l else LiveJob(t, other)
      {
        AirWithout(t.now.flights, r, t.now.jobs.Keys, other);
      }
    }
    JobIsBounded(id, l);
    SameJobsSameReports(t.now, u.now);
    forall q | q in t.now.reports ensures TrueReport(u.traces, q) {
      SamePlanSameReport(t.traces, id, l.trace, q);
    }
  }

  lemma SameJobsSameReports(s: Coordinator, u: Coordinator)
    requires ReportsOk(s) && u.reports == s.reports && u.jobs.Keys == s.jobs.Keys && u.nextJob == s.nextJob
    ensures ReportsOk(u)
  {
  }

  /** Removes one job with a report after its flight `r` came back; of its history only outcomes may change. */
  lemma RemoveKeeps(t: Traced, r: RequestId, report: Report, trace: Trace)
    requires Inv(t) && r in t.now.flights && t.now.flights[r].job in t.now.jobs
    requires var id := t.now.flights[r].job; report.job == id && id in t.traces && SameAttempts(trace, t.traces[id])
    requires TrueReport(t.traces[report.job := trace], report)
    ensures Inv(Traced(
      t.now.(flights := t.now.flights - {r}, jobs := t.now.jobs - {report.job}, reports := t.now.reports + [report]),
      t.traces[report.job := trace]))
  {
    hide JobsOk, FlightsOk, ReportsOk, Bounded, TrueReport;
    var id := report.job;
    var u := Traced(
      t.now.(flights := t.now.flights - {r}, jobs := t.now.jobs - {id}, reports := t.now.reports + [report]),
      t.traces[id := trace]);
    RemoveKeepsFlights(t.now, r, id, report);
    RemoveKeepsJobs(t, r, u);
    ReportOne(t.now, id, report);
    SameJobsSameReports(t.now.(jobs := t.now.jobs - {id}, reports := t.now.reports + [report]), u.now);
    SameAttemptsSameBounds(trace, t.traces[id]);
    forall q | q in t.now.reports ensures TrueReport(u.traces, q) {
      SamePlanSameReport(t.traces, id, trace, q);
    }
  }

  lemma SamePlanSameReport(traces: map<JobId, Trace>, id: JobId, trace: Trace, r: Report)
    requires TrueReport(traces, r) && (id in traces ==> SamePlan(trace, traces[id]))
    ensures TrueReport(traces[id := trace], r)
  {
    hide ChunkChecksum;
  }

  lemma RemoveKeepsFlights(s: Coordinator, r: RequestId, id: JobId, report: Report)
    requires FlightsOk(s) && r in s.flights
    ensures FlightsOk(s.(flights := s.flights - {r}, jobs := s.jobs - {id}, reports := s.reports + [report]))
    ensures TwinFree(s.flights, s.jobs.Keys)
  {
  }

  ghost predicate SameAttempts(x: Trace, y: Trace) {
    SamePlan(x, y) && x.tried == y.tried && x.dispatched == y.dispatched
  }

  lemma SameAttemptsSameBounds(x: Trace, y: Trace)
    requires SameAttempts(x, y) && Bounded(y)
    ensures Bounded(x)
  {
    assert forall i: nat :: Tried(x, i) == Tried(y, i);
  }

  lemma RemoveKeepsJobs(t: Traced, r: RequestId, u: Traced)
    requires JobsOk(t) && TwinFree(t.now.flights, t.now.jobs.Keys) && r in t.now.flights
    requires var id := t.now.flights[r].job;
      u.now.jobs == t.now.jobs - {id} && (forall k | k in t.traces && k != id ::
          k in u.traces && u.traces[k] == t.traces[k])
    requires u.now.flights == t.now.flights - {r} && u.now.nextJob == t.now.nextJob
    ensures JobsOk(u)
  {
    hide JobOk;
    forall other | other in u.now.jobs ensures LiveJob(u, other) == LiveJob(t, other) {
      AirWithout(t.now.flights, r, t.now.jobs.Keys, other);
    }
  }

  /** A flight of a job that is gone leaves every live job as it was. */
  lemma DropKeeps(t: Traced, r: RequestId)
    requires Inv(t) && r in t.now.flights && t.now.flights[r].job !in t.now.jobs
    ensures Inv(Received(t, r))
  {
    hide JobOk, ReportsOk, TrueReport, Bounded;
    var u := Received(t, r);
    SameJobsSameReports(t.now, u.now);
    forall other | other in t.now.jobs ensures LiveJob(u, other) == LiveJob(t, other) {
      AirWithout(t.now.flights, r, t.now.jobs.Keys, other);
    }
    assert JobsOk(u);
  }

  /** The job of a flight that came back, as the invariant sees it. */
  lemma LiveFlight(t: Traced, r: RequestId)
    requires Inv(t) && r in t.now.flights && t.now.flights[r].job in t.now.jobs
    ensures var f := t.now.flights[r];
      && f.job in t.traces
      && JobOk(f.job, LiveJob(t, f.job))
      && t.now.jobs[f.job].completedChunks < t.now.jobs[f.job].totalChunks
      && f in Air(t.now.flights, f.job)
  {
    hide JobOk;
    AirWithout(t.now.flights, r, t.now.jobs.Keys, t.now.flights[r].job);
  }

  /** A failed request of a live job: retried, or the job ends with a report. */
  lemma FailureKeeps(t: Traced, r: RequestId)
    requires Inv(t) && r in t.now.flights
    requires var f := t.now.flights[r]; f.job in t.now.jobs && f.worker.Remote?
    ensures t.now.flights[r].job in t.traces
    ensures var f := t.now.flights[r];
      Inv(Traced(RetryChunk(Received(t, r).now, f.job, f.worker, f.chunk), TracedFailure(t, f)))
  {
    hide Inv, JobOk;
    var f := t.now.flights[r];
    LiveFlight(t, r);
    var l := LiveJob(t, f.job);
    var s := RetryChunk(Received(t, r).now, f.job, f.worker, f.chunk);
    if f.chunk.attempts < MAX_MATRIX_CHUNK_ATTEMPTS {
      RetryKeeps(f.job, l, f);
    }
    if f.job in s.jobs {
      ReplaceKeeps(t, r, Retried(l, f));
    } else {
      RemoveKeeps(t, r, s.reports[|t.now.reports|], Retried(l, f).trace);
    }
  }

  lemma JobPlanOk(id: JobId, l: Live)
    requires JobOk(id, l)
    ensures PlanOk(id, l)
  {
  }

  /** Rows of a live job's flight. */
  lemma FlightRows(id: JobId, l: Live, f: Flight)
    requires PlanOk(id, l) && f in l.air
    ensures f.size == l.trace.size == l.job.size && f.chunk.rowEnd < 0x1_0000
    ensures f.chunk.index < |l.trace.plan|
    ensures ValidChunkTask(ChunkTask(f.size, f.chunk.rowStart, f.chunk.rowEnd))
    ensures Part(l.trace.plan, l.trace.size, f.chunk.index) == ChunkChecksum(f.size, f.chunk.rowStart, f.chunk.rowEnd)
  {
  }

  lemma LastChunkMeansAll(id: JobId, l: Live)
    requires JobOk(id, l) && l.job.completedChunks == l.job.totalChunks
    ensures l.job.size == l.trace.size && l.job.totalChunks == |l.trace.plan|
    ensures l.job.checksum == ChunkChecksum(l.job.size, 0, l.job.size)
  {
    hide AttemptsOk, WorkersOk, Below, XorOfDone, ChunkChecksum, Tiles, AirIndices, Indices;
    SizeOfBelow(l.job.totalChunks);
    assert l.trace.done <= Below(l.job.totalChunks);
    SubsetOfSameSize(l.trace.done, Below(l.job.totalChunks));
    TilesCoverTheMatrix(l.trace.plan, l.trace.size, l.trace.done);
  }

  lemma SubsetOfSameSize(x: set<nat>, y: set<nat>)
    requires x <= y && |x| == |y|
    ensures x == y
  {
    assert |y - x| == |y| - |x|;
    assert y == x + (y - x);
  }

  /** An accepted chunk of a live job. */
  lemma AcceptKeeps(t: Traced, r: RequestId, reply: Reply)
    requires Inv(t) && r in t.now.flights && t.now.flights[r].job in t.now.jobs
    requires Honest(t.now.flights[r], reply)
    requires var f := t.now.flights[r];
      Accepts(t.now.jobs[f.job], if f.worker.Local? then None else Some(f.chunk), reply)
    ensures Inv(TracedHandle(t, ReplyArrives(r, reply)))
  {
    hide Inv, JobOk;
    var f := t.now.flights[r];
    LiveFlight(t, r);
    var l := LiveJob(t, f.job);
    JobPlanOk(f.job, l);
    FlightRows(f.job, l, f);
    assert reply.rowStart == f.chunk.rowStart && reply.rowEnd == f.chunk.rowEnd;
    var m := Completed(l, f, reply.checksum);
    CompleteKeeps(f.job, l, f, reply.checksum);
    if m.job.completedChunks == m.job.totalChunks {
      LastChunkMeansAll(f.job, m);
      RemoveKeeps(t, r, Finished(f.job, m.job.checksum, m.job.size, m.job.totalChunks), m.trace);
    } else {
      CompletedAtMostAll(f.job, m);
      ReplaceKeeps(t, r, m);
    }
  }

  lemma CompletedAtMostAll(id: JobId, l: Live)
    requires JobOk(id, l)
    ensures l.job.completedChunks <= l.job.totalChunks
  {
    SizeOfBelow(l.job.totalChunks);
    SubsetIsSmaller(l.trace.done, Below(l.job.totalChunks));
  }

  /** A refused local result ends the job. */
  lemma RefusedKeeps(t: Traced, r: RequestId)
    requires Inv(t) && r in t.now.flights && t.now.flights[r].job in t.now.jobs
    ensures Inv(Traced(FailJob(Received(t, r).now, t.now.flights[r].job, ChunkNotRetryable), t.traces))
  {
    hide Inv, JobOk;
    var id := t.now.flights[r].job;
    LiveFlight(t, r);
    RemoveKeeps(t, r, Failed(id, ChunkNotRetryable), t.traces[id]);
    assert t.traces[id := t.traces[id]] == t.traces;
  }

  lemma ReplyKeeps(t: Traced, r: RequestId, reply: Reply)
    requires Inv(t) && (r in t.now.flights ==> Honest(t.now.flights[r], reply))
    ensures Inv(TracedHandle(t, ReplyArrives(r, reply)))
  {
    hide Inv, JobOk, RetryChunk, FailJob, TracedFailure;
    if r in t.now.flights {
      var f := t.now.flights[r];
      if f.job !in t.now.jobs {
        DropKeeps(t, r);
      } else if Accepts(t.now.jobs[f.job], if f.worker.Local? then None else Some(f.chunk), reply) {
        AcceptKeeps(t, r, reply);
      } else if f.worker.Remote? {
        FailureKeeps(t, r);
      } else {
        RefusedKeeps(t, r);
      }
    }
  }

  lemma HandleKeeps(t: Traced, turn: Turn)
    requires Inv(t) && Admissible(t.now, turn)
    ensures Inv(TracedHandle(t, turn.event))
  {
    hide JobOk;
    match turn.event
    case StartJob(size, chunkRows, workers) => StartKeeps(t, size, chunkRows, workers);
    case ReplyArrives(r, reply) => ReplyKeeps(t, r, reply);
    case RequestFails(r) =>
      if r in t.now.flights {
        if t.now.flights[r].job in t.now.jobs {
          FailureKeeps(t, r);
        } else {
          DropKeeps(t, r);
        }
      }
    case Tick =>
  }

  // ---------- The dispatch that ends a turn ----------

  lemma {:induction false} HarvestIs(jobs: map<JobId, Job>, n: nat, resources: Resources)
    ensures forall f :: f in Harvest(jobs, n, resources) <==>
      f.job < n && f.job in jobs && f in TakenFlights(f.job, jobs[f.job], resources)
  {
    hide Harvest, TakenFlights;
    HarvestLast(jobs, n, resources);
    if n > 0 {
      HarvestIs(jobs, n - 1, resources);
      if n - 1 in jobs {
        FlightsOfJob(n - 1, jobs[n - 1], resources);
      }
    }
  }

  lemma HarvestLast(jobs: map<JobId, Job>, n: nat, resources: Resources)
    ensures n == 0 ==> Harvest(jobs, n, resources) == []
    ensures n > 0 ==>
      Harvest(jobs, n, resources) == Harvest(jobs, n - 1, resources)
        + if n - 1 in jobs then TakenFlights(n - 1, jobs[n - 1], resources) else []
  {
    hide TakenFlights;
  }

  lemma FlightsOfJob(id: JobId, job: Job, resources: Resources)
    ensures forall f | f in TakenFlights(id, job, resources) :: f.job == id
  {
  }

  lemma {:induction false} HarvestIsDistinct(jobs: map<JobId, Job>, n: nat, resources: Resources)
    requires forall id | id in jobs :: NoDuplicates(TakenFlights(id, jobs[id], resources))
    ensures NoDuplicates(Harvest(jobs, n, resources))
  {
    hide TakenFlights;
    if n > 0 {
      HarvestIsDistinct(jobs, n - 1, resources);
      HarvestIs(jobs, n - 1, resources);
      var before := Harvest(jobs, n - 1, resources);
      if n - 1 in jobs {
        var last := TakenFlights(n - 1, jobs[n - 1], resources);
        FlightsOfJob(n - 1, jobs[n - 1], resources);
        forall i, j | 0 <= i < |before| && 0 <= j < |last| ensures before[i] != last[j] {
          assert before[i] in before && last[j].job == n - 1;
        }
      }
    }
  }

  ghost predicate KeysBelow(flights: map<RequestId, Flight>, next: RequestId) {
    forall r | r in flights :: r < next
  }

  lemma {:induction false} LaunchIs(flights: map<RequestId, Flight>, next: RequestId, taken: seq<Flight>)
    requires KeysBelow(flights, next)
    ensures var after := Launched(flights, next, taken);
      && KeysBelow(after, next + |taken|)
      && (forall r | r in flights :: r in after && after[r] == flights[r])
      && (forall r | next <= r < next + |taken| :: r in after && after[r] == taken[r - next])
      && (forall r | r in after :: r in flights || (next <= r < next + |taken| && after[r] == taken[r - next]))
  {
    if taken != [] {
      LaunchIs(flights, next, taken[..|taken| - 1]);
    }
  }

  lemma LaunchAir(flights: map<RequestId, Flight>, next: RequestId, taken: seq<Flight>, id: JobId)
    requires KeysBelow(flights, next)
    ensures Air(Launched(flights, next, taken), id) == Air(flights, id) + set f | f in taken && f.job == id
  {
    var after := Launched(flights, next, taken);
    LaunchIs(flights, next, taken);
    forall f | f in Air(flights, id) ensures f in Air(after, id) {
      var r :| r in flights && flights[r].job == id && flights[r] == f;
      assert r in after && after[r] == f;
    }
    forall f | f in taken && f.job == id ensures f in Air(after, id) {
      var k :| 0 <= k < |taken| && taken[k] == f;
      assert next + k in after && after[next + k] == f;
    }
  }

  lemma LaunchTwinFree(flights: map<RequestId, Flight>, next: RequestId, taken: seq<Flight>, live: set<JobId>)
    requires KeysBelow(flights, next) && TwinFree(flights, live) && NoDuplicates(taken)
    requires forall r, f | r in flights && f in taken :: flights[r] != f
    ensures TwinFree(Launched(flights, next, taken), live)
  {
    LaunchIs(flights, next, taken);
    var after := Launched(flights, next, taken);
    forall q, r | q in after && r in after && q < r && (after[q].job in live || after[r].job in live)
      ensures after[q] != after[r]
    {
      if r in flights {
        assert q in flights;
      } else if q in flights {
        assert after[r] in taken;
      } else {
        assert taken[q - next] != taken[r - next];
      }
    }
  }

  /** What the taken flights are when seen from one job. */
  lemma HarvestOfJob(s: Coordinator, id: JobId, resources: Resources)
    requires id in s.jobs && id < s.nextJob
    ensures (set f | f in Harvest(s.jobs, s.nextJob, resources) && f.job == id)
         == FlightSet(TakenFlights(id, s.jobs[id], resources))
  {
    HarvestIs(s.jobs, s.nextJob, resources);
  }

  lemma DispatchKeepsJobs(t: Traced, resources: Resources)
    requires Inv(t)
    ensures JobsOk(TracedDispatch(t, resources)) && Quiet(TracedDispatch(t, resources).now)
  {
    hide JobOk;
    var u := TracedDispatch(t, resources);
    forall id | id in u.now.jobs
      ensures id in t.now.jobs && id in t.traces
      ensures LiveJob(u, id) == Dispatched(id, LiveJob(t, id), resources)
      ensures JobOk(id, LiveJob(u, id))
      ensures u.now.jobs[id].completedChunks < u.now.jobs[id].totalChunks && u.now.jobs[id].inFlight > 0
    {
      HarvestOfJob(t.now, id, resources);
      LaunchAir(t.now.flights, t.now.nextRequest, Harvest(t.now.jobs, t.now.nextJob, resources), id);
      DispatchKeeps(id, LiveJob(t, id), resources);
      NotStuckMeansBusy(id, LiveJob(t, id), resources);
    }
  }

  lemma JobWorkersOk(id: JobId, l: Live)
    requires JobOk(id, l)
    ensures WorkersOk(l)
  {
  }

  lemma HarvestIsNew(t: Traced, resources: Resources)
    requires JobsOk(t)
    ensures var taken := Harvest(t.now.jobs, t.now.nextJob, resources);
      NoDuplicates(taken) && forall r, f | r in t.now.flights && f in taken :: t.now.flights[r] != f
  {
    hide JobOk, WorkersOk, TakenFlights, Air, Harvest;
    var s := t.now;
    HarvestIs(s.jobs, s.nextJob, resources);
    forall id | id in s.jobs
      ensures NoDuplicates(TakenFlights(id, s.jobs[id], resources))
      ensures forall f | f in TakenFlights(id, s.jobs[id], resources) :: f !in Air(s.flights, id)
    {
      JobWorkersOk(id, LiveJob(t, id));
      TakenAreNew(id, LiveJob(t, id), resources);
    }
    HarvestIsDistinct(s.jobs, s.nextJob, resources);
    forall r, f | r in s.flights && f in Harvest(s.jobs, s.nextJob, resources) ensures s.flights[r] != f {
      assert f !in Air(s.flights, f.job);
      assert s.flights[r] in Air(s.flights, s.flights[r].job) by {
        FlightsAreAir(s.flights, r);
      }
    }
  }

  lemma FlightsAreAir(flights: map<RequestId, Flight>, r: RequestId)
    requires r in flights
    ensures flights[r] in Air(flights, flights[r].job)
  {
  }

  lemma DispatchKeepsFlights(t: Traced, resources: Resources)
    requires Inv(t)
    ensures FlightsOk(TracedDispatch(t, resources).now)
  {
    hide JobsOk, ReportsOk, TrueReport, Bounded, Harvest, Launched, StuckReports, GivenUp, Take, TakenFlights;
    var s, taken := t.now, Harvest(t.now.jobs, t.now.nextJob, resources);
    HarvestIs(s.jobs, s.nextJob, resources);
    HarvestIsNew(t, resources);
    LaunchTwinFree(s.flights, s.nextRequest, taken, s.jobs.Keys);
    LaunchIs(s.flights, s.nextRequest, taken);
  }

  lemma OneMoreReported(reports: seq<Report>, report: Report)
    ensures Reported(reports + [report]) == Reported(reports) + {report.job}
  {
  }

  lemma StuckReportsNext(jobs: map<JobId, Job>, n: nat, resources: Resources)
    ensures Reported([]) == {}
    ensures StuckReports(jobs, n, resources)
      == if n == 0 then [] else if n - 1 in jobs && GivenUp(jobs[n - 1], resources)
         then StuckReports(jobs, n - 1, resources) + [Failed(n - 1, NoEligibleWorkerRemains)]
         else StuckReports(jobs, n - 1, resources)
  {
    hide GivenUp;
  }

  lemma {:induction false} StuckReportsAre(jobs: map<JobId, Job>, n: nat, resources: Resources)
    ensures var reports := StuckReports(jobs, n, resources);
      && (forall r | r in reports :: r == Failed(r.job, NoEligibleWorkerRemains) && r.job < n)
      && (forall i, j | 0 <= i < j < |reports| :: reports[i].job != reports[j].job)
      && (forall id :: id in Reported(reports) <==> id < n && id in jobs && GivenUp(jobs[id], resources))
  {
    hide GivenUp, StuckReports, Reported;
    StuckReportsNext(jobs, n, resources);
    if n > 0 {
      StuckReportsAre(jobs, n - 1, resources);
      var before := StuckReports(jobs, n - 1, resources);
      OneMoreReported(before, Failed(n - 1, NoEligibleWorkerRemains));
      assert forall i | 0 <= i < |before| :: before[i] in before;
    }
  }

  lemma DispatchKeepsReports(s: Coordinator, resources: Resources)
    requires ReportsOk(s)
    ensures ReportsOk(Dispatch(s, resources))
  {
    hide GivenUp, Take, TakenFlights, Harvest, Launched, StuckReports;
    var u, more := Dispatch(s, resources), StuckReports(s.jobs, s.nextJob, resources);
    StuckReportsAre(s.jobs, s.nextJob, resources);
    assert Reported(u.reports) == Reported(s.reports) + Reported(more);
    forall i, j | 0 <= i < |s.reports| && 0 <= j < |more| ensures s.reports[i].job != more[j].job {
      assert s.reports[i].job in Reported(s.reports) && more[j].job in Reported(more);
    }
    assert u.jobs.Keys == s.jobs.Keys - Reported(more);
  }

  lemma DispatchKeepsTruth(t: Traced, resources: Resources)
    requires ReportsOk(t.now) && forall r | r in t.now.reports :: TrueReport(t.traces, r)
    ensures forall r | r in TracedDispatch(t, resources).now.reports ::
        TrueReport(TracedDispatch(t, resources).traces, r)
  {
    hide ChunkChecksum, Take, GivenUp;
    var u := TracedDispatch(t, resources);
    StuckReportsAre(t.now.jobs, t.now.nextJob, resources);
    forall r | r in u.now.reports ensures TrueReport(u.traces, r) {
      if r in t.now.reports && r.Finished? {
        assert r.job in Reported(t.now.reports);
      }
    }
  }

  lemma {:induction false} RecordingKeepsPlan(trace: Trace, flights: seq<Flight>)
    ensures SamePlan(RecordedAll(trace, flights), trace)
  {
    if flights != [] {
      RecordingKeepsPlan(trace, flights[..|flights| - 1]);
    }
  }

  lemma DispatchKeepsBounds(t: Traced, resources: Resources)
    requires Inv(t)
    ensures forall id | id in TracedDispatch(t, resources).traces ::
      id < t.now.nextJob && Bounded(TracedDispatch(t, resources).traces[id])
  {
    hide JobOk, FlightsOk, ReportsOk, Bounded;
    forall id | id in t.traces ensures Bounded(TracedDispatch(t, resources).traces[id]) {
      if id in t.now.jobs {
        DispatchKeeps(id, LiveJob(t, id), resources);
        JobIsBounded(id, Dispatched(id, LiveJob(t, id), resources));
      }
    }
  }

  lemma TracedDispatchKeeps(t: Traced, resources: Resources)
    requires Inv(t)
    ensures Inv(TracedDispatch(t, resources)) && Quiet(TracedDispatch(t, resources).now)
  {
    DispatchKeepsJobs(t, resources);
    DispatchKeepsFlights(t, resources);
    DispatchKeepsReports(t.now, resources);
    DispatchKeepsTruth(t, resources);
    DispatchKeepsBounds(t, resources);
    hide JobsOk, FlightsOk, ReportsOk, Bounded, TrueReport;
  }

  lemma StepKeeps(t: Traced, turn: Turn)
    requires Inv(t) && Admissible(t.now, turn)
    ensures Inv(TracedStep(t, turn)) && Quiet(TracedStep(t, turn).now)
    ensures TracedStep(t, turn).now == Step(t.now, turn)
  {
    hide Inv;
    HandleKeeps(t, turn);
    TracedDispatchKeeps(TracedHandle(t, turn.event), turn.resources);
  }
}

/** The reply that the coordinator does not expect, and the jobs that it makes hang. */
module MatrixHangs {
  import opened Core
  import opened Executor
  import opened MatrixModel
  import opened MatrixInvariant
  import opened MatrixDispatch
  import opened MatrixRuns
  import opened MatrixTheorems
  import opened MatrixAnyAnswer

  // ---------- Chunks that were answered with node information ----------

  /** The turn answers a chunk of the job with node information: its record goes, and the job is not told. */
  predicate Withholds(s: Coordinator, turn: Turn, id: JobId) {
    && turn.event.ReplyArrives? && turn.event.reply.NodeInfoReply?
    && turn.event.request in s.flights && s.flights[turn.event.request].job == id
  }

  /** The requests of a job that were answered with node information. */
  function Withheld(turns: seq<Turn>, id: JobId): set<RequestId> {
    if turns == [] then {} else
    Withheld(Init(turns), id)
      + if Withholds(Run(INITIAL, Init(turns)), Last(turns), id) then {Last(turns).event.request} else {}
  }

  /** The requests of a job that are not answered yet, its local chunks included. */
  function Outstanding(flights: map<RequestId, Flight>, id: JobId): set<RequestId> {
    set r | r in flights && flights[r].job == id
  }

  /** The requests that one coordinator still has on record and the other has not. */
  function Unrecorded(s: Coordinator, t: Coordinator, id: JobId): set<RequestId> {
    Outstanding(t.flights, id) - Outstanding(s.flights, id)
  }

  lemma HandleWithholds(s: Coordinator, t: Coordinator, turn: Turn, id: JobId)
    requires Alike(s, t)
    ensures Unrecorded(Handle(s, turn.event), Handle(t, Heard(s, turn).event), id)
         == Unrecorded(s, t, id) + if Withholds(s, turn, id) then {turn.event.request} else {}
  {
    hide CompleteChunk, RetryChunk, Start;
    HandleFlights(s, turn.event);
    HandleFlights(t, Heard(s, turn).event);
  }

  /** Handling an event takes out the record of the request that it answers, and no other. */
  lemma HandleFlights(s: Coordinator, event: Event)
    ensures Handle(s, event).flights
         == if event.ReplyArrives? || event.RequestFails? then s.flights - {event.request} else s.flights
    ensures Handle(s, event).nextRequest == s.nextRequest
  {
    hide Plan, Accepts, Without;
    assert event.ReplyArrives? || event.RequestFails? ==>
      event.request in s.flights || s.flights - {event.request} == s.flights;
  }

  lemma StepWithholds(s: Coordinator, t: Coordinator, turn: Turn, id: JobId)
    requires Alike(s, t) && KeysBelow(t.flights, t.nextRequest)
    ensures Unrecorded(Step(s, turn), Step(t, Heard(s, turn)), id)
         == Unrecorded(s, t, id) + if Withholds(s, turn, id) then {turn.event.request} else {}
  {
    hide Handle, Harvest, StuckReports, GivenUp, Take, Launched, Withholds;
    HandleAlike(s, t, turn);
    HandleWithholds(s, t, turn, id);
    HandleFlights(t, Heard(s, turn).event);
    var u, v := Handle(s, turn.event), Handle(t, Heard(s, turn).event);
    var taken := Harvest(u.jobs, u.nextJob, turn.resources);
    LaunchIs(u.flights, u.nextRequest, taken);
    LaunchIs(v.flights, v.nextRequest, taken);
  }

  lemma InvKeys(t: Traced)
    requires Inv(t)
    ensures KeysBelow(t.now.flights, t.now.nextRequest)
  {
    hide JobsOk, ReportsOk, TrueReport, Bounded;
  }

  /** What the jobs were never told about is what was answered with node information. */
  lemma {:induction false} WithheldIs(turns: seq<Turn>, id: JobId)
    requires PlausibleRun(turns)
    ensures Unrecorded(Run(INITIAL, turns), Run(INITIAL, HeardAll(turns)), id) == Withheld(turns, id)
  {
    hide Alike, Step, Heard, Withholds, Inv, Quiet, Plausible, Admissible, Unrecorded;
    if turns == [] {
      assert Unrecorded(INITIAL, INITIAL, id) == {} by {
        NothingUnrecorded(id);
      }
    } else {
      var early, heard := Init(turns), HeardAll(turns);
      WithheldIs(early, id);
      RunAlike(early);
      RunKeeps(HeardAll(early));
      var s, t := Run(INITIAL, early), Run(INITIAL, HeardAll(early));
      assert turns[..|turns| - 1] == early;
      InvKeys(TracedRun(HeardAll(early)));
      StepWithholds(s, t, Last(turns), id);
      assert heard[..|heard| - 1] == HeardAll(early) && heard[|heard| - 1] == Heard(s, Last(turns));
    }
  }

  lemma NothingUnrecorded(id: JobId)
    ensures Unrecorded(INITIAL, INITIAL, id) == {}
  {
  }

  /** Flights of a live job are as many as their requests. */
  lemma {:induction false} AirIsOutstanding(flights: map<RequestId, Flight>, live: set<JobId>, id: JobId)
    requires TwinFree(flights, live) && id in live
    ensures |Air(flights, id)| == |Outstanding(flights, id)|
    decreases |flights|
  {
    hide Air, Outstanding, TwinFree;
    if r :| r in Outstanding(flights, id) {
      OutstandingWithout(flights, r, live, id);
      AirWithout(flights, r, live, id);
      AirIsOutstanding(flights - {r}, live, id);
    } else {
      NothingOutstanding(flights, id);
    }
  }

  lemma OutstandingWithout(flights: map<RequestId, Flight>, r: RequestId, live: set<JobId>, id: JobId)
    requires TwinFree(flights, live) && r in Outstanding(flights, id)
    ensures Outstanding(flights - {r}, id) == Outstanding(flights, id) - {r}
    ensures r in flights && flights[r].job == id && TwinFree(flights - {r}, live) && |flights - {r}| < |flights|
  {
    assert (flights - {r}).Keys == flights.Keys - {r};
  }

  lemma NothingOutstanding(flights: map<RequestId, Flight>, id: JobId)
    requires Outstanding(flights, id) == {}
    ensures Air(flights, id) == {}
  {
    assert forall r | r in flights && flights[r].job == id :: r in Outstanding(flights, id);
  }

  lemma CountIsTrue(t: Traced, id: JobId)
    requires Inv(t) && id in t.now.jobs
    ensures t.now.jobs[id].inFlight == |Air(t.now.flights, id)| && TwinFree(t.now.flights, t.now.jobs.Keys)
  {
    hide ReportsOk, Bounded, TrueReport, PlanOk, ChunksOk, WorkersOk, AttemptsOk;
  }

  lemma UnionSize(x: set<RequestId>, y: set<RequestId>)
    requires y <= x
    ensures |x| == |y| + |x - y|
  {
    assert x == y + (x - y);
  }

  /** In every run, whatever was answered before: the chunks that a live job counts as running are those that are
      outstanding and those that were answered with node information. So the count is right exactly when no chunk of
      the job was answered so. */
  lemma OnlyNodeInfoBreaksTheCount(turns: seq<Turn>, id: JobId)
    requires PlausibleRun(turns) && id in Run(INITIAL, turns).jobs
    ensures var s := Run(INITIAL, turns);
      && s.jobs[id].inFlight == |Outstanding(s.flights, id)| + |Withheld(turns, id)|
      && (s.jobs[id].inFlight == |Outstanding(s.flights, id)| <==> Withheld(turns, id) == {})
  {
    hide Run, PlausibleRun, HeardAll, AdmissibleRun, Inv, Quiet, Withheld, TwinFree, Air;
    RunAlike(turns);
    RunKeeps(HeardAll(turns));
    WithheldIs(turns, id);
    var s, t := Run(INITIAL, turns), Run(INITIAL, HeardAll(turns));
    CountIsTrue(TracedRun(HeardAll(turns)), id);
    AirIsOutstanding(t.flights, t.jobs.Keys, id);
    UnionSize(Outstanding(t.flights, id), Outstanding(s.flights, id));
  }

  /** In every run a live job has nothing outstanding that could wake it exactly when all the chunks that it counts as
      running were answered with node information; so never, as long as none of its chunks was answered so. */
  lemma OnlyNodeInfoHangs(turns: seq<Turn>, id: JobId)
    requires PlausibleRun(turns) && id in Run(INITIAL, turns).jobs
    ensures var s := Run(INITIAL, turns);
      && (Outstanding(s.flights, id) == {} <==> |Withheld(turns, id)| == s.jobs[id].inFlight)
      && (Withheld(turns, id) == {} ==> Outstanding(s.flights, id) != {})
  {
    hide Run, PlausibleRun, HeardAll, AdmissibleRun, Inv, Withheld, Outstanding;
    OnlyNodeInfoBreaksTheCount(turns, id);
    RunAlike(turns);
    RunKeeps(HeardAll(turns));
  }

  // ---------- Jobs that hang for ever ----------

  /** The job is live and counts a chunk as running, but nothing is outstanding, and nothing waits or no worker does. */
  ghost predicate Stranded(s: Coordinator, id: JobId) {
    && id in s.jobs && id < s.nextJob
    && (s.jobs[id].pending == [] || s.jobs[id].availableWorkers == []) && s.jobs[id].inFlight > 0
    && forall r | r in s.flights :: r < s.nextRequest && s.flights[r].job != id
  }

  lemma HandleLeavesStranded(s: Coordinator, event: Event, id: JobId)
    requires Stranded(s, id)
    ensures Stranded(Handle(s, event), id)
  {
    hide Plan, Accepts, Without;
  }

  lemma NothingToTake(job: Job, resources: Resources, id: JobId)
    requires job.pending == [] || job.availableWorkers == []
    ensures TakenFlights(id, job, resources) == [] && Take(job, resources) == job
  {
    if job.availableWorkers == [] {
      assert Ranked([], resources) == [];
    }
    assert WithoutAll(job.availableWorkers, Ranked(job.availableWorkers, resources)[..0]) == job.availableWorkers;
  }

  lemma DispatchLeavesStranded(s: Coordinator, resources: Resources, id: JobId)
    requires Stranded(s, id)
    ensures Stranded(Dispatch(s, resources), id)
  {
    hide Take, TakenFlights, Harvest, Launched, StuckReports;
    var taken, u := Harvest(s.jobs, s.nextJob, resources), Dispatch(s, resources);
    NothingToTake(s.jobs[id], resources, id);
    HarvestIs(s.jobs, s.nextJob, resources);
    LaunchIs(s.flights, s.nextRequest, taken);
    forall r | r in u.flights ensures r < u.nextRequest && u.flights[r].job != id {
      assert r in s.flights || u.flights[r] in taken;
    }
  }

  /** A stranded job stays stranded, whatever happens. */
  lemma {:induction false} StrandedForever(s: Coordinator, turns: seq<Turn>, id: JobId)
    requires Stranded(s, id)
    ensures Stranded(Run(s, turns), id)
  {
    hide Stranded, Handle, Dispatch;
    if turns != [] {
      var before, last := turns[..|turns| - 1], turns[|turns| - 1];
      StrandedForever(s, before, id);
      HandleLeavesStranded(Run(s, before), last.event, id);
      DispatchLeavesStranded(Handle(Run(s, before), last.event), last.resources, id);
    }
  }

  /** Whatever happens from here, the job stays live and nothing of it is ever outstanding. */
  ghost predicate HangsForever(s: Coordinator, id: JobId) {
    forall later: seq<Turn> :: id in Run(s, later).jobs && Outstanding(Run(s, later).flights, id) == {}
  }

  /** Resources that make one worker eligible. */
  function Offering(worker: Worker): Resources {
    var snapshot := Snapshot(false, Finite(1.0));
    match worker
    case Local => Resources(snapshot, map[])
    case Remote(peer) => Resources(snapshot, map[peer := Observation(snapshot, 0.0, NODE_PROTOCOL_VERSION)])
  }

  lemma WorkerOffered(id: JobId, job: Job)
    requires NoDuplicates(job.availableWorkers) && job.availableWorkers != [] && job.pending != []
    ensures TakenFlights(id, job, Offering(job.availableWorkers[0])) != []
  {
    var worker := job.availableWorkers[0];
    var resources := Offering(worker);
    assert Eligible(worker, resources);
    DispatchIsGreedy(id, job, resources);
    assert worker in EligibleSet(job.availableWorkers, resources);
  }

  /** A turn in which nothing happens but that a waiting worker has capacity again. */
  lemma WorkerReturns(s: Coordinator, id: JobId)
    requires id in s.jobs && id < s.nextJob && KeysBelow(s.flights, s.nextRequest)
    requires NoDuplicates(s.jobs[id].availableWorkers) && s.jobs[id].availableWorkers != [] && s.jobs[id].pending != []
    ensures Outstanding(Run(s, [Turn(Tick, Offering(s.jobs[id].availableWorkers[0]))]).flights, id) != {}
  {
    hide Take, TakenFlights, Harvest, Launched, StuckReports, Offering;
    var resources := Offering(s.jobs[id].availableWorkers[0]);
    var turns, taken := [Turn(Tick, resources)], Harvest(s.jobs, s.nextJob, resources);
    WorkerOffered(id, s.jobs[id]);
    var f := TakenFlights(id, s.jobs[id], resources)[0];
    assert f in TakenFlights(id, s.jobs[id], resources) && f.job == id by {
      FlightsOfJob(id, s.jobs[id], resources);
    }
    HarvestIs(s.jobs, s.nextJob, resources);
    var k :| 0 <= k < |taken| && taken[k] == f;
    LaunchIs(s.flights, s.nextRequest, taken);
    assert turns[..0] == [] && Run(s, turns) == Dispatch(s, resources);
    assert s.nextRequest + k in Outstanding(Run(s, turns).flights, id);
  }

  lemma LiveWorkers(t: Traced, id: JobId)
    requires Inv(t) && id in t.now.jobs
    ensures id < t.now.nextJob && NoDuplicates(t.now.jobs[id].availableWorkers)
  {
    hide FlightsOk, ReportsOk, Bounded, TrueReport, PlanOk, ChunksOk, AttemptsOk;
  }

  /** When a job hangs for ever: a live job of any run does, whatever happens later, exactly when all the chunks that
      it counts as running were answered with node information, and no chunk of it waits or no worker does. */
  lemma WhenAJobHangs(turns: seq<Turn>, id: JobId)
    requires PlausibleRun(turns) && id in Run(INITIAL, turns).jobs
    ensures var s := Run(INITIAL, turns);
      HangsForever(s, id) <==>
        && |Withheld(turns, id)| == s.jobs[id].inFlight
        && (s.jobs[id].pending == [] || s.jobs[id].availableWorkers == [])
  {
    hide Run, TracedRun, PlausibleRun, HeardAll, AdmissibleRun, Inv, Withheld, HangsForever, Outstanding;
    var s, t := Run(INITIAL, turns), TracedRun(HeardAll(turns));
    OnlyNodeInfoHangs(turns, id);
    RunAlike(turns);
    RunKeeps(HeardAll(turns));
    LiveWorkers(t, id);
    InvKeys(t);
    FewerKeys(s, t.now);
    if |Withheld(turns, id)| != s.jobs[id].inFlight {
      HangsFromNow(s, id);
    } else if s.jobs[id].pending == [] || s.jobs[id].availableWorkers == [] {
      NothingIsOutstanding(s, id);
      StrandedHangs(s, id);
    } else {
      WorkerReturns(s, id);
      HangsLater(s, id, [Turn(Tick, Offering(s.jobs[id].availableWorkers[0]))]);
    }
  }

  lemma FewerKeys(s: Coordinator, t: Coordinator)
    requires Alike(s, t) && KeysBelow(t.flights, t.nextRequest)
    ensures KeysBelow(s.flights, s.nextRequest)
  {
  }

  lemma HangsFromNow(s: Coordinator, id: JobId)
    ensures HangsForever(s, id) ==> Outstanding(s.flights, id) == {}
  {
    assert Run(s, []) == s;
  }

  lemma HangsLater(s: Coordinator, id: JobId, later: seq<Turn>)
    ensures HangsForever(s, id) ==> Outstanding(Run(s, later).flights, id) == {}
  {
  }

  lemma StrandedHangs(s: Coordinator, id: JobId)
    requires Stranded(s, id)
    ensures HangsForever(s, id)
  {
    hide Run;
    forall later: seq<Turn> ensures id in Run(s, later).jobs && Outstanding(Run(s, later).flights, id) == {} {
      StrandedForever(s, later, id);
    }
  }

  lemma NothingIsOutstanding(s: Coordinator, id: JobId)
    requires Outstanding(s.flights, id) == {} && id in s.jobs && id < s.nextJob && KeysBelow(s.flights, s.nextRequest)
    requires s.jobs[id].inFlight > 0 && (s.jobs[id].pending == [] || s.jobs[id].availableWorkers == [])
    ensures Stranded(s, id)
  {
    forall r | r in s.flights ensures s.flights[r].job != id {
      assert r !in Outstanding(s.flights, id);
    }
  }

  // ---------- A job with a withheld chunk does not finish ----------

  /** The job waits for a chunk that it will not be told about, or has failed. */
  ghost predicate Incomplete(t: Coordinator, r: RequestId, id: JobId) {
    && id < t.nextJob && r < t.nextRequest
    && (id in t.jobs ==> r in t.flights && t.flights[r].job == id)
    && forall report | report in t.reports :: report.job == id ==> report.Failed?
  }

  /** With another chunk still in flight the last result does not complete the job. */
  lemma NotTheLastChunk(t: Traced, q: RequestId, r: RequestId, reply: Reply)
    requires Inv(t) && q in t.now.flights && r in t.now.flights && q != r
    requires t.now.flights[q].job == t.now.flights[r].job && t.now.flights[q].job in t.now.jobs
    requires Honest(t.now.flights[q], reply)
    requires var f := t.now.flights[q];
      Accepts(t.now.jobs[f.job], if f.worker.Local? then None else Some(f.chunk), reply)
    ensures var job := t.now.jobs[t.now.flights[q].job]; job.completedChunks + 1 != job.totalChunks
  {
    hide Inv, JobOk, TwinFree;
    var f, g := t.now.flights[q], t.now.flights[r];
    LiveFlight(t, q);
    LiveFlight(t, r);
    var l := LiveJob(t, f.job);
    JobPlanOk(f.job, l);
    FlightRows(f.job, l, f);
    AcceptedRows(t.now.jobs[f.job], f, reply);
    CompleteKeeps(f.job, l, f, reply.checksum);
    CountIsTrue(t, f.job);
    var m := Completed(l, f, reply.checksum);
    assert g in m.air by {
      hide *;
      NoTwin(t.now.flights, t.now.jobs.Keys, q, r);
    }
    ChunkLeft(f.job, m, g);
  }

  lemma AcceptedRows(job: Job, f: Flight, reply: Reply)
    requires Accepts(job, if f.worker.Local? then None else Some(f.chunk), reply) && Honest(f, reply)
    requires f.chunk.rowEnd < 0x1_0000 && f.size == job.size
    requires ValidChunkTask(ChunkTask(f.size, f.chunk.rowStart, f.chunk.rowEnd))
    ensures reply.checksum == ChunkChecksum(f.size, f.chunk.rowStart, f.chunk.rowEnd)
  {
    hide ChunkChecksum;
  }

  lemma NoTwin(flights: map<RequestId, Flight>, live: set<JobId>, q: RequestId, r: RequestId)
    requires TwinFree(flights, live) && q in flights && r in flights && q != r && flights[q].job in live
    ensures flights[q] != flights[r]
  {
  }

  lemma ChunkLeft(id: JobId, l: Live, f: Flight)
    requires JobOk(id, l) && f in l.air
    ensures l.job.completedChunks != l.job.totalChunks
  {
    hide PlanOk, WorkersOk, AttemptsOk;
    assert f.chunk.index in AirIndices(l.air) && f.chunk.index in Below(l.job.totalChunks);
    SizeOfBelow(l.job.totalChunks);
    if |l.trace.done| == l.job.totalChunks {
      SubsetOfSameSize(l.trace.done, Below(l.job.totalChunks));
    }
  }

  lemma FinishedIsReported(s: Coordinator, id: JobId)
    requires ReportsOk(s) && id in s.jobs
    ensures id < s.nextJob && forall report | report in s.reports :: report.job != id
  {
    assert id in Below(s.nextJob);
    forall report | report in s.reports ensures report.job != id {
      assert report.job in Reported(s.reports);
    }
  }

  /** An event that does not answer the request leaves its job incomplete. */
  lemma HandleLeavesIncomplete(t: Traced, turn: Turn, r: RequestId, id: JobId)
    requires Inv(t) && Admissible(t.now, turn) && Incomplete(t.now, r, id)
    requires turn.event.ReplyArrives? || turn.event.RequestFails? ==> turn.event.request != r
    ensures Incomplete(Handle(t.now, turn.event), r, id)
  {
    hide Inv, Plan, Honest, Without, Selection;
    var s := t.now;
    if turn.event.ReplyArrives? && turn.event.request in s.flights {
      var q, reply := turn.event.request, turn.event.reply;
      var f := s.flights[q];
      if f.job == id && id in s.jobs && Accepts(s.jobs[id], if f.worker.Local? then None else Some(f.chunk), reply) {
        NotTheLastChunk(t, q, r, reply);
      }
    }
  }

  lemma DispatchLeavesIncomplete(s: Coordinator, resources: Resources, r: RequestId, id: JobId)
    requires Incomplete(s, r, id) && KeysBelow(s.flights, s.nextRequest)
    ensures Incomplete(Dispatch(s, resources), r, id)
  {
    hide Take, TakenFlights, Harvest, Launched, StuckReports, GivenUp;
    LaunchIs(s.flights, s.nextRequest, Harvest(s.jobs, s.nextJob, resources));
    StuckReportsAre(s.jobs, s.nextJob, resources);
  }

  lemma StepLeavesIncomplete(t: Traced, turn: Turn, r: RequestId, id: JobId)
    requires Inv(t) && Admissible(t.now, turn) && Incomplete(t.now, r, id)
    requires turn.event.ReplyArrives? || turn.event.RequestFails? ==> turn.event.request != r
    ensures Incomplete(Step(t.now, turn), r, id)
  {
    hide Inv, Incomplete, Handle, Dispatch, Admissible;
    HandleLeavesIncomplete(t, turn, r, id);
    HandleKeeps(t, turn);
    InvKeys(TracedHandle(t, turn.event));
    DispatchLeavesIncomplete(Handle(t.now, turn.event), turn.resources, r, id);
  }

  /** The number of a request that is no longer on record is not used again. */
  lemma StaysOffRecord(s: Coordinator, turn: Turn, r: RequestId)
    requires KeysBelow(s.flights, s.nextRequest) && r < s.nextRequest
    requires r !in s.flights || ((turn.event.ReplyArrives? || turn.event.RequestFails?) && turn.event.request == r)
    ensures r !in Step(s, turn).flights
  {
    hide Handle, Harvest, StuckReports, GivenUp, Take, Launched;
    HandleFlights(s, turn.event);
    var h := Handle(s, turn.event);
    LaunchIs(h.flights, h.nextRequest, Harvest(h.jobs, h.nextJob, turn.resources));
  }

  lemma {:induction false} StaysIncomplete(turns: seq<Turn>, k: nat, id: JobId)
    requires PlausibleRun(turns) && k < |turns| && id in Run(INITIAL, turns[..k]).jobs
    requires Withholds(Run(INITIAL, turns[..k]), turns[k], id)
    ensures turns[k].event.request !in Run(INITIAL, turns).flights
    ensures turns[k].event.request < Run(INITIAL, turns).nextRequest
    ensures Incomplete(Run(INITIAL, HeardAll(turns)), turns[k].event.request, id)
    decreases |turns|
  {
    hide Inv, Incomplete, Step, Admissible, Plausible, Quiet, Run, HeardAll, Alike;
    var early, last, r := Init(turns), Last(turns), turns[k].event.request;
    RunAlike(early);
    RunAlike(turns);
    RunKeeps(HeardAll(early));
    var s, t := Run(INITIAL, early), TracedRun(HeardAll(early));
    InvKeys(t);
    FewerKeys(s, t.now);
    LastTurn(turns);
    if k == |turns| - 1 {
      WithheldIsIncomplete(s, t, last, id);
    } else {
      assert turns[..k] == early[..k] && turns[k] == early[k];
      StaysIncomplete(early, k, id);
    }
    HeardAdmissible(s, t.now, last);
    StepLeavesIncomplete(t, Heard(s, last), r, id);
    StaysOffRecord(s, last, r);
    NumbersNeverFall(s, last);
  }

  lemma LastTurn(turns: seq<Turn>)
    requires turns != []
    ensures var early, last, heard := Init(turns), Last(turns), HeardAll(Init(turns));
      && Run(INITIAL, turns) == Step(Run(INITIAL, early), last)
      && Run(INITIAL, HeardAll(turns)) == Step(Run(INITIAL, heard), Heard(Run(INITIAL, early), last))
  {
    hide Step, Heard;
    var heard := HeardAll(turns);
    assert turns[..|turns| - 1] == Init(turns);
    assert heard[..|heard| - 1] == HeardAll(Init(turns));
    assert heard[|heard| - 1] == Heard(Run(INITIAL, Init(turns)), Last(turns));
  }

  lemma NumbersNeverFall(s: Coordinator, turn: Turn)
    ensures s.nextRequest <= Step(s, turn).nextRequest
  {
    hide Handle, Harvest, StuckReports, GivenUp, Take, Launched;
    HandleFlights(s, turn.event);
  }

  lemma WithheldIsIncomplete(s: Coordinator, t: Traced, turn: Turn, id: JobId)
    requires Alike(s, t.now) && Inv(t) && Withholds(s, turn, id) && id in s.jobs
    ensures Incomplete(t.now, turn.event.request, id) && turn.event.request < s.nextRequest
  {
    hide JobsOk, Bounded, TrueReport, ReportsOk;
    FinishedIsReported(t.now, id);
  }

  /** A job of which a chunk was answered with node information while it was live is never reported as finished. */
  lemma WithheldNeverFinishes(turns: seq<Turn>, k: nat, id: JobId)
    requires PlausibleRun(turns) && k < |turns| && id in Run(INITIAL, turns[..k]).jobs
    requires Withholds(Run(INITIAL, turns[..k]), turns[k], id)
    ensures forall report | report in Run(INITIAL, turns).reports && report.job == id :: report.Failed?
  {
    hide Run, PlausibleRun, HeardAll, Withholds;
    StaysIncomplete(turns, k, id);
    RunAlike(turns);
  }

  // ---------- A run in which a job hangs ----------

  const LONE_PEER := Resources(
    Snapshot(true, Finite(0.0)),
    map[7 := Observation(Snapshot(false, Finite(1.0)), 0.0, NODE_PROTOCOL_VERSION)])

  /** A start command for one chunk on one peer, which then answers with node information. */
  function HangingTurns(): seq<Turn> {
    [Turn(StartJob(16, 16, [Remote(7)]), LONE_PEER), Turn(ReplyArrives(0, NodeInfoReply), LONE_PEER)]
  }

  const ONE_CHUNK := ChunkPlan(0, 0, 16, 0)
  const ONE_JOB := Job(16, 1, 0, 0, [ONE_CHUNK], [Remote(7)], 0)

  lemma OneChunkPlanned()
    ensures Start(INITIAL, 16, 16, [Remote(7)]) == INITIAL.(nextJob := 1, jobs := map[0 := ONE_JOB])
  {
    assert TotalChunks(16, 16) == 1;
    assert PlannedChunk(16, 16, 0) == ONE_CHUNK;
    assert Plan(16, 16) == [ONE_CHUNK];
  }

  lemma OneChunkSent(s: Coordinator)
    requires s == INITIAL.(nextJob := 1, jobs := map[0 := ONE_JOB])
    ensures var u := Dispatch(s, LONE_PEER);
      && u.nextJob == 1 && u.nextRequest == 1
      && u.flights == map[0 := Flight(0, Remote(7), Started(ONE_CHUNK), 16)]
      && 0 in u.jobs && u.jobs[0].pending == [] && u.jobs[0].inFlight == 1
  {
    hide Take, TakenFlights;
    OneWorkerTakesIt(ONE_JOB, ONE_CHUNK);
    var flights := TakenFlights(0, ONE_JOB, LONE_PEER);
    assert Harvest(s.jobs, 0, LONE_PEER) == [];
    assert Harvest(s.jobs, 1, LONE_PEER) == flights;
    assert flights[..0] == [];
    assert Launched(map[], 0, flights[..0]) == map[];
  }

  lemma FirstTurn()
    ensures var s := Step(INITIAL, HangingTurns()[0]);
      && s.flights == map[0 := Flight(0, Remote(7), Started(ONE_CHUNK), 16)]
      && s.nextRequest == 1 && s.nextJob == 1
      && 0 in s.jobs && s.jobs[0].pending == [] && s.jobs[0].inFlight == 1
  {
    OneChunkPlanned();
    hide Start, Dispatch;
    OneChunkSent(Start(INITIAL, 16, 16, [Remote(7)]));
  }

  lemma RunOfTwo(s: Coordinator, x: Turn, y: Turn)
    ensures Run(s, [x, y]) == Step(Step(s, x), y)
  {
    hide Step;
    assert [x, y][..1] == [x] && [x][..0] == [];
    assert Run(s, [x]) == Step(Run(s, []), x);
  }

  /** Only the peer can be selected. */
  lemma PeerIsSelected()
    ensures Selection([Remote(7)], LONE_PEER)
  {
    assert Selectable(Remote(7), LONE_PEER) && !Selectable(Local, LONE_PEER);
  }

  /** A run that can happen and in which a job hangs for ever. */
  lemma NodeInfoCanHangAJob()
    ensures PlausibleRun(HangingTurns())
    ensures 0 in Run(INITIAL, HangingTurns()).jobs && HangsForever(Run(INITIAL, HangingTurns()), 0)
  {
    hide Step, Selection, HangsForever, Dispatch, Outstanding;
    var turns := HangingTurns();
    FirstTurn();
    RunOfTwo(INITIAL, turns[0], turns[1]);
    PeerIsSelected();
    assert Init(turns) == [turns[0]] && Init([turns[0]]) == [];
    assert Run(INITIAL, []) == INITIAL && Run(INITIAL, [turns[0]]) == Step(INITIAL, turns[0]);
    assert Plausible(INITIAL, turns[0]);
    assert PlausibleRun([]) && PlausibleRun([turns[0]]);
    InformationStrands(Step(INITIAL, turns[0]), turns[1]);
    StrandedHangs(Run(INITIAL, turns), 0);
  }

  lemma InformationStrands(s: Coordinator, turn: Turn)
    requires turn.event == ReplyArrives(0, NodeInfoReply)
    requires s.flights.Keys == {0} && s.nextRequest == 1 && s.nextJob == 1
    requires 0 in s.jobs && s.jobs[0].pending == [] && s.jobs[0].inFlight == 1
    ensures Stranded(Step(s, turn), 0)
  {
    hide Dispatch, CompleteChunk;
    DispatchLeavesStranded(DeliverReply(s, 0, NodeInfoReply), turn.resources, 0);
  }

  lemma OneWorkerTakesIt(job: Job, chunk: ChunkPlan)
    requires job.pending == [chunk] && job.availableWorkers == [Remote(7)]
    ensures Eligible(Remote(7), LONE_PEER)
    ensures Ranked(job.availableWorkers, LONE_PEER) == [Remote(7)]
    ensures Take(job, LONE_PEER) == job.(pending := [], availableWorkers := [], inFlight := job.inFlight + 1)
    ensures TakenFlights(0, job, LONE_PEER) == [Flight(0, Remote(7), Started(chunk), job.size)]
  {
    assert EligibleOf(job.availableWorkers[1..], LONE_PEER) == [];
    assert EligibleOf(job.availableWorkers, LONE_PEER) == [Remote(7)];
    assert SortByScore([Remote(7)][1..], LONE_PEER) == [];
    assert Ranked(job.availableWorkers, LONE_PEER) == [Remote(7)];
    assert WithoutAll([Remote(7)], [Remote(7)][..0]) == [Remote(7)];
    assert WithoutAll([Remote(7)], [Remote(7)]) == [];
  }
}

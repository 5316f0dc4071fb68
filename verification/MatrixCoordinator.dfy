/** The distributed-matrix coordinator with its mutable state, proved against the step functions of `MatrixModel`. */
module MatrixCoordinator {
  import opened Core
  import opened Words
  import opened Executor
  import opened MatrixModel
  import opened MatrixDispatch

  /** `DistributedMatrixJob`. */
  class DistributedMatrixJob {
    var size: U16
    var totalChunks: nat
    var completedChunks: nat
    var checksum: U64
    var pending: seq<ChunkPlan>
    var availableWorkers: seq<Worker>
    var inFlight: nat

    ghost function View(): Job
      reads this
    {
      Job(size, totalChunks, completedChunks, checksum, pending, availableWorkers, inFlight)
    }

    constructor (size: U16, pending: seq<ChunkPlan>, workers: seq<Worker>)
      ensures View() == Job(size, |pending|, 0, 0, pending, workers, 0)
    {
      this.size := size;
      this.totalChunks := |pending|;
      this.completedChunks := 0;
      this.checksum := 0;
      this.pending := pending;
      this.availableWorkers := workers;
      this.inFlight := 0;
    }

    /** `take_matrix_dispatches`. */
    method TakeDispatches(id: JobId, resources: Resources) returns (dispatches: seq<Flight>)
      modifies this
      ensures View() == Take(old(View()), resources)
      ensures dispatches == TakenFlights(id, old(View()), resources)
    {
      ghost var before := View();
      var ranked := Ranked(availableWorkers, resources);
      dispatches := [];
      var i := 0;
      while i < |ranked| && pending != []
        invariant i <= |ranked| && i <= |before.pending|
        invariant View() == TakeFirst(before, ranked, i)
        invariant dispatches == FirstFlights(id, before, ranked, i)
      {
        var chunk := pending[0];
        pending := pending[1..];
        availableWorkers := Without(availableWorkers, ranked[i]);
        assert ranked[..i + 1][..i] == ranked[..i];
        inFlight := inFlight + 1;
        dispatches := dispatches + [Flight(id, ranked[i], chunk.(attempts := chunk.attempts + 1), size)];
        i := i + 1;
      }
    }

    /** Books the result of one chunk. */
    method AddResult(worker: Worker, partial: U64)
      modifies this
      ensures View() == WithResult(old(View()), worker, partial)
    {
      hide Xor;
      inFlight := if inFlight == 0 then 0 else inFlight - 1;
      availableWorkers := availableWorkers + [worker];
      completedChunks := completedChunks + 1;
      checksum := XorWord(checksum, partial);
    }

    /** Gives back the chunk of a failed worker, first in the queue, unless it may not be tried again. */
    method TakeBack(worker: Worker, chunk: ChunkPlan)
      modifies this
      ensures chunk.attempts < MAX_MATRIX_CHUNK_ATTEMPTS ==> View() == Requeued(old(View()), worker, chunk)
    {
      inFlight := if inFlight == 0 then 0 else inFlight - 1;
      availableWorkers := Without(availableWorkers, worker);
      if chunk.attempts < MAX_MATRIX_CHUNK_ATTEMPTS {
        pending := [chunk] + pending;
      }
    }

    /** No worker can be used although chunks wait and none is running. */
    method IsStuck(resources: Resources) returns (stuck: bool)
      ensures stuck == Stuck(View(), resources)
    {
      if pending == [] || inFlight > 0 {
        return false;
      }
      for i := 0 to |availableWorkers|
        invariant forall k | 0 <= k < i :: !Eligible(availableWorkers[k], resources)
      {
        if WorkerScore(availableWorkers[i], resources).Some? {
          return false;
        }
      }
      return true;
    }
  }

  class MatrixCoordinator {
    var jobs: map<JobId, DistributedMatrixJob>
    var flights: map<RequestId, Flight>
    var nextJob: JobId
    var nextRequest: RequestId
    var reports: seq<Report>

    /** No two entries share a job, and every job got its number from the counter. */
    ghost predicate Valid()
      reads this
    {
      && (forall i, j | i in jobs && j in jobs && i != j :: jobs[i] != jobs[j])
      && (forall i | i in jobs :: i < nextJob)
    }

    ghost function Objects(): set<DistributedMatrixJob>
      reads this
    {
      set id | id in jobs :: jobs[id]
    }

    ghost function State(): Coordinator
      reads this, Objects()
    {
      Coordinator(map id | id in jobs :: jobs[id].View(), flights, nextJob, nextRequest, reports)
    }

    lemma JobsAreNumbered()
      requires Valid()
      ensures forall id | id in State().jobs :: id < nextJob
    {
    }

    /** Only one job, and perhaps the flights, changed. */
    twostate lemma OneJobChanged(id: JobId)
      requires old(Valid()) && id in jobs && jobs == old(jobs)
      requires nextJob == old(nextJob) && nextRequest == old(nextRequest) && reports == old(reports)
      requires forall k | k in jobs && jobs[k] != jobs[id] :: unchanged(jobs[k])
      ensures Valid()
      ensures State() == old(State()).(flights := flights, jobs := old(State()).jobs[id := jobs[id].View()])
    {
    }

    /** No job changed. */
    twostate lemma NoJobChanged()
      requires old(Valid()) && jobs == old(jobs)
      requires nextJob == old(nextJob) && nextRequest == old(nextRequest) && reports == old(reports)
      requires forall k | k in jobs :: unchanged(jobs[k])
      ensures Valid()
      ensures State() == old(State()).(flights := flights)
    {
    }

    constructor ()
      ensures Valid() && State() == INITIAL
    {
      jobs := map[];
      flights := map[];
      nextJob := 0;
      nextRequest := 0;
      reports := [];
    }

    /** `eligible_matrix_workers`: this node, then the peers in any order, sorted by score. */
    static method EligibleMatrixWorkers(resources: Resources) returns (workers: seq<Worker>)
      ensures Selection(workers, resources) && Descending(ScoresOf(workers, resources))
    {
      workers := [];
      if Selectable(Local, resources) {
        workers := Insert(Local, workers, resources);
      }
      var peers := resources.peers.Keys;
      while peers != {}
        invariant peers <= resources.peers.Keys
        invariant NoDuplicates(workers)
        invariant forall w :: w in workers <==>
          Selectable(w, resources) && (w.Local? || w.peer !in peers)
        invariant forall i, j | 0 <= i < j < |workers| :: AtLeast(workers[i], workers[j], resources)
        decreases |peers|
      {
        var peer :| peer in peers;
        peers := peers - {peer};
        if Selectable(Remote(peer), resources) {
          InsertIs(Remote(peer), workers, resources);
          workers := Insert(Remote(peer), workers, resources);
        }
      }
      SelectionDescends(workers, resources);
    }

    /** The chunk queue of a new job. */
    static method BuildPlan(size: U16, chunkRows: U16) returns (pending: seq<ChunkPlan>)
      requires chunkRows > 0
      ensures pending == Plan(size, chunkRows)
    {
      var totalChunks := (size + chunkRows - 1) / chunkRows;
      pending := [];
      for index := 0 to totalChunks
        invariant pending == Plan(size, chunkRows)[..index]
      {
        var rowStart := index * chunkRows;
        pending := pending + [ChunkPlan(index, rowStart, Min(rowStart + chunkRows, size), 0)];
      }
    }

    /** `start_distributed_matrix`. */
    method StartDistributedMatrix(size: U16, chunkRows: U16, workers: seq<Worker>)
      requires Valid()
      modifies this
      ensures Valid() && fresh(Objects() - old(Objects()))
      ensures State() == Start(old(State()), size, chunkRows, workers)
    {
      hide Valid, State, Plan;
      if !(MIN_MATRIX_SIZE <= size <= MAX_DISTRIBUTED_MATRIX_SIZE) || !(1 <= chunkRows <= MAX_MATRIX_CHUNK_ROWS) {
        return;
      }
      var id := TakeJobNumber();
      if workers == [] {
        Announce(Failed(id, NoEligibleResources));
        return;
      }
      var pending := BuildPlan(size, chunkRows);
      InsertJob(id, pending, size, workers);
    }

    /** The start command: the workers are chosen from what is known about the peers. */
    method StartCommand(size: U16, chunkRows: U16, resources: Resources) returns (workers: seq<Worker>)
      requires Valid()
      modifies this
      ensures Valid() && fresh(Objects() - old(Objects()))
      ensures Selection(workers, resources) && State() == Start(old(State()), size, chunkRows, workers)
    {
      hide Valid, State, Selection, Start;
      workers := EligibleMatrixWorkers(resources);
      StartDistributedMatrix(size, chunkRows, workers);
    }

    method TakeJobNumber() returns (id: JobId)
      requires Valid()
      modifies this
      ensures Valid() && jobs == old(jobs) && id == old(nextJob) == old(State()).nextJob < nextJob
      ensures State() == old(State()).(nextJob := id + 1)
    {
      id := nextJob;
      nextJob := nextJob + 1;
    }

    method Announce(report: Report)
      requires Valid()
      modifies this
      ensures Valid() && jobs == old(jobs)
      ensures State() == old(State()).(reports := old(State()).reports + [report])
    {
      reports := reports + [report];
    }

    /** Stores a new job under a new number. */
    method InsertJob(id: JobId, pending: seq<ChunkPlan>, size: U16, workers: seq<Worker>)
      requires Valid() && id < nextJob
      modifies this
      ensures Valid() && fresh(Objects() - old(Objects()))
      ensures State() == old(State()).(
        jobs := old(State()).jobs[id := Job(size, |pending|, 0, 0, pending, workers, 0)])
    {
      var job := new DistributedMatrixJob(size, pending, workers);
      hide Valid, State;
      Adopt(id, job);
    }

    method Adopt(id: JobId, job: DistributedMatrixJob)
      requires Valid() && job !in Objects() && id < nextJob
      modifies this
      ensures Valid() && Objects() <= old(Objects()) + {job}
      ensures State() == old(State()).(jobs := old(State()).jobs[id := job.View()])
    {
      jobs := jobs[id := job];
    }

    /** Takes a job out of the map and reports it. */
    method RemoveAndReport(id: JobId, report: Report)
      requires Valid()
      modifies this
      ensures Valid() && forall k | k in jobs :: k in old(jobs) && jobs[k] == old(jobs[k])
      ensures State() == old(State()).(jobs := old(State()).jobs - {id}, reports := old(reports) + [report])
    {
      jobs := jobs - {id};
      reports := reports + [report];
    }

    /** `fail_matrix_job`. */
    method FailMatrixJob(id: JobId, reason: Reason)
      requires Valid()
      modifies this
      ensures Valid() && forall k | k in jobs :: k in old(jobs) && jobs[k] == old(jobs[k])
      ensures State() == FailJob(old(State()), id, reason)
    {
      if id in jobs {
        RemoveAndReport(id, Failed(id, reason));
      }
    }

    /** `retry_matrix_chunk`. */
    method RetryMatrixChunk(id: JobId, failedWorker: Worker, chunk: ChunkPlan)
      requires Valid()
      modifies this, Objects()
      ensures Valid() && forall k | k in jobs :: k in old(jobs) && jobs[k] == old(jobs[k])
      ensures State() == RetryChunk(old(State()), id, failedWorker, chunk)
    {
      ghost var before := State();
      var failure := None;
      if id in jobs {
        var job := jobs[id];
        job.TakeBack(failedWorker, chunk);
        if chunk.attempts >= MAX_MATRIX_CHUNK_ATTEMPTS {
          failure := Some(AttemptsExhausted);
        } else if job.availableWorkers == [] && job.inFlight == 0 {
          failure := Some(NoHealthyWorkerRemains);
        }
        OneJobChanged(id);
        UpdateThenRemove(before.jobs, id, job.View());
      }
      hide State, Valid, Objects;
      if failure.Some? {
        FailMatrixJob(id, failure.value);
      }
    }

    /** `fail_or_retry_matrix_chunk`. */
    method FailOrRetryMatrixChunk(id: JobId, worker: Worker, chunk: Option<ChunkPlan>)
      requires Valid()
      modifies this, Objects()
      ensures Valid() && forall k | k in jobs :: k in old(jobs) && jobs[k] == old(jobs[k])
      ensures State() == FailOrRetry(old(State()), id, worker, chunk)
    {
      if worker.Remote? && chunk.Some? {
        RetryMatrixChunk(id, worker, chunk.value);
      } else {
        FailMatrixJob(id, ChunkNotRetryable);
      }
    }

    /** `complete_matrix_chunk`. */
    method CompleteMatrixChunk(id: JobId, worker: Worker, chunk: Option<ChunkPlan>, reply: Reply)
      requires Valid()
      modifies this, Objects()
      ensures Valid() && forall k | k in jobs :: k in old(jobs) && jobs[k] == old(jobs[k])
      ensures State() == CompleteChunk(old(State()), id, worker, chunk, reply)
    {
      NothingToFail(State(), id, worker, chunk);
      hide FailOrRetry, Xor, XorWord;
      if !reply.ChunkReply? {
        FailOrRetryMatrixChunk(id, worker, chunk);
        return;
      }
      if id in jobs {
        var job := jobs[id];
        if reply.size != job.size {
          FailOrRetryMatrixChunk(id, worker, chunk);
          return;
        }
        if chunk.Some? && (reply.rowStart != chunk.value.rowStart || reply.rowEnd != chunk.value.rowEnd) {
          FailOrRetryMatrixChunk(id, worker, chunk);
          return;
        }
        job.AddResult(worker, reply.checksum);
        OneJobChanged(id);
        UpdateThenRemove(old(State()).jobs, id, job.View());
        hide State, Valid, Objects;
        if job.completedChunks == job.totalChunks {
          RemoveAndReport(id, Finished(id, job.checksum, job.size, job.totalChunks));
        }
      }
    }

    /** A reply, or the completion of a local chunk. */
    method HandleReply(request: RequestId, reply: Reply)
      requires Valid()
      modifies this, Objects()
      ensures Valid() && forall k | k in jobs :: k in old(jobs) && jobs[k] == old(jobs[k])
      ensures State() == DeliverReply(old(State()), request, reply)
    {
      if request in flights {
        var flight := flights[request];
        flights := flights - {request};
        hide CompleteChunk;
        NoJobChanged();
        if !reply.NodeInfoReply? {
          var chunk := if flight.worker.Local? then None else Some(flight.chunk);
          CompleteMatrixChunk(flight.job, flight.worker, chunk, reply);
        }
      }
    }

    /** An outbound failure. */
    method HandleFailure(request: RequestId)
      requires Valid()
      modifies this, Objects()
      ensures Valid() && forall k | k in jobs :: k in old(jobs) && jobs[k] == old(jobs[k])
      ensures State() == DeliverFailure(old(State()), request)
    {
      if request in flights {
        var flight := flights[request];
        flights := flights - {request};
        hide RetryChunk;
        NoJobChanged();
        RetryMatrixChunk(flight.job, flight.worker, flight.chunk);
      }
    }

    /** The first loop of `dispatch_matrix_jobs`: every job takes what it can. */
    method TakeAllDispatches(resources: Resources) returns (dispatches: seq<Flight>, unavailable: seq<JobId>)
      requires Valid()
      modifies Objects()
      ensures Valid()
      ensures State() == old(State()).(jobs := TakenJobs(old(State()).jobs, resources))
      ensures dispatches == Harvest(old(State()).jobs, old(nextJob), resources)
      ensures unavailable == Unavailable(old(State()).jobs, old(nextJob), resources)
    {
      hide Take, TakenFlights, State, Valid, Objects, GivenUp, TakenBelow, TakenJobs, Harvest, Unavailable;
      ghost var before := State();
      dispatches, unavailable := [], [];
      JobsAreNumbered();
      TakenBelowEnds(before.jobs, nextJob, resources);
      for id := 0 to nextJob
        invariant Valid() && unchanged(this)
        invariant State() == before.(jobs := TakenBelow(before.jobs, id, resources))
        invariant dispatches == Harvest(before.jobs, id, resources)
        invariant unavailable == Unavailable(before.jobs, id, resources)
      {
        var taken, stuck := TakeFrom(id, resources);
        TakenBelowNext(before.jobs, id, resources);
        HarvestNext(before.jobs, id, resources);
        dispatches := dispatches + taken;
        if stuck {
          unavailable := unavailable + [id];
        }
      }
    }

    /** One round of that loop. */
    method TakeFrom(id: JobId, resources: Resources) returns (taken: seq<Flight>, stuck: bool)
      requires Valid()
      modifies Objects()
      ensures Valid()
      ensures taken == if id in old(State()).jobs then TakenFlights(id, old(State()).jobs[id], resources) else []
      ensures stuck == (id in old(State()).jobs && GivenUp(old(State()).jobs[id], resources))
      ensures State() == if id in old(State()).jobs
        then old(State()).(jobs := old(State()).jobs[id := Take(old(State()).jobs[id], resources)]) else old(State())
    {
      hide Take, TakenFlights, Stuck;
      taken, stuck := [], false;
      if id in jobs {
        taken := jobs[id].TakeDispatches(id, resources);
        stuck := jobs[id].IsStuck(resources);
        OneJobChanged(id);
      }
    }

    /** The second loop: the jobs that no worker can serve fail. */
    method FailUnavailable(unavailable: seq<JobId>)
      requires Valid()
      modifies this
      ensures Valid() && State() == FailedAll(old(State()), unavailable)
      ensures forall k | k in jobs :: k in old(jobs) && jobs[k] == old(jobs[k])
    {
      hide State, Valid, FailJob;
      for i := 0 to |unavailable|
        invariant Valid() && State() == FailedAll(old(State()), unavailable[..i])
        invariant forall k | k in jobs :: k in old(jobs) && jobs[k] == old(jobs[k])
      {
        assert unavailable[..i + 1][..i] == unavailable[..i];
        FailMatrixJob(unavailable[i], NoEligibleWorkerRemains);
      }
      assert unavailable[..|unavailable|] == unavailable;
    }

    /** The third loop: every dispatched chunk is sent off and recorded. */
    method LaunchAll(dispatches: seq<Flight>)
      requires Valid()
      modifies this
      ensures Valid() && jobs == old(jobs)
      ensures State() == old(State()).(
        flights := Launched(old(State()).flights, old(nextRequest), dispatches),
        nextRequest := old(nextRequest) + |dispatches|)
    {
      for i := 0 to |dispatches|
        invariant jobs == old(jobs) && nextJob == old(nextJob) && reports == old(reports)
        invariant flights == Launched(old(flights), old(nextRequest), dispatches[..i])
        invariant nextRequest == old(nextRequest) + i
      {
        assert dispatches[..i + 1][..i] == dispatches[..i];
        flights := flights[nextRequest := dispatches[i]];
        nextRequest := nextRequest + 1;
      }
      assert dispatches[..|dispatches|] == dispatches;
    }

    /** `dispatch_matrix_jobs`. */
    method DispatchMatrixJobs(resources: Resources)
      requires Valid()
      modifies this, Objects()
      ensures Valid() && forall k | k in jobs :: k in old(jobs) && jobs[k] == old(jobs[k])
      ensures State() == Dispatch(old(State()), resources)
    {
      ghost var before := State();
      assert forall id | id in before.jobs :: id < before.nextJob;
      FailingTheUnavailable(before, before.nextJob, resources);
      hide State, Valid, Take, GivenUp, Harvest, Unavailable, FailedAll, StuckReports, Launched, TakenJobs, KeptJobs;
      var dispatches, unavailable := TakeAllDispatches(resources);
      FailUnavailable(unavailable);
      LaunchAll(dispatches);
      DispatchedJobs(before, resources);
    }

    /** One turn of the event loop. */
    method TakeTurn(turn: Turn)
      requires Valid()
      modifies this, Objects()
      ensures Valid() && fresh(Objects() - old(Objects()))
      ensures State() == Step(old(State()), turn)
    {
      hide State, Valid, Start, DeliverReply, DeliverFailure, Dispatch;
      match turn.event {
        case StartJob(size, chunkRows, workers) => StartDistributedMatrix(size, chunkRows, workers);
        case ReplyArrives(request, reply) => HandleReply(request, reply);
        case RequestFails(request) => HandleFailure(request);
        case Tick =>
      }
      DispatchMatrixJobs(turn.resources);
    }
  }

  /** The counter bounds every job, so a dispatch visits them all. */
  lemma DispatchedJobs(s: Coordinator, resources: Resources)
    requires forall id | id in s.jobs :: id < s.nextJob
    ensures Dispatch(s, resources).jobs == KeptJobs(s.jobs, s.nextJob, resources)
  {
    hide Take, GivenUp;
  }

  /** The jobs that one dispatch gives up, in order. */
  function Unavailable(jobs: map<JobId, Job>, n: nat, resources: Resources): seq<JobId> {
    if n == 0 then [] else
    var last := if n - 1 in jobs && GivenUp(jobs[n - 1], resources) then [n - 1] else [];
    Unavailable(jobs, n - 1, resources) + last
  }

  function FailedAll(s: Coordinator, ids: seq<JobId>): Coordinator {
    if ids == [] then s
    else FailJob(FailedAll(s, ids[..|ids| - 1]), ids[|ids| - 1], NoEligibleWorkerRemains)
  }

  /** Every job after its share of one dispatch. */
  function TakenJobs(jobs: map<JobId, Job>, resources: Resources): map<JobId, Job> {
    map id | id in jobs :: Take(jobs[id], resources)
  }

  /** The jobs when those numbered below `n` had their share. */
  function TakenBelow(jobs: map<JobId, Job>, n: nat, resources: Resources): map<JobId, Job> {
    map id | id in jobs :: if id < n then Take(jobs[id], resources) else jobs[id]
  }

  lemma TakenBelowNext(jobs: map<JobId, Job>, n: nat, resources: Resources)
    ensures TakenBelow(jobs, n, resources).Keys == jobs.Keys
    ensures n in jobs ==> TakenBelow(jobs, n, resources)[n] == jobs[n]
    ensures TakenBelow(jobs, n + 1, resources)
         == if n in jobs then TakenBelow(jobs, n, resources)[n := Take(jobs[n], resources)]
            else TakenBelow(jobs, n, resources)
  {
    hide Take;
  }

  lemma HarvestNext(jobs: map<JobId, Job>, n: nat, resources: Resources)
    ensures Harvest(jobs, n + 1, resources)
         == Harvest(jobs, n, resources) + if n in jobs then TakenFlights(n, jobs[n], resources) else []
    ensures Unavailable(jobs, n + 1, resources)
         == Unavailable(jobs, n, resources) + if n in jobs && GivenUp(jobs[n], resources) then [n] else []
  {
    hide TakenFlights, GivenUp;
  }

  lemma TakenBelowEnds(jobs: map<JobId, Job>, n: nat, resources: Resources)
    requires forall id | id in jobs :: id < n
    ensures TakenBelow(jobs, 0, resources) == jobs && TakenBelow(jobs, n, resources) == TakenJobs(jobs, resources)
    ensures Harvest(jobs, 0, resources) == [] && Unavailable(jobs, 0, resources) == []
  {
    hide Take, TakenFlights, GivenUp;
  }

  /** The jobs without those below `n` that are given up. */
  function KeptJobs(jobs: map<JobId, Job>, n: nat, resources: Resources): map<JobId, Job> {
    map id | id in jobs && !(id < n && GivenUp(jobs[id], resources)) :: Take(jobs[id], resources)
  }

  lemma KeptNext(jobs: map<JobId, Job>, n: nat, resources: Resources)
    ensures KeptJobs(jobs, n + 1, resources)
         == if n in jobs && GivenUp(jobs[n], resources) then KeptJobs(jobs, n, resources) - {n}
            else KeptJobs(jobs, n, resources)
    ensures n in KeptJobs(jobs, n, resources) <==> n in jobs
    ensures KeptJobs(jobs, 0, resources) == TakenJobs(jobs, resources)
  {
    hide Take, GivenUp;
  }

  /** Failing the unavailable jobs leaves the others, and reports each once. */
  lemma {:induction false} FailingTheUnavailable(s: Coordinator, n: nat, resources: Resources)
    ensures FailedAll(s.(jobs := TakenJobs(s.jobs, resources)), Unavailable(s.jobs, n, resources))
         == s.(jobs := KeptJobs(s.jobs, n, resources), reports := s.reports + StuckReports(s.jobs, n, resources))
  {
    hide GivenUp, KeptJobs, TakenJobs;
    if n == 0 {
      KeptNext(s.jobs, 0, resources);
    } else {
      FailingTheUnavailable(s, n - 1, resources);
      KeptNext(s.jobs, n - 1, resources);
      var ids, before := Unavailable(s.jobs, n, resources), Unavailable(s.jobs, n - 1, resources);
      var reports := StuckReports(s.jobs, n - 1, resources);
      if n - 1 in s.jobs && GivenUp(s.jobs[n - 1], resources) {
        assert ids == before + [n - 1] && ids[..|ids| - 1] == before;
        assert s.reports + (reports + [Failed(n - 1, NoEligibleWorkerRemains)])
            == s.reports + reports + [Failed(n - 1, NoEligibleWorkerRemains)];
      } else {
        assert ids == before + [] == before && reports + [] == reports;
      }
    }
  }

  /** A job that is gone cannot fail. */
  lemma NothingToFail(s: Coordinator, id: JobId, worker: Worker, chunk: Option<ChunkPlan>)
    ensures id !in s.jobs ==> FailOrRetry(s, id, worker, chunk) == s
  {
  }

  lemma UpdateThenRemove(jobs: map<JobId, Job>, id: JobId, job: Job)
    ensures jobs[id := job] - {id} == jobs - {id}
  {
  }
}

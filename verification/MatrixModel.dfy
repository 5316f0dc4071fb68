/** The distributed-matrix coordinator of crates/swagri-node as a step system on values. */
module MatrixModel {
  import opened Core
  import opened Words
  import opened Executor

  type JobId = nat

  const MAX_MATRIX_CHUNK_ATTEMPTS := 3
  const REMOTE_RESOURCE_MAX_AGE := 20.0

  // ---------- Workers and what is known about their capacity ----------

  datatype Worker = Local | Remote(peer: PeerId)

  /** A 64-bit floating-point score. */
  datatype Score = NotANumber | NegativeInfinity | Finite(value: real) | PositiveInfinity

  datatype Snapshot = Snapshot(contributionPaused: bool, effectiveCpuScore: Score)

  datatype Observation = Observation(snapshot: Snapshot, age: real, protocolVersion: nat)

  datatype Resources = Resources(local: Snapshot, peers: map<PeerId, Observation>)

  predicate Positive(score: Score) {
    score.PositiveInfinity? || (score.Finite? && score.value > 0.0)
  }

  predicate Current(observation: Observation) {
    observation.age <= REMOTE_RESOURCE_MAX_AGE && observation.protocolVersion >= NODE_PROTOCOL_VERSION
  }

  /** The snapshot the scheduler may use for a worker. */
  function UsableSnapshot(worker: Worker, resources: Resources): Option<Snapshot> {
    match worker
    case Local => Some(resources.local)
    case Remote(peer) =>
      if peer in resources.peers && Current(resources.peers[peer]) then Some(resources.peers[peer].snapshot) else None
  }

  /** The filters of `eligible_matrix_workers`. */
  predicate Selectable(worker: Worker, resources: Resources) {
    var snapshot := UsableSnapshot(worker, resources);
    snapshot.Some? && !snapshot.value.contributionPaused && Positive(snapshot.value.effectiveCpuScore)
  }

  /** `matrix_worker_score`. */
  function WorkerScore(worker: Worker, resources: Resources): Option<real> {
    var snapshot := UsableSnapshot(worker, resources);
    if snapshot.Some? && !snapshot.value.contributionPaused && snapshot.value.effectiveCpuScore.Finite?
       && snapshot.value.effectiveCpuScore.value > 0.0
    then Some(snapshot.value.effectiveCpuScore.value)
    else None
  }

  predicate Eligible(worker: Worker, resources: Resources) {
    WorkerScore(worker, resources).Some?
  }

  /** At least as good: the order of both sorts, from the best score down. */
  predicate AtLeast(x: Worker, y: Worker, resources: Resources) {
    var a, b := UsableSnapshot(x, resources), UsableSnapshot(y, resources);
    a.Some? && b.Some? && ScoreAtLeast(a.value.effectiveCpuScore, b.value.effectiveCpuScore)
  }

  predicate ScoreAtLeast(a: Score, b: Score) {
    a.PositiveInfinity? || (a.Finite? && b.Finite? && a.value >= b.value)
  }

  /** Puts a worker before the first one that is no better, as a stable descending sort does. */
  function Insert(worker: Worker, ranked: seq<Worker>, resources: Resources): seq<Worker> {
    if ranked == [] || AtLeast(worker, ranked[0], resources) then [worker] + ranked
    else [ranked[0]] + Insert(worker, ranked[1..], resources)
  }

  function SortByScore(workers: seq<Worker>, resources: Resources): seq<Worker> {
    if workers == [] then [] else Insert(workers[0], SortByScore(workers[1..], resources), resources)
  }

  function EligibleOf(workers: seq<Worker>, resources: Resources): seq<Worker> {
    if workers == [] then []
    else if Eligible(workers[0], resources) then [workers[0]] + EligibleOf(workers[1..], resources)
    else EligibleOf(workers[1..], resources)
  }

  /** The candidates of one dispatch, best first. */
  function Ranked(workers: seq<Worker>, resources: Resources): seq<Worker> {
    SortByScore(EligibleOf(workers, resources), resources)
  }

  /** A result of `eligible_matrix_workers`; the order between equal scores is left open. */
  ghost predicate Selection(workers: seq<Worker>, resources: Resources) {
    && NoDuplicates(workers)
    && (forall w :: w in workers <==> Selectable(w, resources))
    && (forall i, j | 0 <= i < j < |workers| :: AtLeast(workers[i], workers[j], resources))
  }

  // ---------- Plans ----------

  datatype ChunkPlan = ChunkPlan(index: nat, rowStart: nat, rowEnd: nat, attempts: nat)

  predicate ValidPlan(size: nat, chunkRows: nat) {
    MIN_MATRIX_SIZE <= size <= MAX_DISTRIBUTED_MATRIX_SIZE && 1 <= chunkRows <= MAX_MATRIX_CHUNK_ROWS
  }

  function TotalChunks(size: nat, chunkRows: nat): nat
    requires chunkRows > 0
  {
    (size + chunkRows - 1) / chunkRows
  }

  function PlannedChunk(size: nat, chunkRows: nat, index: nat): ChunkPlan {
    var rowStart := index * chunkRows;
    ChunkPlan(index, rowStart, Min(rowStart + chunkRows, size), 0)
  }

  function Plan(size: nat, chunkRows: nat): (plan: seq<ChunkPlan>)
    requires chunkRows > 0
    ensures |plan| == TotalChunks(size, chunkRows)
  {
    seq(TotalChunks(size, chunkRows), i requires 0 <= i => PlannedChunk(size, chunkRows, i))
  }

  // ---------- Jobs ----------

  datatype Job = Job(
    size: U16,
    totalChunks: nat,
    completedChunks: nat,
    checksum: U64,
    pending: seq<ChunkPlan>,
    availableWorkers: seq<Worker>,
    inFlight: nat)

  /** A chunk that some worker is computing: the record kept for its reply, and the chunk request that was sent. */
  datatype Flight = Flight(job: JobId, worker: Worker, chunk: ChunkPlan, size: U16)

  function Without(workers: seq<Worker>, gone: Worker): seq<Worker> {
    if workers == [] then []
    else if workers[0] == gone then Without(workers[1..], gone)
    else [workers[0]] + Without(workers[1..], gone)
  }

  function WithoutAll(workers: seq<Worker>, gone: seq<Worker>): seq<Worker> {
    if gone == [] then workers else Without(WithoutAll(workers, gone[..|gone| - 1]), gone[|gone| - 1])
  }

  function Started(chunk: ChunkPlan): ChunkPlan {
    chunk.(attempts := chunk.attempts + 1)
  }

  /** The job after the first `n` ranked workers got the first `n` pending chunks. */
  function TakeFirst(job: Job, ranked: seq<Worker>, n: nat): Job
    requires n <= |ranked| && n <= |job.pending|
  {
    job.(pending := job.pending[n..],
         availableWorkers := WithoutAll(job.availableWorkers, ranked[..n]),
         inFlight := job.inFlight + n)
  }

  function FirstFlights(id: JobId, job: Job, ranked: seq<Worker>, n: nat): seq<Flight>
    requires n <= |ranked| && n <= |job.pending|
  {
    seq(n, i requires 0 <= i < n => Flight(id, ranked[i], Started(job.pending[i]), job.size))
  }

  /** `take_matrix_dispatches`: the i-th best worker gets the i-th pending chunk, as long as both last. */
  function Take(job: Job, resources: Resources): Job {
    var ranked := Ranked(job.availableWorkers, resources);
    TakeFirst(job, ranked, Min(|ranked|, |job.pending|))
  }

  function TakenFlights(id: JobId, job: Job, resources: Resources): seq<Flight> {
    var ranked := Ranked(job.availableWorkers, resources);
    FirstFlights(id, job, ranked, Min(|ranked|, |job.pending|))
  }

  /** Chunks wait, nothing is running, and no worker can be used. */
  predicate Stuck(job: Job, resources: Resources) {
    && job.pending != []
    && job.inFlight == 0
    && forall i | 0 <= i < |job.availableWorkers| :: !Eligible(job.availableWorkers[i], resources)
  }

  // ---------- The coordinator ----------

  datatype Reason =
    | NoEligibleResources | NoEligibleWorkerRemains | AttemptsExhausted | NoHealthyWorkerRemains | ChunkNotRetryable

  datatype Report =
    | Finished(job: JobId, checksum: U64, size: U16, chunks: nat)
    | Failed(job: JobId, reason: Reason)

  datatype Coordinator = Coordinator(
    jobs: map<JobId, Job>,
    flights: map<RequestId, Flight>,
    nextJob: JobId,
    nextRequest: RequestId,
    reports: seq<Report>)

  datatype Reply =
    | ChunkReply(checksum: U64, size: U16, rowStart: U16, rowEnd: U16)
    | OtherReply
    | FailureReply
    | NodeInfoReply

  /** `start_distributed_matrix`, given the workers it selected. */
  function Start(s: Coordinator, size: U16, chunkRows: U16, workers: seq<Worker>): Coordinator {
    if !ValidPlan(size, chunkRows) then s
    else if workers == [] then
      s.(nextJob := s.nextJob + 1, reports := s.reports + [Failed(s.nextJob, NoEligibleResources)])
    else
      var plan := Plan(size, chunkRows);
      s.(nextJob := s.nextJob + 1, jobs := s.jobs[s.nextJob := Job(size, |plan|, 0, 0, plan, workers, 0)])
  }

  /** `fail_matrix_job`. */
  function FailJob(s: Coordinator, id: JobId, reason: Reason): Coordinator {
    if id !in s.jobs then s else s.(jobs := s.jobs - {id}, reports := s.reports + [Failed(id, reason)])
  }

  /** The job with a failed worker dropped and its chunk first in the queue. */
  function Requeued(job: Job, worker: Worker, chunk: ChunkPlan): Job {
    job.(inFlight := SaturatingDecrement(job.inFlight),
         availableWorkers := Without(job.availableWorkers, worker),
         pending := [chunk] + job.pending)
  }

  /** `retry_matrix_chunk`. */
  function RetryChunk(s: Coordinator, id: JobId, worker: Worker, chunk: ChunkPlan): Coordinator {
    if id !in s.jobs then s
    else if chunk.attempts >= MAX_MATRIX_CHUNK_ATTEMPTS then FailJob(s, id, AttemptsExhausted)
    else
      var job := Requeued(s.jobs[id], worker, chunk);
      if job.availableWorkers == [] && job.inFlight == 0 then FailJob(s, id, NoHealthyWorkerRemains)
      else s.(jobs := s.jobs[id := job])
  }

  /** `fail_or_retry_matrix_chunk`. */
  function FailOrRetry(s: Coordinator, id: JobId, worker: Worker, chunk: Option<ChunkPlan>): Coordinator {
    if worker.Remote? && chunk.Some? then RetryChunk(s, id, worker, chunk.value)
    else FailJob(s, id, ChunkNotRetryable)
  }

  predicate Accepts(job: Job, chunk: Option<ChunkPlan>, reply: Reply) {
    && reply.ChunkReply?
    && reply.size == job.size
    && (chunk.Some? ==> reply.rowStart == chunk.value.rowStart && reply.rowEnd == chunk.value.rowEnd)
  }

  function WithResult(job: Job, worker: Worker, checksum: U64): Job {
    job.(inFlight := SaturatingDecrement(job.inFlight),
         availableWorkers := job.availableWorkers + [worker],
         completedChunks := job.completedChunks + 1,
         checksum := XorWord(job.checksum, checksum))
  }

  /** `complete_matrix_chunk`. */
  function CompleteChunk(s: Coordinator, id: JobId, worker: Worker, chunk: Option<ChunkPlan>,
      reply: Reply): Coordinator {
    if id !in s.jobs then s
    else if !Accepts(s.jobs[id], chunk, reply) then FailOrRetry(s, id, worker, chunk)
    else
      var job := WithResult(s.jobs[id], worker, reply.checksum);
      if job.completedChunks == job.totalChunks
      then s.(jobs := s.jobs - {id},
              reports := s.reports + [Finished(id, job.checksum, job.size, job.totalChunks)])
      else s.(jobs := s.jobs[id := job])
  }

  /** A reply to an outbound request, or the completion of a local chunk. A request without a record is ignored,
      and a node-information reply only updates the resource table. */
  function DeliverReply(s: Coordinator, request: RequestId, reply: Reply): Coordinator {
    if request !in s.flights then s else
    var flight := s.flights[request];
    var rest := s.(flights := s.flights - {request});
    if reply.NodeInfoReply? then rest
    else CompleteChunk(rest, flight.job, flight.worker, if flight.worker.Local? then None else Some(flight.chunk),
        reply)
  }

  /** The outbound failure of a remote request. */
  function DeliverFailure(s: Coordinator, request: RequestId): Coordinator {
    if request !in s.flights then s else
    var flight := s.flights[request];
    RetryChunk(s.(flights := s.flights - {request}), flight.job, flight.worker, flight.chunk)
  }

  /** The dispatches of the jobs numbered below `n`, in order. */
  function Harvest(jobs: map<JobId, Job>, n: nat, resources: Resources): seq<Flight> {
    if n == 0 then [] else
    var last := if n - 1 in jobs then TakenFlights(n - 1, jobs[n - 1], resources) else [];
    Harvest(jobs, n - 1, resources) + last
  }

  predicate GivenUp(job: Job, resources: Resources) {
    Stuck(Take(job, resources), resources)
  }

  function StuckReports(jobs: map<JobId, Job>, n: nat, resources: Resources): seq<Report> {
    if n == 0 then [] else
    var last := if n - 1 in jobs && GivenUp(jobs[n - 1], resources) then [Failed(n - 1,
        NoEligibleWorkerRemains)] else [];
    StuckReports(jobs, n - 1, resources) + last
  }

  /** Sends the flights in order, each under the next request number. */
  function Launched(flights: map<RequestId, Flight>, next: RequestId, taken: seq<Flight>): map<RequestId, Flight> {
    if taken == [] then flights else
    var last := |taken| - 1;
    Launched(flights, next, taken[..last])[next + last := taken[last]]
  }

  /** `dispatch_matrix_jobs`. */
  function Dispatch(s: Coordinator, resources: Resources): Coordinator {
    var taken := Harvest(s.jobs, s.nextJob, resources);
    Coordinator(
      map id | id in s.jobs && !GivenUp(s.jobs[id], resources) :: Take(s.jobs[id], resources),
      Launched(s.flights, s.nextRequest, taken),
      s.nextJob,
      s.nextRequest + |taken|,
      s.reports + StuckReports(s.jobs, s.nextJob, resources))
  }

  // ---------- Events and runs ----------

  datatype Event =
    | StartJob(size: U16, chunkRows: U16, workers: seq<Worker>)
    | ReplyArrives(request: RequestId, reply: Reply)
    | RequestFails(request: RequestId)
    | Tick

  /** One turn of the event loop: the event, and the resources its dispatch sees. */
  datatype Turn = Turn(event: Event, resources: Resources)

  function Handle(s: Coordinator, event: Event): Coordinator {
    match event
    case StartJob(size, chunkRows, workers) => Start(s, size, chunkRows, workers)
    case ReplyArrives(request, reply) => DeliverReply(s, request, reply)
    case RequestFails(request) => DeliverFailure(s, request)
    case Tick => s
  }

  function Step(s: Coordinator, turn: Turn): Coordinator {
    Dispatch(Handle(s, turn.event), turn.resources)
  }

  function Run(s: Coordinator, turns: seq<Turn>): Coordinator {
    if turns == [] then s else Step(Run(s, turns[..|turns| - 1]), turns[|turns| - 1])
  }

  const INITIAL := Coordinator(map[], map[], 0, 0, [])

  function ReplyOf(outcome: Outcome): Reply {
    match outcome
    case ChunkResult(checksum, size, rowStart, rowEnd) => ChunkReply(checksum, size, rowStart, rowEnd)
    case InvalidTask => FailureReply
  }

  /** What is assumed of a worker: a chunk result carries the checksum of the rows it names, and the local
      executor answers the very request it was given. A remote worker may otherwise answer anything but node
      information. */
  predicate Honest(flight: Flight, reply: Reply) {
    && !reply.NodeInfoReply?
    && (reply.ChunkReply? ==> reply.checksum == ChunkChecksum(reply.size, reply.rowStart, reply.rowEnd))
    && (flight.worker.Local? ==>
          && flight.chunk.rowStart < 0x1_0000 && flight.chunk.rowEnd < 0x1_0000
          && reply == ReplyOf(Executed(ChunkTask(flight.size, flight.chunk.rowStart, flight.chunk.rowEnd))))
  }

  ghost predicate Admissible(s: Coordinator, turn: Turn) {
    match turn.event
    case StartJob(_, _, workers) => Selection(workers, turn.resources)
    case ReplyArrives(request, reply) => request in s.flights ==> Honest(s.flights[request], reply)
    case RequestFails(request) => request in s.flights ==> s.flights[request].worker.Remote?
    case Tick => true
  }

  ghost predicate AdmissibleRun(s: Coordinator, turns: seq<Turn>) {
    turns == [] ||
    (AdmissibleRun(s, turns[..|turns| - 1]) && Admissible(Run(s, turns[..|turns| - 1]), turns[|turns| - 1]))
  }
}

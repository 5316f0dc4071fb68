/** The invariant of one live job: its record in the coordinator, its history, and its chunks in flight. */
module MatrixInvariant {
  import opened Core
  import opened Words
  import opened Executor
  import opened MatrixModel
  import opened MatrixPlan

  /** What happened to a job so far. */
  datatype Trace = Trace(
    size: nat,
    plan: seq<ChunkPlan>,
    workers: set<Worker>,            // selected when the job started
    done: set<nat>,                  // indices of completed chunks
    failed: set<Worker>,             // workers whose request failed
    tried: map<nat, seq<Worker>>,    // every worker a chunk was sent to, in order
    dispatched: nat)                 // how many times a chunk was sent

  /** A job together with its history and its chunks in flight. */
  datatype Live = Live(job: Job, trace: Trace, air: set<Flight>)

  function Tried(trace: Trace, i: nat): seq<Worker> {
    if i in trace.tried then trace.tried[i] else []
  }

  function Below(n: nat): (r: set<nat>)
    ensures forall i: nat :: i in r <==> i < n
  {
    if n == 0 then {} else Below(n - 1) + {n - 1}
  }

  function Indices(pending: seq<ChunkPlan>): set<nat> {
    set c | c in pending :: c.index
  }

  function Waiting(workers: seq<Worker>): set<Worker> {
    set w | w in workers
  }

  function AirIndices(air: set<Flight>): set<nat> {
    set f | f in air :: f.chunk.index
  }

  function AirWorkers(air: set<Flight>): set<Worker> {
    set f | f in air :: f.worker
  }

  ghost predicate DistinctIndices(pending: seq<ChunkPlan>) {
    forall i, j | 0 <= i < j < |pending| :: pending[i].index != pending[j].index
  }

  ghost predicate PlannedAs(chunk: ChunkPlan, plan: seq<ChunkPlan>) {
    chunk.index < |plan| && chunk == plan[chunk.index].(attempts := chunk.attempts)
  }

  /** The job still is the one that was planned. */
  ghost predicate PlanOk(id: JobId, l: Live) {
    && Tiles(l.trace.plan, l.trace.size)
    && l.job.size == l.trace.size
    && l.job.totalChunks == |l.trace.plan|
    && (forall c | c in l.job.pending :: PlannedAs(c, l.trace.plan))
    && (forall f | f in l.air :: f.job == id && f.size == l.job.size && PlannedAs(f.chunk, l.trace.plan))
  }

  /** The chunk indices are the disjoint union of pending, in flight and completed. */
  ghost predicate ChunksOk(l: Live) {
    && DistinctIndices(l.job.pending)
    && (forall f, g | f in l.air && g in l.air && f.chunk.index == g.chunk.index :: f == g)
    && Indices(l.job.pending) !! AirIndices(l.air) !! l.trace.done
    && Indices(l.job.pending) + AirIndices(l.air) + l.trace.done == Below(l.job.totalChunks)
  }

  /** The selected workers are the disjoint union of waiting, busy and failed; a busy worker has one chunk. */
  ghost predicate WorkersOk(l: Live) {
    && NoDuplicates(l.job.availableWorkers)
    && (forall f, g | f in l.air && g in l.air && f.worker == g.worker :: f == g)
    && Waiting(l.job.availableWorkers) !! AirWorkers(l.air) !! l.trace.failed
    && Waiting(l.job.availableWorkers) + AirWorkers(l.air) + l.trace.failed == l.trace.workers
    && Local !in l.trace.failed
  }

  /** No chunk visits a worker twice, and none is sent more than three times. */
  ghost predicate AttemptsOk(l: Live) {
    && (forall i: nat :: NoDuplicates(Tried(l.trace, i)) && |Tried(l.trace, i)| <= MAX_MATRIX_CHUNK_ATTEMPTS)
    && (forall c | c in l.job.pending ::
          && c.attempts == |Tried(l.trace, c.index)| < MAX_MATRIX_CHUNK_ATTEMPTS
          && forall w | w in Tried(l.trace, c.index) :: w in l.trace.failed)
    && (forall f | f in l.air ::
          var tried := Tried(l.trace, f.chunk.index);
          && f.chunk.attempts == |tried| > 0
          && tried[|tried| - 1] == f.worker
          && forall w | w in tried[..|tried| - 1] :: w in l.trace.failed)
  }

  /** The counters are the true counts and the checksum covers exactly the completed chunks. */
  ghost predicate CountsOk(l: Live)
    requires Tiles(l.trace.plan, l.trace.size)
  {
    && l.job.inFlight == |l.air|
    && l.job.completedChunks == |l.trace.done|
    && l.trace.dispatched == |l.trace.done| + |l.air| + |l.trace.failed|
    && l.job.checksum == XorOfDone(l.trace.plan, l.trace.size, l.trace.done, |l.trace.plan|)
  }

  ghost predicate JobOk(id: JobId, l: Live) {
    PlanOk(id, l) && ChunksOk(l) && WorkersOk(l) && AttemptsOk(l) && CountsOk(l)
  }

  // ---------- The four ways a live job changes ----------

  /** A chunk goes out: the flight is in the air and written down in the history. */
  function Recorded(trace: Trace, flight: Flight): Trace {
    trace.(tried := trace.tried[flight.chunk.index := Tried(trace, flight.chunk.index) + [flight.worker]],
           dispatched := trace.dispatched + 1)
  }

  function Assigned(id: JobId, l: Live, worker: Worker): Live {
    if l.job.pending == [] then l else
    var flight := Flight(id, worker, Started(l.job.pending[0]), l.job.size);
    Live(
      l.job.(pending := l.job.pending[1..],
             availableWorkers := Without(l.job.availableWorkers, worker),
             inFlight := l.job.inFlight + 1),
      Recorded(l.trace, flight),
      l.air + {flight})
  }

  function Completed(l: Live, flight: Flight, checksum: U64): Live {
    Live(
      WithResult(l.job, flight.worker, checksum),
      l.trace.(done := l.trace.done + {flight.chunk.index}),
      l.air - {flight})
  }

  function Retried(l: Live, flight: Flight): Live {
    Live(
      Requeued(l.job, flight.worker, flight.chunk),
      l.trace.(failed := l.trace.failed + {flight.worker}),
      l.air - {flight})
  }

  lemma {:induction false} WithoutIs(workers: seq<Worker>, gone: Worker)
    ensures forall w :: w in Without(workers, gone) <==> w in workers && w != gone
    ensures gone !in workers ==> Without(workers, gone) == workers
  {
    if workers != [] {
      WithoutIs(workers[1..], gone);
      assert workers == [workers[0]] + workers[1..];
    }
  }

  lemma {:induction false} WithoutKeepsDistinct(workers: seq<Worker>, gone: Worker)
    requires NoDuplicates(workers)
    ensures NoDuplicates(Without(workers, gone))
    ensures gone in workers ==> |Without(workers, gone)| == |workers| - 1
  {
    if workers != [] {
      var rest := Without(workers[1..], gone);
      WithoutKeepsDistinct(workers[1..], gone);
      WithoutIs(workers[1..], gone);
      assert workers[0] !in workers[1..];
    }
  }

  lemma AssignKeepsPlan(id: JobId, l: Live, worker: Worker)
    requires PlanOk(id, l) && l.job.pending != []
    ensures PlanOk(id, Assigned(id, l, worker))
  {
    assert l.job.pending[0] in l.job.pending;
  }

  lemma AssignKeepsChunks(id: JobId, l: Live, worker: Worker)
    requires ChunksOk(l) && l.job.pending != []
    ensures ChunksOk(Assigned(id, l, worker))
  {
    var first, m := l.job.pending[0], Assigned(id, l, worker);
    assert l.job.pending == [first] + m.job.pending;
    assert first.index in Indices(l.job.pending);
    assert Indices(m.job.pending) == Indices(l.job.pending) - {first.index};
    assert AirIndices(m.air) == AirIndices(l.air) + {first.index};
  }

  lemma AssignKeepsWorkers(id: JobId, l: Live, worker: Worker)
    requires WorkersOk(l) && l.job.pending != [] && worker in l.job.availableWorkers
    ensures WorkersOk(Assigned(id, l, worker))
  {
    var m := Assigned(id, l, worker);
    WithoutIs(l.job.availableWorkers, worker);
    WithoutKeepsDistinct(l.job.availableWorkers, worker);
    assert Waiting(m.job.availableWorkers) == Waiting(l.job.availableWorkers) - {worker};
    assert AirWorkers(m.air) == AirWorkers(l.air) + {worker};
  }

  lemma AssignKeepsAttempts(id: JobId, l: Live, worker: Worker)
    requires ChunksOk(l) && WorkersOk(l) && AttemptsOk(l)
    requires l.job.pending != [] && worker in l.job.availableWorkers
    ensures AttemptsOk(Assigned(id, l, worker))
  {
    var first, m := l.job.pending[0], Assigned(id, l, worker);
    var tried := Tried(l.trace, first.index);
    assert worker in Waiting(l.job.availableWorkers);
    assert first in l.job.pending && worker !in tried;
    assert Tried(m.trace, first.index) == tried + [worker];
    assert (tried + [worker])[..|tried|] == tried;
    forall i: nat | i != first.index ensures Tried(m.trace, i) == Tried(l.trace, i) {
    }
    forall c | c in m.job.pending ensures c in l.job.pending && c.index != first.index {
      var k :| 0 <= k < |m.job.pending| && m.job.pending[k] == c;
      assert l.job.pending[k + 1] == c;
    }
    forall f | f in l.air ensures f.chunk.index != first.index {
      assert f.chunk.index in AirIndices(l.air) && first.index in Indices(l.job.pending);
    }
  }

  lemma AssignKeepsCounts(id: JobId, l: Live, worker: Worker)
    requires PlanOk(id, l) && WorkersOk(l) && CountsOk(l)
    requires l.job.pending != [] && worker in l.job.availableWorkers
    ensures PlanOk(id, Assigned(id, l, worker)) && CountsOk(Assigned(id, l, worker))
  {
    AssignKeepsPlan(id, l, worker);
    var flight := Flight(id, worker, Started(l.job.pending[0]), l.job.size);
    assert flight !in l.air by {
      assert worker in Waiting(l.job.availableWorkers) && worker !in AirWorkers(l.air);
    }
  }

  lemma AssignKeeps(id: JobId, l: Live, worker: Worker)
    requires JobOk(id, l) && l.job.pending != [] && worker in l.job.availableWorkers
    ensures JobOk(id, Assigned(id, l, worker))
  {
    AssignKeepsChunks(id, l, worker);
    AssignKeepsWorkers(id, l, worker);
    AssignKeepsAttempts(id, l, worker);
    AssignKeepsCounts(id, l, worker);
  }

  lemma FlightIsBusy(l: Live, flight: Flight)
    requires ChunksOk(l) && WorkersOk(l) && flight in l.air
    ensures flight.chunk.index in AirIndices(l.air) && flight.worker in AirWorkers(l.air)
    ensures AirIndices(l.air - {flight}) == AirIndices(l.air) - {flight.chunk.index}
    ensures AirWorkers(l.air - {flight}) == AirWorkers(l.air) - {flight.worker}
    ensures flight.worker !in l.job.availableWorkers
  {
    assert flight.worker !in Waiting(l.job.availableWorkers);
  }

  lemma CompleteKeepsOwners(l: Live, flight: Flight, checksum: U64)
    requires ChunksOk(l) && WorkersOk(l) && AttemptsOk(l) && flight in l.air
    ensures ChunksOk(Completed(l, flight, checksum))
    ensures WorkersOk(Completed(l, flight, checksum))
    ensures AttemptsOk(Completed(l, flight, checksum))
  {
    var m := Completed(l, flight, checksum);
    FlightIsBusy(l, flight);
    assert Waiting(m.job.availableWorkers) == Waiting(l.job.availableWorkers) + {flight.worker};
    assert forall i: nat :: Tried(m.trace, i) == Tried(l.trace, i);
  }

  lemma CompleteKeepsCounts(id: JobId, l: Live, flight: Flight, checksum: U64)
    requires PlanOk(id, l) && ChunksOk(l) && CountsOk(l) && flight in l.air
    requires checksum == Part(l.trace.plan, l.trace.size, flight.chunk.index)
    ensures PlanOk(id, Completed(l, flight, checksum))
    ensures CountsOk(Completed(l, flight, checksum))
  {
    hide PlanOk, ChunksOk, Tiles, Xor, XorOfDone, Part;
    var i := flight.chunk.index;
    AirIsNotDone(l, flight);
    CompleteKeepsPlan(id, l, flight, checksum);
    XorOfOneMore(l.trace.plan, l.trace.size, l.trace.done, i, |l.trace.plan|);
  }

  lemma AirIsNotDone(l: Live, flight: Flight)
    requires ChunksOk(l) && flight in l.air
    ensures flight.chunk.index !in l.trace.done
  {
    assert flight.chunk.index in AirIndices(l.air);
  }

  lemma CompleteKeepsPlan(id: JobId, l: Live, flight: Flight, checksum: U64)
    requires PlanOk(id, l) && flight in l.air
    ensures PlanOk(id, Completed(l, flight, checksum))
    ensures Tiles(l.trace.plan, l.trace.size) && l.job.totalChunks == |l.trace.plan|
        && flight.chunk.index < |l.trace.plan|
  {
    hide Tiles, Xor;
  }

  lemma CompleteKeeps(id: JobId, l: Live, flight: Flight, checksum: U64)
    requires JobOk(id, l) && flight in l.air
    requires checksum == Part(l.trace.plan, l.trace.size, flight.chunk.index)
    ensures JobOk(id, Completed(l, flight, checksum))
  {
    CompleteKeepsOwners(l, flight, checksum);
    CompleteKeepsCounts(id, l, flight, checksum);
  }

  lemma RetryKeepsChunks(l: Live, flight: Flight)
    requires ChunksOk(l) && WorkersOk(l) && flight in l.air
    ensures ChunksOk(Retried(l, flight))
  {
    var m, i := Retried(l, flight), flight.chunk.index;
    FlightIsBusy(l, flight);
    assert Indices(m.job.pending) == Indices(l.job.pending) + {i};
    forall k | 0 <= k < |l.job.pending| ensures l.job.pending[k].index != i {
      assert l.job.pending[k].index in Indices(l.job.pending);
    }
  }

  lemma RetryKeepsWorkers(l: Live, flight: Flight)
    requires ChunksOk(l) && WorkersOk(l) && flight in l.air && flight.worker.Remote?
    ensures WorkersOk(Retried(l, flight))
  {
    FlightIsBusy(l, flight);
    WithoutIs(l.job.availableWorkers, flight.worker);
  }

  lemma RetryKeepsCounts(id: JobId, l: Live, flight: Flight)
    requires PlanOk(id, l) && WorkersOk(l) && CountsOk(l) && flight in l.air
    ensures PlanOk(id, Retried(l, flight)) && CountsOk(Retried(l, flight))
  {
    assert flight.worker !in l.trace.failed by {
      assert flight.worker in AirWorkers(l.air);
    }
    forall c | c in [flight.chunk] + l.job.pending ensures PlannedAs(c, l.trace.plan) {
    }
  }

  lemma RetryKeeps(id: JobId, l: Live, flight: Flight)
    requires JobOk(id, l) && flight in l.air
    requires flight.worker.Remote? && flight.chunk.attempts < MAX_MATRIX_CHUNK_ATTEMPTS
    ensures JobOk(id, Retried(l, flight))
  {
    RetryKeepsChunks(l, flight);
    RetryKeepsWorkers(l, flight);
    RetryKeepsAttempts(l, flight);
    RetryKeepsCounts(id, l, flight);
  }

  lemma RetryKeepsAttempts(l: Live, flight: Flight)
    requires AttemptsOk(l) && flight in l.air && flight.chunk.attempts < MAX_MATRIX_CHUNK_ATTEMPTS
    ensures AttemptsOk(Retried(l, flight))
  {
    var m := Retried(l, flight);
    var tried := Tried(l.trace, flight.chunk.index);
    assert tried == tried[..|tried| - 1] + [flight.worker];
    forall i: nat ensures Tried(m.trace, i) == Tried(l.trace, i) {
    }
  }

  function NewTrace(size: nat, plan: seq<ChunkPlan>, workers: seq<Worker>): Trace {
    Trace(size, plan, Waiting(workers), {}, {}, map[], 0)
  }

  lemma AllIndices(plan: seq<ChunkPlan>, size: nat)
    requires Tiles(plan, size)
    ensures Indices(plan) == Below(|plan|) && DistinctIndices(plan)
    ensures forall c | c in plan :: PlannedAs(c, plan)
  {
    forall i | i in Below(|plan|) ensures i in Indices(plan) {
      assert plan[i] in plan && plan[i].index == i;
    }
  }

  lemma StartOk(id: JobId, size: U16, plan: seq<ChunkPlan>, workers: seq<Worker>)
    requires Tiles(plan, size) && NoDuplicates(workers)
    requires forall c | c in plan :: c.attempts == 0
    ensures JobOk(id, Live(Job(size, |plan|, 0, 0, plan, workers, 0), NewTrace(size, plan, workers), {}))
  {
    hide WorkersOk, AttemptsOk, Tiles, XorOfDone;
    AllIndices(plan, size);
    XorOfNone(plan, size, |plan|);
    StartOwners(size, plan, workers);
  }

  lemma StartOwners(size: U16, plan: seq<ChunkPlan>, workers: seq<Worker>)
    requires NoDuplicates(workers) && forall c | c in plan :: c.attempts == 0
    ensures var l := Live(Job(size, |plan|, 0, 0, plan, workers, 0), NewTrace(size, plan, workers), {});
      WorkersOk(l) && AttemptsOk(l)
  {
  }
}

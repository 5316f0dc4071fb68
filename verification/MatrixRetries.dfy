/** What becomes of a chunk that failed, of a start command, and who gets the chunks that are sent. */
module MatrixRetries {
  import opened Core
  import opened MatrixModel
  import opened MatrixPlan
  import opened MatrixInvariant
  import opened MatrixDispatch
  import opened MatrixRuns
  import opened MatrixTheorems
  import opened MatrixAnyAnswer
  import opened MatrixHangs
  import opened MatrixSuccess

  /** The remote worker that was sent the chunk failed it: its request failed, or it answered with something else than a
      result of the size of the job and of the rows that it was sent. */
  predicate Fails(s: Coordinator, event: Event) {
    && (event.RequestFails? || (event.ReplyArrives? && !event.reply.NodeInfoReply?))
    && event.request in s.flights && s.flights[event.request].job in s.jobs
    && (var f := s.flights[event.request];
        && f.worker.Remote?
        && (event.ReplyArrives? && event.reply.ChunkReply? ==>
              || event.reply.size != s.jobs[f.job].size
              || event.reply.rowStart != f.chunk.rowStart || event.reply.rowEnd != f.chunk.rowEnd))
  }

  /** What a failed chunk makes of its job, from any state. */
  lemma FailureIs(s: Coordinator, event: Event)
    requires Fails(s, event)
    ensures var f, u := s.flights[event.request], Handle(s, event);
      var job, others := s.jobs[f.job], Without(s.jobs[f.job].availableWorkers, f.worker);
      && u.flights == s.flights - {event.request} && u.nextJob == s.nextJob && u.nextRequest == s.nextRequest
      && (f.job in u.jobs <==> f.chunk.attempts < 3 && (others != [] || job.inFlight > 1))
      && (f.job in u.jobs ==>
            && u.reports == s.reports
            && u.jobs[f.job] == job.(pending := [f.chunk] + job.pending, availableWorkers := others,
                inFlight := if job.inFlight == 0 then 0 else job.inFlight - 1))
      && (f.job !in u.jobs ==>
            u.reports == s.reports
              + [Failed(f.job, if f.chunk.attempts >= 3 then AttemptsExhausted else NoHealthyWorkerRemains)])
  {
    hide Without;
  }

  /** The worker of an outstanding chunk does not wait, and its job counts it as running. */
  lemma FlightIsCounted(s: Coordinator, t: Traced, r: RequestId)
    requires Inv(t) && Alike(s, t.now) && r in s.flights && s.flights[r].job in s.jobs
    ensures var f := s.flights[r];
      var job := s.jobs[f.job];
      && f.worker !in job.availableWorkers && job.inFlight > 0 && f.size == job.size
      && f.job < s.nextJob && NoDuplicates(job.availableWorkers)
      && s.jobs == t.now.jobs && s.nextJob == t.now.nextJob && KeysBelow(s.flights, s.nextRequest)
  {
    hide Inv, JobOk;
    RecordsAlike(s, t.now, r);
    AlikeIs(s, t.now);
    LiveFlight(t, r);
    var f := s.flights[r];
    BusyIsNotWaiting(f.job, LiveJob(t, f.job), f);
    JobPlanOk(f.job, LiveJob(t, f.job));
    FlightRows(f.job, LiveJob(t, f.job), f);
    DistinctWaiting(t, f.job);
    InvKeys(t);
    FewerKeys(s, t.now);
  }

  lemma OthersRun(outstanding: set<RequestId>, withheld: set<RequestId>, r: RequestId)
    requires r in outstanding
    ensures |outstanding| + |withheld| > 1 <==> outstanding - {r} != {} || withheld != {}
  {
    assert outstanding == outstanding - {r} + {r};
  }

  /** Another worker of the job waits, or has another chunk of it, or was asked for one and never told the job. */
  ghost predicate OthersLeft(turns: seq<Turn>, id: JobId, r: RequestId) {
    var s := Run(INITIAL, turns);
    && id in s.jobs
    && (s.jobs[id].availableWorkers != [] || Outstanding(s.flights, id) - {r} != {} || Withheld(turns, id) != {})
  }

  /** The job lives on exactly when this was not the third attempt and another worker is left. Then the chunk is
      first in the queue and all else is as before; otherwise the job is reported, with the reason. */
  ghost predicate RetriedExactly(s: Coordinator, u: Coordinator, r: RequestId, othersLeft: bool)
    requires r in s.flights && s.flights[r].job in s.jobs
  {
    var f := s.flights[r];
    var id, job := f.job, s.jobs[f.job];
    && (id in u.jobs <==> f.chunk.attempts < 3 && othersLeft)
    && (id in u.jobs ==>
          && u.reports == s.reports
          && u.jobs[id] == job.(pending := [f.chunk] + job.pending, inFlight := u.jobs[id].inFlight)
          && u.jobs[id].inFlight + 1 == job.inFlight && f.worker !in job.availableWorkers)
    && (f.chunk.attempts >= 3 ==> u.reports == s.reports + [Failed(id, AttemptsExhausted)])
    && (f.chunk.attempts < 3 && !othersLeft ==> u.reports == s.reports + [Failed(id, NoHealthyWorkerRemains)])
  }

  /** In every run, when a remote worker fails a chunk of a live job. */
  lemma WhenAFailedChunkIsRetried(turns: seq<Turn>, event: Event)
    requires PlausibleRun(turns) && Fails(Run(INITIAL, turns), event)
    ensures var s := Run(INITIAL, turns);
      RetriedExactly(s, Handle(s, event), event.request, OthersLeft(turns, s.flights[event.request].job, event.request))
  {
    hide Run, PlausibleRun, HeardAll, AdmissibleRun, Inv, Quiet, Alike, Withheld, TracedRun, Handle;
    var s, r := Run(INITIAL, turns), event.request;
    RunAlike(turns);
    RunKeeps(HeardAll(turns));
    FlightIsCounted(s, TracedRun(HeardAll(turns)), r);
    FailureIs(s, event);
    var f := s.flights[r];
    WithoutIs(s.jobs[f.job].availableWorkers, f.worker);
    OnlyNodeInfoBreaksTheCount(turns, f.job);
    OthersRun(Outstanding(s.flights, f.job), Withheld(turns, f.job), r);
  }

  /** A dispatch sends the chunk that is first in the queue of a job, if a worker of it is eligible: to one with the
      largest score, and with one more attempt. */
  lemma FirstIsSent(s: Coordinator, id: JobId, resources: Resources)
    requires id in s.jobs && id < s.nextJob && KeysBelow(s.flights, s.nextRequest)
    requires NoDuplicates(s.jobs[id].availableWorkers) && s.jobs[id].pending != []
    requires exists w :: w in s.jobs[id].availableWorkers && Eligible(w, resources)
    ensures var f := Flight(id, Local, s.jobs[id].pending[0], s.jobs[id].size);
      SentToBest(s, Dispatch(s, resources), s.jobs[id], f, resources)
  {
    hide TakenFlights, Take, Eligible, GivenUp, Harvest, Launched, StuckReports;
    BestGetsFirst(id, s.jobs[id], resources);
    var first, taken := TakenFlights(id, s.jobs[id], resources)[0], Harvest(s.jobs, s.nextJob, resources);
    HarvestIs(s.jobs, s.nextJob, resources);
    var k :| 0 <= k < |taken| && taken[k] == first;
    LaunchIs(s.flights, s.nextRequest, taken);
    assert Dispatch(s, resources).flights[s.nextRequest + k] == first;
  }

  /** A new request sends the chunk of `f`, with one more attempt, to an eligible waiting worker of the job, and no
      eligible waiting worker has a larger score. */
  ghost predicate SentToBest(s: Coordinator, u: Coordinator, job: Job, f: Flight, resources: Resources) {
    exists q ::
      && q in u.flights && q >= s.nextRequest
      && u.flights[q] == f.(worker := u.flights[q].worker, chunk := f.chunk.(attempts := f.chunk.attempts + 1))
      && u.flights[q].worker in job.availableWorkers && Eligible(u.flights[q].worker, resources)
      && forall w | w in job.availableWorkers && Eligible(w, resources) ::
          ScoreOf(u.flights[q].worker, resources) >= ScoreOf(w, resources)
  }

  /** In every run: a chunk that may be tried again goes out again in the very turn in which it failed, if a waiting
      worker is eligible then. */
  lemma RetriedByTheBest(turns: seq<Turn>, turn: Turn)
    requires PlausibleRun(turns) && Fails(Run(INITIAL, turns), turn.event)
    requires Run(INITIAL, turns).flights[turn.event.request].chunk.attempts < 3
    requires var s := Run(INITIAL, turns);
      exists w :: w in s.jobs[s.flights[turn.event.request].job].availableWorkers && Eligible(w, turn.resources)
    ensures var s := Run(INITIAL, turns);
      var f := s.flights[turn.event.request];
      SentToBest(s, Step(s, turn), s.jobs[f.job], f, turn.resources)
  {
    hide Run, PlausibleRun, HeardAll, AdmissibleRun, Inv, Quiet, Alike, Withheld, TracedRun, Handle, Eligible, Dispatch;
    var s := Run(INITIAL, turns);
    var f, h := s.flights[turn.event.request], Handle(s, turn.event);
    RunAlike(turns);
    RunKeeps(HeardAll(turns));
    FlightIsCounted(s, TracedRun(HeardAll(turns)), turn.event.request);
    WhenAFailedChunkIsRetried(turns, turn.event);
    FailureIs(s, turn.event);
    FirstIsSent(h, f.job, turn.resources);
  }

  /** Every request that a turn sends goes to a worker that contributes and has a positive score then: this node, or a
      peer that was heard of in the last 20 seconds and speaks at least version 4 of the protocol. */
  lemma OnlyUsableWorkersAreAsked(turns: seq<Turn>, turn: Turn, q: RequestId)
    requires PlausibleRun(turns) && Plausible(Run(INITIAL, turns), turn)
    requires q in Step(Run(INITIAL, turns), turn).flights && q >= Run(INITIAL, turns).nextRequest
    ensures match Step(Run(INITIAL, turns), turn).flights[q].worker
      case Local => Usable(turn.resources.local)
      case Remote(peer) =>
        && peer in turn.resources.peers
        && turn.resources.peers[peer].age <= 20.0 && turn.resources.peers[peer].protocolVersion >= 4
        && Usable(turn.resources.peers[peer].snapshot)
  {
    hide Run, PlausibleRun, HeardAll, AdmissibleRun, Inv, Quiet, TracedRun, Handle, Plausible, Admissible, Heard;
    hide TakenFlights, Take, Eligible, GivenUp, Harvest, Launched, StuckReports;
    var s := Run(INITIAL, turns);
    var h := Handle(s, turn.event);
    RunAlike(turns);
    RunKeeps(HeardAll(turns));
    var t := TracedRun(HeardAll(turns));
    InvKeys(t);
    FewerKeys(s, t.now);
    HandleFlights(s, turn.event);
    HeardAdmissible(s, t.now, turn);
    HandleKeeps(t, Heard(s, turn));
    HandleAlike(s, t.now, turn);
    LaunchIs(h.flights, h.nextRequest, Harvest(h.jobs, h.nextJob, turn.resources));
    HarvestIs(h.jobs, h.nextJob, turn.resources);
    var f := Step(s, turn).flights[q];
    DistinctWaiting(TracedHandle(t, Heard(s, turn).event), f.job);
    DispatchIsGreedy(f.job, h.jobs[f.job], turn.resources);
    EligibleIs(turn.resources);
  }

  predicate Usable(snapshot: Snapshot) {
    && !snapshot.contributionPaused
    && snapshot.effectiveCpuScore.Finite? && snapshot.effectiveCpuScore.value > 0.0
  }

  // ---------- Starting ----------

  /** The rows are cut evenly: every chunk but the last has the height that was asked for, and none was tried. */
  ghost predicate CutEvenly(plan: seq<ChunkPlan>, size: nat, chunkRows: nat) {
    && Tiles(plan, size)
    && (|plan| - 1) * chunkRows < size <= |plan| * chunkRows
    && (forall i | 0 <= i < |plan| - 1 :: plan[i].rowEnd == plan[i].rowStart + chunkRows)
    && forall c | c in plan :: c.attempts == 0
  }

  lemma PlanIsEven(size: nat, chunkRows: nat)
    requires ValidPlan(size, chunkRows)
    ensures CutEvenly(Plan(size, chunkRows), size, chunkRows)
  {
    var plan := Plan(size, chunkRows);
    PlanTiles(size, chunkRows);
    TotalBounds(size, chunkRows);
    forall i | 0 <= i < |plan| - 1 ensures plan[i].rowEnd == plan[i].rowStart + chunkRows {
      ChunkBounds(size, chunkRows, i + 1);
      ChunkBounds(size, chunkRows, i);
      assert (i + 1) * chunkRows == i * chunkRows + chunkRows;
    }
  }

  /** A start command within the bounds starts a job exactly when some worker may be selected: nothing of it is done,
      and all its rows wait, cut evenly. Without a worker it is reported; out of bounds nothing happens. */
  lemma WhenAJobStarts(s: Coordinator, turn: Turn)
    requires turn.event.StartJob? && Admissible(s, turn) && s.nextJob !in s.jobs
    ensures var u, id := Handle(s, turn.event), s.nextJob;
      var size, rows := turn.event.size, turn.event.chunkRows;
      var valid, found := 16 <= size <= 768 && 1 <= rows <= 128, exists w :: Selectable(w, turn.resources);
      && (id in u.jobs <==> valid && found)
      && (!valid ==> u == s)
      && (valid && !found ==>
            u == s.(nextJob := id + 1, reports := s.reports + [Failed(id, NoEligibleResources)]))
      && (id in u.jobs ==>
            && u == s.(nextJob := id + 1, jobs := s.jobs[id := u.jobs[id]])
            && (var job := u.jobs[id];
                && job == Job(size, |job.pending|, 0, 0, job.pending, turn.event.workers, 0)
                && CutEvenly(job.pending, size, rows)))
  {
    hide Plan, CutEvenly, Selectable;
    var size, rows, workers := turn.event.size, turn.event.chunkRows, turn.event.workers;
    if workers != [] {
      assert workers[0] in workers;
    }
    if ValidPlan(size, rows) {
      PlanIsEven(size, rows);
    }
  }
}

/** Right answers are taken: a job whose chunks are answered rightly finishes. */
module MatrixSuccess {
  import opened Core
  import opened Words
  import opened Executor
  import opened MatrixModel
  import opened MatrixPlan
  import opened MatrixInvariant
  import opened MatrixDispatch
  import opened MatrixRuns
  import opened MatrixTheorems
  import opened MatrixAnyAnswer

  /** The event answers a request with what the executor returns for the chunk that was sent, to this node or to
      another. */
  predicate RightAnswer(s: Coordinator, event: Event) {
    && event.ReplyArrives? && event.request in s.flights
    && (var f := s.flights[event.request];
        && f.chunk.rowStart < 0x1_0000 && f.chunk.rowEnd < 0x1_0000
        && event.reply == ReplyOf(Executed(ChunkTask(f.size, f.chunk.rowStart, f.chunk.rowEnd))))
  }

  /** The success that the job should end with. */
  function Success(id: JobId, job: Job): Report {
    Finished(id, ChunkChecksum(job.size, 0, job.size), job.size, job.totalChunks)
  }

  /** What a right answer of a chunk of a live job carries. */
  lemma RightAnswerIs(t: Traced, event: Event)
    requires Inv(t) && RightAnswer(t.now, event) && t.now.flights[event.request].job in t.now.jobs
    ensures var f := t.now.flights[event.request];
      && t.now.jobs[f.job].size == f.size
      && event.reply == ChunkReply(ChunkChecksum(f.size, f.chunk.rowStart, f.chunk.rowEnd), f.size, f.chunk.rowStart,
          f.chunk.rowEnd)
      && Honest(f, event.reply)
  {
    hide Inv, JobOk, ChunkChecksum;
    var f := t.now.flights[event.request];
    LiveFlight(t, event.request);
    JobPlanOk(f.job, LiveJob(t, f.job));
    FlightRows(f.job, LiveJob(t, f.job), f);
  }

  /** The live job with one more result is whole. */
  lemma CompletedOk(t: Traced, event: Event)
    requires Inv(t) && RightAnswer(t.now, event) && t.now.flights[event.request].job in t.now.jobs
    ensures var f := t.now.flights[event.request];
      && f.job in t.traces
      && (var l := LiveJob(t, f.job);
          var m := Completed(l, f, ChunkChecksum(f.size, f.chunk.rowStart, f.chunk.rowEnd));
          && f.chunk.index !in l.trace.done && l.job.inFlight > 0
          && JobOk(f.job, m) && m.job.completedChunks <= m.job.totalChunks)
  {
    hide Inv, JobOk, ChunkChecksum, Completed;
    var f := t.now.flights[event.request];
    LiveFlight(t, event.request);
    var l := LiveJob(t, f.job);
    JobPlanOk(f.job, l);
    FlightRows(f.job, l, f);
    JobChunksOk(f.job, l, f);
    CompleteKeeps(f.job, l, f, ChunkChecksum(f.size, f.chunk.rowStart, f.chunk.rowEnd));
    CompletedAtMostAll(f.job, Completed(l, f, ChunkChecksum(f.size, f.chunk.rowStart, f.chunk.rowEnd)));
  }

  lemma JobChunksOk(id: JobId, l: Live, f: Flight)
    requires JobOk(id, l) && f in l.air
    ensures f.chunk.index !in l.trace.done && l.job.inFlight > 0
  {
    hide PlanOk, WorkersOk, AttemptsOk;
    AirIsNotDone(l, f);
  }

  /** A right answer for a chunk of a live job, computed here or elsewhere: the chunk is completed, its checksum is
      combined, its worker waits again and nothing is reported; or it was the last one, and the job is reported with
      the checksum of the whole matrix. */
  lemma RightAnswerCounts(t: Traced, event: Event)
    requires Inv(t) && RightAnswer(t.now, event) && t.now.flights[event.request].job in t.now.jobs
    ensures t.now.flights[event.request].job in t.traces
    ensures var f, u := t.now.flights[event.request], TracedHandle(t, event);
      var id, job := f.job, t.now.jobs[f.job];
      && u.now.flights == t.now.flights - {event.request} && u.now.nextJob == t.now.nextJob
      && job.completedChunks + 1 <= job.totalChunks
      && (job.completedChunks + 1 < job.totalChunks ==>
            && u.now.reports == t.now.reports
            && id in u.now.jobs && id in u.traces
            && f.chunk.index !in t.traces[id].done
            && u.traces[id].done == t.traces[id].done + {f.chunk.index}
            && u.now.jobs[id] == job.(
                completedChunks := job.completedChunks + 1,
                checksum := XorWord(job.checksum, ChunkChecksum(f.size, f.chunk.rowStart, f.chunk.rowEnd)),
                availableWorkers := job.availableWorkers + [f.worker],
                inFlight := job.inFlight - 1))
      && (job.completedChunks + 1 == job.totalChunks ==>
            id !in u.now.jobs && u.now.reports == t.now.reports + [Success(id, job)])
  {
    hide Inv, JobOk, ChunkChecksum, XorWord;
    var f := t.now.flights[event.request];
    RightAnswerIs(t, event);
    CompletedOk(t, event);
    var m := Completed(LiveJob(t, f.job), f, ChunkChecksum(f.size, f.chunk.rowStart, f.chunk.rowEnd));
    if m.job.completedChunks == m.job.totalChunks {
      LastChunkMeansAll(f.job, m);
    }
  }

  // ---------- One dispatch ----------

  /** A dispatch ends a job exactly when chunks of it wait, none is running and none of its waiting workers is eligible;
      it says so, and leaves the results of every other job alone. */
  lemma WhenAJobIsGivenUp(s: Coordinator, id: JobId, resources: Resources)
    requires id in s.jobs && id < s.nextJob && NoDuplicates(s.jobs[id].availableWorkers)
    ensures var u, job := Dispatch(s, resources), s.jobs[id];
      var givenUp := job.pending != [] && job.inFlight == 0
          && forall w | w in job.availableWorkers :: !Eligible(w, resources);
      && (id in u.jobs <==> !givenUp)
      && (givenUp ==> Failed(id, NoEligibleWorkerRemains) in u.reports)
      && (id in u.jobs ==> SameResults(u.jobs[id], job))
      && s.reports <= u.reports && u.nextJob == s.nextJob
  {
    hide GivenUp, Take, Harvest, Launched, StuckReports, Eligible;
    GivenUpIs(s.jobs[id], resources);
    TakeKeepsResults(s.jobs[id], resources);
    StuckReportsAre(s.jobs, s.nextJob, resources);
    if GivenUp(s.jobs[id], resources) {
      var report :| report in StuckReports(s.jobs, s.nextJob, resources) && report.job == id;
    }
  }

  predicate SameResults(x: Job, y: Job) {
    && x.size == y.size && x.totalChunks == y.totalChunks
    && x.completedChunks == y.completedChunks && x.checksum == y.checksum
  }

  lemma TakeKeepsResults(job: Job, resources: Resources)
    ensures SameResults(Take(job, resources), job)
  {
    hide Ranked;
  }

  // ---------- Runs ----------

  /** Every answer for the job in these turns is a right one. */
  ghost predicate AllRight(s: Coordinator, turns: seq<Turn>, id: JobId) {
    turns == [] ||
    (&& AllRight(s, Init(turns), id)
     && var t := Run(s, Init(turns)); Answers(t, Last(turns).event, id) ==> RightAnswer(t, Last(turns).event))
  }

  /** Whenever a worker answers for the job, it is eligible for the next chunk. */
  ghost predicate Staffed(s: Coordinator, turns: seq<Turn>, id: JobId) {
    turns == [] ||
    (&& Staffed(s, Init(turns), id)
     && var t := Run(s, Init(turns));
        Answers(t, Last(turns).event, id) ==>
          Eligible(t.flights[Last(turns).event.request].worker, Last(turns).resources))
  }

  /** What a turn makes of a live job, if its answer was right. */
  ghost predicate Advanced(s: Coordinator, turn: Turn, id: JobId)
    requires id in s.jobs
  {
    var u, job := Step(s, turn), s.jobs[id];
    var n := job.completedChunks + if Answers(s, turn.event, id) then 1 else 0;
    && n <= job.totalChunks
    && (id in u.jobs ==>
          && u.jobs[id].size == job.size && u.jobs[id].totalChunks == job.totalChunks
          && u.jobs[id].completedChunks == n < job.totalChunks)
    && (id !in u.jobs && n == job.totalChunks ==> Success(id, job) in u.reports)
    && (id !in u.jobs && n < job.totalChunks ==>
          && Failed(id, NoEligibleWorkerRemains) in u.reports
          && Answers(s, turn.event, id)
          && !Eligible(s.flights[turn.event.request].worker, turn.resources))
  }

  lemma RightTurn(s: Coordinator, t: Traced, turn: Turn, id: JobId)
    requires Inv(t) && Alike(s, t.now) && Plausible(s, turn) && id in s.jobs
    requires Answers(s, turn.event, id) && RightAnswer(s, turn.event)
    ensures Advanced(s, turn, id)
  {
    hide Inv, Alike, Dispatch, Admissible, Plausible, Eligible, XorWord, ChunkChecksum;
    var h, r := Handle(s, turn.event), turn.event.request;
    RecordsAlike(s, t.now, r);
    AlikeIs(s, t.now);
    RightAnswerIs(t, turn.event);
    assert Heard(s, turn) == turn;
    HeardAdmissible(s, t.now, turn);
    HandleAlike(s, t.now, turn);
    AlikeIs(h, Handle(t.now, turn.event));
    RightAnswerCounts(t, turn.event);
    HandleKeeps(t, turn);
    hide RightAnswer, Handle, TracedHandle;
    if id in h.jobs {
      DistinctWaiting(TracedHandle(t, turn.event), id);
      WhenAJobIsGivenUp(h, id, turn.resources);
      assert s.flights[r].worker in h.jobs[id].availableWorkers;
    } else {
      assert Success(id, s.jobs[id]) == Last(h.reports);
      StaysEnded(h, id, turn.resources);
    }
  }

  lemma AlikeIs(s: Coordinator, t: Coordinator)
    requires Alike(s, t)
    ensures s.jobs == t.jobs && s.reports == t.reports && s.nextJob == t.nextJob
  {
  }

  lemma StaysEnded(s: Coordinator, id: JobId, resources: Resources)
    requires id !in s.jobs
    ensures id !in Dispatch(s, resources).jobs
    ensures forall report | report in s.reports :: report in Dispatch(s, resources).reports
  {
    hide GivenUp, Take, Harvest, Launched, StuckReports;
  }

  lemma OtherTurn(s: Coordinator, t: Traced, turn: Turn, id: JobId)
    requires Inv(t) && Quiet(t.now) && Alike(s, t.now) && id in s.jobs && !Answers(s, turn.event, id)
    ensures Advanced(s, turn, id)
  {
    hide Inv, Alike, Dispatch, Handle, Answers, Eligible;
    AlikeIs(s, t.now);
    DistinctWaiting(t, id);
    Unfinished(t, id);
    OthersKeepJob(s, turn.event, id);
    HandleNumbers(s, turn.event);
    WhenAJobIsGivenUp(Handle(s, turn.event), id, turn.resources);
  }

  lemma HandleNumbers(s: Coordinator, event: Event)
    ensures s.nextJob <= Handle(s, event).nextJob && s.reports <= Handle(s, event).reports
  {
    hide Plan, Accepts, Requeued, WithResult;
  }

  lemma Unfinished(t: Traced, id: JobId)
    requires Inv(t) && id in t.now.jobs
    ensures id < t.now.nextJob && t.now.jobs[id].completedChunks < t.now.jobs[id].totalChunks
  {
    hide JobOk, FlightsOk, ReportsOk, TrueReport, Bounded;
  }

  lemma EndedTurn(s: Coordinator, turn: Turn, id: JobId)
    requires id !in s.jobs && id < s.nextJob
    ensures id !in Step(s, turn).jobs && !Answers(s, turn.event, id)
    ensures forall report | report in s.reports :: report in Step(s, turn).reports
  {
    hide Dispatch, Plan, Accepts, Requeued, WithResult;
    HandleNumbers(s, turn.event);
    StaysEnded(Handle(s, turn.event), id, turn.resources);
  }

  lemma {:induction false} RunInTwo(s: Coordinator, early: seq<Turn>, later: seq<Turn>)
    ensures Run(s, early + later) == Run(Run(s, early), later)
  {
    hide Step;
    var all := early + later;
    if later == [] {
      assert all == early;
    } else {
      assert all[..|all| - 1] == early + Init(later);
      RunInTwo(s, early, Init(later));
    }
  }

  /** How far a job is after right answers: it is live with as many more completed chunks; or finished, if these were
      all; or given up in a turn in which the worker that answered was not eligible any more. */
  ghost predicate Progressed(s: Coordinator, later: seq<Turn>, id: JobId)
    requires id in s.jobs
  {
    var u, job, n := Run(s, later), s.jobs[id], s.jobs[id].completedChunks + Answered(s, later, id);
    && id < u.nextJob && n <= job.totalChunks
    && (id in u.jobs ==>
          && u.jobs[id].size == job.size && u.jobs[id].totalChunks == job.totalChunks
          && u.jobs[id].completedChunks == n < job.totalChunks)
    && (id !in u.jobs && n == job.totalChunks ==> Success(id, job) in u.reports)
    && (id !in u.jobs && n < job.totalChunks ==>
          Failed(id, NoEligibleWorkerRemains) in u.reports && !Staffed(s, later, id))
  }

  lemma TurnProgresses(s: Coordinator, v: Coordinator, later: seq<Turn>, id: JobId)
    requires later != [] && id in s.jobs && Progressed(s, Init(later), id) && v == Run(s, Init(later))
    requires id in v.jobs ==> Advanced(v, Last(later), id)
    ensures Progressed(s, later, id)
  {
    hide Step, Answers, Eligible;
    var turn := Last(later);
    NumbersGrow(v, turn);
    assert later[..|later| - 1] == Init(later);
    if id !in v.jobs {
      EndedTurn(v, turn, id);
    }
  }

  lemma {:induction false} RightRun(early: seq<Turn>, later: seq<Turn>, id: JobId)
    requires PlausibleRun(early + later) && id in Run(INITIAL, early).jobs
    requires AllRight(Run(INITIAL, early), later, id)
    ensures Progressed(Run(INITIAL, early), later, id)
    decreases later
  {
    hide Progressed, Advanced, Inv, Quiet, Alike, Plausible, Answers, RightAnswer, HeardAll, Step, TracedRun,
        AdmissibleRun;
    var s, turns := Run(INITIAL, early), early + later;
    if later == [] {
      assert turns == early;
      NothingProgressed(early, id);
    } else {
      var before, turn := early + Init(later), Last(later);
      assert Init(turns) == before && Last(turns) == turn;
      RightRun(early, Init(later), id);
      RunInTwo(INITIAL, early, Init(later));
      RunAlike(before);
      RunKeeps(HeardAll(before));
      var v, t := Run(INITIAL, before), TracedRun(HeardAll(before));
      if id in v.jobs {
        if Answers(v, turn.event, id) {
          RightTurn(v, t, turn, id);
        } else {
          OtherTurn(v, t, turn, id);
        }
      }
      TurnProgresses(s, v, later, id);
    }
  }

  lemma NothingProgressed(early: seq<Turn>, id: JobId)
    requires PlausibleRun(early) && id in Run(INITIAL, early).jobs
    ensures Progressed(Run(INITIAL, early), [], id)
  {
    hide Inv, Quiet, Alike, PlausibleRun, HeardAll, Run, TracedRun, AdmissibleRun;
    RunAlike(early);
    RunKeeps(HeardAll(early));
    AlikeIs(Run(INITIAL, early), TracedRun(HeardAll(early)).now);
    Unfinished(TracedRun(HeardAll(early)), id);
    assert Run(Run(INITIAL, early), []) == Run(INITIAL, early) by {
      RunOfNothing(Run(INITIAL, early));
    }
  }

  lemma RunOfNothing(s: Coordinator)
    ensures Run(s, []) == s
  {
  }

  /** Whatever the workers answered before and whatever they answer other jobs: as long as the chunks of a job are
      answered rightly, it is reported as finished, with the checksum of the whole matrix, exactly when as many answers
      have come as chunks were left; until then it is live and has completed one chunk for each answer, unless it was
      given up because the worker that answered had become ineligible. */
  lemma RightAnswersFinishTheJob(early: seq<Turn>, later: seq<Turn>, id: JobId)
    requires PlausibleRun(early + later) && id in Run(INITIAL, early).jobs
    requires AllRight(Run(INITIAL, early), later, id)
    ensures var s, u := Run(INITIAL, early), Run(INITIAL, early + later);
      var job, n := s.jobs[id], s.jobs[id].completedChunks + Answered(s, later, id);
      && n <= job.totalChunks
      && (Success(id, job) in u.reports <==> n == job.totalChunks)
      && (id in u.jobs ==> u.jobs[id].completedChunks == n)
      && (id !in u.jobs && n < job.totalChunks ==> Failed(id, NoEligibleWorkerRemains) in u.reports)
      && (Staffed(s, later, id) ==> id in u.jobs || Success(id, job) in u.reports)
  {
    hide Run, PlausibleRun, Answered, AllRight, Staffed, ChunkChecksum;
    RightRun(early, later, id);
    RunInTwo(INITIAL, early, later);
    MatrixAnyAnswer.EveryJobIsLiveOrReportedOnce(early + later);
    OneReport(Run(INITIAL, early + later), Success(id, Run(INITIAL, early).jobs[id]),
      Failed(id, NoEligibleWorkerRemains));
  }

  /** A job is not reported twice, and not while it is live. */
  lemma OneReport(s: Coordinator, x: Report, y: Report)
    requires ReportsOk(s) && x.job == y.job && x != y
    ensures !(x in s.reports && y in s.reports)
    ensures x.job in s.jobs ==> x !in s.reports
  {
    assert x in s.reports ==> x.job in Reported(s.reports);
  }
}

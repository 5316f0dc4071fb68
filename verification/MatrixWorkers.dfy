/** A worker that failed is never used again by the same job. */
module MatrixWorkers {
  import opened Core
  import opened MatrixModel
  import opened MatrixInvariant
  import opened MatrixDispatch
  import opened MatrixRuns
  import opened MatrixTheorems
  import opened MatrixAnyAnswer

  /** No flight is with a worker that failed its job. */
  ghost predicate Avoids(t: Traced) {
    forall r | r in t.now.flights && t.now.flights[r].job in t.traces ::
      t.now.flights[r].worker !in t.traces[t.now.flights[r].job].failed
  }

  /** Two flights of a live job are with different workers. */
  lemma BusyWithOne(t: Traced, q: RequestId, r: RequestId)
    requires Inv(t) && q in t.now.flights && r in t.now.flights && q != r
    requires t.now.flights[q].job == t.now.flights[r].job && t.now.flights[q].job in t.now.jobs
    ensures t.now.flights[q].worker != t.now.flights[r].worker
  {
    hide ReportsOk, Bounded, TrueReport, PlanOk, ChunksOk, AttemptsOk;
    var id := t.now.flights[q].job;
    assert t.now.flights[q] in Air(t.now.flights, id) && t.now.flights[r] in Air(t.now.flights, id);
  }

  lemma FailureAvoids(t: Traced, r: RequestId)
    requires Inv(t) && Avoids(t) && r in t.now.flights
    requires t.now.flights[r].job in t.now.jobs && t.now.flights[r].job in t.traces
    ensures Avoids(Traced(t.now.(flights := t.now.flights - {r}), TracedFailure(t, t.now.flights[r])))
  {
    hide Inv;
    forall q | q in t.now.flights && q != r && t.now.flights[q].job == t.now.flights[r].job
      ensures t.now.flights[q].worker != t.now.flights[r].worker
    {
      BusyWithOne(t, q, r);
    }
  }

  /** Only the records and the history matter. */
  lemma SameAvoids(t: Traced, u: Traced)
    requires Avoids(t) && u.now.flights == t.now.flights
    requires forall id | id in u.traces ::
      u.traces[id].failed == {} || (id in t.traces && u.traces[id].failed <= t.traces[id].failed)
    ensures Avoids(u)
  {
  }

  lemma HandleAvoids(t: Traced, event: Event)
    requires Inv(t) && Avoids(t)
    ensures Avoids(TracedHandle(t, event))
  {
    hide Inv, Avoids, Plan, Accepts, CompleteChunk, RetryChunk;
    var u := TracedHandle(t, event);
    match event
    case StartJob(_, _, _) => SameAvoids(t, u);
    case Tick =>
    case ReplyArrives(r, reply) => AnswerAvoids(t, event, r);
    case RequestFails(r) => AnswerAvoids(t, event, r);
  }

  lemma AnswerAvoids(t: Traced, event: Event, r: RequestId)
    requires Inv(t) && Avoids(t) && (event.ReplyArrives? || event.RequestFails?) && event.request == r
    ensures Avoids(TracedHandle(t, event))
  {
    hide Inv, Avoids, Plan, Accepts, Without, TracedFailure;
    var u := TracedHandle(t, event);
    if r in t.now.flights {
      var rest := Traced(t.now.(flights := t.now.flights - {r}), t.traces);
      FewerAvoids(t, rest);
      assert u.now.flights == rest.now.flights;
      if t.now.flights[r].job in t.now.jobs && t.now.flights[r].job in t.traces {
        FailureAvoids(t, r);
        if u.traces == TracedFailure(t, t.now.flights[r]) {
          SameAvoids(Traced(rest.now, u.traces), u);
        } else {
          SameAvoids(rest, u);
        }
      } else {
        SameAvoids(rest, u);
      }
    }
  }

  lemma FewerAvoids(t: Traced, u: Traced)
    requires Avoids(t) && u.traces == t.traces
    requires forall r | r in u.now.flights :: r in t.now.flights && u.now.flights[r] == t.now.flights[r]
    ensures Avoids(u)
  {
  }

  lemma {:induction false} RecordingKeepsFailed(trace: Trace, flights: seq<Flight>)
    ensures RecordedAll(trace, flights).failed == trace.failed
  {
    if flights != [] {
      RecordingKeepsFailed(trace, flights[..|flights| - 1]);
    }
  }

  /** A chunk goes to a worker that has not failed the job. */
  lemma SentToHealthy(t: Traced, id: JobId, f: Flight, resources: Resources)
    requires Inv(t) && id in t.now.jobs && id in t.traces && f in TakenFlights(id, t.now.jobs[id], resources)
    ensures f.worker !in t.traces[id].failed
  {
    hide FlightsOk, ReportsOk, Bounded, TrueReport, PlanOk, ChunksOk, AttemptsOk, TakenFlights, Take;
    assert WorkersOk(LiveJob(t, id));
    DispatchIsGreedy(id, t.now.jobs[id], resources);
    assert f.worker in Waiting(t.now.jobs[id].availableWorkers);
  }

  lemma DispatchAvoids(t: Traced, resources: Resources)
    requires Inv(t) && Avoids(t)
    ensures Avoids(TracedDispatch(t, resources))
  {
    hide Inv, TakenFlights, Take, GivenUp, Harvest, Launched, StuckReports;
    var u, taken := TracedDispatch(t, resources), Harvest(t.now.jobs, t.now.nextJob, resources);
    HarvestIs(t.now.jobs, t.now.nextJob, resources);
    KeysAreBelow(t);
    LaunchIs(t.now.flights, t.now.nextRequest, taken);
    forall r | r in u.now.flights && u.now.flights[r].job in u.traces
      ensures u.now.flights[r].worker !in u.traces[u.now.flights[r].job].failed
    {
      var f := u.now.flights[r];
      if f.job in t.now.jobs {
        RecordingKeepsFailed(t.traces[f.job], TakenFlights(f.job, t.now.jobs[f.job], resources));
      }
      if r !in t.now.flights {
        assert f in taken;
        SentToHealthy(t, f.job, f, resources);
      }
    }
  }

  lemma KeysAreBelow(t: Traced)
    requires Inv(t)
    ensures KeysBelow(t.now.flights, t.now.nextRequest)
  {
    hide JobsOk, ReportsOk, TrueReport, Bounded;
  }

  lemma {:induction false} RunAvoids(turns: seq<Turn>)
    requires AdmissibleRun(INITIAL, turns)
    ensures Avoids(TracedRun(turns))
  {
    hide Inv, Quiet, Admissible, Avoids, TracedHandle, TracedDispatch;
    if turns == [] {
      assert Avoids(Traced(INITIAL, map[])) by {
        NothingToAvoid();
      }
    } else {
      var early, last := turns[..|turns| - 1], turns[|turns| - 1];
      RunAvoids(early);
      RunKeeps(early);
      HandleAvoids(TracedRun(early), last.event);
      HandleKeeps(TracedRun(early), last);
      DispatchAvoids(TracedHandle(TracedRun(early), last.event), last.resources);
    }
  }

  lemma NothingToAvoid()
    ensures Avoids(Traced(INITIAL, map[]))
  {
  }

  // ---------- Once failed, always failed ----------

  lemma HandleKeepsFailed(t: Traced, event: Event, id: JobId, worker: Worker)
    requires id in t.traces && id < t.now.nextJob && worker in t.traces[id].failed
    ensures var u := TracedHandle(t, event);
      id in u.traces && id < u.now.nextJob && worker in u.traces[id].failed
  {
    hide Plan, Accepts, Without;
  }

  lemma StepKeepsFailed(t: Traced, turn: Turn, id: JobId, worker: Worker)
    requires id in t.traces && id < t.now.nextJob && worker in t.traces[id].failed
    ensures var u := TracedStep(t, turn);
      id in u.traces && id < u.now.nextJob && worker in u.traces[id].failed
  {
    hide TracedHandle, TakenFlights, Harvest, Launched, StuckReports, GivenUp, Take;
    var h := TracedHandle(t, turn.event);
    HandleKeepsFailed(t, turn.event, id, worker);
    if id in h.now.jobs {
      RecordingKeepsFailed(h.traces[id], TakenFlights(id, h.now.jobs[id], turn.resources));
    }
  }

  /** Whatever happens later, a worker that failed a job stays failed. */
  lemma {:induction false} FailedStaysFailed(t: Traced, turns: seq<Turn>, id: JobId, worker: Worker)
    requires id in t.traces && id < t.now.nextJob && worker in t.traces[id].failed
    ensures var u := TracedFrom(t, turns);
      id in u.traces && id < u.now.nextJob && worker in u.traces[id].failed
  {
    hide TracedStep;
    if turns != [] {
      var before := turns[..|turns| - 1];
      FailedStaysFailed(t, before, id, worker);
      StepKeepsFailed(TracedFrom(t, before), turns[|turns| - 1], id, worker);
    }
  }

  /** In every run and every continuation of it: a worker that failed a job stays failed, and no flight of the job is
      with it. */
  lemma FailedWorkersAreAvoided(early: seq<Turn>, later: seq<Turn>, id: JobId, worker: Worker)
    requires AdmissibleRun(INITIAL, early + later)
    requires id in TracedRun(early).traces && worker in TracedRun(early).traces[id].failed
    ensures var u := TracedRun(early + later);
      && id in u.traces && worker in u.traces[id].failed
      && forall r | r in u.now.flights && u.now.flights[r].job == id :: u.now.flights[r].worker != worker
  {
    hide Inv, Quiet, AdmissibleRun, Run, TracedRun;
    PrefixAdmissible(early, later);
    RunKeeps(early);
    TracedIsOld(TracedRun(early), id);
    FailedStaysFailed(TracedRun(early), later, id, worker);
    TracedRunFrom(early, later);
    RunAvoids(early + later);
  }

  lemma TracedIsOld(t: Traced, id: JobId)
    requires Inv(t) && id in t.traces
    ensures id < t.now.nextJob
  {
    hide JobsOk, FlightsOk, ReportsOk, TrueReport, Bounded;
  }

  // ---------- Whatever the workers answer ----------

  /** A chunk of a live job comes back from a remote worker without a result that the job accepts. */
  predicate FailsChunk(s: Coordinator, turn: Turn, id: JobId, worker: Worker) {
    && (turn.event.ReplyArrives? || turn.event.RequestFails?)
    && turn.event.request in s.flights && id in s.jobs
    && (var f := s.flights[turn.event.request];
        && f.job == id && f.worker == worker && worker.Remote?
        && (turn.event.ReplyArrives? ==>
              !turn.event.reply.NodeInfoReply? && !Accepts(s.jobs[id], Some(f.chunk), turn.event.reply)))
  }

  lemma FailureIsRecorded(s: Coordinator, t: Traced, turn: Turn, id: JobId, worker: Worker)
    requires Alike(s, t.now) && FailsChunk(s, turn, id, worker) && id in t.traces && id < t.now.nextJob
    ensures var u := TracedStep(t, Heard(s, turn));
      id in u.traces && worker in u.traces[id].failed
  {
    hide TakenFlights, Accepts, RetryChunk, CompleteChunk, Harvest, Launched, StuckReports, GivenUp, Take;
    var h := TracedHandle(t, Heard(s, turn).event);
    assert id in h.traces && worker in h.traces[id].failed;
    if id in h.now.jobs {
      RecordingKeepsFailed(h.traces[id], TakenFlights(id, h.now.jobs[id], turn.resources));
    }
  }

  lemma LiveIsTraced(t: Traced, id: JobId)
    requires Inv(t) && id in t.now.jobs
    ensures id in t.traces && id < t.now.nextJob
  {
    hide FlightsOk, ReportsOk, TrueReport, Bounded, JobOk;
  }

  /** Whatever the workers answer and whatever happens later: once a remote worker failed a chunk of a job, no request
      of that job is ever with this worker again. */
  lemma FailedWorkerIsNeverUsedAgain(early: seq<Turn>, turn: Turn, later: seq<Turn>, id: JobId, worker: Worker)
    requires PlausibleRun(early + [turn] + later)
    requires FailsChunk(Run(INITIAL, early), turn, id, worker)
    ensures var s := Run(INITIAL, early + [turn] + later);
      forall r | r in s.flights && s.flights[r].job == id :: s.flights[r].worker != worker
  {
    hide Run, PlausibleRun, HeardAll, AdmissibleRun, Inv, Quiet, TracedStep, FailsChunk, Heard;
    var turns, n := early + [turn] + later, |early|;
    var heard := HeardAll(turns);
    assert turns[..n] == early && turns[n] == turn;
    HeardPrefix(turns, n);
    PlausiblePrefix(turns, n);
    RunAlike(early);
    RunAlike(turns);
    RunKeeps(HeardAll(early));
    var first := heard[..n + 1];
    assert heard == first + heard[n + 1..] && first[..|first| - 1] == HeardAll(early);
    var t := TracedRun(HeardAll(early));
    LiveFailure(Run(INITIAL, early), turn, id, worker);
    LiveIsTraced(t, id);
    FailureIsRecorded(Run(INITIAL, early), t, turn, id, worker);
    assert TracedRun(first) == TracedStep(t, Heard(Run(INITIAL, early), turn));
    FailedWorkersAreAvoided(first, heard[n + 1..], id, worker);
    RunKeeps(heard);
  }

  lemma LiveFailure(s: Coordinator, turn: Turn, id: JobId, worker: Worker)
    requires FailsChunk(s, turn, id, worker)
    ensures id in s.jobs
  {
  }
}

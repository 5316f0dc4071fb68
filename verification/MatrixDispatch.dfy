/** What one call of `take_matrix_dispatches` gives out: the greedy choice, and that a live job stays whole. */
module MatrixDispatch {
  import opened Core
  import opened MatrixModel
  import opened MatrixInvariant

  // ---------- The ranking ----------

  ghost predicate BestFirst(workers: seq<Worker>, resources: Resources) {
    forall i, j | 0 <= i < j < |workers| :: AtLeast(workers[i], workers[j], resources)
  }

  lemma {:induction false} InsertIs(worker: Worker, ranked: seq<Worker>, resources: Resources)
    requires Selectable(worker, resources) && forall w | w in ranked :: Selectable(w, resources)
    requires BestFirst(ranked, resources)
    ensures var r := Insert(worker, ranked, resources);
      && |r| == |ranked| + 1
      && (forall w :: w in r <==> w == worker || w in ranked)
      && (worker !in ranked && NoDuplicates(ranked) ==> NoDuplicates(r))
      && BestFirst(r, resources)
  {
    if ranked == [] {
    } else if AtLeast(worker, ranked[0], resources) {
      Prepend(worker, ranked, resources);
    } else {
      var rest := Insert(worker, ranked[1..], resources);
      InsertIs(worker, ranked[1..], resources);
      assert ranked == [ranked[0]] + ranked[1..];
      assert NoDuplicates(ranked) ==> ranked[0] !in ranked[1..];
      assert AtLeast(ranked[0], rest[0], resources) by {
        assert rest[0] == worker || rest[0] in ranked[1..];
        assert Selectable(ranked[0], resources);
      }
      Prepend(ranked[0], rest, resources);
    }
  }

  lemma Prepend(worker: Worker, ranked: seq<Worker>, resources: Resources)
    requires BestFirst(ranked, resources)
    requires forall w | w in ranked :: Selectable(w, resources)
    requires ranked != [] ==> AtLeast(worker, ranked[0], resources)
    ensures BestFirst([worker] + ranked, resources)
    ensures worker !in ranked && NoDuplicates(ranked) ==> NoDuplicates([worker] + ranked)
  {
    forall j | 0 <= j < |ranked| ensures AtLeast(worker, ranked[j], resources) {
      assert j > 0 ==> AtLeast(ranked[0], ranked[j], resources);
    }
  }

  lemma {:induction false} SortIs(workers: seq<Worker>, resources: Resources)
    requires forall w | w in workers :: Selectable(w, resources)
    ensures var r := SortByScore(workers, resources);
      && |r| == |workers|
      && (forall w :: w in r <==> w in workers)
      && (NoDuplicates(workers) ==> NoDuplicates(r))
      && BestFirst(r, resources)
  {
    if workers != [] {
      SortIs(workers[1..], resources);
      InsertIs(workers[0], SortByScore(workers[1..], resources), resources);
      assert NoDuplicates(workers) ==> workers[0] !in workers[1..];
    }
  }

  lemma {:induction false} EligibleOfIs(workers: seq<Worker>, resources: Resources)
    ensures var r := EligibleOf(workers, resources);
      && (forall w :: w in r <==> w in workers && Eligible(w, resources))
      && (NoDuplicates(workers) ==> NoDuplicates(r))
  {
    if workers != [] {
      EligibleOfIs(workers[1..], resources);
      assert workers == [workers[0]] + workers[1..];
      assert NoDuplicates(workers) ==> workers[0] !in workers[1..];
    }
  }

  /** The score of a worker that may be used now. */
  function ScoreOf(worker: Worker, resources: Resources): real
    requires Eligible(worker, resources)
  {
    WorkerScore(worker, resources).value
  }

  /** Who may be used, and with what score: a worker that contributes and has a finite positive score; a remote one
      only if what is known about it is at most 20 seconds old and its protocol version is at least 4. */
  lemma EligibleIs(resources: Resources)
    ensures var s := resources.local;
      && (Eligible(Local, resources) <==>
            !s.contributionPaused && s.effectiveCpuScore.Finite? && s.effectiveCpuScore.value > 0.0)
      && (Eligible(Local, resources) ==> ScoreOf(Local, resources) == s.effectiveCpuScore.value)
    ensures forall peer :: Eligible(Remote(peer), resources) <==>
      && peer in resources.peers
      && (var o := resources.peers[peer]; var s := o.snapshot;
          && o.age <= 20.0 && o.protocolVersion >= 4
          && !s.contributionPaused && s.effectiveCpuScore.Finite? && s.effectiveCpuScore.value > 0.0)
    ensures forall peer | Eligible(Remote(peer), resources) ::
      ScoreOf(Remote(peer), resources) == resources.peers[peer].snapshot.effectiveCpuScore.value
  {
  }

  /** Who may be selected for a new job: the same, but the score may also be infinite. */
  lemma SelectableIs(resources: Resources)
    ensures var s := resources.local;
      Selectable(Local, resources) <==>
        && !s.contributionPaused
        && (s.effectiveCpuScore.PositiveInfinity?
            || (s.effectiveCpuScore.Finite? && s.effectiveCpuScore.value > 0.0))
    ensures forall peer :: Selectable(Remote(peer), resources) <==>
      && peer in resources.peers
      && (var o := resources.peers[peer]; var s := o.snapshot;
          && o.age <= 20.0 && o.protocolVersion >= 4
          && !s.contributionPaused
          && (s.effectiveCpuScore.PositiveInfinity?
              || (s.effectiveCpuScore.Finite? && s.effectiveCpuScore.value > 0.0)))
  {
  }

  /** Scores never rise: an infinite one is not behind a finite one, and a larger number not behind a smaller one. */
  ghost predicate Descending(scores: seq<Score>) {
    forall i, j | 0 <= i < j < |scores| ::
      && (scores[j].PositiveInfinity? ==> scores[i].PositiveInfinity?)
      && (scores[i].Finite? && scores[j].Finite? ==> scores[i].value >= scores[j].value)
  }

  /** The scores of workers that may be selected. */
  function ScoresOf(workers: seq<Worker>, resources: Resources): seq<Score>
    requires forall w | w in workers :: Selectable(w, resources)
  {
    seq(|workers|, i requires 0 <= i < |workers| && Selectable(workers[i], resources) =>
      UsableSnapshot(workers[i], resources).value.effectiveCpuScore)
  }

  /** The workers of a new job are exactly those that may be selected, each once, by descending score. */
  lemma SelectionDescends(workers: seq<Worker>, resources: Resources)
    requires Selection(workers, resources)
    ensures forall w :: w in workers <==> Selectable(w, resources)
    ensures NoDuplicates(workers) && Descending(ScoresOf(workers, resources))
  {
    var scores := ScoresOf(workers, resources);
    forall i, j | 0 <= i < j < |scores|
      ensures scores[j].PositiveInfinity? ==> scores[i].PositiveInfinity?
      ensures scores[i].Finite? && scores[j].Finite? ==> scores[i].value >= scores[j].value
    {
      assert AtLeast(workers[i], workers[j], resources);
    }
  }

  /** The ranking lists exactly the eligible workers, each once, by descending score. */
  lemma RankedIs(workers: seq<Worker>, resources: Resources)
    requires NoDuplicates(workers)
    ensures var r := Ranked(workers, resources);
      && (forall w :: w in r <==> w in workers && Eligible(w, resources))
      && NoDuplicates(r)
      && (forall i, j | 0 <= i < j < |r| :: ScoreOf(r[i], resources) >= ScoreOf(r[j], resources))
  {
    EligibleOfIs(workers, resources);
    SortIs(EligibleOf(workers, resources), resources);
    var r := Ranked(workers, resources);
    forall i, j | 0 <= i < j < |r|
      ensures Eligible(r[i], resources) && Eligible(r[j], resources)
      ensures ScoreOf(r[i], resources) >= ScoreOf(r[j], resources)
    {
      assert r[i] in r && r[j] in r && AtLeast(r[i], r[j], resources);
    }
  }

  // ---------- Greedy dispatch ----------

  ghost function EligibleSet(workers: seq<Worker>, resources: Resources): set<Worker> {
    set w | w in workers && Eligible(w, resources)
  }

  lemma {:induction false} SizeOfDistinct(s: seq<Worker>)
    requires NoDuplicates(s)
    ensures |Waiting(s)| == |s|
  {
    if s != [] {
      SizeOfDistinct(s[1..]);
      assert s[0] !in s[1..];
      assert Waiting(s) == {s[0]} + Waiting(s[1..]);
    }
  }

  /** One call gives out as many chunks as there are eligible workers and pending chunks, in queue order and one
      more attempt each, to distinct eligible workers, best first; the other chunks wait. */
  lemma DispatchIsGreedy(id: JobId, job: Job, resources: Resources)
    requires NoDuplicates(job.availableWorkers)
    ensures var flights, after := TakenFlights(id, job, resources), Take(job, resources);
      && |flights| == Min(|EligibleSet(job.availableWorkers, resources)|, |job.pending|)
      && (forall i | 0 <= i < |flights| ::
            && flights[i].chunk == Started(job.pending[i])
            && flights[i].worker in job.availableWorkers && Eligible(flights[i].worker, resources))
      && (forall i, j | 0 <= i < j < |flights| ::
            && flights[i].worker != flights[j].worker
            && ScoreOf(flights[i].worker, resources) >= ScoreOf(flights[j].worker, resources))
      && after.pending == job.pending[|flights|..]
      && after.inFlight == job.inFlight + |flights|
  {
    var ranked := Ranked(job.availableWorkers, resources);
    RankedIs(job.availableWorkers, resources);
    assert Waiting(ranked) == EligibleSet(job.availableWorkers, resources);
    SizeOfDistinct(ranked);
  }

  /** The workers left over are exactly those not used, and none of them has a larger score than one that was used. */
  lemma LeftOverIsNoBetter(id: JobId, job: Job, resources: Resources)
    requires NoDuplicates(job.availableWorkers)
    ensures var flights, left := TakenFlights(id, job, resources), Take(job, resources).availableWorkers;
      && (forall w :: w in left <==> w in job.availableWorkers && w !in UsedWorkers(flights))
      && (forall w, i | w in left && Eligible(w, resources) && 0 <= i < |flights| ::
            && Eligible(flights[i].worker, resources)
            && ScoreOf(flights[i].worker, resources) >= ScoreOf(w, resources))
  {
    hide Ranked, WithoutAll, Eligible, ScoreOf;
    var ranked := Ranked(job.availableWorkers, resources);
    var n := Min(|ranked|, |job.pending|);
    var flights, left := TakenFlights(id, job, resources), Take(job, resources).availableWorkers;
    RankedIs(job.availableWorkers, resources);
    WithoutAllIs(job.availableWorkers, ranked[..n]);
    assert UsedWorkers(flights) == ranked[..n];
    forall w, i | w in left && Eligible(w, resources) && 0 <= i < |flights|
      ensures Eligible(flights[i].worker, resources)
      ensures ScoreOf(flights[i].worker, resources) >= ScoreOf(w, resources)
    {
      assert ranked == ranked[..n] + ranked[n..];
      var k :| 0 <= k < |ranked| - n && ranked[n..][k] == w;
      assert ranked[n + k] == w && flights[i].worker == ranked[i];
    }
  }

  function UsedWorkers(flights: seq<Flight>): seq<Worker> {
    seq(|flights|, i requires 0 <= i < |flights| => flights[i].worker)
  }

  lemma {:induction false} WithoutAllIs(workers: seq<Worker>, gone: seq<Worker>)
    ensures forall w :: w in WithoutAll(workers, gone) <==> w in workers && w !in gone
  {
    if gone != [] {
      var last := |gone| - 1;
      WithoutAllIs(workers, gone[..last]);
      WithoutIs(WithoutAll(workers, gone[..last]), gone[last]);
      assert gone == gone[..last] + [gone[last]];
    }
  }

  // ---------- A live job through one call ----------

  function RecordedAll(trace: Trace, flights: seq<Flight>): Trace {
    if flights == [] then trace
    else Recorded(RecordedAll(trace, flights[..|flights| - 1]), flights[|flights| - 1])
  }

  ghost function FlightSet(flights: seq<Flight>): set<Flight> {
    set f | f in flights
  }

  /** A live job after the first `n` ranked workers took a chunk each, one at a time. */
  ghost function AssignedFirst(id: JobId, l: Live, ranked: seq<Worker>, n: nat): Live
    requires n <= |ranked|
  {
    if n == 0 then l else Assigned(id, AssignedFirst(id, l, ranked, n - 1), ranked[n - 1])
  }

  /** The same in one go. */
  ghost function TakenFirst(id: JobId, l: Live, ranked: seq<Worker>, n: nat): Live
    requires n <= |ranked| && n <= |l.job.pending|
  {
    var flights := FirstFlights(id, l.job, ranked, n);
    Live(TakeFirst(l.job, ranked, n), RecordedAll(l.trace, flights), l.air + FlightSet(flights))
  }

  lemma TakeOneMore(id: JobId, l: Live, ranked: seq<Worker>, n: nat)
    requires n < |ranked| && n < |l.job.pending|
    ensures TakenFirst(id, l, ranked, n + 1) == Assigned(id, TakenFirst(id, l, ranked, n), ranked[n])
  {
    var before, after := FirstFlights(id, l.job, ranked, n), FirstFlights(id, l.job, ranked, n + 1);
    assert after == before + [after[n]];
    assert after[..n] == before;
    assert FlightSet(after) == FlightSet(before) + {after[n]};
    assert ranked[..n + 1][..n] == ranked[..n];
  }

  lemma {:induction false} OneAtATime(id: JobId, l: Live, ranked: seq<Worker>, n: nat)
    requires n <= |ranked| && n <= |l.job.pending|
    ensures AssignedFirst(id, l, ranked, n) == TakenFirst(id, l, ranked, n)
  {
    hide TakenFirst, Assigned;
    if n == 0 {
      NoneTaken(id, l, ranked);
    } else {
      OneAtATime(id, l, ranked, n - 1);
      TakeOneMore(id, l, ranked, n - 1);
    }
  }

  lemma NoneTaken(id: JobId, l: Live, ranked: seq<Worker>)
    ensures TakenFirst(id, l, ranked, 0) == l
  {
    assert l.job.pending[0..] == l.job.pending;
    assert FirstFlights(id, l.job, ranked, 0) == [];
  }

  lemma NextStillWaits(id: JobId, l: Live, ranked: seq<Worker>, n: nat)
    requires n < |ranked| && n < |l.job.pending|
    requires NoDuplicates(ranked) && forall w | w in ranked :: w in l.job.availableWorkers
    ensures AssignedFirst(id, l, ranked, n).job.pending != []
    ensures ranked[n] in AssignedFirst(id, l, ranked, n).job.availableWorkers
  {
    OneAtATime(id, l, ranked, n);
    WithoutAllIs(l.job.availableWorkers, ranked[..n]);
  }

  lemma {:induction false} AssigningKeeps(id: JobId, l: Live, ranked: seq<Worker>, n: nat)
    requires JobOk(id, l) && n <= |ranked| && n <= |l.job.pending|
    requires NoDuplicates(ranked) && forall w | w in ranked :: w in l.job.availableWorkers
    ensures JobOk(id, AssignedFirst(id, l, ranked, n))
  {
    hide JobOk;
    if n > 0 {
      AssigningKeeps(id, l, ranked, n - 1);
      NextStillWaits(id, l, ranked, n - 1);
      AssignKeeps(id, AssignedFirst(id, l, ranked, n - 1), ranked[n - 1]);
    }
  }

  /** A live job after one call of `take_matrix_dispatches`. */
  ghost function Dispatched(id: JobId, l: Live, resources: Resources): Live {
    var flights := TakenFlights(id, l.job, resources);
    Live(Take(l.job, resources), RecordedAll(l.trace, flights), l.air + FlightSet(flights))
  }

  lemma DispatchKeeps(id: JobId, l: Live, resources: Resources)
    requires JobOk(id, l)
    ensures JobOk(id, Dispatched(id, l, resources))
  {
    var ranked := Ranked(l.job.availableWorkers, resources);
    RankedIs(l.job.availableWorkers, resources);
    var n := Min(|ranked|, |l.job.pending|);
    AssigningKeeps(id, l, ranked, n);
    OneAtATime(id, l, ranked, n);
  }

  /** The chunks given out are new: none repeats, and none was already in flight. */
  lemma TakenAreNew(id: JobId, l: Live, resources: Resources)
    requires WorkersOk(l)
    ensures var flights := TakenFlights(id, l.job, resources);
      NoDuplicates(flights) && forall f | f in flights :: f !in l.air
  {
    var flights := TakenFlights(id, l.job, resources);
    RankedIs(l.job.availableWorkers, resources);
    forall f | f in flights ensures f !in l.air {
      assert f.worker in Waiting(l.job.availableWorkers);
      assert f.worker !in AirWorkers(l.air);
    }
  }

  lemma {:induction false} SizeOfBelow(n: nat)
    ensures |Below(n)| == n
  {
    hide Below;
    BelowLast(n);
    if n > 0 {
      SizeOfBelow(n - 1);
    }
  }

  lemma BelowLast(n: nat)
    ensures n == 0 ==> Below(n) == {}
    ensures n > 0 ==> Below(n) == Below(n - 1) + {n - 1}
  {
  }

  lemma IdleMeansPending(l: Live)
    requires ChunksOk(l) && l.air == {} && |l.trace.done| < l.job.totalChunks
    ensures l.job.pending != []
  {
    SizeOfBelow(l.job.totalChunks);
    assert l.job.pending == [] ==> l.trace.done == Below(l.job.totalChunks);
  }

  lemma NothingTakenMeansStuck(job: Job, resources: Resources)
    requires NoDuplicates(job.availableWorkers) && job.pending != [] && Take(job, resources).inFlight == 0
    ensures GivenUp(job, resources)
  {
    RankedIs(job.availableWorkers, resources);
    var ranked := Ranked(job.availableWorkers, resources);
    assert ranked == [];
    forall i | 0 <= i < |job.availableWorkers| ensures !Eligible(job.availableWorkers[i], resources) {
      assert job.availableWorkers[i] !in ranked;
    }
  }

  lemma NothingRunsMeansPending(id: JobId, l: Live)
    requires JobOk(id, l) && l.job.completedChunks < l.job.totalChunks && l.job.inFlight == 0
    ensures l.job.pending != [] && NoDuplicates(l.job.availableWorkers)
  {
    hide PlanOk, ChunksOk, AttemptsOk;
    IdleMeansPending(l);
  }

  lemma NothingTakenSendsNothing(id: JobId, job: Job, resources: Resources)
    requires Take(job, resources).inFlight == 0
    ensures job.inFlight == 0 && TakenFlights(id, job, resources) == []
  {
    hide Ranked;
  }

  /** After a call, an unfinished job that is not given up has a chunk in flight, and giving up sends nothing. */
  lemma NotStuckMeansBusy(id: JobId, l: Live, resources: Resources)
    requires JobOk(id, l) && l.job.completedChunks < l.job.totalChunks
    ensures !GivenUp(l.job, resources) ==> Take(l.job, resources).inFlight > 0
    ensures GivenUp(l.job, resources) ==> TakenFlights(id, l.job, resources) == []
  {
    hide JobOk, Take, TakenFlights;
    if Take(l.job, resources).inFlight == 0 {
      NothingTakenSendsNothing(id, l.job, resources);
      NothingRunsMeansPending(id, l);
      NothingTakenMeansStuck(l.job, resources);
    }
  }

  /** When a job is given up: chunks of it wait, none is running, and none of its waiting workers is eligible. */
  lemma GivenUpIs(job: Job, resources: Resources)
    requires NoDuplicates(job.availableWorkers)
    ensures GivenUp(job, resources) <==>
      job.pending != [] && job.inFlight == 0 && forall w | w in job.availableWorkers :: !Eligible(w, resources)
  {
    RankedIs(job.availableWorkers, resources);
    var ranked := Ranked(job.availableWorkers, resources);
    assert forall i | 0 <= i < |job.availableWorkers| :: job.availableWorkers[i] in job.availableWorkers;
    if ranked == [] {
      assert job.pending[0..] == job.pending;
    } else {
      assert ranked[0] in ranked;
    }
  }

  /** The chunk at the front of the queue goes to an eligible worker with the largest score. */
  lemma BestGetsFirst(id: JobId, job: Job, resources: Resources)
    requires NoDuplicates(job.availableWorkers) && job.pending != []
    requires exists w :: w in job.availableWorkers && Eligible(w, resources)
    ensures var flights := TakenFlights(id, job, resources);
      && flights != [] && flights[0].job == id && flights[0].size == job.size
      && flights[0].chunk == Started(job.pending[0])
      && flights[0].worker in job.availableWorkers && Eligible(flights[0].worker, resources)
      && forall w | w in job.availableWorkers && Eligible(w, resources) ::
          ScoreOf(flights[0].worker, resources) >= ScoreOf(w, resources)
  {
    RankedIs(job.availableWorkers, resources);
    var ranked := Ranked(job.availableWorkers, resources);
    var w :| w in job.availableWorkers && Eligible(w, resources);
    assert w in ranked && ranked[0] in ranked;
  }
}

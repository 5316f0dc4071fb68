/** A run in which one damaged block ends a download that has another active provider. */
module DownloadDamage {
  import opened Core
  import opened StorageModel
  import opened StorageLoss
  import opened DownloadModel
  import opened DownloadInvariant
  import opened DownloadRuns
  import opened DownloadTheorems
  import opened DownloadToStore
  import opened DownloadFailover
  import opened DownloadRestart

  const FETCH_PAIR := Fetch(X, [7, 8])
  const UNKNOWN := Download([7, 8], {}, 1, None, [], 0, 0, 0, 0)
  const KNOWN := Download([7, 8], {}, 1, Some(M), [ONE, TWO], 0, 0, 0, 2)
  const SHARED := Download([7, 8], {}, 1, Some(M), [], 2, 0, 0, 2)

  const PAIR_ASKED := Node(EMPTY, map[X := UNKNOWN], map[0 := ASK], [ASK], [])
  const PAIR_FETCHING := Node(EMPTY, map[X := SHARED], map[1 := BlockOf(8, X, ONE), 2 := BlockOf(7, X, TWO)],
                              [ASK, BlockOf(8, X, ONE), BlockOf(7, X, TWO)], [])

  /** The second provider reports an error for the first block instead of sending it damaged. */
  const REFUSES := Responds(1, ErrorReply, GOOD, Order([], [X]))

  lemma Alternate(d: Download)
    requires d.providers == [7, 8] && d.failed == {} && d.next < 2
    ensures NextActive(d) == (Some(d.providers[d.next]), d.(next := 1 - d.next))
  {
    assert Turned(d) == d.(next := 1 - d.next);
    assert d.providers[d.next] !in d.failed;
    assert Scan(d, 2) == (Some(d.providers[d.next]), Turned(d));
  }

  lemma PairFetched()
    ensures Step(BY_SIZE, Idle(EMPTY), FETCH_PAIR) == PAIR_ASKED
  {
    hide NextActive, HandleResponse, FailProvider, RequestFailed, After;
    assert Init([7, 8]) == [7] && Init([7]) == [] && Distinct([]) == [] && Distinct([7]) == [7];
    assert Distinct([7, 8]) == [7, 8];
    Alternate(NewDownload([7, 8]));
  }

  lemma PairAsked()
    ensures Step(BY_SIZE, PAIR_ASKED, MANIFEST) == PAIR_FETCHING
  {
    hide MissingBlocks, Ids, RequestBlocks;
    BothMissing();
    assert WithManifest(UNKNOWN, M, [ONE, TWO]) == KNOWN;
    assert PAIR_ASKED.outbound - {0} == map[];
    PairRequested();
    assert Put(Taken(PAIR_ASKED, 0), X, KNOWN) == Node(EMPTY, map[X := KNOWN], map[], [ASK], []);
  }

  lemma PairRequested()
    ensures RequestBlocks(Node(EMPTY, map[X := KNOWN], map[], [ASK], []), X) == PAIR_FETCHING
  {
    hide NextActive;
    var s := Node(EMPTY, map[X := KNOWN], map[], [ASK], []);
    Alternate(KNOWN);
    var t := AskForBlock(s, X, KNOWN.(next := 0), 8);
    Alternate(t.downloads[X]);
    var u := AskForBlock(t, X, t.downloads[X].(next := 1), 7);
    assert [ONE, TWO][1..] == [TWO] && [TWO][1..] == [];
    assert u == PAIR_FETCHING;
    assert RequestBlocks(u, X) == u;
    assert RequestBlocks(t, X) == u;
    assert RequestBlocks(s, X) == u;
  }

  lemma PairRun()
    ensures Run(BY_SIZE, Idle(EMPTY), [FETCH_PAIR, MANIFEST]) == PAIR_FETCHING
    ensures AdmissibleRun(BY_SIZE, Idle(EMPTY), [FETCH_PAIR, MANIFEST])
  {
    hide Step;
    PairFetched();
    PairAsked();
    assert Init([FETCH_PAIR, MANIFEST]) == [FETCH_PAIR] && Init([FETCH_PAIR]) == [];
    assert Run(BY_SIZE, Idle(EMPTY), []) == Idle(EMPTY);
    assert Run(BY_SIZE, Idle(EMPTY), [FETCH_PAIR]) == PAIR_ASKED;
    assert AdmissibleRun(BY_SIZE, Idle(EMPTY), []) && AdmissibleRun(BY_SIZE, Idle(EMPTY), [FETCH_PAIR]);
  }

  /** Nothing else was asked of the provider that reports an error. */
  lemma NothingElseAsked(h: map<ContentId, Trace>)
    requires Inv(PAIR_FETCHING, h, {})
    ensures Admissible(PAIR_FETCHING, REFUSES)
  {
    hide Inv, RequestFailed;
    var s := PAIR_FETCHING;
    var t := RequestFailed(Taken(s, 1), s.outbound[1]);
    RequestFailedKeeps(s, h, 1, {});
    RequestFailedCarries(Taken(s, 1), s.outbound[1]);
    DyingGrows(s, h, {}, {} + {8});
    forall r | r in t.outbound ensures t.outbound[r].peer != 8 {
      if t.outbound[r].peer == 8 {
        SameRequest(s, h, t, {} + {8}, r);
      }
    }
  }

  /** Two providers are active and none has failed. If the second sends one damaged block, the download is over; if it
      reports an error instead, the download goes on with the first. */
  lemma OneDamagedBlockEndsDownload()
    ensures var events := [FETCH_PAIR, MANIFEST];
      var s := Run(BY_SIZE, Idle(EMPTY), events);
      && AdmissibleRun(BY_SIZE, Idle(EMPTY), events) && Admissible(s, BROKEN) && Admissible(s, REFUSES)
      && X in s.downloads && s.downloads[X].providers == [7, 8] && s.downloads[X].failed == {}
      && X !in Step(BY_SIZE, s, BROKEN).downloads
      && Step(BY_SIZE, s, BROKEN).endings == [BlockRefused(X, Integrity)]
      && X in Step(BY_SIZE, s, REFUSES).downloads
  {
    hide Step, Inv, AdmissibleRun, Run, RequestFailed, Visits;
    PairRun();
    var events, s := [FETCH_PAIR, MANIFEST], PAIR_FETCHING;
    var h := Traces(BY_SIZE, EMPTY, events);
    RunKeeps(BY_SIZE, EMPTY, events);
    DamagedBlock();
    NothingElseAsked(h);
    assert 7 in SHARED.providers && 7 !in SHARED.failed;
    FailoverIsExact(BY_SIZE, s, h, REFUSES, X);
  }

  lemma DamagedBlock()
    ensures X !in Step(BY_SIZE, PAIR_FETCHING, BROKEN).downloads
    ensures Step(BY_SIZE, PAIR_FETCHING, BROKEN).endings == [BlockRefused(X, Integrity)]
  {
    hide FailProvider, RequestFailed, RequestBlocks, Finish;
    assert !Fits(BY_SIZE, ONE, []);
  }
}

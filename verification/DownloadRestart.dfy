/** What goes wrong when a download is restarted while block requests of its last attempt are outstanding. */
module DownloadRestart {
  import opened Core
  import opened StorageModel
  import opened StorageTheorems
  import opened StorageLoss
  import opened DownloadModel
  import opened DownloadRuns

  /** A block that the last attempt asked for ends the new attempt before its manifest has come. */
  lemma StaleBlockEndsNewAttempt(c: Config, s: Node, r: RequestId, data: Bytes, io: Faults, order: Order)
    requires r in s.outbound && s.outbound[r].BlockOf? && s.outbound[r].id in s.downloads
    requires var d := s.downloads[s.outbound[r].id]; d.manifest.None? && d.pending == [] && d.inFlight == 0
    requires StoreBlock(c, s.store, s.outbound[r].block, data, io.disk).result.Ok?
    ensures var u := Step(c, s, Responds(r, BlockReply(s.outbound[r].block, data), io, order));
      && s.outbound[r].id !in u.downloads
      && u.endings == s.endings + [ManifestNotReceived(s.outbound[r].id)]
  {
    hide StoreBlock;
  }

  // ---------- A run in which this happens ----------

  const X := ContentId(3)
  const TWO := BlockRef(ContentId(2), 2)
  const M := Manifest(MANIFEST_VERSION, X, 3, BLOCK_BYTES, [ONE, TWO])
  const ASK := ManifestOf(7, X)
  const GOOD := Faults(Disk(true, true, true), true)
  const NO_ORDER := Order([], [])

  const FRESH := Download([7], {}, 0, None, [], 0, 0, 0, 0)
  const BUSY := Download([7], {}, 0, Some(M), [], 2, 0, 0, 2)

  const ASKED := Node(EMPTY, map[X := FRESH], map[0 := ASK], [ASK], [])
  const FETCHING := Node(EMPTY, map[X := BUSY], map[1 := BlockOf(7, X, ONE), 2 := BlockOf(7, X, TWO)],
                         [ASK, BlockOf(7, X, ONE), BlockOf(7, X, TWO)], [])
  const REFUSED := Node(EMPTY, map[], map[2 := BlockOf(7, X, TWO)], FETCHING.sent, [BlockRefused(X, Integrity)])
  const RESTARTED := Node(EMPTY, map[X := FRESH], map[2 := BlockOf(7, X, TWO), 3 := ASK], FETCHING.sent + [ASK],
                          [BlockRefused(X, Integrity)])

  const FETCH := Fetch(X, [7])
  const MANIFEST := Responds(0, ManifestReply(M), GOOD, NO_ORDER)
  const BROKEN := Responds(1, BlockReply(ONE, []), GOOD, NO_ORDER)
  const LATE := Responds(2, BlockReply(TWO, [0, 0]), GOOD, NO_ORDER)

  lemma OneProvider(d: Download)
    requires d.providers == [7] && d.failed == {} && d.next == 0
    ensures NextActive(d) == (Some(7), d)
  {
    assert Turned(d) == d;
    assert Scan(d, 1) == (Some(7), d);
  }

  lemma Fetched(s: Node)
    requires X !in s.downloads
    ensures Step(BY_SIZE, s, FETCH) == Send(Put(s, X, FRESH), ASK)
  {
    hide NextActive, HandleResponse, FailProvider, RequestFailed, After;
    assert Init([7]) == [] && Distinct([]) == [] && Distinct([7]) == [7];
    OneProvider(FRESH);
    assert Put(Put(s, X, FRESH), X, FRESH) == Put(s, X, FRESH);
  }

  lemma BothMissing()
    ensures MissingBlocks(BY_SIZE, EMPTY, M) == Ok([ONE, TWO]) && Ids(M.blocks) == {ONE.id, TWO.id}
  {
    assert Init([ONE, TWO]) == [ONE] && Init([ONE]) == [];
    assert Total([]) == 0 && Total([ONE]) == 1;
    assert Total([ONE, TWO]) == 3;
    assert Ids([ONE]) == {ONE.id};
    assert MissingOf(BY_SIZE, EMPTY, [ONE]) == [ONE];
    assert MissingOf(BY_SIZE, EMPTY, [ONE, TWO]) == [ONE, TWO];
    assert forall b | b in M.blocks :: b == ONE || b == TWO;
    assert ONE in M.blocks && TWO in M.blocks;
  }

  lemma BothAsked()
    ensures Step(BY_SIZE, ASKED, MANIFEST) == FETCHING
  {
    hide MissingBlocks, Ids, RequestBlocks;
    BothMissing();
    assert WithManifest(FRESH, M, [ONE, TWO]).reused == 0;
    assert ASKED.outbound - {0} == map[];
    BothRequested(WithManifest(FRESH, M, [ONE, TWO]));
    assert Put(Taken(ASKED, 0), X, WithManifest(FRESH, M, [ONE, TWO]))
        == Node(EMPTY, map[X := WithManifest(FRESH, M, [ONE, TWO])], map[], [ASK], []);
  }

  lemma BothRequested(d: Download)
    requires d == Download([7], {}, 0, Some(M), [ONE, TWO], 0, 0, 0, 2)
    ensures RequestBlocks(Node(EMPTY, map[X := d], map[], [ASK], []), X) == FETCHING
  {
    hide NextActive;
    var s := Node(EMPTY, map[X := d], map[], [ASK], []);
    var t := AskForBlock(s, X, d, 7);
    var u := AskForBlock(t, X, t.downloads[X], 7);
    assert [ONE, TWO][1..] == [TWO] && [TWO][1..] == [];
    OneProvider(d);
    OneProvider(t.downloads[X]);
    assert u == FETCHING;
    assert RequestBlocks(u, X) == u;
    assert RequestBlocks(t, X) == u;
    assert RequestBlocks(s, X) == u;
  }

  lemma FirstRefused()
    ensures Step(BY_SIZE, FETCHING, BROKEN) == REFUSED
  {
    assert !Fits(BY_SIZE, ONE, []);
    assert FETCHING.outbound - {1} == REFUSED.outbound;
    assert FETCHING.downloads - {X} == map[];
  }

  lemma SecondStored()
    ensures StoreBlock(BY_SIZE, EMPTY, TWO, [0, 0], GOOD.disk).result.Ok?
  {
    assert Fits(BY_SIZE, TWO, [0, 0]);
    assert BlockSizes(EMPTY) == map[] && ManifestSizes(BY_SIZE, EMPTY) == map[];
    assert Used(BY_SIZE, EMPTY) == 0;
  }

  lemma RunOfFive(c: Config, s: Node, a: Event, b: Event, d: Event, e: Event, f: Event)
    ensures Run(c, s, [a, b, d, e, f]) == Step(c, Step(c, Step(c, Step(c, Step(c, s, a), b), d), e), f)
  {
    hide Step;
    assert Init([a, b, d, e, f]) == [a, b, d, e] && Init([a, b, d, e]) == [a, b, d];
    assert Init([a, b, d]) == [a, b] && Init([a, b]) == [a] && Init([a]) == [];
    assert Run(c, s, [a]) == Step(c, Run(c, s, []), a);
    assert Run(c, s, [a, b]) == Step(c, Run(c, s, [a]), b);
    assert Run(c, s, [a, b, d]) == Step(c, Run(c, s, [a, b]), d);
  }

  /** One broken block ends the first attempt; the second attempt, whose provider then answers correctly, ends
      without its manifest. */
  lemma RestartCanFail()
    ensures Run(BY_SIZE, Idle(EMPTY), [FETCH, MANIFEST, BROKEN, FETCH, LATE]).endings
         == [BlockRefused(X, Integrity), ManifestNotReceived(X)]
    ensures !NothingOwed(Run(BY_SIZE, Idle(EMPTY), [FETCH, MANIFEST, BROKEN]), X)
    ensures !Named(BY_SIZE, ONE, []) && Named(BY_SIZE, TWO, [0, 0])
  {
    hide Step, NothingOwed;
    RunOfFive(BY_SIZE, Idle(EMPTY), FETCH, MANIFEST, BROKEN, FETCH, LATE);
    Fetched(Idle(EMPTY));
    BothAsked();
    FirstRefused();
    Fetched(REFUSED);
    assert Send(Put(Idle(EMPTY), X, FRESH), ASK) == ASKED;
    assert Send(Put(REFUSED, X, FRESH), ASK) == RESTARTED;
    SecondStored();
    StaleBlockEndsNewAttempt(BY_SIZE, RESTARTED, 2, [0, 0], GOOD, NO_ORDER);
    RunOfThree();
  }

  lemma RunOfThree()
    requires Step(BY_SIZE, Idle(EMPTY), FETCH) == ASKED && Step(BY_SIZE, ASKED, MANIFEST) == FETCHING
    requires Step(BY_SIZE, FETCHING, BROKEN) == REFUSED
    ensures !NothingOwed(Run(BY_SIZE, Idle(EMPTY), [FETCH, MANIFEST, BROKEN]), X)
  {
    hide Step;
    assert Init([FETCH, MANIFEST, BROKEN]) == [FETCH, MANIFEST] && Init([FETCH, MANIFEST]) == [FETCH]
        && Init([FETCH]) == [];
    assert Run(BY_SIZE, Idle(EMPTY), [FETCH]) == Step(BY_SIZE, Run(BY_SIZE, Idle(EMPTY), []), FETCH);
    assert Run(BY_SIZE, Idle(EMPTY), [FETCH, MANIFEST]) == FETCHING;
    assert 2 in REFUSED.outbound;
  }
}

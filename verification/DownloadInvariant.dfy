/** The state of one download, and how single requests change it. */
module DownloadInvariant {
  import opened Core
  import opened StorageModel
  import opened DownloadModel
  import opened DownloadProviders

  /** The history of a download: its providers, the blocks that were missing when its manifest came, those that
      were stored since, and the number of block requests for its content before it began. */
  datatype Trace = Trace(providers: seq<PeerId>, missing: seq<BlockRef>, done: set<BlockRef>, begun: nat)

  predicate Concerns(request: Outbound, id: ContentId) {
    !request.InventoryOf? && request.id == id
  }

  /** The outstanding requests of one download. */
  function About(outbound: map<RequestId, Outbound>, id: ContentId): map<RequestId, Outbound> {
    map r | r in outbound && Concerns(outbound[r], id) :: outbound[r]
  }

  function BlocksSent(sent: seq<Outbound>, id: ContentId): nat {
    if sent == [] then 0
    else BlocksSent(Init(sent), id) + if Last(sent).BlockOf? && Last(sent).id == id then 1 else 0
  }

  function Elements(refs: seq<BlockRef>): set<BlockRef> {
    set b | b in refs
  }

  /** The blocks that are being fetched. */
  function Owed(mine: map<RequestId, Outbound>): set<BlockRef> {
    set r | r in mine && mine[r].BlockOf? :: mine[r].block
  }

  ghost predicate ProvidersOk(d: Download, trace: Trace) {
    && d.providers == trace.providers
    && NoDuplicates(d.providers)
    && d.next < |d.providers| <= MAX_ARTIFACT_PROVIDERS
    && (forall p | p in d.failed :: p in d.providers)
    && ActiveCount(d) > 0
  }

  /** Requests went to providers, and only a provider that is just being given up owes something after it failed. */
  ghost predicate AskedOk(d: Download, mine: map<RequestId, Outbound>, dying: set<PeerId>) {
    forall r | r in mine ::
      && mine[r].peer in d.providers
      && (mine[r].peer in d.failed ==> mine[r].peer in dying)
  }

  /** Nothing but one request for the manifest is outstanding. */
  ghost predicate AwaitsManifest(id: ContentId, d: Download, mine: map<RequestId, Outbound>, trace: Trace,
      sent: seq<Outbound>) {
    && d.manifest.None? && d.pending == [] && d.inFlight == 0 && d.completed == 0 && d.totalMissing == 0
    && trace.missing == [] && trace.done == {} && BlocksSent(sent, id) == trace.begun
    && |mine| == 1
    && forall r | r in mine :: mine[r].ManifestOf?
  }

  /** The missing blocks are the disjoint union of the waiting, the requested and the stored ones. */
  ghost predicate Partition(pending: seq<BlockRef>, owed: set<BlockRef>, done: set<BlockRef>, missing: seq<BlockRef>) {
    && NoDuplicates(pending) && NoDuplicates(missing)
    && Elements(pending) !! owed && Elements(pending) !! done && owed !! done
    && Elements(pending) + owed + done == Elements(missing)
  }

  ghost predicate OneRequestEach(mine: map<RequestId, Outbound>) {
    && (forall r | r in mine :: mine[r].BlockOf?)
    && forall q, r | q in mine && r in mine && q != r :: mine[q].block != mine[r].block
  }

  ghost predicate FetchesBlocks(id: ContentId, d: Download, mine: map<RequestId, Outbound>, trace: Trace) {
    && d.manifest.Some? && d.manifest.value.id == id && ValidManifest(d.manifest.value)
    && OneRequestEach(mine)
    && d.inFlight == |mine| <= MAX_PARALLEL_ARTIFACT_BLOCKS
    && Partition(d.pending, Owed(mine), trace.done, trace.missing)
    && d.completed == |trace.done| && d.totalMissing == |trace.missing|
  }

  /** The block requests that failed providers still owe. */
  function Lost(d: Download, mine: map<RequestId, Outbound>): set<RequestId> {
    set r | r in mine && mine[r].BlockOf? && mine[r].peer in d.failed
  }

  /** Block requests made so far, and those that may still be made. */
  ghost predicate Budget(id: ContentId, d: Download, mine: map<RequestId, Outbound>, trace: Trace,
      sent: seq<Outbound>) {
    BlocksSent(sent, id) + |d.pending| + MAX_PARALLEL_ARTIFACT_BLOCKS * ActiveCount(d) + |Lost(d, mine)|
      <= trace.begun + |trace.missing| + MAX_PARALLEL_ARTIFACT_BLOCKS * |trace.providers|
  }

  /** Something is being fetched, and as much as may be. */
  predicate Flows(d: Download) {
    d.manifest.Some? ==> d.inFlight > 0 && (d.inFlight == MAX_PARALLEL_ARTIFACT_BLOCKS || d.pending == [])
  }

  ghost predicate Sound(id: ContentId, d: Download, mine: map<RequestId, Outbound>, trace: Trace,
      sent: seq<Outbound>, dying: set<PeerId>) {
    && ProvidersOk(d, trace)
    && AskedOk(d, mine, dying)
    && (AwaitsManifest(id, d, mine, trace, sent) || FetchesBlocks(id, d, mine, trace))
    && Budget(id, d, mine, trace, sent)
  }

  lemma IsFetching(id: ContentId, d: Download, mine: map<RequestId, Outbound>, trace: Trace, sent: seq<Outbound>,
      dying: set<PeerId>)
    requires Sound(id, d, mine, trace, sent, dying)
    ensures d.manifest.Some? || (exists r :: r in mine && mine[r].BlockOf?) ==> FetchesBlocks(id, d, mine, trace)
    ensures d.manifest.None? || (exists r :: r in mine && mine[r].ManifestOf?) ==> AwaitsManifest(id, d, mine, trace,
        sent)
    ensures |mine| <= MAX_PARALLEL_ARTIFACT_BLOCKS
    ensures forall r | r in mine :: mine[r].peer in d.providers
  {
    hide ProvidersOk, Budget, BlocksSent, Partition, ValidManifest;
  }

  lemma SameProviders(d: Download, e: Download, trace: Trace, t: Trace)
    requires ProvidersOk(d, trace) && t.providers == trace.providers
    requires e.providers == d.providers && e.failed == d.failed && e.next < |d.providers|
    ensures ProvidersOk(e, t) && ActiveCount(e) == ActiveCount(d)
  {
    hide ActiveOf;
  }

  lemma OneMoreFailed(d: Download, e: Download, trace: Trace, peer: PeerId)
    requires ProvidersOk(d, trace) && peer in d.providers && ActiveCount(e) > 0
    requires e.providers == d.providers && e.failed == d.failed + {peer} && e.next < |d.providers|
    ensures ProvidersOk(e, trace)
  {
    hide ActiveCount;
  }

  // ---------- Counting providers ----------

  lemma {:induction false} ActiveOfFailing(peers: seq<PeerId>, failed: set<PeerId>, peer: PeerId)
    requires NoDuplicates(peers)
    ensures |ActiveOf(peers, failed + {peer})|
         == |ActiveOf(peers, failed)| - if peer in peers && peer !in failed then 1 else 0
  {
    if peers != [] {
      ActiveOfFailing(peers[1..], failed, peer);
      assert peers == [peers[0]] + peers[1..];
    }
  }

  lemma Failing(d: Download, peer: PeerId)
    requires NoDuplicates(d.providers) && peer in d.providers
    ensures ActiveCount(d.(failed := d.failed + {peer})) == ActiveCount(d) - if peer in d.failed then 0 else 1
  {
    ActiveOfFailing(d.providers, d.failed, peer);
  }

  /** An active provider is found when there is one. */
  lemma SomeActive(d: Download)
    requires d.next < |d.providers| && ActiveCount(d) > 0
    ensures NextActive(d).0.Some?
    ensures NextActive(d).0.value in d.providers && NextActive(d).0.value !in d.failed
    ensures NextActive(d).1.next < |d.providers| && NextActive(d).1 == d.(next := NextActive(d).1.next)
  {
    NextActiveIs(d);
    ActiveOfIs(d.providers, d.failed);
    var first := ActiveOf(d.providers, d.failed)[0];
    assert first in ActiveOf(d.providers, d.failed);
  }

  // ---------- One more block request ----------

  lemma AskedPartition(pending: seq<BlockRef>, owed: set<BlockRef>, done: set<BlockRef>, missing: seq<BlockRef>)
    requires Partition(pending, owed, done, missing) && pending != []
    ensures Partition(pending[1..], owed + {pending[0]}, done, missing)
  {
    assert pending == [pending[0]] + pending[1..];
    assert Elements(pending) == {pending[0]} + Elements(pending[1..]);
    assert forall i | 0 <= i < |pending| - 1 :: pending[1..][i] == pending[i + 1];
  }

  lemma AskedOwes(mine: map<RequestId, Outbound>, r: RequestId, request: Outbound)
    requires r !in mine && request.BlockOf? && OneRequestEach(mine) && request.block !in Owed(mine)
    ensures OneRequestEach(mine[r := request])
    ensures Owed(mine[r := request]) == Owed(mine) + {request.block}
    ensures |mine[r := request]| == |mine| + 1
  {
    hide Owed, OneRequestEach;
    OwedIs(mine, r, request);
    OneMoreRequest(mine, r, request);
    assert mine[r := request].Keys == mine.Keys + {r};
  }

  lemma OwedIs(mine: map<RequestId, Outbound>, r: RequestId, request: Outbound)
    requires r !in mine && request.BlockOf?
    ensures Owed(mine[r := request]) == Owed(mine) + {request.block}
  {
    var more := mine[r := request];
    forall b | b in Owed(mine) ensures b in Owed(more) {
      var q :| q in mine && mine[q].BlockOf? && mine[q].block == b;
      assert more[q] == mine[q];
    }
    assert more[r] == request;
  }

  lemma OneMoreRequest(mine: map<RequestId, Outbound>, r: RequestId, request: Outbound)
    requires r !in mine && request.BlockOf? && OneRequestEach(mine) && request.block !in Owed(mine)
    ensures OneRequestEach(mine[r := request])
  {
    forall q | q in mine ensures mine[q].block != request.block {
      assert mine[q].block in Owed(mine);
    }
  }

  lemma AskedFetches(id: ContentId, d: Download, mine: map<RequestId, Outbound>, trace: Trace, moved: Download,
      r: RequestId, request: Outbound)
    requires FetchesBlocks(id, d, mine, trace) && d.pending != [] && d.inFlight < MAX_PARALLEL_ARTIFACT_BLOCKS
    requires r !in mine && request.BlockOf? && request.block == d.pending[0] && moved == d.(next := moved.next)
    ensures FetchesBlocks(id, moved.(pending := d.pending[1..], inFlight := d.inFlight + 1), mine[r := request], trace)
  {
    hide ValidManifest;
    AskedPartition(d.pending, Owed(mine), trace.done, trace.missing);
    assert d.pending[0] in Elements(d.pending);
    AskedOwes(mine, r, request);
  }

  lemma SentOne(sent: seq<Outbound>, request: Outbound, id: ContentId)
    ensures BlocksSent(sent + [request], id)
         == BlocksSent(sent, id) + if request.BlockOf? && request.id == id then 1 else 0
  {
    assert Init(sent + [request]) == sent;
  }

  lemma AskedSound(id: ContentId, d: Download, mine: map<RequestId, Outbound>, trace: Trace, sent: seq<Outbound>,
      dying: set<PeerId>, moved: Download, r: RequestId, request: Outbound)
    requires Sound(id, d, mine, trace, sent, dying) && d.manifest.Some?
    requires d.pending != [] && d.inFlight < MAX_PARALLEL_ARTIFACT_BLOCKS
    requires moved == d.(next := moved.next) && moved.next < |d.providers|
    requires r !in mine && request.BlockOf? && request.id == id && request.block == d.pending[0]
    requires request.peer in d.providers && request.peer !in d.failed
    ensures Sound(id, moved.(pending := d.pending[1..], inFlight := d.inFlight + 1), mine[r := request], trace,
        sent + [request], dying)
  {
    hide FetchesBlocks, AwaitsManifest, ProvidersOk, AskedOk, Budget;
    var asked := moved.(pending := d.pending[1..], inFlight := d.inFlight + 1);
    IsFetching(id, d, mine, trace, sent, dying);
    AskedFetches(id, d, mine, trace, moved, r, request);
    SameProviders(d, asked, trace, trace);
    AskedAsked(d, asked, mine, dying, r, request);
    AskedBudget(id, d, asked, mine, trace, sent, r, request);
  }

  lemma AskedAsked(d: Download, e: Download, mine: map<RequestId, Outbound>, dying: set<PeerId>, r: RequestId,
      request: Outbound)
    requires AskedOk(d, mine, dying) && request.peer in d.providers && request.peer !in d.failed
    requires e.providers == d.providers && e.failed == d.failed
    ensures AskedOk(e, mine[r := request], dying)
  {
  }

  lemma AskedBudget(id: ContentId, d: Download, e: Download, mine: map<RequestId, Outbound>, trace: Trace,
      sent: seq<Outbound>, r: RequestId, request: Outbound)
    requires Budget(id, d, mine, trace, sent) && d.pending != [] && r !in mine && request.peer !in d.failed
    requires e.providers == d.providers && e.failed == d.failed && e.pending == d.pending[1..]
    ensures Budget(id, e, mine[r := request], trace, sent + [request])
  {
    SentOne(sent, request, id);
    hide BlocksSent, ActiveOf;
    assert Lost(e, mine[r := request]) == Lost(d, mine);
  }

  // ---------- A failed provider's block request ----------

  lemma RequeuedPartition(pending: seq<BlockRef>, owed: set<BlockRef>, done: set<BlockRef>, missing: seq<BlockRef>,
      b: BlockRef)
    requires Partition(pending, owed, done, missing) && b in owed
    ensures Partition(pending + [b], owed - {b}, done, missing)
  {
    assert Elements(pending + [b]) == Elements(pending) + {b};
    assert forall i | 0 <= i < |pending| :: pending[i] in Elements(pending);
  }

  lemma AnsweredOwes(mine: map<RequestId, Outbound>, r: RequestId)
    requires r in mine && OneRequestEach(mine)
    ensures OneRequestEach(mine - {r})
    ensures Owed(mine - {r}) == Owed(mine) - {mine[r].block} && mine[r].block in Owed(mine)
    ensures |mine - {r}| == |mine| - 1
  {
    var rest := mine - {r};
    assert rest.Keys == mine.Keys - {r};
    forall b | b in Owed(mine) && b != mine[r].block ensures b in Owed(rest) {
      var q :| q in mine && mine[q].block == b;
      assert q in rest;
    }
  }

  lemma RequeuedFetches(id: ContentId, d: Download, mine: map<RequestId, Outbound>, trace: Trace, r: RequestId)
    requires FetchesBlocks(id, d, mine, trace) && r in mine
    ensures FetchesBlocks(id, Requeued(d, mine[r].peer, mine[r].block), mine - {r}, trace)
  {
    hide ValidManifest;
    AnsweredOwes(mine, r);
    RequeuedPartition(d.pending, Owed(mine), trace.done, trace.missing, mine[r].block);
  }

  /** A provider that fails gives back at most four blocks in all: the failed one and those it still owes. */
  lemma RequeuedBudget(id: ContentId, d: Download, mine: map<RequestId, Outbound>, trace: Trace,
      sent: seq<Outbound>, r: RequestId)
    requires Budget(id, d, mine, trace, sent) && ProvidersOk(d, trace)
    requires r in mine && mine[r].BlockOf? && |mine| <= MAX_PARALLEL_ARTIFACT_BLOCKS && mine[r].peer in d.providers
    ensures Budget(id, Requeued(d, mine[r].peer, mine[r].block), mine - {r}, trace, sent)
  {
    var peer := mine[r].peer;
    var e := Requeued(d, peer, mine[r].block);
    Failing(d, peer);
    assert ActiveCount(e) == ActiveCount(d.(failed := d.failed + {peer}));
    hide ActiveCount, BlocksSent;
    if peer in d.failed {
      assert Lost(e, mine - {r}) == Lost(d, mine) - {r};
    } else {
      assert Lost(e, mine - {r}) <= mine.Keys - {r};
      SubsetIsSmaller(Lost(e, mine - {r}), mine.Keys - {r});
    }
  }

  lemma RequeuedSound(id: ContentId, d: Download, mine: map<RequestId, Outbound>, trace: Trace,
      sent: seq<Outbound>, dying: set<PeerId>, r: RequestId)
    requires Sound(id, d, mine, trace, sent, dying) && r in mine && mine[r].BlockOf?
    requires ActiveCount(Requeued(d, mine[r].peer, mine[r].block)) > 0
    ensures Sound(id, Requeued(d, mine[r].peer, mine[r].block), mine - {r}, trace, sent, dying + {mine[r].peer})
  {
    hide FetchesBlocks, AwaitsManifest, ProvidersOk, AskedOk, Budget, ActiveCount;
    IsFetching(id, d, mine, trace, sent, dying);
    var e := Requeued(d, mine[r].peer, mine[r].block);
    RequeuedFetches(id, d, mine, trace, r);
    RequeuedBudget(id, d, mine, trace, sent, r);
    NextIsSmall(d, trace);
    OneMoreFailed(d, e, trace, mine[r].peer);
    RequeuedAsked(d, e, mine, dying, r);
  }

  lemma NextIsSmall(d: Download, trace: Trace)
    requires ProvidersOk(d, trace)
    ensures d.next < |d.providers| && NoDuplicates(d.providers) && ActiveCount(d) > 0 && d.providers == trace.providers
  {
  }

  lemma RequeuedAsked(d: Download, e: Download, mine: map<RequestId, Outbound>, dying: set<PeerId>, r: RequestId)
    requires AskedOk(d, mine, dying) && r in mine
    requires e.providers == d.providers && e.failed == d.failed + {mine[r].peer}
    ensures AskedOk(e, mine - {r}, dying + {mine[r].peer})
  {
  }

  // ---------- A stored block ----------

  lemma StoredFetches(id: ContentId, d: Download, mine: map<RequestId, Outbound>, trace: Trace, r: RequestId)
    requires FetchesBlocks(id, d, mine, trace) && r in mine
    ensures FetchesBlocks(id, WithBlock(d), mine - {r}, trace.(done := trace.done + {mine[r].block}))
  {
    hide ValidManifest, Partition;
    AnsweredOwes(mine, r);
    StoredPartition(d.pending, Owed(mine), trace.done, trace.missing, mine[r].block);
  }

  lemma StoredPartition(pending: seq<BlockRef>, owed: set<BlockRef>, done: set<BlockRef>, missing: seq<BlockRef>,
      b: BlockRef)
    requires Partition(pending, owed, done, missing) && b in owed
    ensures Partition(pending, owed - {b}, done + {b}, missing)
    ensures |done + {b}| == |done| + 1
  {
  }

  lemma StoredSound(id: ContentId, d: Download, mine: map<RequestId, Outbound>, trace: Trace, sent: seq<Outbound>,
      r: RequestId)
    requires Sound(id, d, mine, trace, sent, {}) && r in mine && mine[r].BlockOf?
    ensures Sound(id, WithBlock(d), mine - {r}, trace.(done := trace.done + {mine[r].block}), sent, {})
  {
    hide FetchesBlocks, AwaitsManifest, ProvidersOk, AskedOk, Budget;
    IsFetching(id, d, mine, trace, sent, {});
    var e, t := WithBlock(d), trace.(done := trace.done + {mine[r].block});
    StoredFetches(id, d, mine, trace, r);
    NextIsSmall(d, trace);
    SameProviders(d, e, trace, t);
    FewerAsked(d, e, mine, {}, r);
    StoredBudget(id, d, e, mine, trace, t, sent, r);
  }

  lemma FewerAsked(d: Download, e: Download, mine: map<RequestId, Outbound>, dying: set<PeerId>, r: RequestId)
    requires AskedOk(d, mine, dying) && e.providers == d.providers && e.failed == d.failed
    ensures AskedOk(e, mine - {r}, dying)
  {
  }

  lemma StoredBudget(id: ContentId, d: Download, e: Download, mine: map<RequestId, Outbound>, trace: Trace,
      t: Trace, sent: seq<Outbound>, r: RequestId)
    requires Budget(id, d, mine, trace, sent) && t.begun == trace.begun && t.missing == trace.missing
        && t.providers == trace.providers
    requires e.providers == d.providers && e.failed == d.failed && e.pending == d.pending
    ensures Budget(id, e, mine - {r}, t, sent)
  {
    hide BlocksSent, ActiveOf;
    assert Lost(e, mine - {r}) <= Lost(d, mine);
    SubsetIsSmaller(Lost(e, mine - {r}), Lost(d, mine));
  }

  // ---------- The manifest ----------

  lemma ManifestSound(id: ContentId, d: Download, mine: map<RequestId, Outbound>, trace: Trace,
      sent: seq<Outbound>, r: RequestId, m: Manifest, missing: seq<BlockRef>)
    requires Sound(id, d, mine, trace, sent, {}) && r in mine && mine[r].ManifestOf?
    requires ValidManifest(m) && m.id == id && NoDuplicates(missing)
    ensures Sound(id, WithManifest(d, m, missing), mine - {r}, trace.(missing := missing), sent, {})
  {
    hide ValidManifest, BlocksSent, ActiveOf;
    OnlyOne(mine, r);
    var e := WithManifest(d, m, missing);
    assert mine - {r} == map[];
    assert Owed(map[]) == {} && Lost(e, map[]) == {};
    assert ActiveCount(e) == ActiveCount(d);
    ActiveOfIs(d.providers, d.failed);
  }

  lemma OnlyOne(mine: map<RequestId, Outbound>, r: RequestId)
    requires |mine| == 1 && r in mine
    ensures mine.Keys == {r} && mine - {r} == map[]
  {
    if q :| q in mine && q != r {
      SubsetIsSmaller({q, r}, mine.Keys);
    }
  }

  /** The manifest is asked of the next provider when one fails. */
  lemma ReaskedSound(id: ContentId, d: Download, mine: map<RequestId, Outbound>, trace: Trace, sent: seq<Outbound>,
      dying: set<PeerId>, r: RequestId, moved: Download, q: RequestId, request: Outbound)
    requires Sound(id, d, mine, trace, sent, dying) && r in mine && mine[r].ManifestOf?
    requires moved == d.(failed := d.failed + {mine[r].peer}, next := moved.next) && moved.next < |d.providers|
    requires ActiveCount(moved) > 0
    requires request.ManifestOf? && request.peer in d.providers && request.peer !in moved.failed
    ensures Sound(id, moved, map[q := request], trace, sent + [request], dying)
  {
    OnlyOne(mine, r);
    SentOne(sent, request, id);
    assert Lost(moved, map[q := request]) == {};
    Failing(d, mine[r].peer);
    assert ActiveCount(moved) == ActiveCount(d.(failed := d.failed + {mine[r].peer}));
    hide BlocksSent, ActiveCount;
  }

  lemma BegunSound(id: ContentId, peers: seq<PeerId>, moved: Download, sent: seq<Outbound>, q: RequestId,
      request: Outbound)
    requires 0 < |peers| <= MAX_ARTIFACT_PROVIDERS && NoDuplicates(peers)
    requires moved == NewDownload(peers).(next := moved.next) && moved.next < |peers|
    requires request.ManifestOf? && request.peer in peers
    ensures Sound(id, moved, map[q := request], Trace(peers, [], {}, BlocksSent(sent, id)), sent + [request], {})
  {
    SentOne(sent, request, id);
    assert Lost(moved, map[q := request]) == {};
    AllActive(peers);
  }

  lemma {:induction false} AllActive(peers: seq<PeerId>)
    ensures ActiveOf(peers, {}) == peers
  {
    if peers != [] {
      AllActive(peers[1..]);
    }
  }
}

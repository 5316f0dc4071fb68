/** Every step of the download handlers keeps the state of every download. */
module DownloadRuns {
  import opened Core
  import opened StorageModel
  import opened StorageTheorems
  import opened DownloadModel
  import opened DownloadProviders
  import opened DownloadInvariant

  /** Outstanding requests are requests that were sent. */
  ghost predicate Numbered(s: Node) {
    forall r | r in s.outbound :: r < |s.sent| && s.sent[r] == s.outbound[r]
  }

  /** No more block requests than missing blocks and four for each provider. */
  ghost predicate Spent(s: Node, trace: Trace, id: ContentId) {
    BlocksSent(s.sent, id)
      <= trace.begun + |trace.missing| + MAX_PARALLEL_ARTIFACT_BLOCKS * |trace.providers|
  }

  ghost predicate LiveOk(s: Node, h: map<ContentId, Trace>, id: ContentId, dying: set<PeerId>) {
    && id in s.downloads && id in h
    && Sound(id, s.downloads[id], About(s.outbound, id), h[id], s.sent, dying)
    && Flows(s.downloads[id])
  }

  /** Only block requests of a download that was given up can still be outstanding. */
  ghost predicate GoneOk(s: Node, h: map<ContentId, Trace>, id: ContentId) {
    && (forall r | r in About(s.outbound, id) :: About(s.outbound, id)[r].BlockOf?)
    && (id in h ==> Spent(s, h[id], id))
  }

  ghost predicate SliceOk(s: Node, h: map<ContentId, Trace>, id: ContentId, dying: set<PeerId>) {
    if id in s.downloads then LiveOk(s, h, id, dying) else GoneOk(s, h, id)
  }

  ghost predicate InvBut(s: Node, h: map<ContentId, Trace>, id: ContentId, dying: set<PeerId>) {
    Numbered(s) && forall k | k != id :: SliceOk(s, h, k, dying)
  }

  /** The invariant of all downloads, while the peers in `dying` are being given up. */
  ghost predicate Inv(s: Node, h: map<ContentId, Trace>, dying: set<PeerId>) {
    Numbered(s) && forall k :: SliceOk(s, h, k, dying)
  }

  /** Only the download of one content changed. */
  ghost predicate Others(s: Node, u: Node, id: ContentId) {
    && s.downloads - {id} == u.downloads - {id}
    && s.sent <= u.sent
    && forall k | k != id :: About(u.outbound, k) == About(s.outbound, k)
        && BlocksSent(u.sent, k) == BlocksSent(s.sent, k)
  }

  lemma OthersInTurn(s: Node, t: Node, u: Node, id: ContentId)
    requires Others(s, t, id) && Others(t, u, id)
    ensures Others(s, u, id)
  {
    hide About, BlocksSent;
  }

  lemma SliceFrame(s: Node, h: map<ContentId, Trace>, u: Node, g: map<ContentId, Trace>, id: ContentId,
      k: ContentId, dying: set<PeerId>, more: set<PeerId>)
    requires SliceOk(s, h, k, dying) && Others(s, u, id) && k != id && dying <= more
    requires (k in h <==> k in g) && (k in h ==> h[k] == g[k])
    ensures SliceOk(u, g, k, more)
  {
    assert k in s.downloads - {id} <==> k in u.downloads - {id};
    assert k in s.downloads ==> (s.downloads - {id})[k] == (u.downloads - {id})[k];
    assert BlocksSent(u.sent, k) == BlocksSent(s.sent, k);
    hide About, BlocksSent, FetchesBlocks, ProvidersOk, AwaitsManifest, Flows;
    if k in s.downloads {
      SoundFrame(k, s.downloads[k], About(s.outbound, k), h[k], s.sent, u.sent, dying, more);
    }
  }

  lemma SoundFrame(id: ContentId, d: Download, mine: map<RequestId, Outbound>, trace: Trace, sent: seq<Outbound>,
      later: seq<Outbound>, dying: set<PeerId>, more: set<PeerId>)
    requires Sound(id, d, mine, trace, sent, dying) && BlocksSent(later, id) == BlocksSent(sent, id) && dying <= more
    ensures Sound(id, d, mine, trace, later, more)
  {
    hide BlocksSent, FetchesBlocks, ProvidersOk;
  }

  lemma ButFrame(s: Node, h: map<ContentId, Trace>, u: Node, g: map<ContentId, Trace>, id: ContentId,
      dying: set<PeerId>, more: set<PeerId>)
    requires InvBut(s, h, id, dying) && Others(s, u, id) && dying <= more && Numbered(u)
    requires h - {id} == g - {id}
    ensures InvBut(u, g, id, more)
  {
    hide SliceOk, Others, Numbered;
    forall k | k != id ensures SliceOk(u, g, k, more) {
      assert k in h - {id} <==> k in g - {id};
      assert k in h ==> (h - {id})[k] == (g - {id})[k];
      SliceFrame(s, h, u, g, id, k, dying, more);
    }
  }

  // ---------- What the small changes do ----------

  lemma SendIs(s: Node, request: Outbound, k: ContentId)
    requires Numbered(s)
    ensures About(Send(s, request).outbound, k)
         == if Concerns(request, k) then About(s.outbound, k)[|s.sent| := request] else About(s.outbound, k)
    ensures BlocksSent(Send(s, request).sent, k)
         == BlocksSent(s.sent, k) + if request.BlockOf? && request.id == k then 1 else 0
    ensures |s.sent| !in About(s.outbound, k)
    ensures Numbered(Send(s, request))
  {
    SentOne(s.sent, request, k);
  }

  lemma SendOthers(s: Node, request: Outbound, id: ContentId)
    requires Numbered(s) && (request.InventoryOf? || request.id == id)
    ensures Others(s, Send(s, request), id)
  {
    forall k | k != id
      ensures About(Send(s, request).outbound, k) == About(s.outbound, k)
      ensures BlocksSent(Send(s, request).sent, k) == BlocksSent(s.sent, k)
    {
      SendIs(s, request, k);
    }
  }

  lemma TakenIs(s: Node, r: RequestId, k: ContentId)
    requires Numbered(s) && r in s.outbound
    ensures About(Taken(s, r).outbound, k)
         == if Concerns(s.outbound[r], k) then About(s.outbound, k) - {r} else About(s.outbound, k)
    ensures Numbered(Taken(s, r))
    ensures Concerns(s.outbound[r], k) ==> r in About(s.outbound, k) && About(s.outbound, k)[r] == s.outbound[r]
  {
  }

  lemma TakenOthers(s: Node, r: RequestId, id: ContentId)
    requires Numbered(s) && r in s.outbound && (s.outbound[r].InventoryOf? || s.outbound[r].id == id)
    ensures Others(s, Taken(s, r), id)
  {
    forall k | k != id ensures About(Taken(s, r).outbound, k) == About(s.outbound, k) {
      TakenIs(s, r, k);
    }
  }

  // ---------- Filling up with block requests ----------

  /** From `s` to `u` only block requests of one download were sent, all to providers that had not failed. */
  ghost predicate Requested(s: Node, u: Node, id: ContentId) {
    && Others(s, u, id)
    && u.store == s.store && u.endings == s.endings
    && id in s.downloads && id in u.downloads
    && (var d, e := s.downloads[id], u.downloads[id];
        e == d.(next := e.next, pending := e.pending, inFlight := e.inFlight)
        && |e.pending| + e.inFlight == |d.pending| + d.inFlight)
    && (forall q | q in s.outbound :: q in u.outbound && u.outbound[q] == s.outbound[q])
    && (forall q | q in u.outbound && q !in s.outbound :: u.outbound[q].peer !in s.downloads[id].failed)
  }

  lemma RequestedInTurn(s: Node, t: Node, u: Node, id: ContentId)
    requires Requested(s, t, id) && Requested(t, u, id)
    ensures Requested(s, u, id)
  {
    OthersInTurn(s, t, u, id);
    hide Others;
  }

  lemma NextIsFree(s: Node)
    requires Numbered(s)
    ensures |s.sent| !in s.outbound
  {
  }

  lemma SameNumbers(s: Node, u: Node)
    requires Numbered(s) && u.outbound == s.outbound && u.sent == s.sent
    ensures Numbered(u)
  {
  }

  /** The effect of one block request on the node. */
  lemma AskIs(s: Node, id: ContentId, moved: Download, peer: PeerId)
    requires Numbered(s) && id in s.downloads && moved == s.downloads[id].(next := moved.next)
    requires moved.pending != [] && peer !in moved.failed
    ensures var u := AskForBlock(s, id, moved, peer);
      && Numbered(u) && Requested(s, u, id)
      && u.downloads[id] == moved.(pending := moved.pending[1..], inFlight := moved.inFlight + 1)
      && u.sent == s.sent + [BlockOf(peer, id, moved.pending[0])]
      && |s.sent| !in About(s.outbound, id)
      && About(u.outbound, id) == About(s.outbound, id)[|s.sent| := BlockOf(peer, id, moved.pending[0])]
  {
    hide About, BlocksSent, Numbered;
    var request := BlockOf(peer, id, moved.pending[0]);
    SendIs(s, request, id);
    SendOthers(s, request, id);
    NextIsFree(s);
    SameNumbers(Send(s, request), AskForBlock(s, id, moved, peer));
    var asked := moved.(pending := moved.pending[1..], inFlight := moved.inFlight + 1);
    assert s.downloads[id := asked] - {id} == s.downloads - {id};
  }

  lemma OneBlockAsked(s: Node, id: ContentId, trace: Trace, dying: set<PeerId>)
    requires Numbered(s) && id in s.downloads
    requires Sound(id, s.downloads[id], About(s.outbound, id), trace, s.sent, dying)
    requires var d := s.downloads[id]; d.manifest.Some? && d.pending != [] && d.inFlight < MAX_PARALLEL_ARTIFACT_BLOCKS
    ensures var (peer, moved) := NextActive(s.downloads[id]);
      peer.Some? && moved == s.downloads[id].(next := moved.next)
      && (var u := AskForBlock(s, id, moved, peer.value);
          && Numbered(u) && Requested(s, u, id)
          && |u.downloads[id].pending| < |s.downloads[id].pending| && u.downloads[id].inFlight > 0
          && u.downloads[id].manifest.Some?
          && Sound(id, u.downloads[id], About(u.outbound, id), trace, u.sent, dying))
  {
    var d, mine := s.downloads[id], About(s.outbound, id);
    ActiveFound(id, d, mine, trace, s.sent, dying);
    var (peer, moved) := NextActive(d);
    hide NextActive, Sound, About, BlocksSent, Requested, Numbered, AskForBlock;
    AskIs(s, id, moved, peer.value);
    AskedSound(id, d, mine, trace, s.sent, dying, moved, |s.sent|, BlockOf(peer.value, id, d.pending[0]));
  }

  lemma ActiveFound(id: ContentId, d: Download, mine: map<RequestId, Outbound>, trace: Trace, sent: seq<Outbound>,
      dying: set<PeerId>)
    requires Sound(id, d, mine, trace, sent, dying)
    ensures var (peer, moved) := NextActive(d);
      && peer.Some? && peer.value in d.providers && peer.value !in d.failed
      && moved.next < |d.providers| && moved == d.(next := moved.next)
  {
    assert ProvidersOk(d, trace);
    SomeActive(d);
  }

  lemma {:induction false} BlocksRequested(s: Node, id: ContentId, trace: Trace, dying: set<PeerId>)
    requires Numbered(s) && id in s.downloads
    requires Sound(id, s.downloads[id], About(s.outbound, id), trace, s.sent, dying)
    requires s.downloads[id].manifest.Some? && (s.downloads[id].pending != [] || s.downloads[id].inFlight > 0)
    ensures var u := RequestBlocks(s, id);
      && Numbered(u) && Requested(s, u, id)
      && Sound(id, u.downloads[id], About(u.outbound, id), trace, u.sent, dying)
      && Flows(u.downloads[id])
    decreases |s.downloads[id].pending|
  {
    var d := s.downloads[id];
    hide Sound, About, BlocksSent, Numbered, NextActive, AskForBlock, Requested;
    if d.pending != [] && d.inFlight < MAX_PARALLEL_ARTIFACT_BLOCKS {
      OneBlockAsked(s, id, trace, dying);
      var (peer, moved) := NextActive(d);
      var t := AskForBlock(s, id, moved, peer.value);
      BlocksRequestedNext(s, id, moved, peer.value);
      BlocksRequested(t, id, trace, dying);
      RequestedInTurn(s, t, RequestBlocks(t, id), id);
    } else {
      AtMostFour(id, d, About(s.outbound, id), trace, s.sent, dying);
      NothingRequested(s, id);
    }
  }

  lemma BlocksRequestedNext(s: Node, id: ContentId, moved: Download, peer: PeerId)
    requires id in s.downloads && s.downloads[id].pending != []
    requires s.downloads[id].inFlight < MAX_PARALLEL_ARTIFACT_BLOCKS
    requires NextActive(s.downloads[id]) == (Some(peer), moved) && moved == s.downloads[id].(next := moved.next)
    ensures RequestBlocks(s, id) == RequestBlocks(AskForBlock(s, id, moved, peer), id)
  {
    hide NextActive;
  }

  lemma NothingRequested(s: Node, id: ContentId)
    requires id in s.downloads
    ensures Requested(s, s, id)
  {
    hide About, BlocksSent;
  }

  lemma AtMostFour(id: ContentId, d: Download, mine: map<RequestId, Outbound>, trace: Trace, sent: seq<Outbound>,
      dying: set<PeerId>)
    requires Sound(id, d, mine, trace, sent, dying)
    ensures d.inFlight <= MAX_PARALLEL_ARTIFACT_BLOCKS
  {
    IsFetching(id, d, mine, trace, sent, dying);
  }

  lemma SpentOnce(s: Node, id: ContentId, d: Download, mine: map<RequestId, Outbound>, trace: Trace, dying: set<PeerId>)
    requires Sound(id, d, mine, trace, s.sent, dying)
    ensures Spent(s, trace, id)
  {
    hide BlocksSent, ProvidersOk, FetchesBlocks, AwaitsManifest, AskedOk;
  }

  // ---------- A request that failed ----------

  /** Nothing new is asked of the peer, and the answered request is gone. */
  ghost predicate Lessens(t: Node, u: Node, r: RequestId, peer: PeerId) {
    && t.sent <= u.sent && u.store == t.store
    && forall q | q in u.outbound && u.outbound[q].peer == peer :: q in t.outbound && q != r
  }

  lemma InvFrom(t: Node, h: map<ContentId, Trace>, u: Node, g: map<ContentId, Trace>, id: ContentId,
      dying: set<PeerId>, more: set<PeerId>)
    requires Inv(t, h, dying) && Numbered(u) && Others(t, u, id) && dying <= more && h - {id} == g - {id}
    requires SliceOk(u, g, id, more)
    ensures Inv(u, g, more)
  {
    hide SliceOk, Others, Numbered;
    ButFrame(t, h, u, g, id, dying, more);
  }

  lemma InventoryFailed(t: Node, h: map<ContentId, Trace>, r: RequestId, dying: set<PeerId>)
    requires Inv(t, h, dying) && r in t.outbound && t.outbound[r].InventoryOf?
    ensures Inv(Taken(t, r), h, dying + {t.outbound[r].peer})
    ensures Lessens(t, Taken(t, r), r, t.outbound[r].peer)
  {
    var u, more := Taken(t, r), dying + {t.outbound[r].peer};
    TakenIs(t, r, ContentId(0));
    forall k ensures SliceOk(u, h, k, more) {
      hide SliceOk, Others;
      TakenOthers(t, r, ContentId(k.number + 1));
      SliceFrame(t, h, u, h, ContentId(k.number + 1), k, dying, more);
    }
  }

  /** What the invariant says of the download that a request belongs to. */
  lemma RequestIs(t: Node, h: map<ContentId, Trace>, r: RequestId, dying: set<PeerId>)
    requires Inv(t, h, dying) && r in t.outbound && !t.outbound[r].InventoryOf?
    ensures var o, id := t.outbound[r], t.outbound[r].id;
      && r in About(t.outbound, id) && About(t.outbound, id)[r] == o
      && (o.ManifestOf? ==> id in t.downloads)
      && (id in t.downloads ==> id in h && Sound(id, t.downloads[id], About(t.outbound, id), h[id], t.sent, dying)
                                && Flows(t.downloads[id]))
      && (id !in t.downloads ==> GoneOk(t, h, id))
  {
    var id := t.outbound[r].id;
    assert SliceOk(t, h, id, dying);
    assert r in About(t.outbound, id);
    hide Sound, Flows, Spent;
  }

  lemma PutIs(s: Node, id: ContentId, d: Download)
    requires Numbered(s)
    ensures Others(s, Put(s, id, d), id) && Numbered(Put(s, id, d))
    ensures Others(s, s.(downloads := s.downloads - {id}), id)
  {
    hide About, BlocksSent;
    assert s.downloads[id := d] - {id} == s.downloads - {id};
    assert s.downloads - {id} - {id} == s.downloads - {id};
  }

  /** A manifest request is all that its download is waiting for. */
  lemma ManifestRequestIs(t: Node, h: map<ContentId, Trace>, r: RequestId, dying: set<PeerId>)
    requires Inv(t, h, dying) && r in t.outbound && t.outbound[r].ManifestOf?
    ensures var id, s := t.outbound[r].id, Taken(t, r);
      && id in t.downloads && id in h && t.downloads[id].manifest.None?
      && Sound(id, t.downloads[id], About(t.outbound, id), h[id], t.sent, dying)
      && r in About(t.outbound, id) && About(t.outbound, id)[r] == t.outbound[r]
      && About(s.outbound, id) == map[]
      && t.downloads[id].next < |t.downloads[id].providers|
      && Numbered(t) && Numbered(s) && Others(t, s, id)
  {
    var id := t.outbound[r].id;
    RequestIs(t, h, r, dying);
    InvNumbered(t, h, dying);
    var d, mine := t.downloads[id], About(t.outbound, id);
    NextIsSmall(d, h[id]);
    TakenIs(t, r, id);
    TakenOthers(t, r, id);
    IsFetching(id, d, mine, h[id], t.sent, dying);
    hide FetchesBlocks, ProvidersOk, Inv, Sound, Numbered, Others, About, BlocksSent;
    OnlyOne(mine, r);
  }

  lemma ManifestFailed(t: Node, h: map<ContentId, Trace>, r: RequestId, dying: set<PeerId>)
    requires Inv(t, h, dying) && r in t.outbound && t.outbound[r].ManifestOf?
    ensures var u, o := RequestFailed(Taken(t, r), t.outbound[r]), t.outbound[r];
      Inv(u, h, dying) && Lessens(t, u, r, o.peer)
  {
    var o := t.outbound[r];
    var id := o.id;
    ManifestRequestIs(t, h, r, dying);
    hide Inv, Sound, Others, Numbered, NextActive, SliceOk, About;
    var d := t.downloads[id];
    if NextActive(d.(failed := d.failed + {o.peer})).0.None? {
      ManifestDropped(t, h, r, dying);
    } else {
      ManifestReasked(t, h, r, dying);
    }
    InvFrom(t, h, RequestFailed(Taken(t, r), o), h, id, dying, dying);
  }

  lemma ManifestDropped(t: Node, h: map<ContentId, Trace>, r: RequestId, dying: set<PeerId>)
    requires Inv(t, h, dying) && r in t.outbound && t.outbound[r].ManifestOf? && t.outbound[r].id in t.downloads
    requires var d := t.downloads[t.outbound[r].id]; NextActive(d.(failed := d.failed + {t.outbound[r].peer})).0.None?
    ensures var u, o := RequestFailed(Taken(t, r), t.outbound[r]), t.outbound[r];
      && Numbered(u) && Others(t, u, o.id) && SliceOk(u, h, o.id, dying) && Lessens(t, u, r, o.peer)
  {
    var o := t.outbound[r];
    var id := o.id;
    ManifestRequestIs(t, h, r, dying);
    var s, u := Taken(t, r), RequestFailed(Taken(t, r), o);
    var d := t.downloads[id];
    SpentOnce(t, id, d, About(t.outbound, id), h[id], dying);
    hide Inv, Sound, Others, Numbered, NextActive, Spent, About;
    DropIs(t, s, d.(failed := d.failed + {o.peer}), id, u);
    GoneFrom(t, h, u, id);
  }

  lemma ManifestReasked(t: Node, h: map<ContentId, Trace>, r: RequestId, dying: set<PeerId>)
    requires Inv(t, h, dying) && r in t.outbound && t.outbound[r].ManifestOf? && t.outbound[r].id in t.downloads
    requires var d := t.downloads[t.outbound[r].id]; NextActive(d.(failed := d.failed + {t.outbound[r].peer})).0.Some?
    ensures var u, o := RequestFailed(Taken(t, r), t.outbound[r]), t.outbound[r];
      && Numbered(u) && Others(t, u, o.id) && SliceOk(u, h, o.id, dying) && Lessens(t, u, r, o.peer)
  {
    var o := t.outbound[r];
    var peer, id := o.peer, o.id;
    ManifestRequestIs(t, h, r, dying);
    var s, u := Taken(t, r), RequestFailed(Taken(t, r), o);
    var d, mine := t.downloads[id], About(t.outbound, id);
    var e := d.(failed := d.failed + {peer});
    NextActiveIs(e);
    var (found, moved) := NextActive(e);
    var request := ManifestOf(found.value, id);
    assert u == Send(Put(s, id, moved), request) by {
      ReaskShape(s, o);
    }
    hide Inv, Sound, Others, Numbered, NextActive, About, BlocksSent, RequestFailed;
    ActiveRemains(e, found.value);
    ReaskedIs(t, s, u, id, moved, request);
    ReaskedSound(id, d, mine, h[id], t.sent, dying, r, moved, |t.sent|, request);
  }

  lemma ReaskShape(s: Node, o: Outbound)
    requires o.ManifestOf? && o.id in s.downloads
    ensures var d := s.downloads[o.id];
      var (found, moved) := NextActive(d.(failed := d.failed + {o.peer}));
      RequestFailed(s, o) == if found.None?
        then s.(downloads := s.downloads - {o.id}, endings := s.endings + [NoProviderLeft(o.id)])
        else Send(Put(s, o.id, moved), ManifestOf(found.value, o.id))
  {
    hide NextActive;
    var d := s.downloads[o.id];
    var (found, moved) := NextActive(d.(failed := d.failed + {o.peer}));
    assert s.downloads[o.id := d] == s.downloads;
    assert found.Some? ==> Put(Put(s, o.id, d.(failed := d.failed + {o.peer})), o.id, moved) == Put(s, o.id, moved);
    assert s.downloads[o.id := d.(failed := d.failed + {o.peer})] - {o.id} == s.downloads - {o.id};
  }

  lemma ActiveRemains(d: Download, peer: PeerId)
    requires peer in d.providers && peer !in d.failed
    ensures forall next :: ActiveCount(d.(next := next)) > 0
  {
    ActiveOfIs(d.providers, d.failed);
    assert peer in ActiveOf(d.providers, d.failed);
  }

  /** The effect of dropping a download after its request was taken out. */
  lemma DropIs(t: Node, s: Node, e: Download, id: ContentId, u: Node)
    requires Others(t, s, id) && s.downloads == t.downloads && Numbered(s) && s.sent == t.sent
    requires u.downloads == s.downloads[id := e] - {id} && u.outbound == s.outbound && u.sent == s.sent
    ensures Others(t, u, id) && Numbered(u) && id !in u.downloads && u.outbound == s.outbound && u.sent == t.sent
  {
    hide About, BlocksSent;
    assert s.downloads[id := e] - {id} - {id} == s.downloads - {id};
  }

  lemma GoneFrom(t: Node, h: map<ContentId, Trace>, u: Node, id: ContentId)
    requires u.sent == t.sent && id !in u.downloads && id in h && Spent(t, h[id], id)
    requires forall q | q in About(u.outbound, id) :: About(u.outbound, id)[q].BlockOf?
    ensures forall dying :: SliceOk(u, h, id, dying)
  {
    hide BlocksSent, About;
  }

  lemma ReaskedIs(t: Node, s: Node, u: Node, id: ContentId, d: Download, request: Outbound)
    requires Numbered(s) && Others(t, s, id) && s.sent == t.sent && s.downloads == t.downloads
    requires request.ManifestOf? && request.id == id && About(s.outbound, id) == map[]
    requires u == Send(Put(s, id, d), request)
    ensures Numbered(u) && Others(t, u, id) && About(u.outbound, id) == map[|t.sent| := request]
    ensures u.sent == t.sent + [request] && u.downloads[id] == d
  {
    var p := Put(s, id, d);
    assert s.downloads[id := d] - {id} == s.downloads - {id};
    SendIs(p, request, id);
    SendOthers(p, request, id);
    hide About, BlocksSent;
    assert Others(s, p, id);
    OthersInTurn(t, s, p, id);
    OthersInTurn(t, p, u, id);
  }

  lemma BlockFailed(t: Node, h: map<ContentId, Trace>, r: RequestId, dying: set<PeerId>)
    requires Inv(t, h, dying) && r in t.outbound && t.outbound[r].BlockOf?
    ensures var u, o := RequestFailed(Taken(t, r), t.outbound[r]), t.outbound[r];
      Inv(u, h, dying + {o.peer}) && Lessens(t, u, r, o.peer)
  {
    var id := t.outbound[r].id;
    if id in t.downloads && ActiveCount(Requeued(t.downloads[id], t.outbound[r].peer, t.outbound[r].block)) > 0 {
      RequeuedRequested(t, h, r, dying);
    } else {
      BlockLeft(t, h, r, dying);
    }
    hide *;
    InvFrom(t, h, RequestFailed(Taken(t, r), t.outbound[r]), h, id, dying, dying + {t.outbound[r].peer});
  }

  /** The block was asked for a download that is given up now or was before. */
  lemma BlockLeft(t: Node, h: map<ContentId, Trace>, r: RequestId, dying: set<PeerId>)
    requires Inv(t, h, dying) && r in t.outbound && t.outbound[r].BlockOf?
    requires var id := t.outbound[r].id; id in t.downloads ==>
      ActiveCount(Requeued(t.downloads[id], t.outbound[r].peer, t.outbound[r].block)) == 0
    ensures var u, o := RequestFailed(Taken(t, r), t.outbound[r]), t.outbound[r];
      && Numbered(u) && Others(t, u, o.id) && Lessens(t, u, r, o.peer)
      && SliceOk(u, h, o.id, dying + {o.peer})
  {
    var id := t.outbound[r].id;
    RequestIs(t, h, r, dying);
    InvNumbered(t, h, dying);
    TakenIs(t, r, id);
    TakenOthers(t, r, id);
    OnlyBlocks(t, h, r, dying);
    hide Inv, Sound, Others, Numbered, About, BlocksSent, ActiveCount;
    if id in t.downloads {
      SpentOnce(t, id, t.downloads[id], About(t.outbound, id), h[id], dying);
    }
    BlockGone(t, h, Taken(t, r), t.outbound[r], dying + {t.outbound[r].peer});
  }

  lemma BlockGone(t: Node, h: map<ContentId, Trace>, s: Node, o: Outbound, dying: set<PeerId>)
    requires o.BlockOf? && Numbered(s) && Others(t, s, o.id) && s.downloads == t.downloads && s.sent == t.sent
    requires forall q | q in About(s.outbound, o.id) :: About(s.outbound, o.id)[q].BlockOf?
    requires o.id in h ==> Spent(t, h[o.id], o.id)
    requires o.id in s.downloads ==> ActiveCount(Requeued(s.downloads[o.id], o.peer, o.block)) == 0
    ensures var u := RequestFailed(s, o);
      && Numbered(u) && Others(t, u, o.id) && SliceOk(u, h, o.id, dying)
      && u.outbound == s.outbound && u.sent == s.sent && u.store == s.store
  {
    hide Others, Numbered, About, BlocksSent, ActiveCount;
    if o.id in s.downloads {
      var d := s.downloads[o.id];
      assert s.downloads[o.id := d] - {o.id} == s.downloads - {o.id};
      DropIs(t, s, d, o.id, RequestFailed(s, o));
    }
  }

  lemma OnlyBlocks(t: Node, h: map<ContentId, Trace>, r: RequestId, dying: set<PeerId>)
    requires Inv(t, h, dying) && r in t.outbound && t.outbound[r].BlockOf?
    ensures var mine := About(Taken(t, r).outbound, t.outbound[r].id); forall q | q in mine :: mine[q].BlockOf?
  {
    var id := t.outbound[r].id;
    RequestIs(t, h, r, dying);
    InvNumbered(t, h, dying);
    TakenIs(t, r, id);
    if id in t.downloads {
      IsFetching(id, t.downloads[id], About(t.outbound, id), h[id], t.sent, dying);
      hide Sound, Partition, BlocksSent;
    }
  }

  lemma RequeuedRequested(t: Node, h: map<ContentId, Trace>, r: RequestId, dying: set<PeerId>)
    requires Inv(t, h, dying) && r in t.outbound && t.outbound[r].BlockOf? && t.outbound[r].id in t.downloads
    requires ActiveCount(Requeued(t.downloads[t.outbound[r].id], t.outbound[r].peer, t.outbound[r].block)) > 0
    ensures var u, o := RequestFailed(Taken(t, r), t.outbound[r]), t.outbound[r];
      && Numbered(u) && Others(t, u, o.id) && Lessens(t, u, r, o.peer)
      && SliceOk(u, h, o.id, dying + {o.peer})
  {
    var o := t.outbound[r];
    var peer, id := o.peer, o.id;
    RequestIs(t, h, r, dying);
    InvNumbered(t, h, dying);
    TakenIs(t, r, id);
    TakenOthers(t, r, id);
    var d, mine := t.downloads[id], About(t.outbound, id);
    var e := Requeued(d, peer, o.block);
    var s := Taken(t, r);
    var p, u := Put(s, id, e), RequestFailed(s, o);
    assert s.sent == t.sent && s.store == t.store;
    PutIs(s, id, e);
    hide Inv, FetchesBlocks, AwaitsManifest, Flows, ActiveCount, Numbered, Others, BlocksSent;
    RequeuedPut(t, h, r, dying);
    OthersInTurn(t, s, p, id);
    hide Sound;
    BlocksRequested(p, id, h[id], dying + {peer});
    OthersInTurn(t, p, u, id) by {
      RequestedGives(p, u, id);
    }
    RequestedLessens(t, p, u, r, id, peer);
  }

  lemma RequeuedPut(t: Node, h: map<ContentId, Trace>, r: RequestId, dying: set<PeerId>)
    requires Inv(t, h, dying) && r in t.outbound && t.outbound[r].BlockOf? && t.outbound[r].id in t.downloads
    requires ActiveCount(Requeued(t.downloads[t.outbound[r].id], t.outbound[r].peer, t.outbound[r].block)) > 0
    ensures var o := t.outbound[r];
      var e := Requeued(t.downloads[o.id], o.peer, o.block);
      var p := Put(Taken(t, r), o.id, e);
      && o.id in h && Sound(o.id, e, About(p.outbound, o.id), h[o.id], p.sent, dying + {o.peer})
      && e.manifest.Some? && e.pending != [] && o.peer in e.failed
  {
    var o := t.outbound[r];
    RequestIs(t, h, r, dying);
    InvNumbered(t, h, dying);
    TakenIs(t, r, o.id);
    var d, mine := t.downloads[o.id], About(t.outbound, o.id);
    IsFetching(o.id, d, mine, h[o.id], t.sent, dying);
    RequeuedSound(o.id, d, mine, h[o.id], t.sent, dying, r);
    hide Sound, BlocksSent, Inv, AwaitsManifest, ActiveCount, Partition, OneRequestEach;
  }

  lemma RequestedGives(s: Node, u: Node, id: ContentId)
    requires Requested(s, u, id)
    ensures Others(s, u, id) && u.store == s.store && u.endings == s.endings
    ensures id in s.downloads && id in u.downloads && u.downloads[id].manifest == s.downloads[id].manifest
    ensures u.downloads[id].failed == s.downloads[id].failed
  {
  }

  lemma RequestedLessens(t: Node, p: Node, u: Node, r: RequestId, id: ContentId, peer: PeerId)
    requires Requested(p, u, id) && peer in p.downloads[id].failed
    requires p.outbound == t.outbound - {r} && p.sent == t.sent && p.store == t.store
    ensures Lessens(t, u, r, peer)
  {
    hide About, BlocksSent;
  }

  lemma DyingGrows(s: Node, h: map<ContentId, Trace>, dying: set<PeerId>, more: set<PeerId>)
    requires Inv(s, h, dying) && dying <= more
    ensures Inv(s, h, more)
  {
    forall k ensures SliceOk(s, h, k, more) {
      assert SliceOk(s, h, k, dying);
      hide Sound, Flows, Spent, About;
      if k in s.downloads {
        SoundFrame(k, s.downloads[k], About(s.outbound, k), h[k], s.sent, s.sent, dying, more);
      }
    }
  }

  lemma RequestFailedKeeps(t: Node, h: map<ContentId, Trace>, r: RequestId, dying: set<PeerId>)
    requires Inv(t, h, dying) && r in t.outbound
    ensures var u, o := RequestFailed(Taken(t, r), t.outbound[r]), t.outbound[r];
      Inv(u, h, dying + {o.peer}) && Lessens(t, u, r, o.peer)
  {
    hide Inv, Lessens, RequestManifest, RequestBlocks;
    match t.outbound[r]
    case InventoryOf(_) => InventoryFailed(t, h, r, dying);
    case ManifestOf(_, _) =>
      ManifestFailed(t, h, r, dying);
      DyingGrows(RequestFailed(Taken(t, r), t.outbound[r]), h, dying, dying + {t.outbound[r].peer});
    case BlockOf(_, _, _) => BlockFailed(t, h, r, dying);
  }

  // ---------- A provider that failed ----------

  /** Nothing is outstanding at the peer. */
  ghost predicate Spared(s: Node, peer: PeerId) {
    forall q | q in s.outbound :: s.outbound[q].peer != peer
  }

  /** What is outstanding at the peer was so before, and is not among the visited. */
  ghost predicate Unvisited(s: Node, u: Node, peer: PeerId, visited: seq<RequestId>) {
    && s.sent <= u.sent && u.store == s.store
    && forall q | q in u.outbound && u.outbound[q].peer == peer ::
        q in s.outbound && s.outbound[q].peer == peer && q !in visited
  }

  lemma {:induction false} FailRequestsKeeps(s: Node, h: map<ContentId, Trace>, peer: PeerId, requests: seq<RequestId>)
    requires Inv(s, h, {peer})
    requires forall r | r in requests :: r in s.outbound && s.outbound[r].peer == peer
    ensures Inv(FailRequests(s, requests), h, {peer}) && Unvisited(s, FailRequests(s, requests), peer, requests)
  {
    if requests != [] {
      hide Inv, RequestFailed;
      var before, r := Init(requests), Last(requests);
      assert requests == before + [r];
      FailRequestsKeeps(s, h, peer, before);
      var t := FailRequests(s, before);
      if r in t.outbound {
        assert t.outbound[r].peer == peer by {
          hide *;
          SameRequest(s, h, t, {peer}, r);
        }
        RequestFailedKeeps(t, h, r, {peer});
        assert {peer} + {peer} == {peer};
      }
    }
  }

  lemma SameRequest(s: Node, h: map<ContentId, Trace>, t: Node, dying: set<PeerId>, r: RequestId)
    requires Inv(s, h, dying) && Inv(t, h, dying) && s.sent <= t.sent && r in s.outbound && r in t.outbound
    ensures t.outbound[r] == s.outbound[r]
  {
    hide SliceOk;
  }

  /** The download after the failure of a provider that owes it nothing. */
  lemma FailedPut(s: Node, h: map<ContentId, Trace>, peer: PeerId, id: ContentId)
    requires Inv(s, h, {peer}) && Spared(s, peer) && id in s.downloads && peer in s.downloads[id].providers
    ensures var d := s.downloads[id];
      var e := d.(failed := d.failed + {peer});
      var p := Put(s, id, e);
      && id in h && Numbered(p) && Others(s, p, id) && ActiveCount(e) > 0
      && Sound(id, e, About(p.outbound, id), h[id], p.sent, {peer})
      && Flows(e) && (e.manifest.Some? ==> e.inFlight > 0)
      && NoDuplicates(d.providers)
  {
    var d, mine := s.downloads[id], About(s.outbound, id);
    var e := d.(failed := d.failed + {peer});
    assert SliceOk(s, h, id, {peer});
    InvNumbered(s, h, {peer});
    NextIsSmall(d, h[id]);
    hide Sound, BlocksSent, Inv, ActiveCount, Others, Numbered, Spent;
    PutIs(s, id, e);
    NobodyAsked(id, d, mine, h[id], s.sent, peer);
    FailedSound(id, d, mine, h[id], s.sent, peer);
  }

  lemma FailDownloadKeeps(s: Node, h: map<ContentId, Trace>, peer: PeerId, id: ContentId)
    requires Inv(s, h, {peer}) && Spared(s, peer)
    ensures Inv(FailDownload(s, peer, id), h, {peer}) && Spared(FailDownload(s, peer, id), peer)
    ensures FailDownload(s, peer, id).store == s.store
    ensures FailDownload(s, peer, id).downloads.Keys == s.downloads.Keys
  {
    hide Sound, BlocksSent, Inv, ActiveCount, Others, Numbered, Spent, Flows, About;
    if id in s.downloads && peer in s.downloads[id].providers {
      FailedPut(s, h, peer, id);
      var d, u := s.downloads[id], FailDownload(s, peer, id);
      var p := Put(s, id, d.(failed := d.failed + {peer}));
      if d.manifest.Some? {
        BlocksRequested(p, id, h[id], {peer});
        RequestedGives(p, u, id);
        OthersInTurn(s, p, u, id);
        RequestedKeys(p, u, id);
      }
      assert SliceOk(u, h, id, {peer});
      hide SliceOk;
      InvFrom(s, h, u, h, id, {peer}, {peer});
    }
  }

  lemma RequestedKeys(s: Node, u: Node, id: ContentId)
    requires Requested(s, u, id)
    ensures u.downloads.Keys == s.downloads.Keys
  {
    hide About, BlocksSent;
    assert s.downloads.Keys == (s.downloads - {id}).Keys + {id};
    assert u.downloads.Keys == (u.downloads - {id}).Keys + {id};
  }

  lemma InvNumbered(s: Node, h: map<ContentId, Trace>, dying: set<PeerId>)
    requires Inv(s, h, dying)
    ensures Numbered(s)
  {
  }

  /** A provider that owes nothing fails. */
  lemma FailedSound(id: ContentId, d: Download, mine: map<RequestId, Outbound>, trace: Trace, sent: seq<Outbound>,
      peer: PeerId)
    requires Sound(id, d, mine, trace, sent, {peer}) && peer in d.providers
    requires forall q | q in mine :: mine[q].peer != peer
    ensures ActiveCount(d.(failed := d.failed + {peer})) > 0
        ==> Sound(id, d.(failed := d.failed + {peer}), mine, trace, sent, {peer})
  {
    var e := d.(failed := d.failed + {peer});
    NextIsSmall(d, trace);
    if ActiveCount(e) > 0 {
      OneMoreFailed(d, e, trace, peer);
    }
    FailedBudget(id, d, mine, trace, sent, peer);
    hide ProvidersOk, Budget, BlocksSent, ActiveCount, Partition, ValidManifest, OneRequestEach;
  }

  lemma FailedBudget(id: ContentId, d: Download, mine: map<RequestId, Outbound>, trace: Trace, sent: seq<Outbound>,
      peer: PeerId)
    requires Budget(id, d, mine, trace, sent) && NoDuplicates(d.providers) && peer in d.providers
    requires forall q | q in mine :: mine[q].peer != peer
    ensures Budget(id, d.(failed := d.failed + {peer}), mine, trace, sent)
  {
    Failing(d, peer);
    assert Lost(d.(failed := d.failed + {peer}), mine) == Lost(d, mine);
    hide BlocksSent, ActiveCount;
  }

  /** What is outstanding elsewhere is outstanding at an active provider. */
  lemma NobodyAsked(id: ContentId, d: Download, mine: map<RequestId, Outbound>, trace: Trace, sent: seq<Outbound>,
      peer: PeerId)
    requires Sound(id, d, mine, trace, sent, {peer})
    requires Flows(d) && forall q | q in mine :: mine[q].peer != peer
    ensures ActiveCount(d.(failed := d.failed + {peer})) > 0
  {
    ActiveOfIs(d.providers, d.failed + {peer});
    assert |mine| > 0;
    var q :| q in mine;
    assert mine[q].peer in ActiveOf(d.providers, d.failed + {peer});
  }

  lemma {:induction false} FailDownloadsKeeps(s: Node, h: map<ContentId, Trace>, peer: PeerId, ids: seq<ContentId>)
    requires Inv(s, h, {peer}) && Spared(s, peer)
    ensures Inv(FailDownloads(s, peer, ids), h, {peer}) && Spared(FailDownloads(s, peer, ids), peer)
    ensures FailDownloads(s, peer, ids).store == s.store
  {
    hide Inv, Spared, FailDownload;
    if ids != [] {
      FailDownloadsKeeps(s, h, peer, Init(ids));
      FailDownloadKeeps(FailDownloads(s, peer, Init(ids)), h, peer, Last(ids));
    }
  }

  lemma SparedEnds(s: Node, h: map<ContentId, Trace>, peer: PeerId)
    requires Inv(s, h, {peer}) && Spared(s, peer)
    ensures Inv(s, h, {})
  {
    forall k ensures SliceOk(s, h, k, {}) {
      assert SliceOk(s, h, k, {peer});
      hide ProvidersOk, FetchesBlocks, AwaitsManifest, Budget, Flows, Spent;
    }
  }

  /** Giving up a provider keeps every download, and leaves nothing outstanding at the peer. */
  lemma FailProviderKeeps(s: Node, h: map<ContentId, Trace>, peer: PeerId, order: Order)
    requires Inv(s, h, {peer}) && Visits(s, peer, order)
    ensures Inv(FailProvider(s, peer, order), h, {}) && Spared(FailProvider(s, peer, order), peer)
    ensures FailProvider(s, peer, order).store == s.store
  {
    hide Inv;
    FailRequestsKeeps(s, h, peer, order.requests);
    var t := FailRequests(s, order.requests);
    assert Spared(t, peer);
    FailDownloadsKeeps(t, h, peer, order.ids);
    SparedEnds(FailProvider(s, peer, order), h, peer);
  }

  // ---------- A manifest or a block that arrives ----------

  /** The download that a request belonged to is no longer in the map. */
  lemma Gone(t: Node, h: map<ContentId, Trace>, u: Node, g: map<ContentId, Trace>, id: ContentId)
    requires Inv(t, h, {}) && Numbered(u) && Others(t, u, id) && h - {id} == g - {id}
    requires id !in u.downloads && u.sent == t.sent && (id in g ==> Spent(t, g[id], id))
    requires forall q | q in About(u.outbound, id) :: About(u.outbound, id)[q].BlockOf?
    ensures Inv(u, g, {})
  {
    hide BlocksSent, About, Others, Numbered, Inv;
    InvFrom(t, h, u, g, id, {}, {});
  }

  lemma FinishIs(c: Config, s: Node, id: ContentId, d: Download, io: Faults)
    ensures var u := Finish(c, s, id, d, io);
      u.downloads == s.downloads - {id} && u.outbound == s.outbound && u.sent == s.sent
  {
    hide CommitManifest;
  }

  lemma ManifestArrivesShape(c: Config, s: Node, o: Outbound, m: Manifest, io: Faults)
    requires o.ManifestOf? && o.id in s.downloads
    ensures var missing := MissingOf(c, s.store, m.blocks);
      ManifestArrives(c, s, o, m, io) ==
        if !ValidManifest(m) then RequestFailed(s, o)
        else if missing == [] then Finish(c, s, o.id, WithManifest(s.downloads[o.id], m, missing), io)
        else RequestBlocks(Put(s, o.id, WithManifest(s.downloads[o.id], m, missing)), o.id)
  {
    hide ValidManifest, RequestFailed, Finish, RequestBlocks, MissingOf, WithManifest;
  }

  lemma ManifestArrivesKeeps(c: Config, t: Node, h: map<ContentId, Trace>, r: RequestId, m: Manifest, io: Faults)
    requires Inv(t, h, {}) && r in t.outbound && t.outbound[r].ManifestOf? && m.id == t.outbound[r].id
    ensures t.outbound[r].id in h
    ensures var u, id := ManifestArrives(c, Taken(t, r), t.outbound[r], m, io), t.outbound[r].id;
      Inv(u, if ValidManifest(m) then h[id := h[id].(missing := MissingOf(c, t.store, m.blocks))] else h, {})
  {
    hide Inv, ValidManifest, RequestFailed, Sound, About, Others, Numbered, ManifestArrives, Finish, RequestBlocks;
    hide MissingOf, WithManifest, SliceOk, Requested, Lessens, Spent, GoneOk, LiveOk;
    var o, s := t.outbound[r], Taken(t, r);
    var id := o.id;
    ManifestRequestIs(t, h, r, {});
    ManifestArrivesShape(c, s, o, m, io);
    var missing := MissingOf(c, t.store, m.blocks);
    var g := h[id := h[id].(missing := missing)];
    if !ValidManifest(m) {
      ManifestFailed(t, h, r, {});
    } else if missing == [] {
      NothingMissed(id, t.downloads[id], About(t.outbound, id), h[id], t.sent);
      assert g == h;
      ManifestComplete(c, t, h, r, WithManifest(t.downloads[id], m, missing), io);
    } else {
      MissingRequested(c, t, h, r, m);
      assert h - {id} == g - {id};
      InvFrom(t, h, RequestBlocks(Put(s, id, WithManifest(t.downloads[id], m, missing)), id), g, id, {}, {});
    }
  }

  lemma ManifestComplete(c: Config, t: Node, h: map<ContentId, Trace>, r: RequestId, e: Download, io: Faults)
    requires Inv(t, h, {}) && r in t.outbound && t.outbound[r].ManifestOf?
    ensures Inv(Finish(c, Taken(t, r), t.outbound[r].id, e, io), h, {})
  {
    var id, s := t.outbound[r].id, Taken(t, r);
    ManifestRequestIs(t, h, r, {});
    var d, u := t.downloads[id], Finish(c, s, id, e, io);
    SpentOnce(t, id, d, About(t.outbound, id), h[id], {});
    FinishIs(c, s, id, e, io);
    hide Inv, Sound, About, Others, Numbered, Finish, Spent;
    assert s.downloads[id := d] - {id} == s.downloads - {id};
    DropIs(t, s, d, id, u);
    Gone(t, h, u, h, id);
  }

  lemma NothingMissed(id: ContentId, d: Download, mine: map<RequestId, Outbound>, trace: Trace, sent: seq<Outbound>)
    requires Sound(id, d, mine, trace, sent, {}) && d.manifest.None?
    ensures trace.missing == []
  {
    IsFetching(id, d, mine, trace, sent, {});
  }

  lemma MissingRequested(c: Config, t: Node, h: map<ContentId, Trace>, r: RequestId, m: Manifest)
    requires Inv(t, h, {}) && r in t.outbound && t.outbound[r].ManifestOf? && m.id == t.outbound[r].id
    requires ValidManifest(m) && MissingOf(c, t.store, m.blocks) != [] && m.id in t.downloads && m.id in h
    ensures var id, missing := m.id, MissingOf(c, t.store, m.blocks);
      var p := Put(Taken(t, r), id, WithManifest(t.downloads[id], m, missing));
      var u := RequestBlocks(p, id);
      && Numbered(u) && Others(t, u, id) && SliceOk(u, h[id := h[id].(missing := missing)], id, {})
      && Requested(p, u, id)
  {
    hide Inv, ValidManifest, Sound, About, Others, Numbered, RequestBlocks, MissingOf, BlocksSent;
    var id, missing := m.id, MissingOf(c, t.store, m.blocks);
    var trace := h[id].(missing := missing);
    ManifestRequestIs(t, h, r, {});
    MissingIs(c, t.store, m.blocks);
    TakenIs(t, r, id);
    var s := Taken(t, r);
    var e := WithManifest(t.downloads[id], m, missing);
    var p, u := Put(s, id, e), RequestBlocks(Put(s, id, e), id);
    ManifestSound(id, t.downloads[id], About(t.outbound, id), h[id], t.sent, r, m, missing);
    PutIs(s, id, e);
    BlocksRequested(p, id, trace, {});
    RequestedGives(p, u, id);
    OthersInTurn(t, s, p, id);
    OthersInTurn(t, p, u, id);
  }

  lemma BlockArrivesShape(c: Config, s: Node, o: Outbound, data: Bytes, io: Faults)
    requires o.BlockOf?
    ensures var stored := StoreBlock(c, s.store, o.block, data, io.disk);
      var t := s.(store := stored.store);
      BlockArrives(c, s, o, data, io) ==
        if o.id !in s.downloads then t
        else if stored.result.Err? then Drop(t, o.id, BlockRefused(o.id, stored.result.error))
        else if Finished(WithBlock(s.downloads[o.id])) then Finish(c, t, o.id, WithBlock(s.downloads[o.id]), io)
        else RequestBlocks(Put(t, o.id, WithBlock(s.downloads[o.id])), o.id)
  {
    hide StoreBlock, Finish, RequestBlocks;
  }

  predicate Finished(d: Download) {
    d.pending == [] && d.inFlight == 0
  }

  /** A block request that is answered, with whatever became of the store. */
  lemma BlockRequestIs(t: Node, h: map<ContentId, Trace>, r: RequestId, store: Store)
    requires Inv(t, h, {}) && r in t.outbound && t.outbound[r].BlockOf?
    ensures var o, s := t.outbound[r], Taken(t, r).(store := store);
      && Numbered(s) && Others(t, s, o.id) && s.sent == t.sent && s.downloads == t.downloads
      && (forall q | q in About(s.outbound, o.id) :: About(s.outbound, o.id)[q].BlockOf?)
      && r in About(t.outbound, o.id) && About(t.outbound, o.id)[r] == o
      && About(s.outbound, o.id) == About(t.outbound, o.id) - {r}
      && (o.id in h ==> Spent(t, h[o.id], o.id))
      && (o.id in t.downloads ==>
            && o.id in h && Sound(o.id, t.downloads[o.id], About(t.outbound, o.id), h[o.id], t.sent, {})
            && t.downloads[o.id].manifest.Some?)
  {
    var o := t.outbound[r];
    RequestIs(t, h, r, {});
    InvNumbered(t, h, {});
    TakenIs(t, r, o.id);
    TakenOthers(t, r, o.id);
    OnlyBlocks(t, h, r, {});
    hide Inv, Partition, ValidManifest, ProvidersOk, Budget, BlocksSent;
    if o.id in t.downloads {
      IsFetching(o.id, t.downloads[o.id], About(t.outbound, o.id), h[o.id], t.sent, {});
      SpentOnce(t, o.id, t.downloads[o.id], About(t.outbound, o.id), h[o.id], {});
    }
  }

  /** What happens to a stored or refused block besides the store. */
  lemma BlockArrivesKeeps(c: Config, t: Node, h: map<ContentId, Trace>, r: RequestId, data: Bytes, io: Faults)
    requires Inv(t, h, {}) && r in t.outbound && t.outbound[r].BlockOf?
    ensures var u, o := BlockArrives(c, Taken(t, r), t.outbound[r], data, io), t.outbound[r];
      && (o.id in t.downloads ==> o.id in h)
      && Inv(u, if o.id in t.downloads && StoreBlock(c, t.store, o.block, data, io.disk).result.Ok?
                then h[o.id := h[o.id].(done := h[o.id].done + {o.block})] else h, {})
  {
    hide Inv, Sound, About, Others, Numbered, StoreBlock, Finish, RequestBlocks, BlockArrives, Spent, SliceOk,
        WithBlock, Finished;
    hide Requested, Lessens, GoneOk, LiveOk, InvBut;
    var o := t.outbound[r];
    var id, stored := o.id, StoreBlock(c, t.store, o.block, data, io.disk);
    var s := Taken(t, r).(store := stored.store);
    BlockRequestIs(t, h, r, stored.store);
    BlockArrivesShape(c, Taken(t, r), o, data, io);
    if id !in t.downloads {
      Gone(t, h, s, h, id);
    } else {
      var d, e := t.downloads[id], WithBlock(t.downloads[id]);
      var g := h[id := h[id].(done := h[id].done + {o.block})];
      assert h - {id} == g - {id};
      SameSpent(t, h[id], g[id], id);
      if stored.result.Err? {
        BlockDropped(t, h, r, stored.store, h, Drop(s, id, BlockRefused(id, stored.result.error)));
      } else if Finished(e) {
        FinishIs(c, s, id, e, io);
        BlockDropped(t, h, r, stored.store, g, Finish(c, s, id, e, io));
      } else {
        StoredRequested(t, h, r, stored.store);
        InvFrom(t, h, RequestBlocks(Put(s, id, e), id), g, id, {}, {});
      }
    }
  }

  lemma SameSpent(s: Node, trace: Trace, later: Trace, id: ContentId)
    requires Spent(s, trace, id) && later == trace.(done := later.done)
    ensures Spent(s, later, id)
  {
  }

  lemma BlockDropped(t: Node, h: map<ContentId, Trace>, r: RequestId, store: Store, g: map<ContentId, Trace>, u: Node)
    requires Inv(t, h, {}) && r in t.outbound && t.outbound[r].BlockOf? && t.outbound[r].id in t.downloads
    requires t.outbound[r].id in g && Spent(t, g[t.outbound[r].id], t.outbound[r].id)
    requires h - {t.outbound[r].id} == g - {t.outbound[r].id}
    requires var s := Taken(t, r).(store := store);
      u.downloads == s.downloads - {t.outbound[r].id} && u.outbound == s.outbound && u.sent == s.sent
    ensures Inv(u, g, {})
  {
    hide Inv, Sound, About, Others, Numbered, Spent;
    var id, s := t.outbound[r].id, Taken(t, r).(store := store);
    BlockRequestIs(t, h, r, store);
    var d := t.downloads[id];
    assert s.downloads[id := d] - {id} == s.downloads - {id};
    DropIs(t, s, d, id, u);
    Gone(t, h, u, g, id);
  }

  lemma StoredRequested(t: Node, h: map<ContentId, Trace>, r: RequestId, store: Store)
    requires Inv(t, h, {}) && r in t.outbound && t.outbound[r].BlockOf? && t.outbound[r].id in t.downloads
    requires t.outbound[r].id in h && !Finished(WithBlock(t.downloads[t.outbound[r].id]))
    ensures var o := t.outbound[r];
      var p := Put(Taken(t, r).(store := store), o.id, WithBlock(t.downloads[o.id]));
      var u := RequestBlocks(p, o.id);
      && Numbered(u) && Others(t, u, o.id)
      && SliceOk(u, h[o.id := h[o.id].(done := h[o.id].done + {o.block})], o.id, {})
      && Requested(p, u, o.id)
  {
    hide Inv, Sound, About, Others, Numbered, RequestBlocks, Spent;
    var o := t.outbound[r];
    var id, d := o.id, t.downloads[o.id];
    BlockRequestIs(t, h, r, store);
    var e, trace := WithBlock(d), h[id].(done := h[id].done + {o.block});
    var s := Taken(t, r).(store := store);
    var p, u := Put(s, id, e), RequestBlocks(Put(s, id, e), id);
    StoredSound(id, d, About(t.outbound, id), h[id], t.sent, r);
    PutIs(s, id, e);
    BlocksRequested(p, id, trace, {});
    RequestedGives(p, u, id);
    OthersInTurn(t, s, p, id);
    OthersInTurn(t, p, u, id);
  }

  // ---------- A download that begins ----------

  lemma {:induction false} DistinctIs(peers: seq<PeerId>)
    ensures NoDuplicates(Distinct(peers)) && |Distinct(peers)| <= |peers|
    ensures forall p :: p in Distinct(peers) <==> p in peers
  {
    if peers != [] {
      DistinctIs(Init(peers));
      assert peers == Init(peers) + [Last(peers)];
    }
  }

  ghost function NewTrace(s: Node, id: ContentId, peers: seq<PeerId>): Trace {
    Trace(Distinct(peers), [], {}, BlocksSent(s.sent, id))
  }

  /** No block request for the content is outstanding. */
  ghost predicate NothingOwed(s: Node, id: ContentId) {
    forall r | r in s.outbound :: !(s.outbound[r].BlockOf? && s.outbound[r].id == id)
  }

  /** The first provider is asked. */
  lemma FirstAsked(s: Node, id: ContentId, peers: seq<PeerId>) returns (next: nat)
    requires CanBegin(s, id, peers)
    ensures var list := Distinct(peers);
      && 0 < |list| <= MAX_ARTIFACT_PROVIDERS && NoDuplicates(list) && next < |list|
      && Begin(s, id, peers) == Send(Put(s, id, NewDownload(list).(next := next)), ManifestOf(list[0], id))
  {
    DistinctIs(peers);
    var list := Distinct(peers);
    hide Distinct;
    assert peers[0] in list;
    FirstPicked(list);
    var d := NewDownload(list);
    var (first, moved) := NextActive(d);
    hide NextActive;
    next := moved.next;
    assert Put(Put(s, id, d), id, moved) == Put(s, id, moved);
  }

  lemma FirstPicked(list: seq<PeerId>)
    requires list != []
    ensures var (first, moved) := NextActive(NewDownload(list));
      first == Some(list[0]) && moved.next < |list| && moved == NewDownload(list).(next := moved.next)
  {
    var d := NewDownload(list);
    AllActive(list);
    assert Rotated(d) == list;
    assert list[0] in d.providers && list[0] !in d.failed;
    NextActiveIs(d);
  }

  /** How a download begins: its manifest is asked of the first provider. */
  lemma BeginIs(s: Node, id: ContentId, peers: seq<PeerId>)
    requires CanBegin(s, id, peers) && Numbered(s)
    ensures var u, list := Begin(s, id, peers), Distinct(peers);
      && 0 < |list| <= MAX_ARTIFACT_PROVIDERS && NoDuplicates(list) && Numbered(u) && Others(s, u, id)
      && id in u.downloads && u.downloads[id].next < |list|
      && u.downloads[id] == NewDownload(list).(next := u.downloads[id].next)
      && u.sent == s.sent + [ManifestOf(list[0], id)]
      && About(u.outbound, id) == About(s.outbound, id)[|s.sent| := ManifestOf(list[0], id)]
      && u.store == s.store && u.endings == s.endings
  {
    var next := FirstAsked(s, id, peers);
    var list := Distinct(peers);
    hide Begin, Distinct, About, BlocksSent, Others, Numbered;
    var p := Put(s, id, NewDownload(list).(next := next));
    PutIs(s, id, NewDownload(list).(next := next));
    SendIs(p, ManifestOf(list[0], id), id);
    SendOthers(p, ManifestOf(list[0], id), id);
    OthersInTurn(s, p, Begin(s, id, peers), id);
  }

  /** Beginning a download keeps the invariant exactly when no block request for its content is outstanding. */
  lemma BeginKeepsExactly(s: Node, h: map<ContentId, Trace>, id: ContentId, peers: seq<PeerId>)
    requires Inv(s, h, {}) && CanBegin(s, id, peers)
    ensures Inv(Begin(s, id, peers), h[id := NewTrace(s, id, peers)], {}) <==> NothingOwed(s, id)
  {
    if NothingOwed(s, id) {
      BeginKeeps(s, h, id, peers);
    } else if Inv(Begin(s, id, peers), h[id := NewTrace(s, id, peers)], {}) {
      NothingWasOwed(s, h, id, peers);
    }
  }

  lemma NothingWasOwed(s: Node, h: map<ContentId, Trace>, id: ContentId, peers: seq<PeerId>)
    requires Inv(s, h, {}) && CanBegin(s, id, peers)
    requires Inv(Begin(s, id, peers), h[id := NewTrace(s, id, peers)], {})
    ensures NothingOwed(s, id)
  {
    hide Begin, Distinct, Sound, Numbered, BlocksSent;
    InvNumbered(s, h, {});
    BeginIs(s, id, peers);
    var u, g := Begin(s, id, peers), h[id := NewTrace(s, id, peers)];
    assert SliceOk(u, g, id, {});
    IsFetching(id, u.downloads[id], About(u.outbound, id), g[id], u.sent, {});
    forall r | r in s.outbound ensures Concerns(s.outbound[r], id) ==> s.outbound[r].ManifestOf? {
      assert Concerns(s.outbound[r], id) ==> r in About(s.outbound, id) && r != |s.sent| && r in About(u.outbound, id);
    }
  }

  lemma BeginKeeps(s: Node, h: map<ContentId, Trace>, id: ContentId, peers: seq<PeerId>)
    requires Inv(s, h, {}) && CanBegin(s, id, peers) && NothingOwed(s, id)
    ensures Inv(Begin(s, id, peers), h[id := NewTrace(s, id, peers)], {})
  {
    hide Begin, Distinct, About, BlocksSent, Inv, Others, Numbered, Sound, GoneOk, SliceOk, NothingOwed;
    InvNumbered(s, h, {});
    BeginIs(s, id, peers);
    var u, g, list := Begin(s, id, peers), h[id := NewTrace(s, id, peers)], Distinct(peers);
    GoneSlice(s, h, id);
    NoneOutstanding(s, h, id);
    BegunSound(id, list, u.downloads[id], s.sent, |s.sent|, ManifestOf(list[0], id));
    BegunSlice(u, g, id);
    assert h - {id} == g - {id};
    InvFrom(s, h, u, g, id, {}, {});
  }

  lemma GoneSlice(s: Node, h: map<ContentId, Trace>, id: ContentId)
    requires Inv(s, h, {}) && id !in s.downloads
    ensures GoneOk(s, h, id)
  {
    assert SliceOk(s, h, id, {});
    hide Sound, About;
  }

  lemma BegunSlice(u: Node, g: map<ContentId, Trace>, id: ContentId)
    requires id in u.downloads && id in g && u.downloads[id].manifest.None?
    requires Sound(id, u.downloads[id], About(u.outbound, id), g[id], u.sent, {})
    ensures SliceOk(u, g, id, {})
  {
    hide Sound, About;
  }

  lemma NoneOutstanding(s: Node, h: map<ContentId, Trace>, id: ContentId)
    requires GoneOk(s, h, id) && NothingOwed(s, id)
    ensures About(s.outbound, id) == map[]
  {
    forall r | r in s.outbound ensures Concerns(s.outbound[r], id) ==> s.outbound[r].BlockOf? {
      assert Concerns(s.outbound[r], id) ==> r in About(s.outbound, id);
    }
  }

  // ---------- One step ----------

  ghost function NextTraces(c: Config, s: Node, h: map<ContentId, Trace>, event: Event): map<ContentId, Trace> {
    match event
    case Fetch(id, peers) => if CanBegin(s, id, peers) then h[id := NewTrace(s, id, peers)] else h
    case Responds(r, reply, io, _) =>
      if r !in s.outbound || !Matches(s.outbound[r], reply) then h else
      (match s.outbound[r]
       case InventoryOf(_) => h
       case ManifestOf(_, id) =>
         if id in h && ValidManifest(reply.manifest)
         then h[id := h[id].(missing := MissingOf(c, s.store, reply.manifest.blocks))] else h
       case BlockOf(_, id, block) =>
         if id in h && id in s.downloads && StoreBlock(c, s.store, block, reply.data, io.disk).result.Ok?
         then h[id := h[id].(done := h[id].done + {block})] else h)
    case _ => h
  }

  /** What is assumed of an event: a fetch finds no block request for its content outstanding, and a provider that
      failed is given up completely. */
  ghost predicate Admissible(s: Node, event: Event) {
    match event
    case Fetch(id, peers) => NothingOwed(s, id)
    case Responds(r, reply, _, order) =>
      r in s.outbound && !Matches(s.outbound[r], reply) ==>
        Visits(RequestFailed(Taken(s, r), s.outbound[r]), s.outbound[r].peer, order)
    case Fails(r, order) =>
      r in s.outbound ==> Visits(RequestFailed(Taken(s, r), s.outbound[r]), s.outbound[r].peer, order)
    case Disconnects(peer, order) => Visits(s, peer, order)
    case _ => true
  }

  lemma RequestLost(s: Node, h: map<ContentId, Trace>, r: RequestId, order: Order)
    requires Inv(s, h, {}) && r in s.outbound
    requires Visits(RequestFailed(Taken(s, r), s.outbound[r]), s.outbound[r].peer, order)
    ensures Inv(FailProvider(RequestFailed(Taken(s, r), s.outbound[r]), s.outbound[r].peer, order), h, {})
  {
    hide Inv, RequestFailed, FailProvider, Visits;
    RequestFailedKeeps(s, h, r, {});
    assert {} + {s.outbound[r].peer} == {s.outbound[r].peer};
    FailProviderKeeps(RequestFailed(Taken(s, r), s.outbound[r]), h, s.outbound[r].peer, order);
  }

  /** Every event keeps the invariant of all downloads. */
  lemma StepKeeps(c: Config, s: Node, h: map<ContentId, Trace>, event: Event)
    requires Inv(s, h, {}) && Admissible(s, event)
    ensures Inv(Step(c, s, event), NextTraces(c, s, h, event), {})
  {
    match event
    case Fetch(id, peers) =>
      if CanBegin(s, id, peers) {
        hide Inv, Begin;
        BeginKeeps(s, h, id, peers);
      }
    case AskInventory(peer) => InventoryAsked(s, h, peer);
    case Responds(r, reply, io, order) =>
      hide Inv, RequestFailed, ManifestArrives, BlockArrives, FailProvider, Visits, StoreBlock, MissingOf,
          ValidManifest;
      if r in s.outbound {
        if !Matches(s.outbound[r], reply) {
          RequestLost(s, h, r, order);
        } else {
          match s.outbound[r]
          case InventoryOf(_) =>
            InventoryFailed(s, h, r, {});
            InventoryAnswered(s, h, r);
          case ManifestOf(_, _) => ManifestArrivesKeeps(c, s, h, r, reply.manifest, io);
          case BlockOf(_, _, _) => BlockArrivesKeeps(c, s, h, r, reply.data, io);
        }
      }
    case Fails(r, order) =>
      hide Inv, RequestFailed, FailProvider, Visits;
      if r in s.outbound {
        RequestLost(s, h, r, order);
      }
    case Disconnects(peer, order) =>
      hide Inv, FailProvider, Visits;
      DyingGrows(s, h, {}, {peer});
      FailProviderKeeps(s, h, peer, order);
    case StoreIsUsed(call) => StoreUsed(s, h, After(c, s.store, call));
  }

  lemma StoreUsed(s: Node, h: map<ContentId, Trace>, store: Store)
    requires Inv(s, h, {})
    ensures Inv(s.(store := store), h, {})
  {
    var u := s.(store := store);
    forall k ensures SliceOk(u, h, k, {}) {
      assert SliceOk(s, h, k, {});
      hide Sound, Flows, About, BlocksSent;
    }
  }

  lemma InventoryAnswered(s: Node, h: map<ContentId, Trace>, r: RequestId)
    requires Inv(s, h, {}) && r in s.outbound && s.outbound[r].InventoryOf?
    ensures Inv(Taken(s, r), h, {})
  {
    var u := Taken(s, r);
    forall k ensures SliceOk(u, h, k, {}) {
      assert SliceOk(s, h, k, {});
      TakenIs(s, r, k);
      hide Sound, Flows, About, BlocksSent;
    }
  }

  lemma InventoryAsked(s: Node, h: map<ContentId, Trace>, peer: PeerId)
    requires Inv(s, h, {})
    ensures Inv(Send(s, InventoryOf(peer)), h, {})
  {
    var u := Send(s, InventoryOf(peer));
    SendIs(s, InventoryOf(peer), ContentId(0));
    forall k ensures SliceOk(u, h, k, {}) {
      var other := ContentId(k.number + 1);
      SendOthers(s, InventoryOf(peer), other);
      SliceFrame(s, h, u, h, other, k, {}, {});
    }
  }
}

/** Which failures end a download. */
module DownloadFailover {
  import opened Core
  import opened StorageModel
  import opened StorageTheorems
  import opened DownloadModel
  import opened DownloadProviders
  import opened DownloadInvariant
  import opened DownloadRuns
  import opened DownloadTheorems
  import opened DownloadToStore

  /** Another provider than this one has not failed. */
  ghost predicate Healthy(d: Download, peer: PeerId) {
    exists p :: p in d.providers && p !in d.failed && p != peer
  }

  ghost predicate HealthyIn(s: Node, id: ContentId, peer: PeerId) {
    id in s.downloads && Healthy(s.downloads[id], peer)
  }

  lemma HealthyIsActive(d: Download, peer: PeerId)
    requires Healthy(d, peer)
    ensures forall e: Download | e.providers == d.providers && e.failed <= d.failed + {peer} :: ActiveCount(e) > 0
  {
    var p :| p in d.providers && p !in d.failed && p != peer;
    forall e: Download | e.providers == d.providers && e.failed <= d.failed + {peer} ensures ActiveCount(e) > 0 {
      ActiveOfIs(e.providers, e.failed);
      assert p in ActiveOf(e.providers, e.failed);
    }
  }

  lemma RequestedStaysHealthy(p: Node, u: Node, id: ContentId, peer: PeerId)
    requires Requested(p, u, id) && Healthy(p.downloads[id], peer)
    ensures HealthyIn(u, id, peer)
  {
    hide About, BlocksSent;
    var other :| other in p.downloads[id].providers && other !in p.downloads[id].failed && other != peer;
    assert other in u.downloads[id].providers;
  }

  /** The failed request was not one of the healthy download. */
  lemma ElsewhereFails(t: Node, h: map<ContentId, Trace>, r: RequestId, dying: set<PeerId>, id: ContentId)
    requires Inv(t, h, dying) && r in t.outbound && HealthyIn(t, id, t.outbound[r].peer)
    requires !Concerns(t.outbound[r], id)
    ensures HealthyIn(RequestFailed(Taken(t, r), t.outbound[r]), id, t.outbound[r].peer)
  {
    hide Inv, Healthy, RequestManifest, RequestBlocks, ActiveCount;
    var o, s := t.outbound[r], Taken(t, r);
    if !o.InventoryOf? && o.id in s.downloads {
      FailingElsewhere(s, o, id);
    }
  }

  lemma FailingElsewhere(s: Node, o: Outbound, id: ContentId)
    requires !o.InventoryOf? && o.id != id && id in s.downloads
    ensures var u := RequestFailed(s, o); id in u.downloads && u.downloads[id] == s.downloads[id]
  {
    hide NextActive, ActiveCount, RequestBlocks;
    if o.BlockOf? && o.id in s.downloads {
      RequestingElsewhere(Put(s, o.id, Requeued(s.downloads[o.id], o.peer, o.block)), o.id, id);
    }
  }

  lemma {:induction false} RequestingElsewhere(s: Node, other: ContentId, id: ContentId)
    requires other != id && id in s.downloads
    ensures var u := RequestBlocks(s, other); id in u.downloads && u.downloads[id] == s.downloads[id]
    decreases if other in s.downloads then |s.downloads[other].pending| else 0
  {
    hide NextActive;
    if other in s.downloads && s.downloads[other].inFlight < MAX_PARALLEL_ARTIFACT_BLOCKS
       && s.downloads[other].pending != [] {
      var d := s.downloads[other];
      CursorMoves(d);
      var (peer, moved) := NextActive(d);
      if peer.Some? {
        BlocksRequestedNext(s, other, moved, peer.value);
        RequestingElsewhere(AskForBlock(s, other, moved, peer.value), other, id);
      }
    }
  }

  lemma ManifestFails(t: Node, h: map<ContentId, Trace>, r: RequestId, dying: set<PeerId>)
    requires Inv(t, h, dying) && r in t.outbound && t.outbound[r].ManifestOf?
    requires HealthyIn(t, t.outbound[r].id, t.outbound[r].peer)
    ensures HealthyIn(RequestFailed(Taken(t, r), t.outbound[r]), t.outbound[r].id, t.outbound[r].peer)
  {
    hide Inv, Sound, About, Numbered, Others, RequestFailed, NextActive;
    var o, s := t.outbound[r], Taken(t, r);
    ManifestRequestIs(t, h, r, dying);
    ReaskShape(s, o);
    var e := t.downloads[o.id].(failed := t.downloads[o.id].failed + {o.peer});
    NextActiveIs(e);
    var p :| p in e.providers && p !in t.downloads[o.id].failed && p != o.peer;
    assert p in e.providers && p !in e.failed;
  }

  lemma BlockFails(t: Node, h: map<ContentId, Trace>, r: RequestId, dying: set<PeerId>)
    requires Inv(t, h, dying) && r in t.outbound && t.outbound[r].BlockOf?
    requires HealthyIn(t, t.outbound[r].id, t.outbound[r].peer)
    ensures HealthyIn(RequestFailed(Taken(t, r), t.outbound[r]), t.outbound[r].id, t.outbound[r].peer)
  {
    hide Inv, Sound, About, Numbered, Others, RequestBlocks, Requested, ActiveCount;
    var o, s := t.outbound[r], Taken(t, r);
    var d := t.downloads[o.id];
    var e := Requeued(d, o.peer, o.block);
    HealthyIsActive(d, o.peer);
    RequeuedPut(t, h, r, dying);
    InvNumbered(t, h, dying);
    TakenIs(t, r, o.id);
    PutIs(s, o.id, e);
    BlocksRequested(Put(s, o.id, e), o.id, h[o.id], dying + {o.peer});
    var p :| p in d.providers && p !in d.failed && p != o.peer;
    assert p in e.providers && p !in e.failed;
    RequestedStaysHealthy(Put(s, o.id, e), RequestBlocks(Put(s, o.id, e), o.id), o.id, o.peer);
  }

  lemma RequestFailedSpares(t: Node, h: map<ContentId, Trace>, r: RequestId, dying: set<PeerId>, id: ContentId)
    requires Inv(t, h, dying) && r in t.outbound && HealthyIn(t, id, t.outbound[r].peer)
    ensures HealthyIn(RequestFailed(Taken(t, r), t.outbound[r]), id, t.outbound[r].peer)
  {
    hide Inv, HealthyIn, RequestFailed;
    if !Concerns(t.outbound[r], id) {
      ElsewhereFails(t, h, r, dying, id);
    } else if t.outbound[r].ManifestOf? {
      ManifestFails(t, h, r, dying);
    } else {
      BlockFails(t, h, r, dying);
    }
  }

  lemma {:induction false} FailRequestsSpares(
      s: Node, h: map<ContentId, Trace>, peer: PeerId, requests: seq<RequestId>, id: ContentId)
    requires Inv(s, h, {peer}) && HealthyIn(s, id, peer)
    requires forall r | r in requests :: r in s.outbound && s.outbound[r].peer == peer
    ensures HealthyIn(FailRequests(s, requests), id, peer)
  {
    hide Inv, HealthyIn, RequestFailed;
    if requests != [] {
      var before, r := Init(requests), Last(requests);
      assert requests == before + [r];
      FailRequestsKeeps(s, h, peer, before);
      FailRequestsSpares(s, h, peer, before, id);
      var t := FailRequests(s, before);
      if r in t.outbound {
        SameRequest(s, h, t, {peer}, r);
        RequestFailedSpares(t, h, r, {peer}, id);
      }
    }
  }

  lemma {:induction false} FailDownloadsSpares(
      s: Node, h: map<ContentId, Trace>, peer: PeerId, ids: seq<ContentId>)
    requires Inv(s, h, {peer}) && Spared(s, peer)
    ensures FailDownloads(s, peer, ids).downloads.Keys == s.downloads.Keys
  {
    hide Inv, Spared, FailDownload;
    if ids != [] {
      FailDownloadsSpares(s, h, peer, Init(ids));
      FailDownloadsKeeps(s, h, peer, Init(ids));
      FailDownloadKeeps(FailDownloads(s, peer, Init(ids)), h, peer, Last(ids));
    }
  }

  /** Every visited download has marked the provider as failed. */
  lemma {:induction false} FailDownloadsMark(s: Node, peer: PeerId, ids: seq<ContentId>, id: ContentId)
    requires id in ids
    ensures var u := FailDownloads(s, peer, ids);
      id in u.downloads && peer in u.downloads[id].providers ==> peer in u.downloads[id].failed
  {
    hide FailDownload;
    var t := FailDownloads(s, peer, Init(ids));
    assert ids == Init(ids) + [Last(ids)];
    FailDownloadCarries(t, peer, Last(ids));
    if id in Init(ids) {
      FailDownloadsMark(s, peer, Init(ids), id);
    } else {
      FailDownloadMarks(t, peer, id);
    }
  }

  lemma FailDownloadMarks(s: Node, peer: PeerId, id: ContentId)
    ensures var u := FailDownload(s, peer, id);
      id in u.downloads && peer in u.downloads[id].providers ==> peer in u.downloads[id].failed
  {
    hide RequestBlocks, ActiveCount;
    if id in s.downloads && peer in s.downloads[id].providers {
      RequestBlocksCarries(Put(s, id, s.downloads[id].(failed := s.downloads[id].failed + {peer})), id);
    }
  }

  /** A provider is given up: exactly the downloads without another active provider end. */
  lemma FailProviderSpares(s: Node, h: map<ContentId, Trace>, peer: PeerId, order: Order, id: ContentId)
    requires Inv(s, h, {peer}) && Visits(s, peer, order)
    ensures HealthyIn(s, id, peer) ==> id in FailProvider(s, peer, order).downloads
    ensures id in FailProvider(s, peer, order).downloads ==> HealthyIn(s, id, peer)
  {
    hide Inv, HealthyIn, FailRequests, FailDownloads, Spared;
    FailRequestsKeeps(s, h, peer, order.requests);
    var t := FailRequests(s, order.requests);
    assert Spared(t, peer) by {
      NothingUnvisited(s, t, peer, order);
    }
    FailDownloadsSpares(t, h, peer, order.ids);
    if HealthyIn(s, id, peer) {
      FailRequestsSpares(s, h, peer, order.requests, id);
      HealthyIsLive(t, id, peer);
    }
    if id in FailProvider(s, peer, order).downloads {
      SurvivorWasHealthy(s, h, peer, order, id);
    }
  }

  lemma NothingUnvisited(s: Node, t: Node, peer: PeerId, order: Order)
    requires Unvisited(s, t, peer, order.requests) && Visits(s, peer, order)
    ensures Spared(t, peer)
  {
  }

  lemma HealthyIsLive(s: Node, id: ContentId, peer: PeerId)
    requires HealthyIn(s, id, peer)
    ensures id in s.downloads
  {
  }

  lemma SurvivorWasHealthy(s: Node, h: map<ContentId, Trace>, peer: PeerId, order: Order, id: ContentId)
    requires Inv(s, h, {peer}) && Visits(s, peer, order) && id in FailProvider(s, peer, order).downloads
    ensures HealthyIn(s, id, peer)
  {
    hide Inv, FailRequests, FailDownloads, Sound, ActiveCount, About;
    var u := FailProvider(s, peer, order);
    FailProviderKeeps(s, h, peer, order);
    FailProviderCarries(s, peer, order);
    assert id in order.ids;
    FailDownloadsMark(FailRequests(s, order.requests), peer, order.ids, id);
    LiveIsActive(u, h, id);
    var p :| p in u.downloads[id].providers && p !in u.downloads[id].failed;
    assert p in s.downloads[id].providers && p !in s.downloads[id].failed && p != peer;
  }

  lemma LiveIsActive(u: Node, h: map<ContentId, Trace>, id: ContentId)
    requires Inv(u, h, {}) && id in u.downloads
    ensures exists p :: p in u.downloads[id].providers && p !in u.downloads[id].failed
  {
    assert SliceOk(u, h, id, {});
    var d := u.downloads[id];
    NextIsSmall(d, h[id]);
    hide Sound, Flows;
    ActiveOfIs(d.providers, d.failed);
    assert ActiveOf(d.providers, d.failed)[0] in ActiveOf(d.providers, d.failed);
  }

  /** A failing provider stops exactly the downloads that have no other active provider. */
  lemma FailoverIsExact(c: Config, s: Node, h: map<ContentId, Trace>, event: Event, id: ContentId)
    requires Inv(s, h, {}) && Admissible(s, event) && GivenUp(s, event).Some? && id in s.downloads
    ensures id in Step(c, s, event).downloads <==> Healthy(s.downloads[id], GivenUp(s, event).value)
  {
    hide Inv, RequestFailed, FailProvider, Visits, Healthy;
    var peer := GivenUp(s, event).value;
    match event
    case Responds(r, reply, _, order) => RequestLostSpares(s, h, r, order, id);
    case Fails(r, order) => RequestLostSpares(s, h, r, order, id);
    case Disconnects(_, order) =>
      DyingGrows(s, h, {}, {peer});
      FailProviderSpares(s, h, peer, order, id);
  }

  lemma RequestLostSpares(s: Node, h: map<ContentId, Trace>, r: RequestId, order: Order, id: ContentId)
    requires Inv(s, h, {}) && r in s.outbound && id in s.downloads
    requires Visits(RequestFailed(Taken(s, r), s.outbound[r]), s.outbound[r].peer, order)
    ensures id in FailProvider(RequestFailed(Taken(s, r), s.outbound[r]), s.outbound[r].peer, order).downloads
       <==> Healthy(s.downloads[id], s.outbound[r].peer)
  {
    hide Inv, RequestFailed, FailProvider, Visits, Healthy;
    var o, t := s.outbound[r], RequestFailed(Taken(s, r), s.outbound[r]);
    RequestFailedKeeps(s, h, r, {});
    assert {} + {o.peer} == {o.peer};
    FailProviderSpares(t, h, o.peer, order, id);
    if Healthy(s.downloads[id], o.peer) {
      RequestFailedSpares(s, h, r, {}, id);
    }
    if HealthyIn(t, id, o.peer) {
      TakenCarries(s, r);
      RequestFailedCarries(Taken(s, r), o);
      CarriesInTurn(s, Taken(s, r), t);
      StillHealthy(s.downloads[id], t.downloads[id], o.peer);
    }
  }

  lemma StillHealthy(d: Download, e: Download, peer: PeerId)
    requires Healthy(e, peer) && e.providers == d.providers && d.failed <= e.failed
    ensures Healthy(d, peer)
  {
    var p :| p in e.providers && p !in e.failed && p != peer;
    assert p in d.providers && p !in d.failed;
  }

  /** The one thing reported is that the store refused a block of this content. */
  predicate JustRefused(s: Node, u: Node, id: ContentId) {
    |u.endings| == |s.endings| + 1 && Last(u.endings).BlockRefused? && Last(u.endings).id == id
  }

  /** The one thing reported is that the download of this content reached its commit. */
  predicate JustCommitted(s: Node, u: Node, id: ContentId) {
    && |u.endings| == |s.endings| + 1 && Last(u.endings).id == id
    && (Last(u.endings).Complete? || Last(u.endings).CommitRefused?)
  }

  /** A block ends its download outright, however many healthy providers it has, exactly when it does not match its
      content address, or the quota leaves no room for it, or the disk cannot take it; the last two only if it is not
      held already. Each of the three is reported as such. */
  lemma RefusedBlockEndsDownload(c: Config, s: Node, r: RequestId, data: Bytes, io: Faults, order: Order)
    requires r in s.outbound && s.outbound[r].BlockOf? && s.outbound[r].id in s.downloads
    ensures var o := s.outbound[r];
      var u := Step(c, s, Responds(r, BlockReply(o.block, data), io, order));
      var refused, fits := JustRefused(s, u, o.id), Named(c, o.block, data);
      var wanted := fits && !Held(c, s.store, o.block, io.disk);
      var room := o.block.size <= Room(c, s.store, o.block, io.disk);
      && (refused <==> !Storable(c, s.store, o.block, data, io.disk))
      && (refused && Last(u.endings).error.Integrity? <==> !fits)
      && (refused && Last(u.endings).error.QuotaExceeded? <==> wanted && !room)
      && (refused && Last(u.endings).error.Io? <==> wanted && room && !Writable(s.store, o.block, io.disk))
      && (refused ==> o.id !in u.downloads)
  {
    hide BlockArrives, Finish, RequestBlocks, Finished, StoreBlock, Named, Held, Room, Writable, Storable;
    var o, t := s.outbound[r], Taken(s, r);
    BlockArrivesShape(c, t, o, data, io);
    WhenABlockIsStored(c, s.store, o.block, data, io.disk);
    var v := t.(store := StoreBlock(c, s.store, o.block, data, io.disk).store);
    var d := WithBlock(s.downloads[o.id]);
    FinishEnding(c, v, o.id, d, io);
    RequestBlocksCarries(Put(v, o.id, d), o.id);
  }

  lemma FinishEnding(c: Config, s: Node, id: ContentId, d: Download, io: Faults)
    ensures var u := Finish(c, s, id, d, io);
      && |u.endings| == |s.endings| + 1 && !Last(u.endings).BlockRefused? && Last(u.endings).id == id
      && (d.manifest.Some? ==> Last(u.endings).Complete? || Last(u.endings).CommitRefused?)
  {
    hide CommitManifest;
  }

  /** After a block the download goes on or has reached its commit exactly when none of these reasons holds. */
  lemma GoodBlockKeepsDownload(
      c: Config, s: Node, h: map<ContentId, Trace>, r: RequestId, data: Bytes, io: Faults, order: Order)
    requires Inv(s, h, {}) && r in s.outbound && s.outbound[r].BlockOf? && s.outbound[r].id in s.downloads
    ensures var o := s.outbound[r];
      var u := Step(c, s, Responds(r, BlockReply(o.block, data), io, order));
      o.id in u.downloads || JustCommitted(s, u, o.id) <==> Storable(c, s.store, o.block, data, io.disk)
  {
    hide Inv, BlockArrives, Finish, RequestBlocks, Finished, StoreBlock, Sound, About, Numbered, Others, Storable;
    var o, t := s.outbound[r], Taken(s, r);
    BlockArrivesShape(c, t, o, data, io);
    WhenABlockIsStored(c, s.store, o.block, data, io.disk);
    BlockRequestIs(s, h, r, s.store);
    var v := t.(store := StoreBlock(c, s.store, o.block, data, io.disk).store);
    var d := WithBlock(s.downloads[o.id]);
    FinishEnding(c, v, o.id, d, io);
    if !Finished(d) {
      StoredRequested(s, h, r, v.store);
    }
  }
}

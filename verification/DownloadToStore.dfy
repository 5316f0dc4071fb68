/** From the network to the file: what a download leaves in the store. */
module DownloadToStore {
  import opened Core
  import opened StorageModel
  import opened StorageTheorems
  import opened DownloadModel
  import opened DownloadInvariant
  import opened DownloadRuns
  import opened DownloadTheorems

  // ---------- What failures leave alone ----------

  /** The store stays, and so do the manifest and the providers of every download that stays, save that more may have
      failed; the others lost their last provider. */
  ghost predicate Carries(s: Node, u: Node) {
    && u.store == s.store
    && (forall k | k in u.downloads ::
          && k in s.downloads
          && u.downloads[k].manifest == s.downloads[k].manifest
          && u.downloads[k].providers == s.downloads[k].providers
          && s.downloads[k].failed <= u.downloads[k].failed)
    && s.endings <= u.endings
    && (forall i | |s.endings| <= i < |u.endings| :: u.endings[i].NoProviderLeft?)
  }

  lemma CarriesInTurn(s: Node, t: Node, u: Node)
    requires Carries(s, t) && Carries(t, u)
    ensures Carries(s, u)
  {
  }

  lemma PutCarries(s: Node, id: ContentId, d: Download)
    requires id in s.downloads && d.manifest == s.downloads[id].manifest
    requires d.providers == s.downloads[id].providers && s.downloads[id].failed <= d.failed
    ensures Carries(s, Put(s, id, d))
  {
  }

  lemma RequestManifestCarries(s: Node, id: ContentId)
    ensures Carries(s, RequestManifest(s, id))
  {
    if id in s.downloads {
      CursorMoves(s.downloads[id]);
    }
    hide NextActive;
  }

  lemma {:induction false} RequestBlocksCarries(s: Node, id: ContentId)
    ensures Carries(s, RequestBlocks(s, id))
    decreases if id in s.downloads then |s.downloads[id].pending| else 0
  {
    hide NextActive, Carries;
    if id in s.downloads && s.downloads[id].inFlight < MAX_PARALLEL_ARTIFACT_BLOCKS && s.downloads[id].pending != [] {
      var d := s.downloads[id];
      CursorMoves(d);
      var (peer, moved) := NextActive(d);
      if peer.Some? {
        var t := AskForBlock(s, id, moved, peer.value);
        AskCarries(s, id, moved, peer.value);
        RequestBlocksCarries(t, id);
        CarriesInTurn(s, t, RequestBlocks(t, id));
        BlocksRequestedNext(s, id, moved, peer.value);
      } else {
        DropCarries(s, id);
      }
    } else {
      StaysCarries(s);
    }
  }

  lemma AskCarries(s: Node, id: ContentId, moved: Download, peer: PeerId)
    requires id in s.downloads && moved == s.downloads[id].(next := moved.next) && moved.pending != []
    ensures Carries(s, AskForBlock(s, id, moved, peer))
  {
  }

  lemma DropCarries(s: Node, id: ContentId)
    ensures Carries(s, Drop(s, id, NoProviderLeft(id)))
  {
  }

  lemma StaysCarries(s: Node)
    ensures Carries(s, s)
  {
  }

  lemma TakenCarries(s: Node, r: RequestId)
    ensures Carries(s, Taken(s, r))
  {
  }

  lemma RequestFailedCarries(s: Node, o: Outbound)
    ensures Carries(s, RequestFailed(s, o))
  {
    hide Carries, RequestManifest, RequestBlocks, ActiveCount;
    if o.InventoryOf? || o.id !in s.downloads {
      StaysCarries(s);
    } else if o.ManifestOf? {
      var p := Put(s, o.id, s.downloads[o.id].(failed := s.downloads[o.id].failed + {o.peer}));
      PutCarries(s, o.id, p.downloads[o.id]);
      RequestManifestCarries(p, o.id);
      CarriesInTurn(s, p, RequestManifest(p, o.id));
    } else {
      var e := Requeued(s.downloads[o.id], o.peer, o.block);
      DropCarries(s, o.id);
      PutCarries(s, o.id, e);
      RequestBlocksCarries(Put(s, o.id, e), o.id);
      CarriesInTurn(s, Put(s, o.id, e), RequestBlocks(Put(s, o.id, e), o.id));
    }
  }

  lemma {:induction false} FailRequestsCarries(s: Node, requests: seq<RequestId>)
    ensures Carries(s, FailRequests(s, requests))
  {
    hide Carries, RequestFailed;
    if requests == [] {
      StaysCarries(s);
    } else {
      FailRequestsCarries(s, Init(requests));
      var t, r := FailRequests(s, Init(requests)), Last(requests);
      if r in t.outbound {
        TakenCarries(t, r);
        RequestFailedCarries(Taken(t, r), t.outbound[r]);
        CarriesInTurn(s, t, Taken(t, r));
        CarriesInTurn(s, Taken(t, r), FailRequests(s, requests));
      }
    }
  }

  lemma FailDownloadCarries(s: Node, peer: PeerId, id: ContentId)
    ensures Carries(s, FailDownload(s, peer, id))
  {
    hide Carries, RequestBlocks, ActiveCount;
    StaysCarries(s);
    DropCarries(s, id);
    if id in s.downloads {
      var p := Put(s, id, s.downloads[id].(failed := s.downloads[id].failed + {peer}));
      PutCarries(s, id, p.downloads[id]);
      RequestBlocksCarries(p, id);
      CarriesInTurn(s, p, RequestBlocks(p, id));
    }
  }

  lemma {:induction false} FailDownloadsCarries(s: Node, peer: PeerId, ids: seq<ContentId>)
    ensures Carries(s, FailDownloads(s, peer, ids))
  {
    hide Carries, FailDownload;
    if ids == [] {
      StaysCarries(s);
    } else {
      FailDownloadsCarries(s, peer, Init(ids));
      var t := FailDownloads(s, peer, Init(ids));
      FailDownloadCarries(t, peer, Last(ids));
      CarriesInTurn(s, t, FailDownloads(s, peer, ids));
    }
  }

  lemma FailProviderCarries(s: Node, peer: PeerId, order: Order)
    ensures Carries(s, FailProvider(s, peer, order))
  {
    hide Carries;
    FailRequestsCarries(s, order.requests);
    FailDownloadsCarries(FailRequests(s, order.requests), peer, order.ids);
    CarriesInTurn(s, FailRequests(s, order.requests), FailProvider(s, peer, order));
  }

  lemma RequestLostCarries(s: Node, r: RequestId, order: Order)
    requires r in s.outbound
    ensures Carries(s, FailProvider(RequestFailed(Taken(s, r), s.outbound[r]), s.outbound[r].peer, order))
  {
    hide Carries, RequestFailed, FailProvider;
    var o := s.outbound[r];
    var t := RequestFailed(Taken(s, r), o);
    TakenCarries(s, r);
    RequestFailedCarries(Taken(s, r), o);
    CarriesInTurn(s, Taken(s, r), t);
    FailProviderCarries(t, o.peer, order);
    CarriesInTurn(s, t, FailProvider(t, o.peer, order));
  }

  // ---------- Whole stores ----------

  /** The strings that an event brings, and no file that cannot be read, is removed, and cannot be written. */
  ghost predicate PossibleEvent(event: Event, u: set<Bytes>) {
    match event
    case Responds(_, reply, io, _) =>
      && (reply.BlockReply? ==> reply.data in u)
      && (io.disk.readable || !io.disk.removable || io.disk.writable)
    case StoreIsUsed(call) => Possible(call, u)
    case _ => true
  }

  ghost predicate Better(c: Config, s: Store, t: Store, u: set<Bytes>) {
    Whole(c, t, u) && Within(s, t)
  }

  lemma BetterInTurn(c: Config, s: Store, t: Store, v: Store, u: set<Bytes>)
    requires Better(c, s, t, u) && Better(c, t, v, u)
    ensures Better(c, s, v, u)
  {
    hide Whole;
  }

  lemma CommitBetter(c: Config, s: Store, m: Manifest, writable: bool, u: set<Bytes>)
    requires CollisionFree(c, u) && Whole(c, s, u)
    ensures Better(c, s, CommitManifest(c, s, m, writable).store, u)
  {
    CallKeepsWhole(c, s, CommitCall(m, writable), u);
  }

  lemma StoreBetter(c: Config, s: Store, b: BlockRef, bytes: Bytes, disk: Disk, u: set<Bytes>)
    requires CollisionFree(c, u) && Whole(c, s, u) && bytes in u && (disk.readable || !disk.removable || disk.writable)
    ensures Better(c, s, StoreBlock(c, s, b, bytes, disk).store, u)
  {
    CallKeepsWhole(c, s, StoreCall(b, bytes, disk), u);
  }

  lemma FinishBetter(c: Config, s: Node, id: ContentId, d: Download, io: Faults, u: set<Bytes>)
    requires CollisionFree(c, u) && Whole(c, s.store, u)
    ensures Better(c, s.store, Finish(c, s, id, d, io).store, u)
  {
    if d.manifest.Some? {
      CommitBetter(c, s.store, d.manifest.value, io.commits, u);
    }
    hide Whole, CommitManifest;
  }

  lemma StepBetter(c: Config, s: Node, event: Event, u: set<Bytes>)
    requires CollisionFree(c, u) && Whole(c, s.store, u) && PossibleEvent(event, u)
    ensures Better(c, s.store, Step(c, s, event).store, u)
  {
    hide Whole, RequestFailed, ManifestArrives, BlockArrives, FailProvider, RequestManifest, After, CollisionFree;
    match event
    case Fetch(id, peers) => RequestManifestCarries(Put(s, id, NewDownload(Distinct(peers))), id);
    case AskInventory(peer) =>
    case Responds(r, reply, io, order) =>
      if r in s.outbound {
        if !Matches(s.outbound[r], reply) {
          RequestLostCarries(s, r, order);
        } else {
          match s.outbound[r]
          case InventoryOf(_) =>
          case ManifestOf(_, _) => ManifestBetter(c, Taken(s, r), s.outbound[r], reply.manifest, io, u);
          case BlockOf(_, _, _) => BlockBetter(c, Taken(s, r), s.outbound[r], reply.data, io, u);
        }
      }
    case Fails(r, order) =>
      if r in s.outbound {
        RequestLostCarries(s, r, order);
      }
    case Disconnects(peer, order) => FailProviderCarries(s, peer, order);
    case StoreIsUsed(call) => StepKeepsWhole(c, s.store, call, u);
  }

  lemma ManifestBetter(c: Config, s: Node, o: Outbound, m: Manifest, io: Faults, u: set<Bytes>)
    requires CollisionFree(c, u) && Whole(c, s.store, u) && o.ManifestOf?
    ensures Better(c, s.store, ManifestArrives(c, s, o, m, io).store, u)
  {
    hide Whole, RequestFailed, RequestBlocks, Finish, ValidManifest, MissingOf, CollisionFree;
    RequestFailedCarries(s, o);
    if o.id in s.downloads && ValidManifest(m) {
      var d := WithManifest(s.downloads[o.id], m, MissingOf(c, s.store, m.blocks));
      FinishBetter(c, s, o.id, d, io, u);
      RequestBlocksCarries(Put(s, o.id, d), o.id);
    }
  }

  lemma BlockBetter(c: Config, s: Node, o: Outbound, data: Bytes, io: Faults, u: set<Bytes>)
    requires CollisionFree(c, u) && Whole(c, s.store, u) && o.BlockOf? && data in u
    requires io.disk.readable || !io.disk.removable || io.disk.writable
    ensures Better(c, s.store, BlockArrives(c, s, o, data, io).store, u)
  {
    hide Whole, RequestBlocks, Finish, StoreBlock, CollisionFree, BlockArrives, Better, Finished;
    var t := s.(store := StoreBlock(c, s.store, o.block, data, io.disk).store);
    StoreBetter(c, s.store, o.block, data, io.disk, u);
    BlockArrivesShape(c, s, o, data, io);
    BetterIsWhole(c, s.store, t.store, u);
    if o.id in s.downloads {
      var d := WithBlock(s.downloads[o.id]);
      FinishBetter(c, t, o.id, d, io, u);
      RequestBlocksCarries(Put(t, o.id, d), o.id);
      BetterInTurn(c, s.store, t.store, Finish(c, t, o.id, d, io).store, u);
    }
  }

  lemma BetterIsWhole(c: Config, s: Store, t: Store, u: set<Bytes>)
    requires Better(c, s, t, u)
    ensures Whole(c, t, u) && Within(s, t)
  {
  }

  // ---------- Nothing is lost on the way ----------

  /** Every block of the manifest is in order in the store, or is missing and not yet stored. */
  ghost predicate Kept(c: Config, s: Node, h: map<ContentId, Trace>, id: ContentId, m: Manifest) {
    id in s.downloads && id in h && s.downloads[id].manifest == Some(m) ==>
      forall b | b in m.blocks :: Good(c, s.store, b) || (b in h[id].missing && b !in h[id].done)
  }

  lemma GoodWithin(c: Config, s: Store, t: Store, b: BlockRef)
    requires Within(s, t) && Good(c, s, b)
    ensures Good(c, t, b)
  {
  }

  /** The manifest, the list of missing blocks and the stored blocks of a download stay, or one more block is
      stored, and it is in order. */
  lemma KeptFrame(c: Config, s: Node, h: map<ContentId, Trace>, t: Node, g: map<ContentId, Trace>, id: ContentId,
      m: Manifest)
    requires Kept(c, s, h, id, m) && Within(s.store, t.store)
    requires id in t.downloads && id in g ==>
      && id in s.downloads && id in h && s.downloads[id].manifest == t.downloads[id].manifest
      && g[id].missing == h[id].missing
      && forall b | b in g[id].done :: b in h[id].done || Good(c, t.store, b)
    ensures Kept(c, t, g, id, m)
  {
    forall b | b in m.blocks && Good(c, s.store, b) ensures Good(c, t.store, b) {
      GoodWithin(c, s.store, t.store, b);
    }
    hide Good;
  }

  lemma StoredIsGood(c: Config, s: Store, b: BlockRef, bytes: Bytes, disk: Disk)
    requires StoreBlock(c, s, b, bytes, disk).result.Ok?
    ensures Good(c, StoreBlock(c, s, b, bytes, disk).store, b)
  {
    hide Used;
  }

  lemma BlockKept(c: Config, s: Node, h: map<ContentId, Trace>, r: RequestId, data: Bytes, io: Faults,
      id: ContentId, m: Manifest)
    requires r in s.outbound && s.outbound[r].BlockOf? && Kept(c, s, h, id, m)
    requires Within(s.store, BlockArrives(c, Taken(s, r), s.outbound[r], data, io).store)
    requires s.outbound[r].id in s.downloads ==> s.outbound[r].id in h
    ensures var o := s.outbound[r];
      var g := if o.id in h && o.id in s.downloads && StoreBlock(c, s.store, o.block, data, io.disk).result.Ok?
               then h[o.id := h[o.id].(done := h[o.id].done + {o.block})] else h;
      Kept(c, BlockArrives(c, Taken(s, r), o, data, io), g, id, m)
  {
    hide StoreBlock, Kept, BlockArrives, Finish, RequestBlocks, Good, Within;
    var o := s.outbound[r];
    var stored := StoreBlock(c, s.store, o.block, data, io.disk);
    var t, u := Taken(s, r).(store := stored.store), BlockArrives(c, Taken(s, r), o, data, io);
    var g := if o.id in h && o.id in s.downloads && stored.result.Ok?
             then h[o.id := h[o.id].(done := h[o.id].done + {o.block})] else h;
    BlockArrivesShape(c, Taken(s, r), o, data, io);
    if o.id in s.downloads {
      var d := WithBlock(s.downloads[o.id]);
      FinishIs(c, t, o.id, d, io);
      RequestBlocksCarries(Put(t, o.id, d), o.id);
      if stored.result.Ok? && o.id in u.downloads {
        StoredIsGood(c, s.store, o.block, data, io.disk);
        assert u.store == stored.store;
      }
    }
    KeptFrame(c, s, h, u, g, id, m);
  }

  lemma ManifestKept(c: Config, s: Node, h: map<ContentId, Trace>, r: RequestId, n: Manifest, io: Faults,
      id: ContentId, m: Manifest)
    requires Inv(s, h, {}) && r in s.outbound && s.outbound[r].ManifestOf? && n.id == s.outbound[r].id
    requires Kept(c, s, h, id, m) && Consistent(m.blocks)
    requires Within(s.store, ManifestArrives(c, Taken(s, r), s.outbound[r], n, io).store)
    ensures var o := s.outbound[r];
      var g := if o.id in h && ValidManifest(n)
               then h[o.id := h[o.id].(missing := MissingOf(c, s.store, n.blocks))] else h;
      Kept(c, ManifestArrives(c, Taken(s, r), o, n, io), g, id, m)
  {
    hide Kept, ManifestArrives, Finish, RequestBlocks, Good, Within, Inv, Sound, About, Numbered, Others;
    hide RequestFailed, ValidManifest, MissingOf;
    var o, t := s.outbound[r], Taken(s, r);
    var u := ManifestArrives(c, t, o, n, io);
    var missing := MissingOf(c, s.store, n.blocks);
    var g := if o.id in h && ValidManifest(n) then h[o.id := h[o.id].(missing := missing)] else h;
    ManifestRequestIs(s, h, r, {});
    NothingDone(o.id, s.downloads[o.id], About(s.outbound, o.id), h[o.id], s.sent);
    ManifestArrivesShape(c, t, o, n, io);
    RequestFailedCarries(t, o);
    var d := WithManifest(s.downloads[o.id], n, missing);
    FinishIs(c, t, o.id, d, io);
    RequestBlocksCarries(Put(t, o.id, d), o.id);
    if ValidManifest(n) && missing != [] && o.id == id && n == m {
      MissingIs(c, s.store, m.blocks);
      assert u.store == s.store;
      assert Kept(c, u, g, id, m) by {
        KeptAtFirst(c, u, g, id, m);
      }
    } else if ValidManifest(n) && missing != [] && o.id == id {
      OtherManifest(c, u, g, id, m, n);
    } else {
      KeptFrame(c, s, h, u, g, id, m);
    }
  }

  lemma NothingDone(id: ContentId, d: Download, mine: map<RequestId, Outbound>, trace: Trace, sent: seq<Outbound>)
    requires Sound(id, d, mine, trace, sent, {}) && d.manifest.None?
    ensures trace.done == {}
  {
    IsFetching(id, d, mine, trace, sent, {});
  }

  lemma KeptAtFirst(c: Config, u: Node, g: map<ContentId, Trace>, id: ContentId, m: Manifest)
    requires id in g && g[id].done == {}
    requires forall b | b in m.blocks :: Good(c, u.store, b) || b in g[id].missing
    ensures Kept(c, u, g, id, m)
  {
    hide Good;
  }

  lemma OtherManifest(c: Config, u: Node, g: map<ContentId, Trace>, id: ContentId, m: Manifest, n: Manifest)
    requires id in u.downloads ==> u.downloads[id].manifest == Some(n)
    requires n != m
    ensures Kept(c, u, g, id, m)
  {
  }

  lemma StepKept(c: Config, s: Node, h: map<ContentId, Trace>, event: Event, id: ContentId, m: Manifest)
    requires Inv(s, h, {}) && Admissible(s, event) && Kept(c, s, h, id, m) && Consistent(m.blocks)
    requires Within(s.store, Step(c, s, event).store)
    ensures Kept(c, Step(c, s, event), NextTraces(c, s, h, event), id, m)
  {
    hide Kept, Inv, RequestFailed, ManifestArrives, BlockArrives, FailProvider, Visits, After, Within, Good, Begin;
    hide StoreBlock, MissingOf, ValidManifest, Sound, About, Consistent;
    var u, g := Step(c, s, event), NextTraces(c, s, h, event);
    match event
    case Fetch(other, peers) =>
      if CanBegin(s, other, peers) {
        BegunKept(c, s, h, other, peers, id, m);
      }
    case AskInventory(peer) => KeptFrame(c, s, h, u, g, id, m);
    case Responds(r, reply, io, order) =>
      if r in s.outbound {
        if !Matches(s.outbound[r], reply) {
          RequestLostCarries(s, r, order);
          KeptFrame(c, s, h, u, g, id, m) by {
            LiveTraced(s, h, id);
          }
        } else {
          match s.outbound[r]
          case InventoryOf(_) => KeptFrame(c, s, h, u, g, id, m);
          case ManifestOf(_, _) => ManifestKept(c, s, h, r, reply.manifest, io, id, m);
          case BlockOf(_, other, _) =>
            LiveTraced(s, h, other);
            BlockKept(c, s, h, r, reply.data, io, id, m);
        }
      }
    case Fails(r, order) =>
      if r in s.outbound {
        RequestLostCarries(s, r, order);
        KeptFrame(c, s, h, u, g, id, m);
      }
    case Disconnects(peer, order) =>
      FailProviderCarries(s, peer, order);
      KeptFrame(c, s, h, u, g, id, m);
    case StoreIsUsed(call) => KeptFrame(c, s, h, u, g, id, m);
  }

  lemma LiveTraced(s: Node, h: map<ContentId, Trace>, id: ContentId)
    requires Inv(s, h, {})
    ensures id in s.downloads ==> id in h
  {
    assert SliceOk(s, h, id, {});
    hide Sound, Flows;
  }

  lemma BegunKept(c: Config, s: Node, h: map<ContentId, Trace>, other: ContentId, peers: seq<PeerId>,
      id: ContentId, m: Manifest)
    requires Inv(s, h, {}) && CanBegin(s, other, peers) && Kept(c, s, h, id, m)
    ensures Kept(c, Begin(s, other, peers), h[other := NewTrace(s, other, peers)], id, m)
  {
    hide Inv, Begin, Others, Numbered, Good;
    InvNumbered(s, h, {});
    BeginIs(s, other, peers);
    if id in s.downloads {
      BegunAlone(s, Begin(s, other, peers), other, id);
    } else if id != other {
      NotBegun(s, Begin(s, other, peers), other, id);
    }
  }

  lemma NotBegun(s: Node, u: Node, other: ContentId, id: ContentId)
    requires Others(s, u, other) && id !in s.downloads && id != other
    ensures id !in u.downloads
  {
    hide About, BlocksSent;
    assert id !in s.downloads - {other};
  }

  // ---------- The end of a download ----------

  lemma {:induction false} RunIsWhole(c: Config, store: Store, events: seq<Event>, id: ContentId, m: Manifest,
      u: set<Bytes>)
    requires AdmissibleRun(c, Idle(store), events) && CollisionFree(c, u) && Whole(c, store, u) && Consistent(m.blocks)
    requires forall i | 0 <= i < |events| :: PossibleEvent(events[i], u)
    ensures Whole(c, Run(c, Idle(store), events).store, u)
    ensures Kept(c, Run(c, Idle(store), events), Traces(c, store, events), id, m)
    ensures Inv(Run(c, Idle(store), events), Traces(c, store, events), {})
  {
    hide Whole, Kept, Inv, PossibleEvent, Admissible, Step, NextTraces, Consistent, CollisionFree;
    RunKeeps(c, store, events);
    if events == [] {
      NothingKept(c, store, id, m);
    } else {
      RunIsWhole(c, store, Init(events), id, m, u);
      var s := Run(c, Idle(store), Init(events));
      StepBetter(c, s, Last(events), u);
      BetterIsWhole(c, s.store, Step(c, s, Last(events)).store, u);
      StepKept(c, s, Traces(c, store, Init(events)), Last(events), id, m);
    }
  }

  lemma NothingKept(c: Config, store: Store, id: ContentId, m: Manifest)
    ensures Kept(c, Idle(store), map[], id, m)
  {
  }

  /** The last missing block has come: every block of the manifest is in order. */
  lemma NothingMissing(c: Config, s: Node, h: map<ContentId, Trace>, r: RequestId, data: Bytes, io: Faults,
      m: Manifest, u: set<Bytes>)
    requires Inv(s, h, {}) && r in s.outbound && s.outbound[r].BlockOf? && s.outbound[r].id in s.downloads
    requires Kept(c, s, h, s.outbound[r].id, m) && s.downloads[s.outbound[r].id].manifest == Some(m)
    requires Finished(WithBlock(s.downloads[s.outbound[r].id]))
    requires var stored := StoreBlock(c, s.store, s.outbound[r].block, data, io.disk);
      stored.result.Ok? && Within(s.store, stored.store)
    ensures forall b | b in m.blocks :: Good(c, StoreBlock(c, s.store, s.outbound[r].block, data, io.disk).store, b)
  {
    var o := s.outbound[r];
    var t := StoreBlock(c, s.store, o.block, data, io.disk).store;
    StoredIsGood(c, s.store, o.block, data, io.disk);
    hide StoreBlock, Inv, Sound, About, Within, Partition, Good;
    BlockRequestIs(s, h, r, s.store);
    var d, mine := s.downloads[o.id], About(s.outbound, o.id);
    LastBlock(o.id, d, mine, h[o.id], s.sent, r);
    forall b | b in m.blocks ensures Good(c, t, b) {
      if Good(c, s.store, b) {
        GoodWithin(c, s.store, t, b);
      }
    }
  }

  lemma LastBlock(id: ContentId, d: Download, mine: map<RequestId, Outbound>, trace: Trace, sent: seq<Outbound>,
      r: RequestId)
    requires Sound(id, d, mine, trace, sent, {}) && r in mine && mine[r].BlockOf? && Finished(WithBlock(d))
    ensures forall b | b in trace.missing :: b in trace.done || b == mine[r].block
  {
    IsFetching(id, d, mine, trace, sent, {});
    AnsweredOwes(mine, r);
    hide Sound, AwaitsManifest, ValidManifest, BlocksSent;
    assert |mine - {r}| == 0;
    assert Owed(mine - {r}) == {};
    assert forall b | b in trace.missing :: b in Elements(trace.missing);
  }

  /** The outcome of a download that reached its commit with store `s` and left store `t`: it is complete exactly when
      the artifact is published already, or its manifest fits beside all that is used and can be written; and then it
      exports as the file. */
  ghost predicate Delivered(c: Config, s: Store, t: Store, m: Manifest, writable: bool, ending: Ending, file: Bytes) {
    var fits := Used(c, s) + c.encodedLength(m) <= c.quota;
    && (ending == Complete(m.id) <==> m.id in s.manifests || (fits && writable))
    && (ending == Complete(m.id) ==> Export(c, t, m.id, false) == Ok(file))
    && (ending != Complete(m.id) ==>
          && ending.CommitRefused? && ending.id == m.id
          && if fits then ending.error.Io? else ending.error.QuotaExceeded?)
  }

  /** When every block of a described file is in order, committing it publishes the file exactly when there is room for
      its manifest. */
  lemma CommitDelivers(c: Config, s: Node, chunks: seq<Bytes>, d: Download, io: Faults, u: set<Bytes>)
    requires CollisionFree(c, u) && Whole(c, s.store, u) && Has(chunks, u) && Concat(chunks) in u
    requires forall k | k in s.store.manifests && Verify(c, s.store, k).Ok? :: Content(c, s.store, k) in u
    requires d.manifest == Some(Describe(c, chunks)) && ValidManifest(Describe(c, chunks))
    requires forall b | b in RefsOf(c, chunks) :: Good(c, s.store, b)
    ensures var id, t := Describe(c, chunks).id, Finish(c, s, Describe(c, chunks).id, d, io);
      && |t.endings| == |s.endings| + 1 && s.endings <= t.endings
      && Delivered(c, s.store, t.store, Describe(c, chunks), io.commits, Last(t.endings), Concat(chunks))
  {
    hide Whole, ValidManifest, VerifyBlocks, CollisionFree, Used, Describe, CommitManifest, InOrder, GapFirst, Export,
        Verify, Has, Good;
    var m := Describe(c, chunks);
    WholeBlocks(c, s.store, u);
    DescribedVerifies(c, s.store, chunks, u);
    WhenBlocksVerify(c, s.store, m);
    GapsAreOutOfOrder(c, s.store, m);
    WhenAManifestIsCommitted(c, s.store, m, io.commits);
    if CommitManifest(c, s.store, m, io.commits).result.Ok? {
      DescribedIsNamed(c, chunks);
      PublishedExports(c, s.store, m, io.commits, Concat(chunks), u);
    }
  }

  lemma WholeBlocks(c: Config, s: Store, u: set<Bytes>)
    requires Whole(c, s, u)
    ensures BlocksWhole(c, s, u)
  {
  }

  lemma DescribedIsNamed(c: Config, chunks: seq<Bytes>)
    ensures c.digest(Concat(chunks)) == Describe(c, chunks).id
  {
  }

  lemma PublishedExports(c: Config, s: Store, m: Manifest, writable: bool, file: Bytes, u: set<Bytes>)
    requires CollisionFree(c, u) && Whole(c, s, u) && file in u && c.digest(file) == m.id
    requires forall k | k in s.manifests && Verify(c, s, k).Ok? :: Content(c, s, k) in u
    requires VerifyBlocks(c, s, m) == Ok(file) && CommitManifest(c, s, m, writable).result.Ok?
    ensures Export(c, CommitManifest(c, s, m, writable).store, m.id, false) == Ok(file)
  {
    var t := CommitManifest(c, s, m, writable).store;
    CommitBetter(c, s, m, writable, u);
    BetterIsWhole(c, s, t, u);
    if m.id in s.manifests {
      hide CommitManifest;
      WholeVerifies(c, s, u, m.id);
      VerifyWithin(c, s, t, m.id);
      SameContent(c, s, t, m.id);
      ExportIsContent(c, t, m.id);
      assert Content(c, s, m.id) in u;
    } else {
      VerifiesBefore(c, s, t, m) by {
        SameBlocks(c, s, t, m.blocks);
      }
      ExportIsContent(c, t, m.id);
    }
  }

  /** A download whose manifest describes a file, and that has just received its last missing block, publishes
      exactly this file, exactly when there is room for its manifest; whichever providers failed on the way. */
  lemma DownloadDelivers(c: Config, store: Store, events: seq<Event>, r: RequestId, data: Bytes, io: Faults,
      order: Order, chunks: seq<Bytes>, u: set<Bytes>)
    requires AdmissibleRun(c, Idle(store), events) && CollisionFree(c, u) && Whole(c, store, u)
    requires forall i | 0 <= i < |events| :: PossibleEvent(events[i], u)
    requires Has(chunks, u) && Concat(chunks) in u
    requires var s := Run(c, Idle(store), events);
      && r in s.outbound && s.outbound[r].BlockOf? && s.outbound[r].id in s.downloads
      && s.downloads[s.outbound[r].id].manifest == Some(Describe(c, chunks))
      && s.downloads[s.outbound[r].id].pending == [] && s.downloads[s.outbound[r].id].inFlight == 1
      && Fits(c, s.outbound[r].block, data) && PossibleEvent(Responds(r, BlockReply(s.outbound[r].block, data), io,
          order), u)
      && (var stored := StoreBlock(c, s.store, s.outbound[r].block, data, io.disk);
          && stored.result.Ok?
          && forall k | k in stored.store.manifests && Verify(c, stored.store, k).Ok? ::
              Content(c, stored.store, k) in u)
    ensures var s := Run(c, Idle(store), events);
      var t := Step(c, s, Responds(r, BlockReply(s.outbound[r].block, data), io, order));
      var stored := StoreBlock(c, s.store, s.outbound[r].block, data, io.disk).store;
      && s.endings <= t.endings && |t.endings| == |s.endings| + 1
      && Delivered(c, stored, t.store, Describe(c, chunks), io.commits, Last(t.endings), Concat(chunks))
  {
    hide Inv, Whole, Kept, StoreBlock, BlockArrives, Finish, Describe, Delivered, AdmissibleRun, Run, Traces, Good,
        Verify, Fits;
    var s, h := Run(c, Idle(store), events), Traces(c, store, events);
    var m, o := Describe(c, chunks), s.outbound[r];
    DescribedIs(c, chunks, u);
    RunIsWhole(c, store, events, o.id, m, u);
    var stored := StoreBlock(c, s.store, o.block, data, io.disk);
    StoreBetter(c, s.store, o.block, data, io.disk, u);
    BetterIsWhole(c, s.store, stored.store, u);
    NothingMissing(c, s, h, r, data, io, m, u);
    ManifestIsValid(s, h, o.id);
    var t := Taken(s, r).(store := stored.store);
    CommitDelivers(c, t, chunks, WithBlock(s.downloads[o.id]), io, u);
    BlockArrivesShape(c, Taken(s, r), o, data, io);
  }

  lemma DescribedIs(c: Config, chunks: seq<Bytes>, u: set<Bytes>)
    requires CollisionFree(c, u) && Has(chunks, u)
    ensures Describe(c, chunks).blocks == RefsOf(c, chunks) && Consistent(RefsOf(c, chunks))
  {
    DescribedIsConsistent(c, chunks, u);
  }

  lemma ManifestIsValid(s: Node, h: map<ContentId, Trace>, id: ContentId)
    requires Inv(s, h, {}) && id in s.downloads && s.downloads[id].manifest.Some?
    ensures ValidManifest(s.downloads[id].manifest.value) && s.downloads[id].manifest.value.id == id
  {
    assert SliceOk(s, h, id, {});
    hide Flows, ValidManifest, Partition, BlocksSent, OneRequestEach;
  }

  /** A described file whose blocks are all there when its manifest comes is published at once, under the same
      conditions. */
  lemma ResumeDelivers(c: Config, store: Store, events: seq<Event>, r: RequestId, io: Faults, order: Order,
      chunks: seq<Bytes>, u: set<Bytes>)
    requires AdmissibleRun(c, Idle(store), events) && CollisionFree(c, u) && Whole(c, store, u)
    requires forall i | 0 <= i < |events| :: PossibleEvent(events[i], u)
    requires Has(chunks, u) && Concat(chunks) in u && ValidManifest(Describe(c, chunks))
    requires var s := Run(c, Idle(store), events);
      && r in s.outbound && s.outbound[r].ManifestOf? && s.outbound[r].id == Describe(c, chunks).id
      && MissingOf(c, s.store, RefsOf(c, chunks)) == []
      && forall k | k in s.store.manifests && Verify(c, s.store, k).Ok? :: Content(c, s.store, k) in u
    ensures var s := Run(c, Idle(store), events);
      var t := Step(c, s, Responds(r, ManifestReply(Describe(c, chunks)), io, order));
      && s.endings <= t.endings && |t.endings| == |s.endings| + 1
      && Delivered(c, s.store, t.store, Describe(c, chunks), io.commits, Last(t.endings), Concat(chunks))
  {
    hide Inv, Whole, Kept, ManifestArrives, Finish, Describe, Delivered, AdmissibleRun, Run, Traces, Good, Verify,
        MissingOf;
    hide ValidManifest, Sound, About, Others, Numbered;
    var s, h := Run(c, Idle(store), events), Traces(c, store, events);
    var m, o := Describe(c, chunks), s.outbound[r];
    DescribedIs(c, chunks, u);
    RunIsWhole(c, store, events, o.id, m, u);
    ManifestRequestIs(s, h, r, {});
    MissingIs(c, s.store, RefsOf(c, chunks));
    var d := WithManifest(s.downloads[o.id], m, []);
    CommitDelivers(c, Taken(s, r), chunks, d, io, u);
    ManifestArrivesShape(c, Taken(s, r), o, m, io);
  }

  /** No download of an admissible run ends for want of its manifest. */
  lemma {:induction false} ManifestAlwaysReceived(c: Config, store: Store, events: seq<Event>)
    requires AdmissibleRun(c, Idle(store), events)
    ensures forall e | e in Run(c, Idle(store), events).endings :: !e.ManifestNotReceived?
  {
    hide Inv, Admissible, Step, NextTraces, Traces;
    if events != [] {
      ManifestAlwaysReceived(c, store, Init(events));
      RunKeeps(c, store, Init(events));
      StepReceives(c, Run(c, Idle(store), Init(events)), Traces(c, store, Init(events)), Last(events));
    }
  }

  ghost predicate Received(s: Node, u: Node) {
    s.endings <= u.endings && forall i | |s.endings| <= i < |u.endings| :: !u.endings[i].ManifestNotReceived?
  }

  lemma FinishReceives(c: Config, s: Node, id: ContentId, d: Download, io: Faults)
    requires d.manifest.Some?
    ensures Received(s, Finish(c, s, id, d, io))
  {
    hide CommitManifest;
  }

  lemma StepReceives(c: Config, s: Node, h: map<ContentId, Trace>, event: Event)
    requires Inv(s, h, {})
    ensures Received(s, Step(c, s, event))
  {
    hide Inv, RequestFailed, ManifestArrives, BlockArrives, FailProvider, RequestManifest, After, Finish, RequestBlocks;
    hide Sound, About, Numbered, Others, StoreBlock, MissingOf, ValidManifest;
    match event
    case Fetch(id, peers) => RequestManifestCarries(Put(s, id, NewDownload(Distinct(peers))), id);
    case AskInventory(peer) =>
    case Responds(r, reply, io, order) =>
      if r in s.outbound {
        var o, t := s.outbound[r], Taken(s, r);
        if !Matches(o, reply) {
          RequestLostCarries(s, r, order);
        } else if o.ManifestOf? {
          ManifestRequestIs(s, h, r, {});
          ManifestArrivesShape(c, t, o, reply.manifest, io);
          RequestFailedCarries(t, o);
          var d := WithManifest(s.downloads[o.id], reply.manifest, MissingOf(c, s.store, reply.manifest.blocks));
          FinishReceives(c, t, o.id, d, io);
          RequestBlocksCarries(Put(t, o.id, d), o.id);
        } else if o.BlockOf? {
          BlockRequestIs(s, h, r, s.store);
          BlockArrivesShape(c, t, o, reply.data, io);
          if o.id in s.downloads {
            var v := t.(store := StoreBlock(c, s.store, o.block, reply.data, io.disk).store);
            var d := WithBlock(s.downloads[o.id]);
            FinishReceives(c, v, o.id, d, io);
            RequestBlocksCarries(Put(v, o.id, d), o.id);
          }
        }
      }
    case Fails(r, order) =>
      if r in s.outbound {
        RequestLostCarries(s, r, order);
      }
    case Disconnects(peer, order) => FailProviderCarries(s, peer, order);
    case StoreIsUsed(call) =>
  }
}

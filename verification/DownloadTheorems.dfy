/** What holds over whole runs of downloads. */
module DownloadTheorems {
  import opened Core
  import opened StorageModel
  import opened StorageTheorems
  import opened DownloadModel
  import opened DownloadProviders
  import opened DownloadInvariant
  import opened DownloadRuns

  ghost predicate AdmissibleRun(c: Config, s: Node, events: seq<Event>) {
    events == [] ||
    (AdmissibleRun(c, s, Init(events)) && Admissible(Run(c, s, Init(events)), Last(events)))
  }

  ghost function Traces(c: Config, store: Store, events: seq<Event>): map<ContentId, Trace> {
    if events == [] then map[]
    else NextTraces(c, Run(c, Idle(store), Init(events)), Traces(c, store, Init(events)), Last(events))
  }

  lemma IdleKeeps(store: Store)
    ensures Inv(Idle(store), map[], {})
  {
    forall k ensures SliceOk(Idle(store), map[], k, {}) {
      assert About(map[], k) == map[];
    }
  }

  /** The invariant holds after every admissible run of an idle node. */
  lemma {:induction false} RunKeeps(c: Config, store: Store, events: seq<Event>)
    requires AdmissibleRun(c, Idle(store), events)
    ensures Inv(Run(c, Idle(store), events), Traces(c, store, events), {})
  {
    hide Inv, Admissible, Step, NextTraces;
    if events == [] {
      IdleKeeps(store);
    } else {
      RunKeeps(c, store, Init(events));
      StepKeeps(c, Run(c, Idle(store), Init(events)), Traces(c, store, Init(events)), Last(events));
    }
  }

  // ---------- Conservation and progress ----------

  /** Whatever replies, failures and disconnections came in whatever order: of a live download whose manifest is
      known, the missing blocks are the disjoint union of the waiting, the outstanding and the stored ones, and the
      counters are the true counts. */
  lemma BlocksAreConserved(c: Config, store: Store, events: seq<Event>, id: ContentId)
    requires AdmissibleRun(c, Idle(store), events)
    requires id in Run(c, Idle(store), events).downloads && Run(c, Idle(store), events).downloads[id].manifest.Some?
    ensures id in Traces(c, store, events)
    ensures var s, trace := Run(c, Idle(store), events), Traces(c, store, events)[id];
      var d, mine := s.downloads[id], About(s.outbound, id);
      && Partition(d.pending, Owed(mine), trace.done, trace.missing)
      && OneRequestEach(mine)
      && d.inFlight == |mine| <= 4
      && d.completed == |trace.done| && d.totalMissing == |trace.missing|
  {
    hide Inv, Sound, Partition, OneRequestEach;
    LiveIs(c, store, events, id);
    var s, trace := Run(c, Idle(store), events), Traces(c, store, events)[id];
    IsFetching(id, s.downloads[id], About(s.outbound, id), trace, s.sent, {});
  }

  lemma LiveIs(c: Config, store: Store, events: seq<Event>, id: ContentId)
    requires AdmissibleRun(c, Idle(store), events) && id in Run(c, Idle(store), events).downloads
    ensures id in Traces(c, store, events)
    ensures var s, trace := Run(c, Idle(store), events), Traces(c, store, events)[id];
      && Sound(id, s.downloads[id], About(s.outbound, id), trace, s.sent, {}) && Flows(s.downloads[id])
  {
    RunKeeps(c, store, events);
    hide Sound, Flows, AdmissibleRun, Run, Traces, About;
    assert SliceOk(Run(c, Idle(store), events), Traces(c, store, events), id, {});
  }

  /** After every event each live download has an active provider, and either exactly one manifest request or at
      least one block request outstanding, as many as there may be while blocks wait; and no provider that failed
      owes it anything. */
  lemma NoDownloadStalls(c: Config, store: Store, events: seq<Event>, id: ContentId)
    requires AdmissibleRun(c, Idle(store), events) && id in Run(c, Idle(store), events).downloads
    ensures var s := Run(c, Idle(store), events);
      var d, mine := s.downloads[id], About(s.outbound, id);
      && (exists p :: p in d.providers && p !in d.failed)
      && (forall r | r in mine :: mine[r].peer in d.providers && mine[r].peer !in d.failed)
      && (d.manifest.None? ==> |mine| == 1 && forall r | r in mine :: mine[r].ManifestOf?)
      && (d.manifest.Some? ==>
            && 1 <= |mine| <= 4 && (forall r | r in mine :: mine[r].BlockOf?)
            && (|mine| == 4 || d.pending == []))
  {
    hide Inv, Sound, Partition, ProvidersOk, Budget, AdmissibleRun, Run, Traces, About;
    LiveIs(c, store, events, id);
    var s, trace := Run(c, Idle(store), events), Traces(c, store, events)[id];
    var d, mine := s.downloads[id], About(s.outbound, id);
    IsFetching(id, d, mine, trace, s.sent, {});
    AskedActive(id, d, mine, trace, s.sent);
    assert |mine| > 0;
    var r :| r in mine;
    assert mine[r].peer in d.providers && mine[r].peer !in d.failed;
  }

  lemma AskedActive(id: ContentId, d: Download, mine: map<RequestId, Outbound>, trace: Trace, sent: seq<Outbound>)
    requires Sound(id, d, mine, trace, sent, {})
    ensures forall r | r in mine :: mine[r].peer in d.providers && mine[r].peer !in d.failed
  {
    hide ProvidersOk, AwaitsManifest, FetchesBlocks, Budget;
  }

  /** Live or over, a download never makes more block requests than it has missing blocks and four for each of its
      providers. */
  lemma RequestsAreBounded(c: Config, store: Store, events: seq<Event>, id: ContentId)
    requires AdmissibleRun(c, Idle(store), events) && id in Traces(c, store, events)
    ensures var trace := Traces(c, store, events)[id];
      BlocksSent(Run(c, Idle(store), events).sent, id) - trace.begun
        <= |trace.missing| + 4 * |trace.providers|
  {
    RunKeeps(c, store, events);
    hide Sound, Flows, AdmissibleRun, Run, Traces, About, BlocksSent;
    var s, h := Run(c, Idle(store), events), Traces(c, store, events);
    assert SliceOk(s, h, id, {});
    if id in s.downloads {
      SpentOnce(s, id, s.downloads[id], About(s.outbound, id), h[id], {});
    }
  }

  /** The peer that an event gives up as a provider: it disconnected, a request to it failed, or it answered with an
      error or with something else than it was asked for. */
  function GivenUp(s: Node, event: Event): Option<PeerId> {
    match event
    case Responds(r, reply, _, _) =>
      if r in s.outbound && !Matches(s.outbound[r], reply) then Some(s.outbound[r].peer) else None
    case Fails(r, _) => if r in s.outbound then Some(s.outbound[r].peer) else None
    case Disconnects(peer, _) => Some(peer)
    case _ => None
  }

  /** The state in which `fail_artifact_provider` is called. */
  function GivingUp(s: Node, event: Event): Node
    requires GivenUp(s, event).Some?
  {
    if event.Disconnects? then s else RequestFailed(Taken(s, event.request), s.outbound[event.request])
  }

  /** An outstanding block request of a live download is counted as in flight, whoever is being given up. */
  lemma CountedInFlight(s: Node, h: map<ContentId, Trace>, dying: set<PeerId>, r: RequestId)
    requires Inv(s, h, dying)
    ensures r in s.outbound && s.outbound[r].BlockOf? && s.outbound[r].id in s.downloads ==>
      s.downloads[s.outbound[r].id].inFlight > 0
  {
    hide Inv, Sound, About;
    if r in s.outbound && s.outbound[r].BlockOf? && s.outbound[r].id in s.downloads {
      RequestIs(s, h, r, dying);
      var id := s.outbound[r].id;
      AskedIs(id, s.downloads[id], About(s.outbound, id), h[id], s.sent, dying, r);
    }
  }

  /** No subtraction of the handlers goes below zero: in every state between two events a block request that may be
      answered next is counted as in flight, and the missing blocks are no more than the distinct blocks of the
      manifest. */
  lemma NothingSaturates(c: Config, store: Store, events: seq<Event>, r: RequestId, m: Manifest)
    requires AdmissibleRun(c, Idle(store), events)
    ensures var s := Run(c, Idle(store), events);
      && (r in s.outbound && s.outbound[r].BlockOf? && s.outbound[r].id in s.downloads ==>
            s.downloads[s.outbound[r].id].inFlight > 0)
      && |MissingOf(c, s.store, m.blocks)| <= |Ids(m.blocks)|
  {
    hide Inv, MissingOf, AdmissibleRun, Run, Traces;
    RunKeeps(c, store, events);
    var s := Run(c, Idle(store), events);
    CountedInFlight(s, Traces(c, store, events), {}, r);
    MissingIs(c, s.store, m.blocks);
    FewIds(MissingOf(c, s.store, m.blocks), m.blocks);
  }

  /** The same inside one event: while the requests of a provider are given up one after the other, each block request
      that is still outstanding is counted as in flight. */
  lemma NothingSaturatesWithin(
      c: Config, store: Store, events: seq<Event>, event: Event, n: nat, r: RequestId)
    requires AdmissibleRun(c, Idle(store), events) && Admissible(Run(c, Idle(store), events), event)
    requires GivenUp(Run(c, Idle(store), events), event).Some? && n <= |event.order.requests|
    ensures var t := FailRequests(GivingUp(Run(c, Idle(store), events), event), event.order.requests[..n]);
      r in t.outbound && t.outbound[r].BlockOf? && t.outbound[r].id in t.downloads ==>
        t.downloads[t.outbound[r].id].inFlight > 0
  {
    hide Inv, AdmissibleRun, Run, Traces, RequestFailed, FailRequests;
    RunKeeps(c, store, events);
    var s, h := Run(c, Idle(store), events), Traces(c, store, events);
    var peer, u := GivenUp(s, event).value, GivingUp(s, event);
    if event.Disconnects? {
      DyingGrows(s, h, {}, {peer});
    } else {
      RequestFailedKeeps(s, h, event.request, {});
      assert {} + {peer} == {peer};
    }
    assert Visits(u, peer, event.order);
    FailRequestsKeeps(u, h, peer, event.order.requests[..n]);
    CountedInFlight(FailRequests(u, event.order.requests[..n]), h, {peer}, r);
  }

  lemma FewIds(some: seq<BlockRef>, all: seq<BlockRef>)
    requires DistinctIds(some) && forall b | b in some :: b in all
    ensures |some| <= |Ids(all)|
  {
    SizeOfIds(some);
    SubsetIsSmaller(Ids(some), Ids(all));
  }

  lemma {:induction false} SizeOfIds(refs: seq<BlockRef>)
    requires DistinctIds(refs)
    ensures |Ids(refs)| == |refs|
  {
    if refs != [] {
      SizeOfIds(Init(refs));
      IdsOf(refs);
      assert Last(refs).id !in Ids(Init(refs));
    }
  }

  // ---------- Every download ends ----------

  function Unknown(d: Download): nat {
    if d.manifest.None? then 1 else 0
  }

  function Left(d: Download): nat {
    |d.pending| + d.inFlight
  }

  /** Active providers, the manifest that is to come and the blocks left, less the blocks that were missing when the
      manifest came: what the arrival of the manifest adds does not count. */
  function Spare(d: Download): int {
    ActiveCount(d) + Unknown(d) + Left(d) - d.totalMissing
  }

  /** Fewer active providers; or as many, and the manifest is known now; or as many and known before, and fewer
      blocks are left. */
  predicate Lower(e: Download, d: Download) {
    || ActiveCount(e) < ActiveCount(d)
    || (ActiveCount(e) == ActiveCount(d) && Unknown(e) < Unknown(d))
    || (ActiveCount(e) == ActiveCount(d) && Unknown(e) == Unknown(d) && Left(e) < Left(d))
  }

  predicate Less(e: Download, d: Download) {
    Lower(e, d) && Spare(e) < Spare(d)
  }

  predicate NoMore(e: Download, d: Download) {
    && (Lower(e, d) || (ActiveCount(e) == ActiveCount(d) && Unknown(e) == Unknown(d) && Left(e) == Left(d)))
    && Spare(e) <= Spare(d)
  }

  /** Every download that is live afterwards was live before, and has no more to do. */
  ghost predicate Advances(s: Node, u: Node) {
    forall k | k in u.downloads :: k in s.downloads && NoMore(u.downloads[k], s.downloads[k])
  }

  lemma AdvancesInTurn(s: Node, t: Node, u: Node)
    requires Advances(s, t) && Advances(t, u)
    ensures Advances(s, u)
  {
    hide ActiveCount, Left, Unknown;
  }

  /** Asking for blocks leaves the measure of every download as it was. */
  lemma RequestedAdvances(p: Node, u: Node, id: ContentId)
    requires Requested(p, u, id)
    ensures Advances(p, u)
    ensures ActiveCount(u.downloads[id]) == ActiveCount(p.downloads[id])
    ensures Unknown(u.downloads[id]) == Unknown(p.downloads[id]) && Left(u.downloads[id]) == Left(p.downloads[id])
  {
    hide About, BlocksSent, ActiveOf;
    forall k | k in u.downloads && k != id ensures k in p.downloads && u.downloads[k] == p.downloads[k] {
      assert k in u.downloads - {id};
    }
  }

  /** A request that fails leaves its download with no more to do; and with less, if its provider was active. */
  ghost predicate LessFor(t: Node, u: Node, o: Outbound) {
    && Advances(t, u)
    && (!o.InventoryOf? && o.id in u.downloads && o.id in t.downloads && o.peer !in t.downloads[o.id].failed ==>
          Less(u.downloads[o.id], t.downloads[o.id]))
  }

  lemma ManifestFailedAdvances(t: Node, h: map<ContentId, Trace>, r: RequestId, dying: set<PeerId>)
    requires Inv(t, h, dying) && r in t.outbound && t.outbound[r].ManifestOf?
    ensures LessFor(t, RequestFailed(Taken(t, r), t.outbound[r]), t.outbound[r])
  {
    hide Inv, Sound, About, Numbered, Others, RequestFailed, ActiveOf, NextActive;
    var o, s := t.outbound[r], Taken(t, r);
    ManifestRequestIs(t, h, r, dying);
    ReaskShape(s, o);
    var d := t.downloads[o.id];
    AskedIs(o.id, d, About(t.outbound, o.id), h[o.id], t.sent, dying, r);
    var e := d.(failed := d.failed + {o.peer});
    Failing(d, o.peer);
    ManifestCursor(e);
  }

  lemma ManifestCursor(e: Download)
    requires e.next < |e.providers|
    ensures NextActive(e).1 == e.(next := NextActive(e).1.next)
  {
    NextActiveIs(e);
  }

  lemma BlockFailedAdvances(t: Node, h: map<ContentId, Trace>, r: RequestId, dying: set<PeerId>)
    requires Inv(t, h, dying) && r in t.outbound && t.outbound[r].BlockOf?
    ensures LessFor(t, RequestFailed(Taken(t, r), t.outbound[r]), t.outbound[r])
  {
    hide Inv, Sound, About, Numbered, Others, RequestBlocks, ActiveCount, Left, Unknown, Spent, GoneOk;
    var o, s := t.outbound[r], Taken(t, r);
    RequestIs(t, h, r, dying);
    if o.id in t.downloads {
      var d := t.downloads[o.id];
      var e := Requeued(d, o.peer, o.block);
      AskedIs(o.id, d, About(t.outbound, o.id), h[o.id], t.sent, dying, r);
      RequeuedAdvances(d, o.peer, o.block);
      if ActiveCount(e) > 0 {
        RequeuedPut(t, h, r, dying);
        InvNumbered(t, h, dying);
        TakenIs(t, r, o.id);
        PutIs(s, o.id, e);
        var p := Put(s, o.id, e);
        BlocksRequested(p, o.id, h[o.id], dying + {o.peer});
        RequestedAdvances(p, RequestBlocks(p, o.id), o.id);
        RequestedKeys(p, RequestBlocks(p, o.id), o.id);
        hide Requested;
        assert LessFor(t, p, o);
        LessForInTurn(t, p, RequestBlocks(p, o.id), o);
      }
    }
  }

  lemma LessForInTurn(t: Node, p: Node, u: Node, o: Outbound)
    requires LessFor(t, p, o) && Advances(p, u)
    ensures LessFor(t, u, o)
  {
    AdvancesInTurn(t, p, u);
    hide ActiveCount, Left, Unknown;
  }

  lemma RequestFailedAdvances(t: Node, h: map<ContentId, Trace>, r: RequestId, dying: set<PeerId>)
    requires Inv(t, h, dying) && r in t.outbound
    ensures LessFor(t, RequestFailed(Taken(t, r), t.outbound[r]), t.outbound[r])
  {
    hide Inv, RequestManifest, RequestBlocks, ActiveCount;
    match t.outbound[r]
    case InventoryOf(_) => Stays(t);
    case ManifestOf(_, _) => ManifestFailedAdvances(t, h, r, dying);
    case BlockOf(_, _, _) => BlockFailedAdvances(t, h, r, dying);
  }

  lemma AskedIs(id: ContentId, d: Download, mine: map<RequestId, Outbound>, trace: Trace, sent: seq<Outbound>,
      dying: set<PeerId>, r: RequestId)
    requires Sound(id, d, mine, trace, sent, dying) && r in mine
    ensures mine[r].peer in d.providers && NoDuplicates(d.providers) && d.next < |d.providers|
    ensures mine[r].BlockOf? ==> d.inFlight > 0
    ensures mine[r].peer !in dying ==> mine[r].peer !in d.failed
  {
    hide Partition, BlocksSent, ActiveOf, Budget;
  }

  lemma RequeuedAdvances(d: Download, peer: PeerId, block: BlockRef)
    requires peer in d.providers && NoDuplicates(d.providers) && d.inFlight > 0
    ensures NoMore(Requeued(d, peer, block), d)
    ensures peer !in d.failed ==> Less(Requeued(d, peer, block), d)
  {
    Failing(d, peer);
    assert ActiveCount(Requeued(d, peer, block)) == ActiveCount(d.(failed := d.failed + {peer}));
    hide ActiveCount;
  }

  lemma {:induction false} FailRequestsAdvances(s: Node, h: map<ContentId, Trace>, peer: PeerId,
      requests: seq<RequestId>)
    requires Inv(s, h, {peer})
    requires forall r | r in requests :: r in s.outbound && s.outbound[r].peer == peer
    ensures Advances(s, FailRequests(s, requests))
  {
    hide Inv, RequestFailed, Advances;
    if requests == [] {
      assert Advances(s, s) by {
        hide *;
        Stays(s);
      }
    } else {
      var before, r := Init(requests), Last(requests);
      assert requests == before + [r];
      FailRequestsAdvances(s, h, peer, before);
      FailRequestsKeeps(s, h, peer, before);
      var t := FailRequests(s, before);
      if r in t.outbound {
        RequestFailedAdvances(t, h, r, {peer});
        LessForGives(t, FailRequests(s, requests), t.outbound[r]);
        AdvancesInTurn(s, t, FailRequests(s, requests));
      }
    }
  }

  lemma LessForGives(t: Node, u: Node, o: Outbound)
    requires LessFor(t, u, o)
    ensures Advances(t, u)
  {
  }

  lemma Stays(s: Node)
    ensures Advances(s, s)
  {
    hide ActiveCount;
  }

  lemma FailDownloadAdvances(s: Node, h: map<ContentId, Trace>, peer: PeerId, id: ContentId)
    requires Inv(s, h, {peer}) && Spared(s, peer)
    ensures Advances(s, FailDownload(s, peer, id))
  {
    hide Sound, BlocksSent, Inv, ActiveOf, Others, About, Numbered, Requested, Flows;
    if id in s.downloads && peer in s.downloads[id].providers {
      FailedPut(s, h, peer, id);
      var d, u := s.downloads[id], FailDownload(s, peer, id);
      var e := d.(failed := d.failed + {peer});
      var p := Put(s, id, e);
      Failing(d, peer);
      assert NoMore(e, d) && Advances(s, p);
      if d.manifest.Some? {
        BlocksRequested(p, id, h[id], {peer});
        RequestedAdvances(p, u, id);
        AdvancesInTurn(s, p, u);
      }
    } else {
      Stays(s);
    }
  }

  lemma {:induction false} FailDownloadsAdvances(s: Node, h: map<ContentId, Trace>, peer: PeerId, ids: seq<ContentId>)
    requires Inv(s, h, {peer}) && Spared(s, peer)
    ensures Advances(s, FailDownloads(s, peer, ids))
  {
    hide Inv, Spared, FailDownload, Advances;
    if ids == [] {
      Stays(s);
    } else {
      FailDownloadsAdvances(s, h, peer, Init(ids));
      FailDownloadsKeeps(s, h, peer, Init(ids));
      var t := FailDownloads(s, peer, Init(ids));
      FailDownloadAdvances(t, h, peer, Last(ids));
      AdvancesInTurn(s, t, FailDownloads(s, peer, ids));
    }
  }

  lemma FailProviderAdvances(s: Node, h: map<ContentId, Trace>, peer: PeerId, order: Order)
    requires Inv(s, h, {peer}) && Visits(s, peer, order)
    ensures Advances(s, FailProvider(s, peer, order))
  {
    hide Inv, Advances;
    FailRequestsKeeps(s, h, peer, order.requests);
    FailRequestsAdvances(s, h, peer, order.requests);
    var t := FailRequests(s, order.requests);
    assert Spared(t, peer);
    FailDownloadsAdvances(t, h, peer, order.ids);
    AdvancesInTurn(s, t, FailProvider(s, peer, order));
  }

  /** The event answers a request of the download. */
  predicate Answers(s: Node, event: Event, id: ContentId) {
    && (event.Responds? || event.Fails?)
    && event.request in s.outbound
    && Concerns(s.outbound[event.request], id)
  }

  /** What an answered request leaves of its download. */
  ghost predicate LessLeft(s: Node, u: Node, r: RequestId) {
    && Advances(s, u)
    && (r in s.outbound && !s.outbound[r].InventoryOf? && s.outbound[r].id in u.downloads ==>
          s.outbound[r].id in s.downloads && Less(u.downloads[s.outbound[r].id], s.downloads[s.outbound[r].id]))
  }

  lemma LessInTurn(s: Node, t: Node, u: Node, r: RequestId)
    requires LessLeft(s, t, r) && Advances(t, u)
    ensures LessLeft(s, u, r)
  {
    AdvancesInTurn(s, t, u);
    hide ActiveCount, Left, Unknown;
  }

  lemma RequestLostAdvances(s: Node, h: map<ContentId, Trace>, r: RequestId, order: Order)
    requires Inv(s, h, {}) && r in s.outbound
    requires Visits(RequestFailed(Taken(s, r), s.outbound[r]), s.outbound[r].peer, order)
    ensures LessLeft(s, FailProvider(RequestFailed(Taken(s, r), s.outbound[r]), s.outbound[r].peer, order), r)
  {
    hide Inv, RequestFailed, FailProvider, Visits, Advances, Less, Sound, About;
    var o, t := s.outbound[r], RequestFailed(Taken(s, r), s.outbound[r]);
    RequestFailedKeeps(s, h, r, {});
    assert {} + {o.peer} == {o.peer};
    RequestFailedAdvances(s, h, r, {});
    FailProviderAdvances(t, h, o.peer, order);
    if !o.InventoryOf? && o.id in s.downloads {
      RequestIs(s, h, r, {});
      AskedIs(o.id, s.downloads[o.id], About(s.outbound, o.id), h[o.id], s.sent, {}, r);
    }
    assert LessLeft(s, t, r) by {
      SurvivorsWereLive(s, t);
    }
    LessInTurn(s, t, FailProvider(t, o.peer, order), r);
  }

  lemma SurvivorsWereLive(s: Node, u: Node)
    requires Advances(s, u)
    ensures u.downloads.Keys <= s.downloads.Keys
  {
    hide NoMore;
  }

  lemma ManifestArrivesAdvances(c: Config, t: Node, h: map<ContentId, Trace>, r: RequestId, m: Manifest, io: Faults)
    requires Inv(t, h, {}) && r in t.outbound && t.outbound[r].ManifestOf? && m.id == t.outbound[r].id
    ensures LessLeft(t, ManifestArrives(c, Taken(t, r), t.outbound[r], m, io), r)
  {
    hide Inv, ValidManifest, RequestFailed, Sound, About, Others, Numbered, ManifestArrives, Finish, RequestBlocks;
    hide MissingOf, Requested, ActiveOf;
    var o, s := t.outbound[r], Taken(t, r);
    var id := o.id;
    ManifestRequestIs(t, h, r, {});
    ManifestArrivesShape(c, s, o, m, io);
    var missing := MissingOf(c, t.store, m.blocks);
    if !ValidManifest(m) {
      RequestFailedAdvances(t, h, r, {});
      AskedIs(id, t.downloads[id], About(t.outbound, id), h[id], t.sent, {}, r);
      hide Less, NoMore;
    } else if missing == [] {
      FinishIs(c, s, id, WithManifest(t.downloads[id], m, missing), io);
    } else {
      MissingRequested(c, t, h, r, m);
      IsFetching(id, t.downloads[id], About(t.outbound, id), h[id], t.sent, {});
      var p := Put(s, id, WithManifest(t.downloads[id], m, missing));
      RequestedAdvances(p, RequestBlocks(p, id), id);
      assert LessLeft(t, p, r);
      LessInTurn(t, p, RequestBlocks(p, id), r);
    }
  }

  lemma BlockArrivesAdvances(c: Config, t: Node, h: map<ContentId, Trace>, r: RequestId, data: Bytes, io: Faults)
    requires Inv(t, h, {}) && r in t.outbound && t.outbound[r].BlockOf?
    ensures LessLeft(t, BlockArrives(c, Taken(t, r), t.outbound[r], data, io), r)
  {
    hide Inv, Sound, About, Others, Numbered, StoreBlock, Finish, RequestBlocks, BlockArrives, Spent, SliceOk, Finished;
    hide Requested, ActiveOf;
    var o := t.outbound[r];
    var id, stored := o.id, StoreBlock(c, t.store, o.block, data, io.disk);
    var s := Taken(t, r).(store := stored.store);
    BlockRequestIs(t, h, r, stored.store);
    BlockArrivesShape(c, Taken(t, r), o, data, io);
    if id in t.downloads {
      var e := WithBlock(t.downloads[id]);
      AskedIs(id, t.downloads[id], About(t.outbound, id), h[id], t.sent, {}, r);
      FinishIs(c, s, id, e, io);
      if stored.result.Ok? && !Finished(e) {
        StoredRequested(t, h, r, stored.store);
        var p := Put(s, id, e);
        RequestedAdvances(p, RequestBlocks(p, id), id);
        assert LessLeft(t, p, r);
        LessInTurn(t, p, RequestBlocks(p, id), r);
      }
    }
  }

  /** One event: it gives no live download more to do; and when it answers a request of a download, that one has
      less to do afterwards, or has ended. */
  lemma StepAdvances(c: Config, s: Node, h: map<ContentId, Trace>, event: Event, id: ContentId)
    requires Inv(s, h, {}) && Admissible(s, event) && id in s.downloads && id in Step(c, s, event).downloads
    ensures NoMore(Step(c, s, event).downloads[id], s.downloads[id])
    ensures Answers(s, event, id) ==> Less(Step(c, s, event).downloads[id], s.downloads[id])
  {
    hide Inv, RequestFailed, ManifestArrives, BlockArrives, FailProvider, Visits, Begin, ActiveOf, After;
    match event
    case Fetch(other, peers) =>
      if CanBegin(s, other, peers) {
        InvNumbered(s, h, {});
        BeginIs(s, other, peers);
        BegunAlone(s, Begin(s, other, peers), other, id);
      }
    case AskInventory(peer) =>
    case Responds(r, reply, io, order) =>
      if r in s.outbound {
        if !Matches(s.outbound[r], reply) {
          RequestLostAdvances(s, h, r, order);
        } else {
          match s.outbound[r]
          case InventoryOf(_) =>
          case ManifestOf(_, _) => ManifestArrivesAdvances(c, s, h, r, reply.manifest, io);
          case BlockOf(_, _, _) => BlockArrivesAdvances(c, s, h, r, reply.data, io);
        }
      }
    case Fails(r, order) =>
      if r in s.outbound {
        RequestLostAdvances(s, h, r, order);
      }
    case Disconnects(peer, order) =>
      DyingGrows(s, h, {}, {peer});
      FailProviderAdvances(s, h, peer, order);
    case StoreIsUsed(call) =>
  }

  lemma BegunAlone(s: Node, u: Node, other: ContentId, id: ContentId)
    requires Others(s, u, other) && other !in s.downloads && id in s.downloads
    ensures id in u.downloads && u.downloads[id] == s.downloads[id]
  {
    hide About, BlocksSent;
    assert id in s.downloads - {other};
  }

  /** How many answers to requests of a download arrive in a run. */
  ghost function Answered(c: Config, s: Node, events: seq<Event>, id: ContentId): nat {
    if events == [] then 0 else
    Answered(c, s, Init(events), id) + if Answers(Run(c, s, Init(events)), Last(events), id) then 1 else 0
  }

  /** The download is live all the time. */
  ghost predicate Survives(c: Config, s: Node, events: seq<Event>, id: ContentId) {
    && (events != [] ==> Survives(c, s, Init(events), id))
    && id in Run(c, s, events).downloads
  }

  lemma {:induction false} AnswersLowerSpare(
      c: Config, s: Node, h: map<ContentId, Trace>, events: seq<Event>, id: ContentId)
      returns (g: map<ContentId, Trace>)
    requires Inv(s, h, {}) && AdmissibleRun(c, s, events) && Survives(c, s, events, id)
    ensures Inv(Run(c, s, events), g, {}) && id in s.downloads
    ensures Spare(Run(c, s, events).downloads[id]) + Answered(c, s, events, id) <= Spare(s.downloads[id])
  {
    hide Inv, Admissible, Step, NextTraces, Answers, Spare, Lower;
    if events == [] {
      g := h;
    } else {
      var before, last := Init(events), Last(events);
      var t := Run(c, s, before);
      var k := AnswersLowerSpare(c, s, h, before, id);
      StepKeeps(c, t, k, last);
      StepAdvances(c, t, k, last, id);
      g := NextTraces(c, t, k, last);
    }
  }

  /** A live download has an active provider, and something to wait for. */
  lemma SpareIsLeft(s: Node, h: map<ContentId, Trace>, id: ContentId)
    requires Inv(s, h, {}) && id in s.downloads
    ensures Spare(s.downloads[id]) >= 2 - s.downloads[id].totalMissing
  {
    assert SliceOk(s, h, id, {});
    NextIsSmall(s.downloads[id], h[id]);
    hide Sound, ActiveOf;
  }

  /** Every download ends: from any state that can be reached, while it stays live it gets fewer answers than it has
      active providers and blocks left, counting the manifest if it is still to come and then its missing blocks. With
      `NoDownloadStalls`, an answer is always due. */
  lemma DownloadsEnd(c: Config, store: Store, early: seq<Event>, later: seq<Event>, id: ContentId)
    requires AdmissibleRun(c, Idle(store), early) && AdmissibleRun(c, Run(c, Idle(store), early), later)
    requires Survives(c, Run(c, Idle(store), early), later, id)
    ensures var s := Run(c, Idle(store), early);
      && id in s.downloads && id in Run(c, s, later).downloads
      && (var d, e := s.downloads[id], Run(c, s, later).downloads[id];
          Answered(c, s, later, id) + 2
            <= ActiveCount(d) + Unknown(d) + Left(d) + (e.totalMissing - d.totalMissing))
  {
    hide Inv, AdmissibleRun, Run, Answered, ActiveOf;
    RunKeeps(c, store, early);
    var s := Run(c, Idle(store), early);
    var g := AnswersLowerSpare(c, s, Traces(c, store, early), later, id);
    SpareIsLeft(Run(c, s, later), g, id);
  }
}

/** When a download begins, what a manifest makes of it, and what giving up a provider leaves. */
module DownloadOutcomes {
  import opened Core
  import opened StorageModel
  import opened StorageTheorems
  import opened DownloadModel
  import opened DownloadProviders
  import opened DownloadInvariant
  import opened DownloadRuns
  import opened DownloadTheorems
  import opened DownloadToStore
  import opened DownloadFailover

  /** The request for the manifest of a new download, to the first of its providers. */
  ghost predicate Begun(s: Node, u: Node, id: ContentId, peers: seq<PeerId>)
    requires peers != []
  {
    && id in u.downloads && u.downloads - {id} == s.downloads - {id}
    && (var d := u.downloads[id];
        && NoDuplicates(d.providers) && (forall p :: p in d.providers <==> p in peers)
        && d == NewDownload(d.providers).(next := d.next))
    && u.sent == s.sent + [ManifestOf(peers[0], id)]
    && u.outbound == s.outbound[|s.sent| := ManifestOf(peers[0], id)]
    && u.store == s.store && u.endings == s.endings
  }

  /** A fetch command begins a download exactly when none of this content is active and it names one to eight providers;
      then each of them is a provider once, and the first is asked for the manifest. Otherwise nothing happens. */
  lemma WhenADownloadBegins(c: Config, s: Node, id: ContentId, peers: seq<PeerId>)
    ensures var u := Step(c, s, Fetch(id, peers));
      && (u != s <==> id !in s.downloads && 1 <= |peers| <= 8)
      && (u != s ==> Begun(s, u, id, peers))
  {
    hide RequestManifest, Distinct, NextActive;
    if CanBegin(s, id, peers) {
      var next := FirstAsked(s, id, peers);
      DistinctIs(peers);
      FirstOfDistinct(peers);
      assert id in Begin(s, id, peers).downloads;
    }
  }

  lemma {:induction false} FirstOfDistinct(peers: seq<PeerId>)
    requires peers != []
    ensures Distinct(peers) != [] && Distinct(peers)[0] == peers[0]
  {
    if |peers| > 1 {
      FirstOfDistinct(Init(peers));
    } else {
      assert Init(peers) == [] && Distinct(Init(peers)) == [];
    }
  }

  // ---------- A manifest that was asked for ----------

  /** The manifest is known, and all blocks that the store misses wait or are asked for. */
  ghost predicate Fetching(c: Config, s: Node, u: Node, m: Manifest) {
    && u.endings == s.endings && m.id in s.downloads && m.id in u.downloads
    && (var d, e, missing := s.downloads[m.id], u.downloads[m.id], MissingOf(c, s.store, m.blocks);
        && e.manifest == Some(m) && e.providers == d.providers && e.failed == d.failed && e.completed == d.completed
        && |e.pending| + e.inFlight == e.totalMissing == |missing|)
  }

  /** A manifest that was asked for: if it is valid, its download goes on with the missing blocks, or has reached its
      commit, exactly when some block is missing or none; if it is not, the download goes on without it exactly when
      another provider is active. */
  lemma WhenAManifestIsTaken(
      c: Config, s: Node, h: map<ContentId, Trace>, r: RequestId, m: Manifest, io: Faults, order: Order)
    requires Inv(s, h, {}) && r in s.outbound && s.outbound[r].ManifestOf? && m.id == s.outbound[r].id
    ensures m.id in s.downloads && s.downloads[m.id].manifest.None?
    ensures var u, missing := Step(c, s, Responds(r, ManifestReply(m), io, order)), MissingOf(c, s.store, m.blocks);
      && (Fetching(c, s, u, m) <==> ValidManifest(m) && missing != [])
      && (JustCommitted(s, u, m.id) && m.id !in u.downloads <==> ValidManifest(m) && missing == [])
      && (!ValidManifest(m) ==>
            && (m.id in u.downloads <==> Healthy(s.downloads[m.id], s.outbound[r].peer))
            && (m.id in u.downloads ==>
                  u.downloads[m.id].manifest.None? && s.outbound[r].peer in u.downloads[m.id].failed))
  {
    hide Inv, ValidManifest, Sound, About, Others, Numbered, ManifestArrives, Finish, RequestBlocks, RequestFailed;
    hide MissingOf, Requested, Healthy, HandleResponse;
    var o, t := s.outbound[r], Taken(s, r);
    ManifestRequestIs(s, h, r, {});
    RepliedManifest(c, t, o, m, io, order);
    ManifestArrivesShape(c, t, o, m, io);
    if !ValidManifest(m) {
      InvalidManifest(s, h, r);
    } else if MissingOf(c, s.store, m.blocks) == [] {
      FinishEnding(c, t, m.id, WithManifest(s.downloads[m.id], m, []), io);
      FinishDropsIt(c, t, m.id, WithManifest(s.downloads[m.id], m, []), io);
    } else {
      MissingRequested(c, s, h, r, m);
      NothingInFlight(m.id, s.downloads[m.id], About(s.outbound, m.id), h[m.id], s.sent);
      NowFetching(c, s, r, m);
    }
  }

  lemma NothingInFlight(id: ContentId, d: Download, mine: map<RequestId, Outbound>, trace: Trace, sent: seq<Outbound>)
    requires Sound(id, d, mine, trace, sent, {}) && d.manifest.None?
    ensures d.inFlight == 0
  {
    hide ProvidersOk, AskedOk, FetchesBlocks, Budget;
    IsFetching(id, d, mine, trace, sent, {});
  }

  lemma RepliedManifest(c: Config, t: Node, o: Outbound, m: Manifest, io: Faults, order: Order)
    requires o.ManifestOf? && m.id == o.id
    ensures HandleResponse(c, t, o, ManifestReply(m), io, order) == ManifestArrives(c, t, o, m, io)
  {
    hide ManifestArrives;
  }

  lemma FinishDropsIt(c: Config, s: Node, id: ContentId, d: Download, io: Faults)
    ensures id !in Finish(c, s, id, d, io).downloads
  {
    hide CommitManifest;
  }

  lemma NowFetching(c: Config, s: Node, r: RequestId, m: Manifest)
    requires m.id in s.downloads && s.downloads[m.id].inFlight == 0
    requires var p := Put(Taken(s, r), m.id, WithManifest(s.downloads[m.id], m, MissingOf(c, s.store, m.blocks)));
      Requested(p, RequestBlocks(p, m.id), m.id)
    ensures var p := Put(Taken(s, r), m.id, WithManifest(s.downloads[m.id], m, MissingOf(c, s.store, m.blocks)));
      Fetching(c, s, RequestBlocks(p, m.id), m)
  {
    hide RequestBlocks, MissingOf, Others;
  }

  lemma InvalidManifest(s: Node, h: map<ContentId, Trace>, r: RequestId)
    requires Inv(s, h, {}) && r in s.outbound && s.outbound[r].ManifestOf? && s.outbound[r].id in s.downloads
    requires s.downloads[s.outbound[r].id].manifest.None?
    ensures var u, o := RequestFailed(Taken(s, r), s.outbound[r]), s.outbound[r];
      && (o.id in u.downloads <==> Healthy(s.downloads[o.id], o.peer))
      && (o.id in u.downloads ==> u.downloads[o.id].manifest.None? && o.peer in u.downloads[o.id].failed)
      && (|u.endings| == |s.endings| || Last(u.endings).NoProviderLeft?)
  {
    hide Inv, Healthy, RequestFailed;
    var u, o := RequestFailed(Taken(s, r), s.outbound[r]), s.outbound[r];
    ManifestFailed(s, h, r, {});
    TakenCarries(s, r);
    RequestFailedCarries(Taken(s, r), o);
    CarriesInTurn(s, Taken(s, r), u);
    if o.id in u.downloads {
      FailedIsMarked(Taken(s, r), o);
    }
    if Healthy(s.downloads[o.id], o.peer) {
      RequestFailedSpares(s, h, r, {}, o.id);
      HealthyIsLive(u, o.id, o.peer);
    }
    if o.id in u.downloads {
      LiveIsActive(u, h, o.id);
      ActiveMeansHealthy(s.downloads[o.id], u.downloads[o.id], o.peer);
    }
  }

  lemma ActiveMeansHealthy(d: Download, e: Download, peer: PeerId)
    requires exists p :: p in e.providers && p !in e.failed
    requires e.providers == d.providers && d.failed <= e.failed && peer in e.failed
    ensures Healthy(d, peer)
  {
  }

  lemma FailedIsMarked(s: Node, o: Outbound)
    requires !o.InventoryOf? && o.id in s.downloads && o.id in RequestFailed(s, o).downloads
    ensures o.peer in RequestFailed(s, o).downloads[o.id].failed
  {
    hide RequestManifest, RequestBlocks, ActiveCount;
    if o.ManifestOf? {
      RequestManifestCarries(Put(s, o.id, s.downloads[o.id].(failed := s.downloads[o.id].failed + {o.peer})), o.id);
    } else {
      RequestBlocksCarries(Put(s, o.id, Requeued(s.downloads[o.id], o.peer, o.block)), o.id);
    }
  }

  // ---------- A provider that is given up ----------

  /** A provider that is given up counts as failed for every download that lists it and lives on, and nothing is
      outstanding there. */
  lemma GivenUpIsFailed(c: Config, s: Node, h: map<ContentId, Trace>, event: Event, id: ContentId)
    requires Inv(s, h, {}) && Admissible(s, event) && GivenUp(s, event).Some?
    ensures var u, peer := Step(c, s, event), GivenUp(s, event).value;
      && Spared(u, peer)
      && (id in u.downloads && peer in u.downloads[id].providers ==> peer in u.downloads[id].failed)
  {
    hide Inv, RequestFailed, FailProvider, Visits, Spared;
    var peer, t := GivenUp(s, event).value, GivingUp(s, event);
    if event.Disconnects? {
      DyingGrows(s, h, {}, {peer});
    } else {
      RequestFailedKeeps(s, h, event.request, {});
      assert {} + {peer} == {peer};
    }
    FailProviderKeeps(t, h, peer, event.order);
    ProviderIsMarked(t, peer, event.order, id);
  }

  lemma ProviderIsMarked(s: Node, peer: PeerId, order: Order, id: ContentId)
    requires Visits(s, peer, order)
    ensures var u := FailProvider(s, peer, order);
      id in u.downloads && peer in u.downloads[id].providers ==> peer in u.downloads[id].failed
  {
    hide FailRequests, FailDownloads;
    FailProviderCarries(s, peer, order);
    if id in FailProvider(s, peer, order).downloads {
      FailDownloadsMark(FailRequests(s, order.requests), peer, order.ids, id);
    }
  }
}

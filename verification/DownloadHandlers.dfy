/** The download handlers with their mutable state, proved against the step functions of `DownloadModel`. */
module DownloadHandlers {
  import opened Core
  import opened StorageModel
  import opened StorageFiles
  import opened DownloadModel

  /** `ArtifactDownload`. */
  class ArtifactDownload {
    const providers: seq<PeerId>
    var failed: set<PeerId>
    var next: nat
    var manifest: Option<Manifest>
    var pending: seq<BlockRef>
    var inFlight: nat
    var completed: nat
    var reused: nat
    var totalMissing: nat

    ghost function View(): Download
      reads this
    {
      Download(providers, failed, next, manifest, pending, inFlight, completed, reused, totalMissing)
    }

    constructor (providers: seq<PeerId>)
      ensures View() == NewDownload(providers)
    {
      this.providers := providers;
      this.failed := {};
      this.next := 0;
      this.manifest := None;
      this.pending := [];
      this.inFlight := 0;
      this.completed := 0;
      this.reused := 0;
      this.totalMissing := 0;
    }

    /** `active_provider_count`. */
    method ActiveProviderCount() returns (count: nat)
      ensures count == ActiveCount(View())
    {
      count := 0;
      for i := 0 to |providers|
        invariant count + |ActiveOf(providers[i..], failed)| == ActiveCount(View())
      {
        assert providers[i..][0] == providers[i] && providers[i..][1..] == providers[i + 1..];
        if providers[i] !in failed {
          count := count + 1;
        }
      }
    }

    /** `next_active_provider`. */
    method NextActiveProvider() returns (peer: Option<PeerId>)
      modifies this`next
      ensures (peer, View()) == NextActive(old(View()))
    {
      for i := 0 to |providers|
        invariant providers != [] ==> Scan(View(), |providers| - i) == NextActive(old(View()))
        invariant providers == [] ==> View() == old(View())
      {
        var candidate := providers[next % |providers|];
        next := (next + 1) % |providers|;
        if candidate !in failed {
          return Some(candidate);
        }
      }
      return None;
    }

    /** Takes the first waiting block for the next active provider; without one the block stays. */
    method TakeBlock() returns (peer: Option<PeerId>, block: BlockRef)
      requires pending != []
      modifies this
      ensures var (found, moved) := NextActive(old(View()));
        && peer == found && block == old(pending[0])
        && View() == if peer.None? then moved
                     else moved.(pending := old(pending)[1..], inFlight := old(inFlight) + 1)
    {
      block := pending[0];
      peer := NextActiveProvider();
      CursorMoves(old(View()));
      if peer.Some? {
        pending := pending[1..];
        inFlight := inFlight + 1;
      }
    }

    /** The manifest is known, and these blocks are missing. */
    method AcceptManifest(m: Manifest, missing: seq<BlockRef>)
      modifies this
      ensures View() == WithManifest(old(View()), m, missing)
    {
      manifest := Some(m);
      totalMissing := |missing|;
      pending := missing;
      reused := SaturatingSub(|Ids(m.blocks)|, |missing|);
    }

    /** A block of a failed provider goes back to the queue. */
    method Requeue(peer: PeerId, block: BlockRef)
      modifies this
      ensures View() == Requeued(old(View()), peer, block)
    {
      inFlight := if inFlight == 0 then 0 else inFlight - 1;
      failed := failed + {peer};
      pending := pending + [block];
    }
  }

  class DownloadHandlers {
    const store: ArtifactStore
    var downloads: map<ContentId, ArtifactDownload>
    var outbound: map<RequestId, Outbound>
    var sent: seq<Outbound>
    var endings: seq<Ending>

    /** No two entries share a download. */
    ghost predicate Valid()
      reads this
    {
      forall i, j | i in downloads && j in downloads && i != j :: downloads[i] != downloads[j]
    }

    ghost function Objects(): set<ArtifactDownload>
      reads this
    {
      set id | id in downloads :: downloads[id]
    }

    ghost function State(): Node
      reads this, Objects(), store
    {
      Node(store.State(), map id | id in downloads :: downloads[id].View(), outbound, sent, endings)
    }

    lemma DownloadsAre()
      ensures State().downloads.Keys == downloads.Keys
    {
    }

    constructor (store: ArtifactStore)
      ensures Valid() && State() == Idle(store.State()) && this.store == store
    {
      this.store := store;
      downloads := map[];
      outbound := map[];
      sent := [];
      endings := [];
    }

    /** Nothing was added, and what is left are the same objects. */
    twostate predicate OnlyRemoved()
      reads this
    {
      forall k | k in downloads :: k in old(downloads) && downloads[k] == old(downloads[k])
    }

    /** Only one download changed. */
    twostate lemma OneDownloadChanged(id: ContentId)
      requires old(Valid()) && id in downloads && downloads == old(downloads)
      requires outbound == old(outbound) && sent == old(sent) && endings == old(endings)
      requires store.State() == old(store.State())
      requires forall k | k in downloads && downloads[k] != downloads[id] :: unchanged(downloads[k])
      ensures Valid()
      ensures State() == Put(old(State()), id, downloads[id].View())
    {
    }

    lemma LookedUp(id: ContentId)
      ensures id in State().downloads <==> id in downloads
      ensures id in downloads ==> State().downloads[id] == downloads[id].View()
    {
    }

    /** Takes a download out of the map and reports its end. */
    method Remove(id: ContentId, ending: Ending)
      requires Valid()
      modifies this
      ensures Valid() && OnlyRemoved()
      ensures State() == Drop(old(State()), id, ending)
    {
      downloads := downloads - {id};
      endings := endings + [ending];
    }

    method SendRequest(request: Outbound)
      requires Valid()
      modifies this
      ensures Valid() && OnlyRemoved() && downloads == old(downloads)
      ensures State() == Send(old(State()), request)
    {
      outbound := outbound[|sent| := request];
      sent := sent + [request];
    }

    /** `request_artifact_manifest`. */
    method RequestArtifactManifest(id: ContentId)
      requires Valid()
      modifies this, Objects()
      ensures Valid() && OnlyRemoved()
      ensures State() == RequestManifest(old(State()), id)
    {
      var peer := None;
      if id in downloads {
        peer := downloads[id].NextActiveProvider();
        OneDownloadChanged(id);
        PutThenDrop(old(State()), id, downloads[id].View());
      }
      hide State, Valid, Objects, NextActive;
      if peer.None? {
        Remove(id, NoProviderLeft(id));
        return;
      }
      SendRequest(ManifestOf(peer.value, id));
    }

    /** The next block of the download is promised to a provider. */
    method BookRequest(id: ContentId) returns (peer: Option<PeerId>, block: BlockRef)
      requires Valid() && id in downloads && downloads[id].pending != []
      modifies downloads[id]
      ensures Valid() && block == old(downloads[id].pending[0])
      ensures var (found, moved) := NextActive(old(downloads[id].View()));
        && peer == found
        && downloads[id].View() == (if peer.None? then moved
             else moved.(pending := old(downloads[id].pending)[1..], inFlight := old(downloads[id].inFlight) + 1))
        && State() == Put(old(State()), id, downloads[id].View())
    {
      hide NextActive;
      peer, block := downloads[id].TakeBlock();
      OneDownloadChanged(id);
    }

    /** Asks the next provider for the next block, or gives up the download. */
    method AskNextProvider(id: ContentId) returns (asked: bool)
      requires Valid() && id in downloads && downloads[id].pending != []
      modifies this, downloads[id]
      ensures Valid() && OnlyRemoved()
      ensures var (found, moved) := NextActive(old(downloads[id].View()));
        && asked == found.Some? && moved.pending == old(downloads[id].pending)
        && State() == if found.None? then Drop(old(State()), id, NoProviderLeft(id))
                      else AskForBlock(old(State()), id, moved, found.value)
    {
      hide NextActive, State, Valid;
      ghost var before, d := State(), downloads[id].View();
      CursorMoves(d);
      var peer, block := BookRequest(id);
      PutThenDrop(before, id, downloads[id].View());
      asked := peer.Some?;
      if asked {
        SendRequest(BlockOf(peer.value, id, block));
      } else {
        Remove(id, NoProviderLeft(id));
      }
    }

    /** One round of the loop of `request_artifact_blocks`. */
    method RequestNextBlock(id: ContentId) returns (more: bool)
      requires Valid()
      modifies this, Objects()
      ensures Valid() && OnlyRemoved()
      ensures !more ==> State() == RequestBlocks(old(State()), id)
      ensures more ==>
        && RequestBlocks(State(), id) == RequestBlocks(old(State()), id)
        && id in State().downloads && id in old(State()).downloads
        && |State().downloads[id].pending| < |old(State()).downloads[id].pending|
    {
      hide NextActive, RequestBlocks, State, Valid, AskForBlock;
      LookedUp(id);
      RoundOf(State(), id);
      more := id in downloads && downloads[id].inFlight < MAX_PARALLEL_ARTIFACT_BLOCKS && downloads[id].pending != [];
      if more {
        ghost var s := State();
        assert NextActive(s.downloads[id]).0.None? ==> RequestBlocks(s, id) == Drop(s, id, NoProviderLeft(id));
        more := AskNextProvider(id);
        assert !more ==> State() == Drop(s, id, NoProviderLeft(id));
      }
    }

    /** `request_artifact_blocks`. */
    method RequestArtifactBlocks(id: ContentId)
      requires Valid()
      modifies this, Objects()
      ensures Valid() && OnlyRemoved()
      ensures State() == RequestBlocks(old(State()), id)
    {
      hide State, Valid, RequestBlocks;
      var more := true;
      while more
        invariant Valid() && OnlyRemoved()
        invariant if more then RequestBlocks(State(), id) == RequestBlocks(old(State()), id)
                  else State() == RequestBlocks(old(State()), id)
        decreases more, if id in State().downloads then |State().downloads[id].pending| else 0
      {
        more := RequestNextBlock(id);
      }
    }

    /** `handle_artifact_request_failure`. */
    method HandleRequestFailure(request: Outbound)
      requires Valid()
      modifies this, Objects()
      ensures Valid() && OnlyRemoved()
      ensures State() == RequestFailed(old(State()), request)
    {
      match request
      case InventoryOf(_) =>
      case ManifestOf(peer, id) =>
        if id in downloads {
          downloads[id].failed := downloads[id].failed + {peer};
          OneDownloadChanged(id);
          hide State, Valid, Objects, RequestManifest;
          RequestArtifactManifest(id);
        }
      case BlockOf(peer, id, block) =>
        if id in downloads {
          ghost var s, d := State(), downloads[id].View();
          hide State, Valid, RequestBlocks, ActiveCount;
          var active := BookFailure(id, peer, block);
          PutThenDrop(s, id, Requeued(d, peer, block));
          if active == 0 {
            Remove(id, NoProviderLeft(id));
          } else {
            RequestArtifactBlocks(id);
          }
        }
    }

    /** The block of a failed provider is waiting again. */
    method BookFailure(id: ContentId, peer: PeerId, block: BlockRef) returns (active: nat)
      requires Valid() && id in downloads
      modifies downloads[id]
      ensures Valid()
      ensures var d := Requeued(old(downloads[id].View()), peer, block);
        active == ActiveCount(d) && State() == Put(old(State()), id, d)
    {
      hide ActiveCount;
      downloads[id].Requeue(peer, block);
      OneDownloadChanged(id);
      active := downloads[id].ActiveProviderCount();
    }

    /** Takes out the record of a request. */
    method TakeRecord(r: RequestId)
      requires Valid()
      modifies this
      ensures Valid() && OnlyRemoved() && downloads == old(downloads)
      ensures State() == Taken(old(State()), r)
    {
      outbound := outbound - {r};
    }

    method FailOneRequest(r: RequestId)
      requires Valid()
      modifies this, Objects()
      ensures Valid() && OnlyRemoved()
      ensures State() == FailRequest(old(State()), r)
    {
      hide Valid, RequestFailed;
      if r in outbound {
        var request := outbound[r];
        TakeRecord(r);
        HandleRequestFailure(request);
      }
    }

    method FailOneDownload(peer: PeerId, id: ContentId)
      requires Valid()
      modifies this, Objects()
      ensures Valid() && OnlyRemoved()
      ensures State() == FailDownload(old(State()), peer, id)
    {
      if id in downloads && peer in downloads[id].providers {
        downloads[id].failed := downloads[id].failed + {peer};
        OneDownloadChanged(id);
        PutThenDrop(old(State()), id, downloads[id].View());
        var active := downloads[id].ActiveProviderCount();
        var known := downloads[id].manifest.Some?;
        hide State, Valid, Objects, RequestBlocks, ActiveCount;
        if active == 0 {
          Remove(id, NoProviderLeft(id));
        } else if known {
          RequestArtifactBlocks(id);
        }
      }
    }

    /** `fail_artifact_provider`, visiting the requests and the downloads in the given order. */
    method FailArtifactProvider(peer: PeerId, order: Order)
      requires Valid()
      modifies this, Objects()
      ensures Valid() && OnlyRemoved()
      ensures State() == FailProvider(old(State()), peer, order)
    {
      hide State, Valid, FailRequest, FailDownload;
      var requests, ids := order.requests, order.ids;
      for i := 0 to |requests|
        invariant Valid() && OnlyRemoved()
        invariant State() == FailRequests(old(State()), requests[..i])
      {
        assert Init(requests[..i + 1]) == requests[..i];
        FailOneRequest(requests[i]);
      }
      assert requests[..|requests|] == requests;
      ghost var t := State();
      for i := 0 to |ids|
        invariant Valid() && OnlyRemoved()
        invariant State() == FailDownloads(t, peer, ids[..i])
      {
        assert Init(ids[..i + 1]) == ids[..i];
        FailOneDownload(peer, ids[i]);
      }
      assert ids[..|ids|] == ids;
    }

    /** `finish_artifact_download`, of a download that is taken out of the map. */
    method FinishArtifactDownload(id: ContentId, manifest: Option<Manifest>, io: Faults, ghost d: Download)
      requires Valid() && d.manifest == manifest
      modifies this, store
      ensures Valid() && OnlyRemoved()
      ensures State() == Finish(store.config, old(State()), id, d, io)
    {
      hide CommitManifest;
      if manifest.None? {
        Remove(id, ManifestNotReceived(id));
      } else {
        var result := store.Commit(manifest.value, io.commits);
        hide Valid;
        StoreChanged();
        hide State;
        Remove(id, if result.Ok? then Complete(id) else CommitRefused(id, result.error));
      }
    }

    /** Only the store changed. */
    twostate lemma StoreChanged()
      requires downloads == old(downloads) && outbound == old(outbound) && sent == old(sent) && endings == old(endings)
      requires forall k | k in downloads :: unchanged(downloads[k])
      ensures State() == old(State()).(store := store.State())
    {
    }

    /** A manifest with its missing blocks, and the first requests for them. */
    method HandleManifest(request: Outbound, m: Manifest, io: Faults)
      requires Valid() && request.ManifestOf?
      modifies this, Objects(), store
      ensures Valid() && OnlyRemoved()
      ensures State() == ManifestArrives(store.config, old(State()), request, m, io)
    {
      hide MissingBlocks, RequestBlocks, RequestFailed, Finish;
      var missing := store.FindMissing(m);
      var id := request.id;
      if missing.Err? {
        HandleRequestFailure(request);
        return;
      }
      if id !in downloads {
        return;
      }
      ghost var d := downloads[id].View();
      downloads[id].AcceptManifest(m, missing.value);
      OneDownloadChanged(id);
      hide State, Valid, Objects;
      if missing.value == [] {
        FinishArtifactDownload(id, Some(m), io, WithManifest(d, m, missing.value));
        FinishDrops(store.config, old(State()), id, WithManifest(d, m, missing.value), io);
      } else {
        RequestArtifactBlocks(id);
      }
    }

    /** The block is no longer in flight. */
    method BookArrival(id: ContentId)
      requires Valid() && id in downloads
      modifies downloads[id]
      ensures Valid()
      ensures downloads[id].View()
           == old(downloads[id].View()).(inFlight := SaturatingDecrement(old(downloads[id].inFlight)))
      ensures State() == Put(old(State()), id, downloads[id].View())
    {
      downloads[id].inFlight := if downloads[id].inFlight == 0 then 0 else downloads[id].inFlight - 1;
      OneDownloadChanged(id);
    }

    /** The block is stored. */
    method BookStored(id: ContentId)
      requires Valid() && id in downloads
      modifies downloads[id]
      ensures Valid()
      ensures downloads[id].View() == old(downloads[id].View()).(completed := old(downloads[id].completed) + 1)
      ensures State() == Put(old(State()), id, downloads[id].View())
    {
      downloads[id].completed := downloads[id].completed + 1;
      OneDownloadChanged(id);
    }

    /** A block. */
    method HandleBlock(request: Outbound, data: Bytes, io: Faults)
      requires Valid() && request.BlockOf?
      modifies this, Objects(), store
      ensures Valid() && OnlyRemoved()
      ensures State() == BlockArrives(store.config, old(State()), request, data, io)
    {
      hide StoreBlock, RequestBlocks, Finish;
      var result := store.StoreReceived(request.block, data, io.disk);
      StoreChanged();
      var id := request.id;
      if id in downloads {
        FinishStoredBlock(id, result, io);
      }
    }

    /** The download after one of its blocks was stored or refused. */
    method FinishStoredBlock(id: ContentId, result: Result<()>, io: Faults)
      requires Valid() && id in downloads
      modifies this, Objects(), store
      ensures Valid() && OnlyRemoved()
      ensures var s, d := old(State()), WithBlock(old(downloads[id].View()));
        State() == if result.Err? then Drop(s, id, BlockRefused(id, result.error))
                   else if d.pending == [] && d.inFlight == 0 then Finish(store.config, s, id, d, io)
                   else RequestBlocks(Put(s, id, d), id)
    {
      hide StoreBlock, RequestBlocks, Finish, Valid, State;
      if result.Err? {
        ghost var s := State();
        BookArrival(id);
        PutThenDrop(s, id, downloads[id].View());
        Remove(id, BlockRefused(id, result.error));
      } else {
        ContinueDownload(id, io);
      }
    }

    /** The download goes on, or is finished, when a block is stored. */
    method ContinueDownload(id: ContentId, io: Faults)
      requires Valid() && id in downloads
      modifies this, Objects(), store
      ensures Valid() && OnlyRemoved()
      ensures var s, d := old(State()), WithBlock(old(downloads[id].View()));
        State() == if d.pending == [] && d.inFlight == 0 then Finish(store.config, s, id, d, io)
                   else RequestBlocks(Put(s, id, d), id)
    {
      hide RequestBlocks, Finish, Valid, State;
      ghost var s, d := State(), downloads[id].View();
      BookArrival(id);
      BookStored(id);
      PutTwice(s, id, d.(inFlight := SaturatingDecrement(d.inFlight)), WithBlock(d));
      if downloads[id].pending == [] && downloads[id].inFlight == 0 {
        FinishArtifactDownload(id, downloads[id].manifest, io, WithBlock(d));
        FinishDrops(store.config, s, id, WithBlock(d), io);
      } else {
        RequestArtifactBlocks(id);
      }
    }

    /** `handle_artifact_response`. */
    method HandleArtifactResponse(request: Outbound, reply: Reply, io: Faults, order: Order)
      requires Valid()
      modifies this, Objects(), store
      ensures Valid() && OnlyRemoved()
      ensures State() == HandleResponse(store.config, old(State()), request, reply, io, order)
    {
      hide State, Valid, ManifestArrives, BlockArrives, RequestFailed, FailProvider;
      if !Matches(request, reply) {
        HandleRequestFailure(request);
        FailArtifactProvider(request.peer, order);
        return;
      }
      match request
      case InventoryOf(_) =>
      case ManifestOf(_, _) => HandleManifest(request, reply.manifest, io);
      case BlockOf(_, _, _) => HandleBlock(request, reply.data, io);
    }

    /** The distinct providers of a fetch command, in order. */
    static method Providers(peers: seq<PeerId>) returns (providers: seq<PeerId>)
      ensures providers == Distinct(peers)
    {
      providers := [];
      for i := 0 to |peers|
        invariant providers == Distinct(peers[..i])
      {
        assert Init(peers[..i + 1]) == peers[..i];
        if peers[i] !in providers {
          providers := providers + [peers[i]];
        }
      }
      assert peers[..|peers|] == peers;
    }

    /** The fetch commands and `begin_artifact_download`. */
    method BeginArtifactDownload(id: ContentId, peers: seq<PeerId>)
      requires Valid()
      modifies this, Objects()
      ensures Valid() && fresh(Objects() - old(Objects()))
      ensures State() == if CanBegin(old(State()), id, peers) then Begin(old(State()), id, peers) else old(State())
    {
      hide Distinct, RequestManifest, Valid, State;
      DownloadsAre();
      if peers == [] || |peers| > MAX_ARTIFACT_PROVIDERS || id in downloads {
        return;
      }
      var providers := Providers(peers);
      Insert(id, providers);
      label inserted:
      RequestArtifactManifest(id);
    }

    method Insert(id: ContentId, providers: seq<PeerId>)
      requires Valid() && id !in downloads
      modifies this
      ensures Valid() && fresh(Objects() - old(Objects()))
      ensures State() == Put(old(State()), id, NewDownload(providers))
    {
      var download := new ArtifactDownload(providers);
      hide Valid, State;
      Adopt(id, download);
    }

    method Adopt(id: ContentId, download: ArtifactDownload)
      requires Valid() && download !in Objects()
      modifies this
      ensures Valid() && Objects() <= old(Objects()) + {download}
      ensures State() == Put(old(State()), id, download.View())
    {
      downloads := downloads[id := download];
    }

    /** A failed request: its own download first, then whatever else its provider was asked. */
    method HandleOutboundFailure(r: RequestId, order: Order)
      requires Valid() && r in outbound
      modifies this, Objects()
      ensures Valid() && OnlyRemoved()
      ensures var s := old(State());
        State() == FailProvider(RequestFailed(Taken(s, r), s.outbound[r]), s.outbound[r].peer, order)
    {
      hide Valid, RequestFailed, FailProvider;
      var request := outbound[r];
      TakeRecord(r);
      HandleRequestFailure(request);
      FailArtifactProvider(request.peer, order);
    }

    /** One event of the loop; the store is used by other commands through its own methods. */
    method HandleEvent(event: Event)
      requires Valid() && !event.StoreIsUsed?
      modifies this, Objects(), store
      ensures Valid() && State() == Step(store.config, old(State()), event)
    {
      hide Valid, HandleResponse, FailProvider, RequestFailed, Begin;
      match event
      case Fetch(id, peers) => BeginArtifactDownload(id, peers);
      case AskInventory(peer) => SendRequest(InventoryOf(peer));
      case Responds(r, reply, io, order) =>
        if r in outbound {
          var request := outbound[r];
          TakeRecord(r);
          HandleArtifactResponse(request, reply, io, order);
        }
      case Fails(r, order) =>
        if r in outbound {
          HandleOutboundFailure(r, order);
        }
      case Disconnects(peer, order) => FailArtifactProvider(peer, order);
    }
  }

  /** Finishing forgets whatever the download held. */
  lemma FinishDrops(c: Config, s: Node, id: ContentId, d: Download, io: Faults)
    ensures Finish(c, Put(s, id, d), id, d, io) == Finish(c, s, id, d, io)
  {
    hide CommitManifest;
    assert s.downloads[id := d] - {id} == s.downloads - {id};
  }

  /** What one more round of requests does. */
  lemma RoundOf(s: Node, id: ContentId)
    ensures !(id in s.downloads && s.downloads[id].inFlight < MAX_PARALLEL_ARTIFACT_BLOCKS
        && s.downloads[id].pending != [])
        ==> RequestBlocks(s, id) == s
    ensures id in s.downloads && s.downloads[id].inFlight < MAX_PARALLEL_ARTIFACT_BLOCKS
        && s.downloads[id].pending != []
        ==> var (peer, moved) := NextActive(s.downloads[id]);
            && moved == s.downloads[id].(next := moved.next)
            && (peer.None? ==> RequestBlocks(s, id) == Drop(s, id, NoProviderLeft(id)))
            && (peer.Some? ==>
                  var u := AskForBlock(s, id, moved, peer.value);
                  && RequestBlocks(s, id) == RequestBlocks(u, id)
                  && id in u.downloads && |u.downloads[id].pending| < |s.downloads[id].pending|)
  {
    if id in s.downloads {
      CursorMoves(s.downloads[id]);
    }
    hide NextActive;
  }

  lemma PutTwice(s: Node, id: ContentId, d: Download, e: Download)
    ensures Put(Put(s, id, d), id, e) == Put(s, id, e)
  {
  }

  lemma PutThenDrop(s: Node, id: ContentId, d: Download)
    ensures forall ending :: Drop(Put(s, id, d), id, ending) == Drop(s, id, ending)
  {
    assert s.downloads[id := d] - {id} == s.downloads - {id};
  }
}

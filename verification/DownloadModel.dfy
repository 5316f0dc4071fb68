/** The multi-provider artifact download of crates/swagri-node on values. */
module DownloadModel {
  import opened Core
  import opened StorageModel

  const MAX_ARTIFACT_PROVIDERS := 8
  const MAX_PARALLEL_ARTIFACT_BLOCKS := 4

  /** `ArtifactOutbound`: what is known about a request until it is answered. */
  datatype Outbound =
    | InventoryOf(peer: PeerId)
    | ManifestOf(peer: PeerId, id: ContentId)
    | BlockOf(peer: PeerId, id: ContentId, block: BlockRef)

  datatype Download = Download(
    providers: seq<PeerId>,
    failed: set<PeerId>,
    next: nat,
    manifest: Option<Manifest>,
    pending: seq<BlockRef>,
    inFlight: nat,
    completed: nat,
    reused: nat,
    totalMissing: nat)

  /** How a download ended. */
  datatype Ending =
    | Complete(id: ContentId)
    | CommitRefused(id: ContentId, error: Error)
    | ManifestNotReceived(id: ContentId)
    | BlockRefused(id: ContentId, error: Error)
    | NoProviderLeft(id: ContentId)

  /** The part of the event loop that downloads use. A request is numbered by its place in `sent`. */
  datatype Node = Node(
    store: Store,
    downloads: map<ContentId, Download>,
    outbound: map<RequestId, Outbound>,
    sent: seq<Outbound>,
    endings: seq<Ending>)

  // ---------- Providers ----------

  function NewDownload(providers: seq<PeerId>): Download {
    Download(providers, {}, 0, None, [], 0, 0, 0, 0)
  }

  function ActiveOf(peers: seq<PeerId>, failed: set<PeerId>): seq<PeerId> {
    if peers == [] then []
    else if peers[0] in failed then ActiveOf(peers[1..], failed)
    else [peers[0]] + ActiveOf(peers[1..], failed)
  }

  /** `active_provider_count`. */
  function ActiveCount(d: Download): nat {
    |ActiveOf(d.providers, d.failed)|
  }

  /** The cursor one provider further. */
  function Turned(d: Download): Download
    requires d.providers != []
  {
    d.(next := (d.next + 1) % |d.providers|)
  }

  /** At most `tries` rounds of the search for the next provider that has not failed. */
  function Scan(d: Download, tries: nat): (Option<PeerId>, Download)
    requires d.providers != []
    decreases tries
  {
    if tries == 0 then (None, d) else
    var peer := d.providers[d.next % |d.providers|];
    var moved := Turned(d);
    if peer !in d.failed then (Some(peer), moved) else Scan(moved, tries - 1)
  }

  /** `next_active_provider`. */
  function NextActive(d: Download): (Option<PeerId>, Download) {
    if d.providers == [] then (None, d) else Scan(d, |d.providers|)
  }

  // ---------- Requests ----------

  function Drop(s: Node, id: ContentId, ending: Ending): Node {
    s.(downloads := s.downloads - {id}, endings := s.endings + [ending])
  }

  function Put(s: Node, id: ContentId, d: Download): Node {
    s.(downloads := s.downloads[id := d])
  }

  function Send(s: Node, request: Outbound): Node {
    s.(outbound := s.outbound[|s.sent| := request], sent := s.sent + [request])
  }

  /** `request_artifact_manifest`. */
  function RequestManifest(s: Node, id: ContentId): Node {
    if id !in s.downloads then Drop(s, id, NoProviderLeft(id)) else
    var (peer, d) := NextActive(s.downloads[id]);
    if peer.None? then Drop(s, id, NoProviderLeft(id)) else Send(Put(s, id, d), ManifestOf(peer.value, id))
  }

  /** `request_artifact_blocks`. */
  function RequestBlocks(s: Node, id: ContentId): Node
    decreases if id in s.downloads then |s.downloads[id].pending| else 0
  {
    if id !in s.downloads then s else
    var d := s.downloads[id];
    if d.inFlight >= MAX_PARALLEL_ARTIFACT_BLOCKS || d.pending == [] then s else
    var (peer, moved) := NextActive(d);
    if peer.None? then Drop(s, id, NoProviderLeft(id)) else
    ScanKeeps(d, |d.providers|);
    RequestBlocks(AskForBlock(s, id, moved, peer.value), id)
  }

  function AskForBlock(s: Node, id: ContentId, d: Download, peer: PeerId): Node
    requires d.pending != []
  {
    var asked := d.(pending := d.pending[1..], inFlight := d.inFlight + 1);
    Send(Put(s, id, asked), BlockOf(peer, id, d.pending[0]))
  }

  lemma {:induction false} ScanKeeps(d: Download, tries: nat)
    requires d.providers != []
    ensures Scan(d, tries).1 == d.(next := Scan(d, tries).1.next)
    decreases tries
  {
    if tries > 0 {
      ScanKeeps(Turned(d), tries - 1);
    }
  }

  /** The search for a provider moves the cursor only. */
  lemma CursorMoves(d: Download)
    ensures NextActive(d).1 == d.(next := NextActive(d).1.next)
  {
    if d.providers != [] {
      ScanKeeps(d, |d.providers|);
    }
  }

  // ---------- Failures ----------

  /** A block that a failed provider owed, back in the queue. */
  function Requeued(d: Download, peer: PeerId, block: BlockRef): Download {
    d.(inFlight := SaturatingDecrement(d.inFlight), failed := d.failed + {peer}, pending := d.pending + [block])
  }

  /** `handle_artifact_request_failure`. */
  function RequestFailed(s: Node, request: Outbound): Node {
    match request
    case InventoryOf(_) => s
    case ManifestOf(peer, id) =>
      if id !in s.downloads then s else
      var d := s.downloads[id];
      RequestManifest(Put(s, id, d.(failed := d.failed + {peer})), id)
    case BlockOf(peer, id, block) =>
      if id !in s.downloads then s else
      var d := Requeued(s.downloads[id], peer, block);
      if ActiveCount(d) == 0 then Drop(s, id, NoProviderLeft(id)) else RequestBlocks(Put(s, id, d), id)
  }

  /** The order in which a failed provider's requests and the downloads are visited. */
  datatype Order = Order(requests: seq<RequestId>, ids: seq<ContentId>)

  function FailRequest(s: Node, r: RequestId): Node {
    if r !in s.outbound then s else RequestFailed(s.(outbound := s.outbound - {r}), s.outbound[r])
  }

  function FailRequests(s: Node, requests: seq<RequestId>): Node {
    if requests == [] then s else FailRequest(FailRequests(s, Init(requests)), Last(requests))
  }

  function FailDownload(s: Node, peer: PeerId, id: ContentId): Node {
    if id !in s.downloads || peer !in s.downloads[id].providers then s else
    var d := s.downloads[id].(failed := s.downloads[id].failed + {peer});
    if ActiveCount(d) == 0 then Drop(s, id, NoProviderLeft(id))
    else if d.manifest.Some? then RequestBlocks(Put(s, id, d), id)
    else Put(s, id, d)
  }

  function FailDownloads(s: Node, peer: PeerId, ids: seq<ContentId>): Node {
    if ids == [] then s else FailDownload(FailDownloads(s, peer, Init(ids)), peer, Last(ids))
  }

  /** `fail_artifact_provider`. */
  function FailProvider(s: Node, peer: PeerId, order: Order): Node {
    FailDownloads(FailRequests(s, order.requests), peer, order.ids)
  }

  // ---------- Replies ----------

  datatype Reply =
    | InventoryReply
    | ManifestReply(manifest: Manifest)
    | BlockReply(block: BlockRef, data: Bytes)
    | ErrorReply

  /** Which file operations succeed while a reply is handled. */
  datatype Faults = Faults(disk: Disk, commits: bool)

  /** `finish_artifact_download`, for a download that is already out of the map. */
  ghost function Finish(c: Config, s: Node, id: ContentId, d: Download, io: Faults): Node {
    if d.manifest.None? then Drop(s, id, ManifestNotReceived(id)) else
    var answer := CommitManifest(c, s.store, d.manifest.value, io.commits);
    var ending := if answer.result.Ok? then Complete(id) else CommitRefused(id, answer.result.error);
    Drop(s, id, ending).(store := answer.store)
  }

  function WithManifest(d: Download, m: Manifest, missing: seq<BlockRef>): Download {
    d.(manifest := Some(m), totalMissing := |missing|, pending := missing,
       reused := SaturatingSub(|Ids(m.blocks)|, |missing|))
  }

  ghost function ManifestArrives(c: Config, s: Node, request: Outbound, m: Manifest, io: Faults): Node
    requires request.ManifestOf?
  {
    var missing := MissingBlocks(c, s.store, m);
    if missing.Err? then RequestFailed(s, request)
    else if request.id !in s.downloads then s
    else
      var d := WithManifest(s.downloads[request.id], m, missing.value);
      if missing.value == [] then Finish(c, s, request.id, d, io)
      else RequestBlocks(Put(s, request.id, d), request.id)
  }

  function WithBlock(d: Download): Download {
    d.(inFlight := SaturatingDecrement(d.inFlight), completed := d.completed + 1)
  }

  ghost function BlockArrives(c: Config, s: Node, request: Outbound, data: Bytes, io: Faults): Node
    requires request.BlockOf?
  {
    var stored := StoreBlock(c, s.store, request.block, data, io.disk);
    var t := s.(store := stored.store);
    if request.id !in s.downloads then t
    else if stored.result.Err? then Drop(t, request.id, BlockRefused(request.id, stored.result.error))
    else
      var d := WithBlock(s.downloads[request.id]);
      if d.pending == [] && d.inFlight == 0 then Finish(c, t, request.id, d, io)
      else RequestBlocks(Put(t, request.id, d), request.id)
  }

  predicate Matches(request: Outbound, reply: Reply) {
    match request
    case InventoryOf(_) => reply.InventoryReply?
    case ManifestOf(_, id) => reply.ManifestReply? && reply.manifest.id == id
    case BlockOf(_, _, block) => reply.BlockReply? && reply.block == block
  }

  /** `handle_artifact_response`. */
  ghost function HandleResponse(c: Config, s: Node, request: Outbound, reply: Reply, io: Faults, order: Order): Node {
    if !Matches(request, reply) then FailProvider(RequestFailed(s, request), request.peer, order) else
    match request
    case InventoryOf(_) => s
    case ManifestOf(_, _) => ManifestArrives(c, s, request, reply.manifest, io)
    case BlockOf(_, _, _) => BlockArrives(c, s, request, reply.data, io)
  }

  // ---------- Events and runs ----------

  function Distinct(peers: seq<PeerId>): seq<PeerId> {
    if peers == [] then []
    else if Last(peers) in Distinct(Init(peers)) then Distinct(Init(peers))
    else Distinct(Init(peers)) + [Last(peers)]
  }

  /** The guards of the fetch commands, once every provider is known to be trusted. */
  predicate CanBegin(s: Node, id: ContentId, peers: seq<PeerId>) {
    0 < |peers| <= MAX_ARTIFACT_PROVIDERS && id !in s.downloads
  }

  /** `begin_artifact_download`. */
  function Begin(s: Node, id: ContentId, peers: seq<PeerId>): Node {
    RequestManifest(Put(s, id, NewDownload(Distinct(peers))), id)
  }

  datatype Event =
    | Fetch(id: ContentId, peers: seq<PeerId>)
    | AskInventory(peer: PeerId)
    | Responds(request: RequestId, reply: Reply, io: Faults, order: Order)
    | Fails(request: RequestId, order: Order)
    | Disconnects(peer: PeerId, order: Order)
    | StoreIsUsed(call: Call)

  /** The state once the record of a request is taken out. */
  function Taken(s: Node, r: RequestId): Node {
    s.(outbound := s.outbound - {r})
  }

  ghost function Step(c: Config, s: Node, event: Event): Node {
    match event
    case Fetch(id, peers) => if CanBegin(s, id, peers) then Begin(s, id, peers) else s
    case AskInventory(peer) => Send(s, InventoryOf(peer))
    case Responds(r, reply, io, order) =>
      if r in s.outbound then HandleResponse(c, Taken(s, r), s.outbound[r], reply, io, order) else s
    case Fails(r, order) =>
      if r in s.outbound then FailProvider(RequestFailed(Taken(s, r), s.outbound[r]), s.outbound[r].peer, order) else s
    case Disconnects(peer, order) => FailProvider(s, peer, order)
    case StoreIsUsed(call) => s.(store := After(c, s.store, call))
  }

  ghost function Run(c: Config, s: Node, events: seq<Event>): Node {
    if events == [] then s else Step(c, Run(c, s, Init(events)), Last(events))
  }

  /** No download is active; the store is what earlier runs left. */
  function Idle(store: Store): Node {
    Node(store, map[], map[], [], [])
  }

  /** The order visits each request to the peer once, and every download. */
  ghost predicate Visits(s: Node, peer: PeerId, order: Order) {
    && NoDuplicates(order.requests)
    && (forall r :: r in order.requests <==> r in s.outbound && s.outbound[r].peer == peer)
    && (forall id | id in s.downloads :: id in order.ids)
  }
}

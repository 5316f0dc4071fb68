/** The chunked transfer of an update package between two nodes. */
module UpdateTransfer {
  import opened Core
  import opened StorageModel

  datatype Component = Agent | Debugger | Android

  datatype UpdateManifest = UpdateManifest(version: string, size: nat, digest: ContentId)

  datatype Signed = Signed(manifest: UpdateManifest, signature: Bytes)

  /** The digest, and what `verify_update_manifest` finds out about target, version, signer and signature. */
  datatype Trust = Trust(digest: Bytes -> ContentId, genuine: (PeerId, Signed, Component) -> bool)

  datatype UpdateRequest =
    | ManifestRequest(peer: PeerId, component: Component)
    | ChunkRequest(peer: PeerId, component: Component, version: string, offset: nat, length: nat)

  datatype UpdateResponse =
    | ManifestResponse(signed: Signed)
    | ChunkResponse(offset: nat, data: Bytes)
    | ErrorResponse

  // ---------- The client ----------

  datatype Requested = Requested(peer: PeerId, component: Component, applyWhenReady: bool)

  /** `PendingDownload`, with what its file holds. */
  datatype Pending = Pending(peer: PeerId, component: Component, signed: Signed, file: Bytes, received: nat,
      applyWhenReady: bool)

  datatype Outcome =
    | Ready(peer: PeerId, component: Component, signed: Signed, file: Bytes)
    | UpdateFailed(peer: PeerId)

  /** The transfer state of `UpdateManager`, the requests that are not answered yet, and what was reported. */
  datatype Client = Client(
    requested: Option<Requested>,
    pending: Option<Pending>,
    outstanding: seq<UpdateRequest>,
    outcomes: seq<Outcome>)

  const NO_UPDATE := Client(None, None, [], [])

  function Fail(s: Client, peer: PeerId): Client {
    s.(outcomes := s.outcomes + [UpdateFailed(peer)])
  }

  function Ask(s: Client, request: UpdateRequest): Client {
    s.(outstanding := s.outstanding + [request])
  }

  /** `verify_update_manifest`. */
  predicate Acceptable(t: Trust, peer: PeerId, signed: Signed, component: Component) {
    0 < signed.manifest.size <= MAX_UPDATE_BYTES && t.genuine(peer, signed, component)
  }

  /** `begin_component_update_request`. */
  function BeginUpdate(s: Client, wanted: Requested, disabled: bool, trusted: set<PeerId>): Client {
    if disabled || wanted.peer !in trusted || s.pending.Some? || s.requested.Some? then Fail(s, wanted.peer)
    else Ask(s.(requested := Some(wanted)), ManifestRequest(wanted.peer, wanted.component))
  }

  /** `request_next_update_chunk`. */
  function NextChunkRequest(p: Pending): UpdateRequest {
    ChunkRequest(p.peer, p.component, p.signed.manifest.version, p.received, UPDATE_CHUNK_BYTES)
  }

  /** Which file operations succeed while a response is handled. */
  datatype FileLuck = FileLuck(creates: bool, writes: bool, flushes: bool)

  function ManifestComes(t: Trust, s: Client, peer: PeerId, signed: Signed, luck: FileLuck): Client {
    if s.requested.None? then s else
    var wanted, u := s.requested.value, s.(requested := None);
    if wanted.peer != peer || !Acceptable(t, peer, signed, wanted.component) || !luck.creates then Fail(u, peer)
    else
      var p := Pending(peer, wanted.component, signed, [], 0, wanted.applyWhenReady);
      Ask(u.(pending := Some(p)), NextChunkRequest(p))
  }

  /** `verify_download`. */
  predicate Verified(t: Trust, file: Bytes, m: UpdateManifest) {
    |file| == m.size && t.digest(file) == m.digest
  }

  function ChunkComes(t: Trust, s: Client, peer: PeerId, offset: nat, data: Bytes, luck: FileLuck): Client {
    if s.pending.None? then s else
    var p, u := s.pending.value, s.(pending := None);
    if p.peer != peer || offset != p.received
       || data == [] || p.received + |data| > p.signed.manifest.size || !luck.writes then Fail(u, peer)
    else
      var q := p.(file := p.file + data, received := p.received + |data|);
      if q.received != q.signed.manifest.size then Ask(u.(pending := Some(q)), NextChunkRequest(q))
      else if !luck.flushes || !Verified(t, q.file, q.signed.manifest) then Fail(u, peer)
      else u.(outcomes := u.outcomes + [Ready(peer, q.component, q.signed, q.file)])
  }

  /** `handle_update_event` for a response. */
  function HandleUpdate(t: Trust, s: Client, peer: PeerId, response: UpdateResponse, luck: FileLuck): Client {
    match response
    case ManifestResponse(signed) => ManifestComes(t, s, peer, signed, luck)
    case ChunkResponse(offset, data) => ChunkComes(t, s, peer, offset, data, luck)
    case ErrorResponse => Fail(s.(requested := None, pending := None), peer)
  }

  /** `handle_update_event` for an outbound failure. */
  function HandleUpdateFailure(s: Client, peer: PeerId): Client {
    Fail(s.(requested := None, pending := None), peer)
  }

  // ---------- Events and runs ----------

  datatype UpdateEvent =
    | BeginEvent(wanted: Requested, disabled: bool, trusted: set<PeerId>)
    | ResponseEvent(at: nat, response: UpdateResponse, luck: FileLuck)
    | FailureEvent(at: nat)

  function Answered(s: Client, i: nat): Client
    requires i < |s.outstanding|
  {
    s.(outstanding := s.outstanding[..i] + s.outstanding[i + 1..])
  }

  /** Every request is answered at most once, by a response of its peer or by a failure. */
  function UpdateStep(t: Trust, s: Client, event: UpdateEvent): Client {
    match event
    case BeginEvent(wanted, disabled, trusted) => BeginUpdate(s, wanted, disabled, trusted)
    case ResponseEvent(i, response, luck) =>
      if i < |s.outstanding| then HandleUpdate(t, Answered(s, i), s.outstanding[i].peer, response, luck) else s
    case FailureEvent(i) =>
      if i < |s.outstanding| then HandleUpdateFailure(Answered(s, i), s.outstanding[i].peer) else s
  }

  function UpdateRun(t: Trust, s: Client, events: seq<UpdateEvent>): Client {
    if events == [] then s else UpdateStep(t, UpdateRun(t, s, Init(events)), Last(events))
  }

  // ---------- Against any peer ----------

  ghost predicate PendingOk(t: Trust, p: Pending) {
    && Acceptable(t, p.peer, p.signed, p.component)
    && |p.file| == p.received < p.signed.manifest.size
  }

  /** The only request that can be outstanding belongs to the update that is active. */
  ghost predicate OneRequest(s: Client) {
    s.outstanding != [] ==>
      && |s.outstanding| == 1
      && ((s.requested.Some? && s.outstanding[0] == ManifestRequest(s.requested.value.peer,
          s.requested.value.component))
          || (s.pending.Some? && s.outstanding[0] == NextChunkRequest(s.pending.value)))
  }

  ghost predicate TrueOutcome(t: Trust, outcome: Outcome) {
    outcome.Ready? ==>
      && Acceptable(t, outcome.peer, outcome.signed, outcome.component)
      && |outcome.file| == outcome.signed.manifest.size
      && t.digest(outcome.file) == outcome.signed.manifest.digest
  }

  ghost predicate ClientOk(t: Trust, s: Client) {
    && !(s.requested.Some? && s.pending.Some?)
    && OneRequest(s)
    && (s.pending.Some? ==> PendingOk(t, s.pending.value))
    && forall i | 0 <= i < |s.outcomes| :: TrueOutcome(t, s.outcomes[i])
  }

  lemma FailedIsTrue(t: Trust, peer: PeerId)
    ensures TrueOutcome(t, UpdateFailed(peer))
  {
  }

  lemma ManifestKeepsClient(t: Trust, s: Client, peer: PeerId, signed: Signed, luck: FileLuck)
    requires ClientOk(t, s) && s.outstanding == []
    ensures ClientOk(t, ManifestComes(t, s, peer, signed, luck))
  {
  }

  lemma ChunkKeepsClient(t: Trust, s: Client, peer: PeerId, offset: nat, data: Bytes, luck: FileLuck)
    requires ClientOk(t, s) && s.outstanding == []
    ensures ClientOk(t, ChunkComes(t, s, peer, offset, data, luck))
  {
  }

  lemma StepKeepsClient(t: Trust, s: Client, event: UpdateEvent)
    requires ClientOk(t, s)
    ensures ClientOk(t, UpdateStep(t, s, event))
  {
    hide ManifestComes, ChunkComes, PendingOk, TrueOutcome;
    if (event.ResponseEvent? || event.FailureEvent?) && event.at < |s.outstanding| {
      var u, peer := Answered(s, event.at), s.outstanding[event.at].peer;
      assert u.outstanding == [];
      FailedIsTrue(t, peer);
      if event.ResponseEvent? && event.response.ManifestResponse? {
        ManifestKeepsClient(t, u, peer, event.response.signed, event.luck);
      } else if event.ResponseEvent? && event.response.ChunkResponse? {
        ChunkKeepsClient(t, u, peer, event.response.offset, event.response.data, event.luck);
      }
    } else if event.BeginEvent? {
      FailedIsTrue(t, event.wanted.peer);
    }
  }

  /** Whatever the peers answer: at most one request is outstanding, and a package is reported ready only if its
      length and its digest are those of a manifest that was accepted for the very peer that sent it. */
  lemma {:induction false} ReadyIsVerified(t: Trust, events: seq<UpdateEvent>)
    ensures ClientOk(t, UpdateRun(t, NO_UPDATE, events))
  {
    hide ClientOk, UpdateStep;
    if events == [] {
      EmptyClientOk(t);
    } else {
      ReadyIsVerified(t, Init(events));
      StepKeepsClient(t, UpdateRun(t, NO_UPDATE, Init(events)), Last(events));
    }
  }

  lemma EmptyClientOk(t: Trust)
    ensures ClientOk(t, NO_UPDATE)
  {
  }

  /** An update is active, but nothing that could end it is outstanding. */
  predicate Wedged(s: Client) {
    s.outstanding == [] && (s.requested.Some? || s.pending.Some?)
  }

  predicate RightKind(request: UpdateRequest, response: UpdateResponse) {
    match response
    case ManifestResponse(_) => request.ManifestRequest?
    case ChunkResponse(_, _) => request.ChunkRequest?
    case ErrorResponse => true
  }

  /** A response wedges the client exactly when it is of the wrong kind for its request. */
  lemma OnlyWrongKindsWedge(t: Trust, s: Client, i: nat, response: UpdateResponse, luck: FileLuck)
    requires ClientOk(t, s) && i < |s.outstanding|
    ensures Wedged(UpdateStep(t, s, ResponseEvent(i, response, luck))) <==> !RightKind(s.outstanding[i], response)
  {
    hide Acceptable, Verified;
    assert Answered(s, i).outstanding == [];
  }

  /** One refusal for every command that begins an update. */
  function Refusals(events: seq<UpdateEvent>): seq<Outcome> {
    if events == [] then [] else
    Refusals(Init(events)) + if Last(events).BeginEvent? then [UpdateFailed(Last(events).wanted.peer)] else []
  }

  lemma OneMoreRefusal(t: Trust, s: Client, event: UpdateEvent)
    requires Wedged(s)
    ensures UpdateStep(t, s, event) == s.(outcomes := s.outcomes + Refusals([event]))
    ensures Wedged(UpdateStep(t, s, event))
  {
    assert Init([event]) == [] && Last([event]) == event;
  }

  /** A wedged client does nothing any more, whatever happens, but refuse each later update. */
  lemma {:induction false} WedgedForever(t: Trust, s: Client, events: seq<UpdateEvent>)
    requires Wedged(s)
    ensures UpdateRun(t, s, events) == s.(outcomes := s.outcomes + Refusals(events))
    ensures Wedged(UpdateRun(t, s, events))
  {
    hide Wedged, UpdateStep;
    if events != [] {
      WedgedForever(t, s, Init(events));
      OneMoreRefusal(t, UpdateRun(t, s, Init(events)), Last(events));
    }
  }

  const STUCK := [
    BeginEvent(Requested(7, Agent, false), false, {7}),
    ResponseEvent(0, ChunkResponse(0, []), ALL_WELL)]

  /** A trusted peer that answers the manifest request with a chunk wedges the client. */
  lemma AClientCanWedge(t: Trust)
    ensures Wedged(UpdateRun(t, NO_UPDATE, STUCK))
  {
    assert Init(STUCK) == [STUCK[0]] && Init([STUCK[0]]) == [];
    assert UpdateRun(t, NO_UPDATE, []) == NO_UPDATE;
    var s := UpdateRun(t, NO_UPDATE, [STUCK[0]]);
    assert s.outstanding == [ManifestRequest(7, Agent)] && s.requested.Some? && s.pending.None?;
    assert Answered(s, 0).outstanding == [];
  }

  // ---------- The server ----------

  datatype UpdateSource = UpdateSource(file: Bytes, signed: Signed)

  datatype Server = Server(agent: Option<UpdateSource>, debugger: Option<UpdateSource>, android: Option<UpdateSource>)

  /** `serve_update_chunk`; an exact read past the end of the file is an error. */
  function ServeChunk(source: UpdateSource, version: string, offset: nat, length: nat): UpdateResponse {
    if version != source.signed.manifest.version || offset >= source.signed.manifest.size then ErrorResponse else
    var n := Min(Min(length, UPDATE_CHUNK_BYTES), source.signed.manifest.size - offset);
    if offset + n > |source.file| then ErrorResponse else ChunkResponse(offset, source.file[offset..offset + n])
  }

  function SourceOf(server: Server, component: Component): Option<UpdateSource> {
    match component
    case Agent => server.agent
    case Debugger => server.debugger
    case Android => server.android
  }

  /** `serve_update_request`. */
  function Serve(server: Server, request: UpdateRequest): UpdateResponse {
    var source := SourceOf(server, request.component);
    if source.None? then ErrorResponse else
    match request
    case ManifestRequest(_, _) => ManifestResponse(source.value.signed)
    case ChunkRequest(_, _, version, offset, length) => ServeChunk(source.value, version, offset, length)
  }

  const ALL_WELL := FileLuck(true, true, true)

  /** `n` exchanges with the server. */
  function Exchanges(t: Trust, server: Server, s: Client, n: nat): Client {
    if n == 0 then s else
    var before := Exchanges(t, server, s, n - 1);
    if before.outstanding == [] then before
    else UpdateStep(t, before, ResponseEvent(0, Serve(server, before.outstanding[0]), ALL_WELL))
  }

  /** The file of the source is the one that its manifest describes, and the client accepts it. */
  ghost predicate Offers(t: Trust, server: Server, wanted: Requested, source: UpdateSource) {
    && SourceOf(server, wanted.component) == Some(source)
    && Acceptable(t, wanted.peer, source.signed, wanted.component)
    && Verified(t, source.file, source.signed.manifest)
  }

  function ChunkCount(size: nat): nat {
    (size + UPDATE_CHUNK_BYTES - 1) / UPDATE_CHUNK_BYTES
  }

  /** The client after the manifest and `k` chunks. */
  ghost predicate Transferring(s: Client, start: Client, wanted: Requested, source: UpdateSource, k: nat) {
    var n := Min(k * UPDATE_CHUNK_BYTES, |source.file|);
    if n < |source.file| then
      && s.requested.None? && s.outcomes == start.outcomes
      && s.pending == Some(Pending(wanted.peer, wanted.component, source.signed, source.file[..n], n,
          wanted.applyWhenReady))
      && s.outstanding == [NextChunkRequest(s.pending.value)]
    else
      && s.requested.None? && s.pending.None? && s.outstanding == []
      && s.outcomes == start.outcomes + [Ready(wanted.peer, wanted.component, source.signed, source.file)]
  }

  lemma ManifestExchanged(t: Trust, server: Server, s: Client, wanted: Requested, source: UpdateSource)
    requires Offers(t, server, wanted, source)
    requires s.requested == Some(wanted) && s.pending.None?
    requires s.outstanding == [ManifestRequest(wanted.peer, wanted.component)]
    ensures Transferring(Exchanges(t, server, s, 1), s, wanted, source, 0)
  {
    assert Exchanges(t, server, s, 0) == s;
    assert Answered(s, 0).outstanding == [];
    assert source.file[..0] == [];
  }

  lemma ChunkExchanged(t: Trust, server: Server, s: Client, start: Client, wanted: Requested, source: UpdateSource,
      k: nat)
    requires Offers(t, server, wanted, source) && Transferring(s, start, wanted, source, k)
    requires k < ChunkCount(|source.file|)
    ensures s.outstanding != []
    ensures Transferring(UpdateStep(t, s, ResponseEvent(0, Serve(server, s.outstanding[0]), ALL_WELL)), start,
        wanted, source, k + 1)
  {
    CountBounds(|source.file|, k);
    var n := k * UPDATE_CHUNK_BYTES;
    var m := Min(n + UPDATE_CHUNK_BYTES, |source.file|);
    assert source.file[..m] == source.file[..n] + source.file[n..m];
    assert m == |source.file| ==> source.file[..m] == source.file;
    assert Answered(s, 0).outstanding == [];
    assert Serve(server, s.outstanding[0]) == ChunkResponse(n, source.file[n..m]);
    hide Acceptable;
  }

  lemma CountBounds(size: nat, k: nat)
    ensures k < ChunkCount(size) <==> k * UPDATE_CHUNK_BYTES < size
  {
  }

  lemma {:induction false} PrefixExchanged(t: Trust, server: Server, s: Client, wanted: Requested,
      source: UpdateSource, k: nat)
    requires Offers(t, server, wanted, source)
    requires s.requested == Some(wanted) && s.pending.None?
    requires s.outstanding == [ManifestRequest(wanted.peer, wanted.component)]
    requires k <= ChunkCount(|source.file|)
    ensures Transferring(Exchanges(t, server, s, 1 + k), s, wanted, source, k)
    decreases k
  {
    hide Offers, Transferring, Serve, UpdateStep, ChunkCount;
    if k == 0 {
      ManifestExchanged(t, server, s, wanted, source);
    } else {
      PrefixExchanged(t, server, s, wanted, source, k - 1);
      ChunkExchanged(t, server, Exchanges(t, server, s, k), s, wanted, source, k - 1);
    }
  }

  /** Against a server whose file is the one that its manifest describes: after the manifest and `k` chunks the
      client holds the first `k` chunks of the file, with one request outstanding, and it reports the whole file as
      ready after exactly as many chunks as the file has. */
  lemma TransferIsExact(t: Trust, server: Server, s: Client, wanted: Requested, trusted: set<PeerId>,
      source: UpdateSource, k: nat)
    requires Offers(t, server, wanted, source) && wanted.peer in trusted
    requires s.requested.None? && s.pending.None? && s.outstanding == []
    requires k <= ChunkCount(|source.file|)
    ensures var u := Exchanges(t, server, BeginUpdate(s, wanted, false, trusted), 1 + k);
      if k == ChunkCount(|source.file|) then
        && u.outcomes == s.outcomes + [Ready(wanted.peer, wanted.component, source.signed, source.file)]
        && u.requested.None? && u.pending.None? && u.outstanding == []
      else
        && u.outcomes == s.outcomes && u.pending.Some? && |u.outstanding| == 1
        && u.pending.value.received == k * UPDATE_CHUNK_BYTES
        && u.pending.value.file == source.file[..k * UPDATE_CHUNK_BYTES]
  {
    PrefixExchanged(t, server, BeginUpdate(s, wanted, false, trusted), wanted, source, k);
    CountBounds(|source.file|, k);
    hide Exchanges, Offers, ChunkCount;
  }
}

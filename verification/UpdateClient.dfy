/** The update client with its mutable state, proved against the step functions of `UpdateTransfer`. */
module UpdateClient {
  import opened Core
  import opened StorageModel
  import opened StorageFiles
  import opened UpdateTransfer

  class UpdateManager {
    const trust: Trust
    var requested: Option<Requested>
    var pending: Option<Pending>
    var outstanding: seq<UpdateRequest>
    var outcomes: seq<Outcome>

    ghost function State(): Client
      reads this
    {
      Client(requested, pending, outstanding, outcomes)
    }

    constructor (trust: Trust)
      ensures this.trust == trust && State() == NO_UPDATE
    {
      this.trust := trust;
      requested := None;
      pending := None;
      outstanding := [];
      outcomes := [];
    }

    method Report(outcome: Outcome)
      modifies this`outcomes
      ensures outcomes == old(outcomes) + [outcome]
    {
      outcomes := outcomes + [outcome];
    }

    /** `begin_component_update_request`. */
    method Begin(wanted: Requested, disabled: bool, trusted: set<PeerId>)
      modifies this
      ensures State() == BeginUpdate(old(State()), wanted, disabled, trusted)
    {
      if disabled {
        Report(UpdateFailed(wanted.peer));
        return;
      }
      if wanted.peer !in trusted {
        Report(UpdateFailed(wanted.peer));
        return;
      }
      if pending.Some? || requested.Some? {
        Report(UpdateFailed(wanted.peer));
        return;
      }
      requested := Some(wanted);
      outstanding := outstanding + [ManifestRequest(wanted.peer, wanted.component)];
    }

    /** `request_next_update_chunk`. */
    method RequestNextChunk()
      modifies this`outstanding
      ensures outstanding == old(outstanding) + if pending.Some? then [NextChunkRequest(pending.value)] else []
    {
      if pending.Some? {
        var p := pending.value;
        outstanding := outstanding
          + [ChunkRequest(p.peer, p.component, p.signed.manifest.version, p.received, UPDATE_CHUNK_BYTES)];
      }
    }

    /** A signed manifest. */
    method HandleManifest(peer: PeerId, signed: Signed, luck: FileLuck)
      modifies this
      ensures State() == ManifestComes(trust, old(State()), peer, signed, luck)
    {
      if requested.None? {
        return;
      }
      var wanted := requested.value;
      requested := None;
      if wanted.peer != peer {
        Report(UpdateFailed(peer));
        return;
      }
      if !Acceptable(trust, peer, signed, wanted.component) {
        Report(UpdateFailed(peer));
        return;
      }
      if !luck.creates {
        Report(UpdateFailed(peer));
        return;
      }
      pending := Some(Pending(peer, wanted.component, signed, [], 0, wanted.applyWhenReady));
      RequestNextChunk();
    }

    /** `verify_download`: the file is read in pieces of 64 KiB. */
    method VerifyDownload(file: Bytes, m: UpdateManifest) returns (ok: bool)
      ensures ok == Verified(trust, file, m)
    {
      if |file| != m.size {
        return false;
      }
      var input := new SourceFile(file);
      var buffer := new bv8[64 * 1024];
      var hashed: Bytes := [];
      while true
        invariant input.Valid() && fresh(input) && fresh(buffer) && file == hashed + input.Rest()
        decreases |input.Rest()|
      {
        ghost var rest := input.Rest();
        var read := input.Read(buffer, 0);
        assert file == hashed + rest[..read] + rest[read..];
        if read == 0 {
          break;
        }
        hashed := hashed + buffer[..read];
      }
      ok := trust.digest(hashed) == m.digest;
    }

    /** A chunk. */
    method HandleChunk(peer: PeerId, offset: nat, data: Bytes, luck: FileLuck)
      modifies this
      ensures State() == ChunkComes(trust, old(State()), peer, offset, data, luck)
    {
      if pending.None? {
        return;
      }
      var p := pending.value;
      pending := None;
      if p.peer != peer || offset != p.received {
        Report(UpdateFailed(peer));
        return;
      }
      if data == [] || p.received + |data| > p.signed.manifest.size {
        Report(UpdateFailed(peer));
        return;
      }
      if !luck.writes {
        Report(UpdateFailed(peer));
        return;
      }
      p := p.(file := p.file + data, received := p.received + |data|);
      if p.received != p.signed.manifest.size {
        pending := Some(p);
        RequestNextChunk();
        return;
      }
      if !luck.flushes {
        Report(UpdateFailed(peer));
        return;
      }
      var ok := VerifyDownload(p.file, p.signed.manifest);
      Report(if ok then Ready(peer, p.component, p.signed, p.file) else UpdateFailed(peer));
    }

    /** An error response or an outbound failure. */
    method HandleFailure(peer: PeerId)
      modifies this
      ensures State() == HandleUpdateFailure(old(State()), peer)
    {
      requested := None;
      pending := None;
      Report(UpdateFailed(peer));
    }

    /** `handle_update_event`, and the commands that begin an update. */
    method HandleEvent(event: UpdateEvent)
      modifies this
      ensures State() == UpdateStep(trust, old(State()), event)
    {
      if event.BeginEvent? {
        Begin(event.wanted, event.disabled, event.trusted);
      } else if event.at < |outstanding| {
        var peer := outstanding[event.at].peer;
        outstanding := outstanding[..event.at] + outstanding[event.at + 1..];
        if event.FailureEvent? {
          HandleFailure(peer);
        } else {
          match event.response
          case ManifestResponse(signed) => HandleManifest(peer, signed, event.luck);
          case ChunkResponse(offset, data) => HandleChunk(peer, offset, data, event.luck);
          case ErrorResponse => HandleFailure(peer);
        }
      }
    }
  }
}

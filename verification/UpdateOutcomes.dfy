/** When an update begins, when a chunk is taken or served, and what is ready at the end. */
module UpdateOutcomes {
  import opened Core
  import opened StorageModel
  import opened UpdateTransfer

  // ---------- Only what was asked for, of whom it may be asked ----------

  /** Updates were not disabled and the peer was trusted when its component was asked for. */
  ghost predicate Allowed(events: seq<UpdateEvent>, peer: PeerId, component: Component) {
    exists k | 0 <= k < |events| ::
      && events[k].BeginEvent? && !events[k].disabled && peer in events[k].trusted
      && events[k].wanted.peer == peer && events[k].wanted.component == component
  }

  ghost predicate OnlyAllowed(s: Client, events: seq<UpdateEvent>) {
    && (s.requested.Some? ==> Allowed(events, s.requested.value.peer, s.requested.value.component))
    && (s.pending.Some? ==> Allowed(events, s.pending.value.peer, s.pending.value.component))
    && forall outcome | outcome in s.outcomes && outcome.Ready? :: Allowed(events, outcome.peer, outcome.component)
  }

  lemma AllowedLater(events: seq<UpdateEvent>, peer: PeerId, component: Component)
    requires events != [] && Allowed(Init(events), peer, component)
    ensures Allowed(events, peer, component)
  {
    var k :| 0 <= k < |events| - 1
      && Init(events)[k].BeginEvent? && !Init(events)[k].disabled && peer in Init(events)[k].trusted
      && Init(events)[k].wanted.peer == peer && Init(events)[k].wanted.component == component;
    assert events[k] == Init(events)[k];
  }

  lemma StaysAllowed(s: Client, events: seq<UpdateEvent>)
    requires events != [] && OnlyAllowed(s, Init(events))
    ensures OnlyAllowed(s, events)
  {
    hide Allowed;
    forall peer, component | Allowed(Init(events), peer, component) ensures Allowed(events, peer, component) {
      AllowedLater(events, peer, component);
    }
  }

  lemma StepAllowed(t: Trust, s: Client, events: seq<UpdateEvent>)
    requires events != [] && OnlyAllowed(s, events)
    ensures OnlyAllowed(UpdateStep(t, s, Last(events)), events)
  {
    hide Acceptable, Verified, NextChunkRequest;
    var event := Last(events);
    if event.BeginEvent? && !event.disabled && event.wanted.peer in event.trusted {
      assert events[|events| - 1] == event;
      assert Allowed(events, event.wanted.peer, event.wanted.component);
    }
    hide Allowed;
  }

  /** Whatever the peers answer: a package is reported ready only if its component was asked of the peer that sent
      it, by a command that found updates enabled and this peer trusted. */
  lemma {:induction false} ReadyWasAllowed(t: Trust, events: seq<UpdateEvent>)
    ensures OnlyAllowed(UpdateRun(t, NO_UPDATE, events), events)
  {
    hide UpdateStep, Allowed, OnlyAllowed;
    if events == [] {
      assert OnlyAllowed(NO_UPDATE, []) by {
        NothingReady();
      }
    } else {
      var s := UpdateRun(t, NO_UPDATE, Init(events));
      ReadyWasAllowed(t, Init(events));
      StaysAllowed(s, events);
      StepAllowed(t, s, events);
    }
  }

  lemma NothingReady()
    ensures OnlyAllowed(NO_UPDATE, [])
  {
  }

  /** A command to begin asks its peer for the manifest exactly when updates are enabled, the peer is trusted and no
      update is active, and else reports the refusal alone. */
  lemma WhenAnUpdateBegins(t: Trust, s: Client, wanted: Requested, disabled: bool, trusted: set<PeerId>)
    ensures var u := UpdateStep(t, s, BeginEvent(wanted, disabled, trusted));
      var begins := !disabled && wanted.peer in trusted && s.requested.None? && s.pending.None?;
      && (u.outstanding != s.outstanding <==> begins)
      && (begins ==> u == s.(requested := Some(wanted),
            outstanding := s.outstanding + [ManifestRequest(wanted.peer, wanted.component)]))
      && (!begins ==> u == s.(outcomes := s.outcomes + [UpdateFailed(wanted.peer)]))
  {
    assert |s.outstanding + [ManifestRequest(wanted.peer, wanted.component)]| > |s.outstanding|;
  }

  /** The manifest that was asked for opens the download exactly when it announces one byte to 128 MiB, is genuine and
      the file can be created; then its first chunk is asked for. Otherwise the update ends. */
  lemma WhenAManifestIsAccepted(t: Trust, s: Client, signed: Signed, luck: FileLuck)
    requires ClientOk(t, s) && s.requested.Some? && s.outstanding != []
    ensures var u, wanted := UpdateStep(t, s, ResponseEvent(0, ManifestResponse(signed), luck)), s.requested.value;
      var accepted := 1 <= signed.manifest.size <= 134217728
          && t.genuine(wanted.peer, signed, wanted.component) && luck.creates;
      && u.requested.None?
      && (u.pending.Some? <==> accepted)
      && (accepted ==>
            && u.pending.value == Pending(wanted.peer, wanted.component, signed, [], 0, wanted.applyWhenReady)
            && u.outstanding == [ChunkRequest(wanted.peer, wanted.component, signed.manifest.version, 0, 262144)]
            && u.outcomes == s.outcomes)
      && (!accepted ==> u.outstanding == [] && u.outcomes == s.outcomes + [UpdateFailed(wanted.peer)])
  {
    assert Answered(s, 0).outstanding == [];
  }

  // ---------- One chunk ----------

  /** A chunk that was asked for is taken exactly when it continues the file, is not empty, stays within the announced
      size and can be written. Then the next one is asked for if the file is not complete, and if it is, the package is
      ready exactly when its digest is the announced one. Everything else ends the update. */
  lemma WhenAChunkIsTaken(t: Trust, s: Client, offset: nat, data: Bytes, luck: FileLuck)
    requires ClientOk(t, s) && s.pending.Some? && s.outstanding != []
    ensures var u, p := UpdateStep(t, s, ResponseEvent(0, ChunkResponse(offset, data), luck)), s.pending.value;
      var file, m := p.file + data, p.signed.manifest;
      var taken := offset == |p.file| && data != [] && |file| <= m.size && luck.writes;
      var ready := taken && |file| == m.size && luck.flushes && t.digest(file) == m.digest;
      && u.requested.None?
      && (u.pending.Some? <==> taken && |file| < m.size)
      && (u.pending.Some? ==>
            && u.pending.value == p.(file := file, received := |file|) && u.outcomes == s.outcomes
            && u.outstanding == [ChunkRequest(p.peer, p.component, m.version, |file|, 262144)])
      && (u.pending.None? ==>
            && u.outstanding == []
            && u.outcomes == s.outcomes + [if ready then Ready(p.peer, p.component, p.signed, file)
                else UpdateFailed(p.peer)])
  {
    hide Acceptable;
    assert Answered(s, 0).outstanding == [];
  }

  // ---------- The server ----------

  /** A server sends a chunk exactly when it is asked for the version it has, within the announced size, and its file
      reaches so far; then it sends at most 256 KiB of its file from there, as many as asked for up to the announced
      end. */
  lemma WhenAChunkIsServed(source: UpdateSource, version: string, offset: nat, length: nat)
    ensures var response, size := ServeChunk(source, version, offset, length), source.signed.manifest.size;
      && (response == ErrorResponse || response.ChunkResponse?)
      && (response.ChunkResponse? ==>
            && response.offset == offset && offset + |response.data| <= |source.file|
            && response.data == source.file[offset..offset + |response.data|]
            && |response.data| <= 262144 && |response.data| <= length && offset + |response.data| <= size
            && (|response.data| == 262144 || |response.data| == length || offset + |response.data| == size))
      && (response.ChunkResponse? <==>
            && version == source.signed.manifest.version && offset < size
            && (offset + 262144 <= |source.file| || offset + length <= |source.file| || size <= |source.file|))
  {
  }

  /** If the server has another version by now, its answer ends the transfer, and nothing of the file is reported. */
  lemma AnotherVersionEndsTheTransfer(t: Trust, s: Client, server: Server)
    requires ClientOk(t, s) && s.pending.Some? && s.outstanding != []
    requires var source := SourceOf(server, s.pending.value.component);
      source.Some? ==> source.value.signed.manifest.version != s.pending.value.signed.manifest.version
    ensures Exchanges(t, server, s, 1)
         == s.(pending := None, outstanding := [], outcomes := s.outcomes + [UpdateFailed(s.pending.value.peer)])
  {
    hide Acceptable;
    assert Answered(s, 0).outstanding == [];
    assert Serve(server, s.outstanding[0]) == ErrorResponse;
    assert Exchanges(t, server, s, 0) == s;
  }
}

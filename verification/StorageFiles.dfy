/** The artifact store with its mutable directories, proved against `StorageModel`. */
module StorageFiles {
  import opened Core
  import opened StorageModel
  import opened StorageTheorems

  /** A file that is read from front to back. */
  class SourceFile {
    const content: Bytes
    var at: nat

    ghost predicate Valid()
      reads this
    {
      at <= |content|
    }

    ghost function Rest(): Bytes
      requires Valid()
      reads this
    {
      content[at..]
    }

    constructor (content: Bytes)
      ensures Valid() && Rest() == content && this.content == content
    {
      this.content := content;
      this.at := 0;
    }

    /** One read of the operating system: it may stop anywhere, but returns nothing only at the end. */
    method Read(buffer: array<bv8>, filled: nat) returns (n: nat)
      requires Valid() && filled <= buffer.Length
      modifies this`at, buffer
      ensures Valid() && n <= |old(Rest())| && filled + n <= buffer.Length
      ensures n == 0 <==> filled == buffer.Length || old(Rest()) == []
      ensures buffer[..filled] == old(buffer[..filled]) && buffer[filled..filled + n] == old(Rest())[..n]
      ensures Rest() == old(Rest())[n..]
    {
      n := 0;
      if filled < buffer.Length && at < |content| {
        var wanted: nat :| 0 < wanted;
        n := Min(wanted, Min(buffer.Length - filled, |content| - at));
        forall i | 0 <= i < n {
          buffer[filled + i] := content[at + i];
        }
        at := at + n;
      }
    }

    /** `read_block`: fills the buffer unless the file ends first. */
    method ReadBlock(buffer: array<bv8>) returns (filled: nat)
      requires Valid() && buffer.Length == BLOCK_BYTES
      modifies this`at, buffer
      ensures Valid() && filled == Min(BLOCK_BYTES, |old(Rest())|)
      ensures buffer[..filled] == old(Rest())[..filled] && Rest() == old(Rest())[filled..]
    {
      filled := 0;
      while filled < buffer.Length
        invariant Valid() && filled <= buffer.Length && filled <= |old(Rest())|
        invariant buffer[..filled] == old(Rest())[..filled] && Rest() == old(Rest())[filled..]
        decreases buffer.Length - filled
      {
        var n := Read(buffer, filled);
        if n == 0 {
          break;
        }
        assert buffer[..filled + n] == buffer[..filled] + buffer[filled..filled + n];
        assert old(Rest())[filled..][..n] == old(Rest())[filled..filled + n];
        filled := filled + n;
      }
    }
  }

  /** One more block of an unchanging file. */
  lemma NextChunk(rest: Bytes)
    ensures var n := Min(BLOCK_BYTES, |rest|);
      Chunks(rest) == if n == 0 then [] else [rest[..n]] + Chunks(rest[n..])
  {
    var n := Min(BLOCK_BYTES, |rest|);
    if rest != [] && n == |rest| {
      assert rest[..n] == rest && rest[n..] == [];
      assert [rest] + [] == [rest];
    }
  }

  /** What `describe` has collected when `rest` is still to be read. */
  ghost predicate DescribedSoFar(
      c: Config, all: seq<Bytes>, rest: seq<Bytes>, chunks: seq<Bytes>, hashed: Bytes, size: nat, blocks: seq<BlockRef>)
  {
    all == chunks + rest && hashed == Concat(chunks) && size == |hashed| && blocks == RefsOf(c, chunks)
  }

  lemma NothingDescribed(c: Config, all: seq<Bytes>)
    ensures DescribedSoFar(c, all, all, [], [], 0, [])
  {
  }

  lemma MoreDescribed(
      c: Config, all: seq<Bytes>, rest: seq<Bytes>, chunks: seq<Bytes>, hashed: Bytes, size: nat, blocks: seq<BlockRef>,
      chunk: Bytes)
    requires DescribedSoFar(c, all, [chunk] + rest, chunks, hashed, size, blocks)
    ensures DescribedSoFar(c, all, rest, chunks + [chunk], hashed + chunk, size + |chunk|,
                           blocks + [BlockRef(c.digest(chunk), |chunk|)])
  {
    assert chunks + ([chunk] + rest) == chunks + [chunk] + rest;
    assert Init(chunks + [chunk]) == chunks;
  }

  lemma AllDescribed(c: Config, all: seq<Bytes>, chunks: seq<Bytes>, hashed: Bytes, size: nat, blocks: seq<BlockRef>)
    requires DescribedSoFar(c, all, [], chunks, hashed, size, blocks)
    ensures Manifest(MANIFEST_VERSION, c.digest(hashed), size, BLOCK_BYTES, blocks) == Describe(c, all)
  {
    assert chunks + [] == chunks;
  }

  class ArtifactStore {
    const config: Config
    var blocks: map<ContentId, Bytes>
    var manifests: map<ContentId, ManifestFile>

    ghost function State(): Store
      reads this
    {
      Store(blocks, manifests)
    }

    constructor (config: Config)
      ensures this.config == config && State() == EMPTY
    {
      this.config := config;
      blocks := map[];
      manifests := map[];
    }

    /** `describe`. */
    method DescribeFile(file: SourceFile) returns (m: Manifest)
      requires file.Valid() && file.Rest() == file.content
      modifies file`at
      ensures m == Describe(config, Chunks(file.content))
    {
      var buffer := new bv8[BLOCK_BYTES];
      hide Chunks, DescribedSoFar;
      var hashed: Bytes, blocks: seq<BlockRef>, size := [], [], 0;
      ghost var chunks: seq<Bytes> := [];
      NothingDescribed(config, Chunks(file.content));
      var read := 1;
      while read != 0
        invariant file.Valid() && fresh(buffer)
        invariant DescribedSoFar(config, Chunks(file.content), if read == 0 then [] else Chunks(file.Rest()),
                                 chunks, hashed, size, blocks)
        decreases read != 0, |file.Rest()|
      {
        NextChunk(file.Rest());
        read := file.ReadBlock(buffer);
        if read != 0 {
          var chunk := buffer[..read];
          MoreDescribed(config, Chunks(file.content), Chunks(file.Rest()), chunks, hashed, size, blocks, chunk);
          hashed := hashed + chunk;
          size := size + read;
          blocks := blocks + [BlockRef(config.digest(chunk), read)];
          chunks := chunks + [chunk];
        }
      }
      AllDescribed(config, Chunks(file.content), chunks, hashed, size, blocks);
      m := Manifest(MANIFEST_VERSION, config.digest(hashed), size, BLOCK_BYTES, blocks);
    }

    /** `stats`: the used bytes. */
    method UsedBytes() returns (used: nat)
      ensures used == Saturated(Used(config, State()))
    {
      var blockBytes := DirectoryUsage(BlockSizes(Store(blocks, manifests)));
      var manifestBytes := DirectoryUsage(ManifestSizes(config, Store(blocks, manifests)));
      used := Saturated(blockBytes + manifestBytes);
    }

    /** `directory_usage`: the files in whatever order the directory lists them. */
    static method DirectoryUsage(sizes: map<ContentId, nat>) returns (bytes: nat)
      ensures bytes == Saturated(SumOf(sizes))
    {
      bytes := 0;
      var rest := sizes;
      ghost var counted: nat := 0;
      while rest != map[]
        invariant bytes == Saturated(counted) && counted + SumOf(rest) == SumOf(sizes)
        decreases |rest|
      {
        var id :| id in rest;
        SumWithout(rest, id);
        bytes := Saturated(bytes + rest[id]);
        counted := counted + rest[id];
        rest := rest - {id};
      }
    }

    /** `read_block`. */
    method ReadBlockFile(b: BlockRef) returns (result: Result<Bytes>)
      ensures result == ReadBlock(config, State(), b)
    {
      if b.id !in blocks {
        return Err(Io);
      }
      var bytes := blocks[b.id];
      if |bytes| != b.size || config.digest(bytes) != b.id {
        return Err(Integrity);
      }
      return Ok(bytes);
    }

    /** `verified_artifact_digest` and the comparison with the manifest. */
    method VerifyManifestBlocks(m: Manifest) returns (result: Result<Bytes>)
      ensures result == VerifyBlocks(config, State(), m)
    {
      var hashed: Bytes, total := [], 0;
      for i := 0 to |m.blocks|
        invariant ReadAll(config, State(), m.blocks[..i]) == Ok(hashed) && total == |hashed|
      {
        assert Init(m.blocks[..i + 1]) == m.blocks[..i];
        var bytes := ReadBlockFile(m.blocks[i]);
        if bytes.Err? {
          StopsAtFirst(config, State(), m.blocks, i + 1);
          return bytes;
        }
        total := total + |bytes.value|;
        hashed := hashed + bytes.value;
      }
      assert m.blocks[..|m.blocks|] == m.blocks;
      if total != m.size || config.digest(hashed) != m.id {
        return Err(Integrity);
      }
      return Ok(hashed);
    }

    /** `manifest`. */
    method Load(id: ContentId) returns (result: Result<Manifest>)
      ensures result == LoadManifest(State(), id)
    {
      if id !in manifests {
        return Err(NotFound);
      }
      match manifests[id]
      case Undecodable(_) => return Err(Undecoded);
      case Encoded(m) =>
        if !ValidManifest(m) {
          return Err(Integrity);
        }
        if m.id != id {
          return Err(Integrity);
        }
        return Ok(m);
    }

    /** `verify`. */
    method VerifyArtifact(id: ContentId) returns (result: Result<Manifest>)
      ensures result == Verify(config, State(), id)
    {
      result := Load(id);
      if result.Ok? {
        var bytes := VerifyManifestBlocks(result.value);
        if bytes.Err? {
          return Err(bytes.error);
        }
      }
    }

    /** `export`, to a destination that may exist. */
    method ExportArtifact(id: ContentId, taken: bool) returns (result: Result<Bytes>)
      ensures result == Export(config, State(), id, taken)
    {
      if taken {
        return Err(DestinationExists);
      }
      var m := VerifyArtifact(id);
      if m.Err? {
        return Err(m.error);
      }
      var refs, output: Bytes := m.value.blocks, [];
      for i := 0 to |refs|
        invariant Copied(State(), refs[..i]) == Ok(output)
      {
        assert Init(refs[..i + 1]) == refs[..i];
        if refs[i].id !in blocks {
          CopyStopsAtFirst(State(), refs, i + 1);
          return Err(Io);
        }
        output := output + blocks[refs[i].id];
      }
      assert refs[..|refs|] == refs;
      return Ok(output);
    }

    /** `missing_blocks`. */
    method FindMissing(m: Manifest) returns (result: Result<seq<BlockRef>>)
      ensures result == MissingBlocks(config, State(), m)
    {
      if !ValidManifest(m) {
        return Err(Integrity);
      }
      var missing, seen := [], {};
      for i := 0 to |m.blocks|
        invariant missing == MissingOf(config, State(), m.blocks[..i])
        invariant seen == Ids(m.blocks[..i])
      {
        var b := m.blocks[i];
        assert Init(m.blocks[..i + 1]) == m.blocks[..i];
        IdsOf(m.blocks[..i + 1]);
        if b.id in seen {
          continue;
        }
        seen := seen + {b.id};
        if b.id !in blocks || |blocks[b.id]| != b.size || config.digest(blocks[b.id]) != b.id {
          missing := missing + [b];
        }
      }
      assert m.blocks[..|m.blocks|] == m.blocks;
      return Ok(missing);
    }

    /** `store_block`. */
    method StoreReceived(b: BlockRef, bytes: Bytes, disk: Disk) returns (result: Result<()>)
      modifies this
      ensures Answer(State(), result) == StoreBlock(config, old(State()), b, bytes, disk)
    {
      if b.size == 0 || b.size > BLOCK_BYTES || |bytes| != b.size || config.digest(bytes) != b.id {
        return Err(Integrity);
      }
      var existing := if disk.readable && b.id in blocks then Some(blocks[b.id]) else None;
      if existing.Some? && |existing.value| == |bytes| && config.digest(existing.value) == b.id {
        return Ok(());
      }
      var used := UsedBytes();
      var reclaimable := if existing.Some? then |existing.value| else 0;
      var available := Saturated(SaturatingSub(config.quota, used) + reclaimable);
      if |bytes| > available {
        return Err(QuotaExceeded(|bytes|, available));
      }
      if b.id in blocks {
        if !disk.removable {
          return Err(Io);
        }
        blocks := blocks - {b.id};
      }
      result := WriteBlock(b.id, bytes, disk.writable);
      assert old(blocks) - {b.id} == old(blocks) - {b.id} - {b.id};
      assert (old(blocks) - {b.id})[b.id := bytes] == old(blocks)[b.id := bytes];
      assert b.id !in old(blocks) ==> old(blocks) - {b.id} == old(blocks);
    }

    /** `write_atomic` for a block: an existing file is kept, and a failed write leaves nothing behind. */
    method WriteBlock(id: ContentId, bytes: Bytes, writable: bool) returns (result: Result<()>)
      modifies this`blocks
      ensures id in old(blocks) ==> blocks == old(blocks) && result == Ok(())
      ensures id !in old(blocks) ==>
        && result == (if writable then Ok(()) else Err(Io))
        && blocks == if writable then old(blocks)[id := bytes] else old(blocks)
    {
      if id in blocks {
        return Ok(());
      }
      if !writable {
        return Err(Io);
      }
      blocks := blocks[id := bytes];
      return Ok(());
    }

    /** `commit_manifest`. */
    method Commit(m: Manifest, writable: bool) returns (result: Result<()>)
      modifies this
      ensures Answer(State(), result) == CommitManifest(config, old(State()), m, writable)
    {
      if !ValidManifest(m) {
        return Err(Integrity);
      }
      var bytes := VerifyManifestBlocks(m);
      if bytes.Err? {
        return Err(bytes.error);
      }
      if m.id in manifests {
        return Ok(());
      }
      var used := UsedBytes();
      var available := SaturatingSub(config.quota, used);
      if config.encodedLength(m) > available {
        return Err(QuotaExceeded(config.encodedLength(m), available));
      }
      if !writable {
        return Err(Io);
      }
      manifests := manifests[m.id := Encoded(m)];
      return Ok(());
    }

    /** The space that an import of the manifest needs. */
    method RequiredBytes(m: Manifest) returns (required: nat)
      ensures required == Required(config, State(), m)
    {
      hide Ids, Needed, Saturated;
      var uniqueNew := {};
      required := if m.id in manifests then 0 else config.encodedLength(m);
      ghost var s, manifestBytes := State(), required;
      assert m.blocks[..|m.blocks|] == m.blocks;
      NeededLast(s, m.blocks[..0]);
      SaturatedTwice(required, 0);
      for i := 0 to |m.blocks|
        invariant uniqueNew == Ids(m.blocks[..i]) - blocks.Keys
        invariant required == Saturated(manifestBytes + Needed(s, m.blocks[..i]))
      {
        var b := m.blocks[i];
        NeededNext(s, m.blocks, i);
        SaturatedTwice(manifestBytes + Needed(s, m.blocks[..i]), b.size);
        if b.id !in blocks && b.id !in uniqueNew {
          uniqueNew := uniqueNew + {b.id};
          required := Saturated(required + b.size);
        }
      }
    }

    /** `import`: `file` and `again` are the two openings of the source, which may differ. */
    method ImportFile(file: SourceFile, again: SourceFile, writes: nat) returns (result: Result<Manifest>)
      requires file != again && file.Valid() && file.Rest() == file.content
      requires again.Valid() && again.Rest() == again.content
      modifies this, file`at, again`at
      ensures Answer(State(), result)
           == Import(config, old(State()), Chunks(file.content), Chunks(again.content), writes)
    {
      hide Available, Required, ValidManifest;
      var m := DescribeFile(file);
      if !ValidManifest(m) {
        return Err(Integrity);
      }
      var required := RequiredBytes(m);
      var used := UsedBytes();
      assert SaturatingSub(config.quota, used) == Available(config, State()) by {
        AvailableIs(config, State());
      }
      if required > SaturatingSub(config.quota, used) {
        return Err(QuotaExceeded(required, SaturatingSub(config.quota, used)));
      }
      var error, left := CopyAll(m, again, writes);
      if error.Some? {
        return Err(error.value);
      }
      if m.id in manifests {
        return Ok(m);
      }
      if left == 0 {
        return Err(Io);
      }
      manifests := manifests[m.id := Encoded(m)];
      return Ok(m);
    }

    /** One block of the second pass. */
    method CopyOne(expected: BlockRef, bytes: Bytes, writes: nat) returns (error: Option<Error>, left: nat)
      modifies this`blocks
      ensures Pass(State(), left, error) == CopyBlock(config, Pass(old(State()), writes, None), expected, bytes)
    {
      left := writes;
      if |bytes| != expected.size || config.digest(bytes) != expected.id {
        return Some(Integrity), left;
      }
      if expected.id in blocks {
        var existing := blocks[expected.id];
        if |existing| != expected.size || config.digest(existing) != expected.id {
          return Some(Integrity), left;
        }
        return None, left;
      }
      var written := WriteBlock(expected.id, bytes, left > 0);
      if written.Err? {
        return Some(Io), left;
      }
      return None, left - 1;
    }

    /** The second pass, and the look for bytes after its end. */
    method CopyAll(m: Manifest, again: SourceFile, writes: nat) returns (error: Option<Error>, left: nat)
      requires again.Valid() && again.Rest() == again.content
      modifies this`blocks, again`at
      ensures var pass := CopyBlocks(config, old(State()), m.blocks, Chunks(again.content), writes);
        && State() == pass.store
        && (pass.error.Some? ==> error == pass.error)
        && (pass.error.None? ==>
              && left == pass.writes
              && error == if ReadAt(Chunks(again.content), |m.blocks|) != [] then Some(Integrity) else None)
    {
      hide CopyBlock, Chunks;
      var buffer := new bv8[BLOCK_BYTES];
      ghost var before, second := State(), Chunks(again.content);
      left := writes;
      for i := 0 to |m.blocks|
        invariant again.Valid() && fresh(buffer) && manifests == old(manifests)
        invariant NextReads(second, i, again.Rest())
        invariant CopyBlocks(config, before, m.blocks[..i], second, writes) == Pass(State(), left, None)
      {
        NextRead(second, i, again.Rest());
        PassNext(config, before, m.blocks, second, writes, i);
        var read := again.ReadBlock(buffer);
        hide CopyBlocks, NextReads;
        error, left := CopyOne(m.blocks[i], buffer[..read], left);
        if error.Some? {
          PassStopsAtFirst(config, before, m.blocks, second, writes, i + 1);
          return;
        }
      }
      assert m.blocks[..|m.blocks|] == m.blocks;
      NextRead(second, |m.blocks|, again.Rest());
      var read := again.ReadBlock(buffer);
      error := if read != 0 then Some(Integrity) else None;
    }
  }

  lemma SaturatedTwice(x: nat, y: nat)
    ensures Saturated(Saturated(x) + y) == Saturated(x + y)
    ensures x <= MAX_U64 ==> Saturated(x) == x
  {
  }

  lemma NeededNext(s: Store, refs: seq<BlockRef>, i: nat)
    requires i < |refs|
    ensures Ids(refs[..i + 1]) == Ids(refs[..i]) + {refs[i].id}
    ensures Needed(s, refs[..i + 1])
         == Needed(s, refs[..i]) + if refs[i].id in s.blocks || refs[i].id in Ids(refs[..i]) then 0 else refs[i].size
  {
    assert Init(refs[..i + 1]) == refs[..i];
    IdsOf(refs[..i + 1]);
  }

  lemma PassNext(c: Config, s: Store, refs: seq<BlockRef>, second: seq<Bytes>, writes: nat, i: nat)
    requires i < |refs|
    ensures CopyBlocks(c, s, refs[..i + 1], second, writes)
         == CopyBlock(c, CopyBlocks(c, s, refs[..i], second, writes), refs[i], ReadAt(second, i))
  {
    assert Init(refs[..i + 1]) == refs[..i];
  }

  /** The reads from the i-th on are the blocks of the rest of the file. */
  ghost predicate NextReads(second: seq<Bytes>, i: nat, rest: Bytes) {
    if i <= |second| then second[i..] == Chunks(rest) else rest == []
  }

  lemma NextRead(second: seq<Bytes>, i: nat, rest: Bytes)
    requires NextReads(second, i, rest)
    ensures var n := Min(BLOCK_BYTES, |rest|);
      && ReadAt(second, i) == rest[..n]
      && NextReads(second, i + 1, rest[n..])
  {
    NextChunk(rest);
    hide Chunks;
    if i < |second| {
      assert second[i..][0] == second[i] && second[i + 1..] == second[i..][1..];
    }
  }

  lemma {:induction false} StopsAtFirst(c: Config, s: Store, refs: seq<BlockRef>, n: nat)
    requires n <= |refs| && ReadAll(c, s, refs[..n]).Err?
    ensures ReadAll(c, s, refs) == ReadAll(c, s, refs[..n])
  {
    if n < |refs| {
      assert Init(refs)[..n] == refs[..n];
      StopsAtFirst(c, s, Init(refs), n);
    } else {
      assert refs[..n] == refs;
    }
  }

  lemma {:induction false} CopyStopsAtFirst(s: Store, refs: seq<BlockRef>, n: nat)
    requires n <= |refs| && Copied(s, refs[..n]).Err?
    ensures Copied(s, refs) == Copied(s, refs[..n])
  {
    if n < |refs| {
      assert Init(refs)[..n] == refs[..n];
      CopyStopsAtFirst(s, Init(refs), n);
    } else {
      assert refs[..n] == refs;
    }
  }

  lemma {:induction false} PassStopsAtFirst(c: Config, s: Store, refs: seq<BlockRef>, second: seq<Bytes>,
      writes: nat, n: nat)
    requires n <= |refs| && CopyBlocks(c, s, refs[..n], second, writes).error.Some?
    ensures CopyBlocks(c, s, refs, second, writes) == CopyBlocks(c, s, refs[..n], second, writes)
  {
    if n < |refs| {
      assert Init(refs)[..n] == refs[..n];
      PassStopsAtFirst(c, s, Init(refs), second, writes, n);
    } else {
      assert refs[..n] == refs;
    }
  }

  lemma AvailableIs(c: Config, s: Store)
    ensures Available(c, s) == SaturatingSub(c.quota, Saturated(Used(c, s)))
  {
  }
}

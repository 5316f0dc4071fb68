/** The content-addressed artifact store of crates/swagri-storage on values. */
module StorageModel {
  import opened Core

  const BLOCK_BYTES := 256 * 1024
  const MAX_ARTIFACT_BLOCKS := 16384
  const MANIFEST_VERSION := 1
  const MAX_U64 := 0xFFFF_FFFF_FFFF_FFFF

  type Bytes = seq<bv8>

  /** A 256-bit digest, seen as a number. */
  datatype ContentId = ContentId(number: nat)

  datatype BlockRef = BlockRef(id: ContentId, size: nat)

  datatype Manifest = Manifest(version: nat, id: ContentId, size: nat, blockSize: nat, blocks: seq<BlockRef>)

  /** The length of an encoded manifest: it is never empty, and no byte vector is longer than this in Rust. */
  type FileLength = x: nat | 0 < x < 0x8000_0000_0000_0000 witness 1

  /** `quota_bytes` has 64 bits. */
  type Quota = x: nat | x <= MAX_U64

  /** What a store is built on: the digest, the length of an encoded manifest, and its quota. */
  datatype Config = Config(digest: Bytes -> ContentId, encodedLength: Manifest -> FileLength, quota: Quota)

  /** A file in the manifest directory. */
  datatype ManifestFile = Encoded(manifest: Manifest) | Undecodable(length: nat)

  /** The two directories, by file name. */
  datatype Store = Store(blocks: map<ContentId, Bytes>, manifests: map<ContentId, ManifestFile>)

  const EMPTY := Store(map[], map[])

  datatype Error = NotFound | Integrity | Undecoded | QuotaExceeded(needed: nat,
      available: nat) | DestinationExists | Io

  datatype Result<+T> = Ok(value: T) | Err(error: Error)

  /** The store after a call, and what the call returned. */
  datatype Answer<+T> = Answer(store: Store, result: Result<T>)

  // ---------- Manifests ----------

  function Total(refs: seq<BlockRef>): nat {
    if refs == [] then 0 else Total(Init(refs)) + Last(refs).size
  }

  /** `validate_manifest`. */
  predicate ValidManifest(m: Manifest) {
    && m.version == MANIFEST_VERSION
    && m.blockSize == BLOCK_BYTES
    && !(m.blocks == [] && m.size != 0)
    && |m.blocks| <= MAX_ARTIFACT_BLOCKS
    && (forall i | 0 <= i < |m.blocks| :: 0 < m.blocks[i].size <= BLOCK_BYTES)
    && Total(m.blocks) == m.size
  }

  function Concat(chunks: seq<Bytes>): Bytes {
    if chunks == [] then [] else Concat(Init(chunks)) + Last(chunks)
  }

  function RefsOf(c: Config, chunks: seq<Bytes>): seq<BlockRef> {
    seq(|chunks|, i requires 0 <= i < |chunks| => BlockRef(c.digest(chunks[i]), |chunks[i]|))
  }

  /** `describe`, given the blocks that its reads returned. */
  function Describe(c: Config, chunks: seq<Bytes>): Manifest {
    Manifest(MANIFEST_VERSION, c.digest(Concat(chunks)), |Concat(chunks)|, BLOCK_BYTES, RefsOf(c, chunks))
  }

  /** The blocks of a file that does not change while it is read. */
  function Chunks(file: Bytes): seq<Bytes>
    decreases |file|
  {
    if file == [] then []
    else if |file| <= BLOCK_BYTES then [file]
    else [file[..BLOCK_BYTES]] + Chunks(file[BLOCK_BYTES..])
  }

  /** What `read_block` may return before the end of a file. */
  ghost predicate ReadAsBlocks(chunks: seq<Bytes>) {
    forall i | 0 <= i < |chunks| :: 0 < |chunks[i]| <= BLOCK_BYTES
  }

  // ---------- Space ----------

  /** The sum of the sizes in a directory. */
  ghost function SumOf(sizes: map<ContentId, nat>): nat
    decreases |sizes|
  {
    if sizes == map[] then 0 else
    var id :| id in sizes;
    sizes[id] + SumOf(sizes - {id})
  }

  function BlockSizes(s: Store): map<ContentId, nat> {
    map id | id in s.blocks :: |s.blocks[id]|
  }

  function FileSize(c: Config, file: ManifestFile): nat {
    match file
    case Encoded(m) => c.encodedLength(m)
    case Undecodable(length) => length
  }

  function ManifestSizes(c: Config, s: Store): map<ContentId, nat> {
    map id | id in s.manifests :: FileSize(c, s.manifests[id])
  }

  ghost function Used(c: Config, s: Store): nat {
    SumOf(BlockSizes(s)) + SumOf(ManifestSizes(c, s))
  }

  function Saturated(n: nat): nat {
    if n > MAX_U64 then MAX_U64 else n
  }

  function SaturatingSub(a: nat, b: nat): nat {
    if a <= b then 0 else a - b
  }

  /** `quota_bytes` less the used bytes of `stats`. */
  ghost function Available(c: Config, s: Store): nat {
    SaturatingSub(c.quota, Saturated(Used(c, s)))
  }

  // ---------- Reading ----------

  /** The stored bytes are the ones that the reference names. */
  predicate Good(c: Config, s: Store, b: BlockRef) {
    b.id in s.blocks && |s.blocks[b.id]| == b.size && c.digest(s.blocks[b.id]) == b.id
  }

  /** `read_block`. */
  function ReadBlock(c: Config, s: Store, b: BlockRef): Result<Bytes> {
    if b.id !in s.blocks then Err(Io)
    else if Good(c, s, b) then Ok(s.blocks[b.id])
    else Err(Integrity)
  }

  /** The blocks one after the other, up to the first that cannot be read. */
  function ReadAll(c: Config, s: Store, refs: seq<BlockRef>): Result<Bytes> {
    if refs == [] then Ok([]) else
    var before := ReadAll(c, s, Init(refs));
    if before.Err? then before else
    var last := ReadBlock(c, s, Last(refs));
    if last.Err? then last else Ok(before.value + last.value)
  }

  /** `verify_manifest_blocks`. */
  function VerifyBlocks(c: Config, s: Store, m: Manifest): Result<Bytes> {
    var bytes := ReadAll(c, s, m.blocks);
    if bytes.Err? then bytes
    else if |bytes.value| != m.size || c.digest(bytes.value) != m.id then Err(Integrity)
    else bytes
  }

  /** `manifest`. */
  function LoadManifest(s: Store, id: ContentId): Result<Manifest> {
    if id !in s.manifests then Err(NotFound) else
    match s.manifests[id]
    case Undecodable(_) => Err(Undecoded)
    case Encoded(m) => if !ValidManifest(m) || m.id != id then Err(Integrity) else Ok(m)
  }

  /** `verify`. */
  function Verify(c: Config, s: Store, id: ContentId): Result<Manifest> {
    var m := LoadManifest(s, id);
    if m.Err? then m else
    var bytes := VerifyBlocks(c, s, m.value);
    if bytes.Err? then Err(bytes.error) else m
  }

  /** The block files one after the other, copied without another look at their digests. */
  function Copied(s: Store, refs: seq<BlockRef>): Result<Bytes> {
    if refs == [] then Ok([]) else
    var before := Copied(s, Init(refs));
    if before.Err? then before
    else if Last(refs).id !in s.blocks then Err(Io)
    else Ok(before.value + s.blocks[Last(refs).id])
  }

  /** `export`: what is written to the destination. */
  function Export(c: Config, s: Store, id: ContentId, taken: bool): Result<Bytes> {
    if taken then Err(DestinationExists) else
    var m := Verify(c, s, id);
    if m.Err? then Err(m.error) else Copied(s, m.value.blocks)
  }

  function Ids(refs: seq<BlockRef>): set<ContentId> {
    set b | b in refs :: b.id
  }

  /** `missing_blocks` of a valid manifest: the first reference of every block that is not in order. */
  function MissingOf(c: Config, s: Store, refs: seq<BlockRef>): seq<BlockRef> {
    if refs == [] then [] else
    var before := MissingOf(c, s, Init(refs));
    if Last(refs).id in Ids(Init(refs)) || Good(c, s, Last(refs)) then before else before + [Last(refs)]
  }

  function MissingBlocks(c: Config, s: Store, m: Manifest): Result<seq<BlockRef>> {
    if ValidManifest(m) then Ok(MissingOf(c, s, m.blocks)) else Err(Integrity)
  }

  // ---------- Writing ----------

  /** Which file operations of one `store_block` succeed. */
  datatype Disk = Disk(readable: bool, removable: bool, writable: bool)

  predicate Fits(c: Config, b: BlockRef, bytes: Bytes) {
    b.size != 0 && b.size <= BLOCK_BYTES && |bytes| == b.size && c.digest(bytes) == b.id
  }

  /** `store_block`. */
  ghost function StoreBlock(c: Config, s: Store, b: BlockRef, bytes: Bytes, disk: Disk): Answer<()> {
    if !Fits(c, b, bytes) then Answer(s, Err(Integrity)) else
    var existing := if disk.readable && b.id in s.blocks then Some(s.blocks[b.id]) else None;
    if existing.Some? && |existing.value| == |bytes| && c.digest(existing.value) == b.id then Answer(s, Ok(())) else
    var reclaimable := if existing.Some? then |existing.value| else 0;
    var available := Saturated(Available(c, s) + reclaimable);
    if |bytes| > available then Answer(s, Err(QuotaExceeded(|bytes|, available)))
    else if b.id in s.blocks && !disk.removable then Answer(s, Err(Io))
    else if !disk.writable then Answer(s.(blocks := s.blocks - {b.id}), Err(Io))
    else Answer(s.(blocks := s.blocks[b.id := bytes]), Ok(()))
  }

  /** `commit_manifest`. */
  ghost function CommitManifest(c: Config, s: Store, m: Manifest, writable: bool): Answer<()> {
    if !ValidManifest(m) then Answer(s, Err(Integrity)) else
    var bytes := VerifyBlocks(c, s, m);
    if bytes.Err? then Answer(s, Err(bytes.error))
    else if m.id in s.manifests then Answer(s, Ok(()))
    else if c.encodedLength(m) > Available(c, s)
    then Answer(s, Err(QuotaExceeded(c.encodedLength(m), Available(c, s))))
    else if !writable then Answer(s, Err(Io))
    else Answer(s.(manifests := s.manifests[m.id := Encoded(m)]), Ok(()))
  }

  /** The bytes of the blocks that an import has to add. */
  function Needed(s: Store, refs: seq<BlockRef>): nat {
    if refs == [] then 0 else
    Needed(s, Init(refs)) + if Last(refs).id in s.blocks || Last(refs).id in Ids(Init(refs)) then 0 else Last(refs).size
  }

  /** The second pass of an import: the store so far, the writes that will still succeed, and how it ended early. */
  datatype Pass = Pass(store: Store, writes: nat, error: Option<Error>)

  /** The i-th block that a pass reads; an empty one at the end of the file. */
  function ReadAt(chunks: seq<Bytes>, i: nat): Bytes {
    if i < |chunks| then chunks[i] else []
  }

  function CopyBlock(c: Config, p: Pass, expected: BlockRef, bytes: Bytes): Pass {
    if p.error.Some? then p
    else if |bytes| != expected.size || c.digest(bytes) != expected.id then p.(error := Some(Integrity))
    else if expected.id in p.store.blocks then
      if Good(c, p.store, expected) then p else p.(error := Some(Integrity))
    else if p.writes == 0 then p.(error := Some(Io))
    else Pass(p.store.(blocks := p.store.blocks[expected.id := bytes]), p.writes - 1, None)
  }

  function CopyBlocks(c: Config, s: Store, refs: seq<BlockRef>, second: seq<Bytes>, writes: nat): Pass {
    if refs == [] then Pass(s, writes, None)
    else CopyBlock(c, CopyBlocks(c, s, Init(refs), second, writes), Last(refs), ReadAt(second, |refs| - 1))
  }

  /** `import`: the blocks that the first and the second pass read, and the number of writes that succeed. */
  ghost function Import(c: Config, s: Store, first: seq<Bytes>, second: seq<Bytes>, writes: nat): Answer<Manifest> {
    var m := Describe(c, first);
    if !ValidManifest(m) then Answer(s, Err(Integrity)) else
    var required := Required(c, s, m);
    if required > Available(c, s) then Answer(s, Err(QuotaExceeded(required, Available(c, s)))) else
    var pass := CopyBlocks(c, s, m.blocks, second, writes);
    if pass.error.Some? then Answer(pass.store, Err(pass.error.value))
    else if ReadAt(second, |m.blocks|) != [] then Answer(pass.store, Err(Integrity))
    else Published(c, pass, m)
  }

  function Required(c: Config, s: Store, m: Manifest): nat {
    Saturated((if m.id in s.manifests then 0 else c.encodedLength(m)) + Needed(s, m.blocks))
  }

  function Published(c: Config, p: Pass, m: Manifest): Answer<Manifest> {
    if m.id in p.store.manifests then Answer(p.store, Ok(m))
    else if p.writes == 0 then Answer(p.store, Err(Io))
    else Answer(p.store.(manifests := p.store.manifests[m.id := Encoded(m)]), Ok(m))
  }

  // ---------- Runs of calls ----------

  datatype Call =
    | ImportCall(first: seq<Bytes>, second: seq<Bytes>, writes: nat)
    | StoreCall(block: BlockRef, bytes: Bytes, disk: Disk)
    | CommitCall(manifest: Manifest, writable: bool)

  ghost function After(c: Config, s: Store, call: Call): Store {
    match call
    case ImportCall(first, second, writes) => Import(c, s, first, second, writes).store
    case StoreCall(block, bytes, disk) => StoreBlock(c, s, block, bytes, disk).store
    case CommitCall(manifest, writable) => CommitManifest(c, s, manifest, writable).store
  }

  ghost function AfterAll(c: Config, s: Store, calls: seq<Call>): Store {
    if calls == [] then s else After(c, AfterAll(c, s, Init(calls)), Last(calls))
  }
}

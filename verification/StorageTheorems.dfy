/** What every sequence of calls to the artifact store keeps. */
module StorageTheorems {
  import opened Core
  import opened StorageModel

  // ---------- Sums over a directory ----------

  lemma {:induction false} SumWithout(sizes: map<ContentId, nat>, id: ContentId)
    requires id in sizes
    ensures SumOf(sizes) == sizes[id] + SumOf(sizes - {id})
    decreases |sizes|
  {
    var first :| first in sizes && SumOf(sizes) == sizes[first] + SumOf(sizes - {first});
    if first != id {
      SumWithout(sizes - {first}, id);
      SumWithout(sizes - {id}, first);
      assert sizes - {first} - {id} == sizes - {id} - {first};
    }
  }

  lemma SumPut(sizes: map<ContentId, nat>, id: ContentId, size: nat)
    ensures SumOf(sizes[id := size]) == SumOf(sizes - {id}) + size
    ensures SumOf(sizes) == SumOf(sizes - {id}) + if id in sizes then sizes[id] else 0
  {
    SumWithout(sizes[id := size], id);
    assert sizes[id := size] - {id} == sizes - {id};
    if id in sizes {
      SumWithout(sizes, id);
    } else {
      assert sizes - {id} == sizes;
    }
  }

  // ---------- The quota ----------

  /** Space after one block file changed. */
  lemma BlockPut(c: Config, s: Store, id: ContentId, bytes: Bytes)
    ensures Used(c, s.(blocks := s.blocks[id := bytes]))
         == Used(c, s) - (if id in s.blocks then |s.blocks[id]| else 0) + |bytes|
    ensures Used(c, s.(blocks := s.blocks - {id})) == Used(c, s) - if id in s.blocks then |s.blocks[id]| else 0
  {
    SumPut(BlockSizes(s), id, |bytes|);
    assert BlockSizes(s.(blocks := s.blocks[id := bytes])) == BlockSizes(s)[id := |bytes|];
    assert BlockSizes(s.(blocks := s.blocks - {id})) == BlockSizes(s) - {id};
  }

  lemma ManifestPut(c: Config, s: Store, m: Manifest)
    requires m.id !in s.manifests
    ensures Used(c, s.(manifests := s.manifests[m.id := Encoded(m)])) == Used(c, s) + c.encodedLength(m)
  {
    SumPut(ManifestSizes(c, s), m.id, c.encodedLength(m));
    assert ManifestSizes(c, s.(manifests := s.manifests[m.id := Encoded(m)]))
        == ManifestSizes(c, s)[m.id := c.encodedLength(m)];
  }

  function Max(a: nat, b: nat): nat {
    if a >= b then a else b
  }

  lemma {:induction false} NeededIsSmall(s: Store, refs: seq<BlockRef>)
    requires forall i | 0 <= i < |refs| :: refs[i].size <= BLOCK_BYTES
    ensures Needed(s, refs) <= |refs| * BLOCK_BYTES
  {
    if refs != [] {
      NeededIsSmall(s, Init(refs));
    }
  }

  lemma CopyBlockUses(c: Config, p: Pass, b: BlockRef, bytes: Bytes)
    ensures var q := CopyBlock(c, p, b, bytes);
      && Used(c, q.store) <= Used(c, p.store) + (if b.id in p.store.blocks then 0 else b.size)
      && q.store.manifests == p.store.manifests
      && q.store.blocks.Keys <= p.store.blocks.Keys + {b.id}
      && p.store.blocks.Keys <= q.store.blocks.Keys
      && (p.error.Some? ==> q == p)
      && (q.error.None? ==> b.id in q.store.blocks)
  {
    hide Used;
    BlockPut(c, p.store, b.id, bytes);
  }

  lemma {:induction false} CopyUses(c: Config, s: Store, refs: seq<BlockRef>, second: seq<Bytes>, writes: nat)
    ensures var p := CopyBlocks(c, s, refs, second, writes);
      && Used(c, p.store) <= Used(c, s) + Needed(s, refs)
      && p.store.manifests == s.manifests
      && s.blocks.Keys <= p.store.blocks.Keys <= s.blocks.Keys + Ids(refs)
      && (p.error.None? ==> p.store.blocks.Keys == s.blocks.Keys + Ids(refs))
  {
    hide Used, CopyBlock, Ids, Needed;
    NeededLast(s, refs);
    if refs != [] {
      CopyUses(c, s, Init(refs), second, writes);
      CopyBlockUses(c, CopyBlocks(c, s, Init(refs), second, writes), Last(refs), ReadAt(second, |refs| - 1));
      IdsOf(refs);
    }
  }

  lemma NeededLast(s: Store, refs: seq<BlockRef>)
    ensures refs == [] ==> Ids(refs) == {} && Needed(s, refs) == 0
    ensures refs != [] ==>
      Needed(s, refs) == Needed(s, Init(refs))
        + if Last(refs).id in s.blocks || Last(refs).id in Ids(Init(refs)) then 0 else Last(refs).size
  {
  }

  lemma IdsOf(refs: seq<BlockRef>)
    requires refs != []
    ensures Ids(refs) == Ids(Init(refs)) + {Last(refs).id}
  {
    assert refs == Init(refs) + [Last(refs)];
  }

  /** No call uses more than the quota allows, unless more was in use before: whatever is stored (damaged files
      included), wherever an import stops, and whichever file operations fail. */
  lemma QuotaIsKept(c: Config, s: Store, call: Call)
    ensures Used(c, After(c, s, call)) <= Max(c.quota, Used(c, s))
  {
    hide Used, Import;
    match call
    case ImportCall(first, second, writes) =>
      ImportQuota(c, s, first, second, writes);
    case StoreCall(b, bytes, disk) =>
      BlockPut(c, s, b.id, bytes);
    case CommitCall(m, writable) =>
      hide ValidManifest, VerifyBlocks;
      if m.id !in s.manifests {
        ManifestPut(c, s, m);
      }
  }

  lemma ImportQuota(c: Config, s: Store, first: seq<Bytes>, second: seq<Bytes>, writes: nat)
    ensures Used(c, Import(c, s, first, second, writes).store) <= Max(c.quota, Used(c, s))
  {
    hide Used, Describe, CopyBlocks, Needed;
    var m := Describe(c, first);
    CopyUses(c, s, m.blocks, second, writes);
    var pass := CopyBlocks(c, s, m.blocks, second, writes);
    if ValidManifest(m) {
      NeededIsSmall(s, m.blocks);
    }
    hide ValidManifest;
    if m.id !in pass.store.manifests {
      ManifestPut(c, pass.store, m);
    }
  }

  lemma {:induction false} QuotaIsKeptByRuns(c: Config, s: Store, calls: seq<Call>)
    ensures Used(c, AfterAll(c, s, calls)) <= Max(c.quota, Used(c, s))
  {
    hide Used, After;
    if calls != [] {
      QuotaIsKeptByRuns(c, s, Init(calls));
      QuotaIsKept(c, AfterAll(c, s, Init(calls)), Last(calls));
    }
  }

  // ---------- Published artifacts stay whole ----------

  /** No two of these byte strings share a digest. */
  ghost predicate CollisionFree(c: Config, strings: set<Bytes>) {
    forall x, y | x in strings && y in strings && c.digest(x) == c.digest(y) :: x == y
  }

  ghost predicate BlocksWhole(c: Config, s: Store, strings: set<Bytes>) {
    forall id | id in s.blocks :: c.digest(s.blocks[id]) == id && s.blocks[id] in strings
  }

  ghost predicate ManifestsWhole(c: Config, s: Store) {
    forall id | id in s.manifests :: Verify(c, s, id).Ok?
  }

  /** Every stored block has the digest that names it, and every published artifact verifies. */
  ghost predicate Whole(c: Config, s: Store, strings: set<Bytes>) {
    BlocksWhole(c, s, strings) && ManifestsWhole(c, s)
  }

  /** Nothing that is in `s` is missing or different in `t`. */
  ghost predicate Within(s: Store, t: Store) {
    && (forall id | id in s.blocks :: id in t.blocks && t.blocks[id] == s.blocks[id])
    && (forall id | id in s.manifests :: id in t.manifests && t.manifests[id] == s.manifests[id])
  }

  /** The bytes that the call may write. */
  ghost predicate Writes(call: Call, strings: set<Bytes>) {
    match call
    case ImportCall(_, second, _) => forall i | 0 <= i < |second| :: second[i] in strings
    case StoreCall(_, bytes, _) => bytes in strings
    case CommitCall(_, _) => true
  }

  /** The call does not find a block file that it cannot read, removes it, and then cannot write it. */
  predicate Steady(call: Call) {
    call.StoreCall? ==> call.disk.readable || !call.disk.removable || call.disk.writable
  }

  lemma {:induction false} ReadAllWithin(c: Config, s: Store, t: Store, refs: seq<BlockRef>)
    requires Within(s, t) && ReadAll(c, s, refs).Ok?
    ensures ReadAll(c, t, refs) == ReadAll(c, s, refs)
  {
    if refs != [] {
      ReadAllWithin(c, s, t, Init(refs));
    }
  }

  lemma VerifyWithin(c: Config, s: Store, t: Store, id: ContentId)
    requires Within(s, t) && Verify(c, s, id).Ok?
    ensures Verify(c, t, id) == Verify(c, s, id)
  {
    ReadAllWithin(c, s, t, LoadManifest(s, id).value.blocks);
  }

  lemma {:induction false} CopyGrows(c: Config, s: Store, refs: seq<BlockRef>, second: seq<Bytes>, writes: nat,
      u: set<Bytes>)
    requires BlocksWhole(c, s, u) && forall i | 0 <= i < |second| :: second[i] in u
    requires |refs| <= |second| || forall i | 0 <= i < |refs| :: refs[i].size > 0
    ensures BlocksWhole(c, CopyBlocks(c, s, refs, second, writes).store, u)
    ensures Within(s, CopyBlocks(c, s, refs, second, writes).store)
  {
    if refs != [] {
      CopyGrows(c, s, Init(refs), second, writes, u);
    }
  }

  /** After a pass without an error every block is in order, and what was read is what was described. */
  lemma {:induction false} CopyChecks(c: Config, s: Store, refs: seq<BlockRef>, second: seq<Bytes>, writes: nat)
    requires CopyBlocks(c, s, refs, second, writes).error.None?
    ensures forall i | 0 <= i < |refs| ::
      && |ReadAt(second, i)| == refs[i].size && c.digest(ReadAt(second, i)) == refs[i].id
      && Good(c, CopyBlocks(c, s, refs, second, writes).store, refs[i])
  {
    if refs != [] {
      CopyChecks(c, s, Init(refs), second, writes);
      assert forall i | 0 <= i < |refs| - 1 :: refs[i] == Init(refs)[i];
    }
  }

  lemma ManifestsStay(c: Config, s: Store, t: Store)
    requires ManifestsWhole(c, s) && Within(s, t) && t.manifests.Keys == s.manifests.Keys
    ensures ManifestsWhole(c, t)
  {
    forall id | id in t.manifests ensures Verify(c, t, id).Ok? {
      VerifyWithin(c, s, t, id);
    }
  }

  lemma PublishKeeps(c: Config, s: Store, m: Manifest)
    requires ManifestsWhole(c, s) && m.id !in s.manifests && ValidManifest(m) && VerifyBlocks(c, s, m).Ok?
    ensures ManifestsWhole(c, s.(manifests := s.manifests[m.id := Encoded(m)]))
  {
    var t := s.(manifests := s.manifests[m.id := Encoded(m)]);
    forall id | id in t.manifests ensures Verify(c, t, id).Ok? {
      if id == m.id {
        ReadAllWithin(c, s, t, m.blocks);
      } else {
        VerifyWithin(c, s, t, id);
      }
    }
  }

  lemma {:induction false} ReadAllGood(c: Config, s: Store, refs: seq<BlockRef>, chunks: seq<Bytes>)
    requires |refs| == |chunks|
    requires forall i | 0 <= i < |refs| ::
      refs[i].id in s.blocks && s.blocks[refs[i].id] == chunks[i] && Good(c, s, refs[i])
    ensures ReadAll(c, s, refs) == Ok(Concat(chunks))
  {
    if refs != [] {
      assert forall i | 0 <= i < |refs| - 1 :: refs[i] == Init(refs)[i] && chunks[i] == Init(chunks)[i];
      ReadAllGood(c, s, Init(refs), Init(chunks));
    }
  }

  /** The first strings of a pass. */
  function ReadBelow(second: seq<Bytes>, n: nat): seq<Bytes> {
    seq(n, i requires 0 <= i => ReadAt(second, i))
  }

  ghost predicate Has(chunks: seq<Bytes>, strings: set<Bytes>) {
    forall i | 0 <= i < |chunks| :: chunks[i] in strings
  }

  /** An import that succeeds copied every block, met the end of the file, and added no block by publishing. */
  lemma ImportIsBoth(c: Config, s: Store, first: seq<Bytes>, second: seq<Bytes>, writes: nat)
    requires Import(c, s, first, second, writes).result.Ok?
    ensures var p := CopyBlocks(c, s, RefsOf(c, first), second, writes);
      && p.error.None? && ReadAt(second, |first|) == []
      && Import(c, s, first, second, writes).store.blocks == p.store.blocks
  {
    hide CopyBlocks, Required, Available, ValidManifest;
  }

  /** Both passes of a successful import read the same blocks, and the store holds them. */
  lemma ImportedBlocks(c: Config, s: Store, first: seq<Bytes>, second: seq<Bytes>, writes: nat, u: set<Bytes>)
    requires Import(c, s, first, second, writes).result.Ok?
    requires CollisionFree(c, u) && BlocksWhole(c, s, u) && Has(first, u) && Has(second, u) && ReadAsBlocks(first)
    ensures ReadBelow(second, |first|) == first && ReadAt(second, |first|) == []
    ensures var t := Import(c, s, first, second, writes).store;
      forall i | 0 <= i < |first| ::
        && Good(c, t, RefsOf(c, first)[i])
        && t.blocks[RefsOf(c, first)[i].id] == first[i]
  {
    hide Import, CopyBlocks;
    var refs := RefsOf(c, first);
    ImportIsBoth(c, s, first, second, writes);
    CopyChecks(c, s, refs, second, writes);
    CopyGrows(c, s, refs, second, writes, u);
    var p := CopyBlocks(c, s, refs, second, writes);
    forall i | 0 <= i < |first|
      ensures ReadAt(second, i) == first[i] && Good(c, p.store, refs[i])
          && p.store.blocks[refs[i].id] == first[i]
    {
      assert first[i] in u && ReadAt(second, i) in u;
      assert |ReadAt(second, i)| == refs[i].size && c.digest(ReadAt(second, i)) == refs[i].id;
    }
  }

  lemma ImportVerifies(c: Config, s: Store, first: seq<Bytes>, second: seq<Bytes>, writes: nat, u: set<Bytes>)
    requires Import(c, s, first, second, writes).result.Ok?
    requires CollisionFree(c, u) && BlocksWhole(c, s, u) && Has(first, u) && Has(second, u) && ReadAsBlocks(first)
    ensures VerifyBlocks(c, Import(c, s, first, second, writes).store, Describe(c, first)) == Ok(Concat(first))
  {
    hide Import;
    ImportedBlocks(c, s, first, second, writes, u);
    ReadAllGood(c, Import(c, s, first, second, writes).store, RefsOf(c, first), first);
  }

  /** Every call keeps the store whole, and takes nothing out of it. */
  lemma CallKeepsWhole(c: Config, s: Store, call: Call, u: set<Bytes>)
    requires CollisionFree(c, u) && Whole(c, s, u) && Writes(call, u) && Steady(call)
    requires call.ImportCall? ==> Has(call.first, u) && ReadAsBlocks(call.first)
    ensures Whole(c, After(c, s, call), u) && Within(s, After(c, s, call))
  {
    hide Available, Verify, VerifyBlocks, Import, ReadAsBlocks;
    match call
    case ImportCall(first, second, writes) =>
      ImportKeepsWhole(c, s, first, second, writes, u);
    case StoreCall(b, bytes, disk) =>
      ManifestsStay(c, s, After(c, s, call));
    case CommitCall(m, writable) =>
      if ValidManifest(m) && VerifyBlocks(c, s, m).Ok? && m.id !in s.manifests {
        PublishKeeps(c, s, m);
      }
  }

  /** How an import can end: nothing copied, blocks copied, or blocks copied and the manifest written. */
  lemma ImportEnds(c: Config, s: Store, first: seq<Bytes>, second: seq<Bytes>, writes: nat)
    ensures var a, m := Import(c, s, first, second, writes), Describe(c, first);
      var p := CopyBlocks(c, s, m.blocks, second, writes);
      && p.store.manifests == s.manifests
      && (a.result.Ok? ==> ValidManifest(m))
      && (a.store == s || a.store == p.store
          || (a.result.Ok? && m.id !in s.manifests
              && a.store == p.store.(manifests := s.manifests[m.id := Encoded(m)])))
  {
    hide Describe, CopyBlocks, ValidManifest, Available, Required;
    CopyUses(c, s, Describe(c, first).blocks, second, writes);
  }

  lemma PassGrows(c: Config, s: Store, first: seq<Bytes>, second: seq<Bytes>, writes: nat, u: set<Bytes>)
    requires BlocksWhole(c, s, u) && Has(second, u) && ReadAsBlocks(first)
    ensures var p := CopyBlocks(c, s, Describe(c, first).blocks, second, writes);
      BlocksWhole(c, p.store, u) && Within(s, p.store)
  {
    CopyGrows(c, s, Describe(c, first).blocks, second, writes, u);
  }

  lemma SameBlocksWhole(c: Config, s: Store, t: Store, u: set<Bytes>)
    requires BlocksWhole(c, s, u)
    ensures s.blocks == t.blocks ==> BlocksWhole(c, t, u)
  {
  }

  lemma ImportKeepsWhole(c: Config, s: Store, first: seq<Bytes>, second: seq<Bytes>, writes: nat, u: set<Bytes>)
    requires CollisionFree(c, u) && Whole(c, s, u)
    requires Has(first, u) && Has(second, u) && ReadAsBlocks(first)
    ensures Whole(c, Import(c, s, first, second, writes).store, u)
    ensures Within(s, Import(c, s, first, second, writes).store)
  {
    hide Verify, VerifyBlocks, Import, CopyBlocks, ValidManifest, Describe, ManifestsWhole, BlocksWhole;
    hide CollisionFree, Has, ReadAsBlocks;
    var m := Describe(c, first);
    var p := CopyBlocks(c, s, m.blocks, second, writes);
    PassGrows(c, s, first, second, writes, u);
    SameBlocksWhole(c, p.store, Import(c, s, first, second, writes).store, u);
    ImportEnds(c, s, first, second, writes);
    ManifestsStay(c, s, p.store);
    var answer := Import(c, s, first, second, writes);
    if answer.store != s && answer.store != p.store {
      ImportVerifies(c, s, first, second, writes, u);
      VerifiesBefore(c, p.store, answer.store, m);
      PublishKeeps(c, p.store, m);
    }
  }

  /** Verification looks at the blocks alone. */
  lemma VerifiesBefore(c: Config, s: Store, t: Store, m: Manifest)
    requires s.blocks == t.blocks && VerifyBlocks(c, t, m).Ok?
    ensures VerifyBlocks(c, s, m) == VerifyBlocks(c, t, m)
  {
    SameBlocks(c, s, t, m.blocks);
  }

  lemma {:induction false} SameBlocks(c: Config, s: Store, t: Store, refs: seq<BlockRef>)
    requires s.blocks == t.blocks
    ensures ReadAll(c, s, refs) == ReadAll(c, t, refs)
  {
    if refs != [] {
      SameBlocks(c, s, t, Init(refs));
    }
  }

  ghost predicate Possible(call: Call, u: set<Bytes>) {
    && Writes(call, u) && Steady(call)
    && (call.ImportCall? ==> Has(call.first, u) && ReadAsBlocks(call.first))
  }

  /** Published artifacts stay whole and stored blocks stay stored: in every state that any calls reach, those that
      fail included, and between any two such states. */
  lemma {:induction false} PublishedStaysWhole(c: Config, early: seq<Call>, late: seq<Call>, u: set<Bytes>)
    requires CollisionFree(c, u)
    requires forall i | 0 <= i < |early| :: Possible(early[i], u)
    requires forall i | 0 <= i < |late| :: Possible(late[i], u)
    ensures var s := AfterAll(c, EMPTY, early);
      && Whole(c, s, u) && Whole(c, AfterAll(c, s, late), u) && Within(s, AfterAll(c, s, late))
    decreases |early|, |late|
  {
    hide After, Whole, Possible;
    if early == [] {
      assert Whole(c, EMPTY, u) by {
        hide *;
        EmptyIsWhole(c, u);
      }
    } else {
      PublishedStaysWhole(c, Init(early), [], u);
      StepKeepsWhole(c, AfterAll(c, EMPTY, Init(early)), Last(early), u);
    }
    var s := AfterAll(c, EMPTY, early);
    StaysWholeFrom(c, s, late, u);
  }

  lemma EmptyIsWhole(c: Config, u: set<Bytes>)
    ensures Whole(c, EMPTY, u)
  {
  }

  lemma StepKeepsWhole(c: Config, s: Store, call: Call, u: set<Bytes>)
    requires CollisionFree(c, u) && Whole(c, s, u) && Possible(call, u)
    ensures Whole(c, After(c, s, call), u) && Within(s, After(c, s, call))
  {
    CallKeepsWhole(c, s, call, u);
  }

  lemma {:induction false} StaysWholeFrom(c: Config, s: Store, calls: seq<Call>, u: set<Bytes>)
    requires CollisionFree(c, u) && Whole(c, s, u)
    requires forall i | 0 <= i < |calls| :: Possible(calls[i], u)
    ensures Whole(c, AfterAll(c, s, calls), u) && Within(s, AfterAll(c, s, calls))
  {
    hide After, Whole, Possible;
    if calls != [] {
      StaysWholeFrom(c, s, Init(calls), u);
      StepKeepsWhole(c, AfterAll(c, s, Init(calls)), Last(calls), u);
    }
  }

  /** The stored block can be read and is what its reference names. */
  predicate Held(c: Config, s: Store, b: BlockRef, disk: Disk) {
    disk.readable && Good(c, s, b)
  }

  /** What the quota leaves beside all the files of both directories. */
  ghost function Space(c: Config, s: Store): nat {
    if Used(c, s) <= c.quota then c.quota - Used(c, s) else 0
  }

  lemma SpaceIsAvailable(c: Config, s: Store)
    ensures Available(c, s) == Space(c, s)
  {
    hide Used;
  }

  /** What the quota leaves for a block, counting the file that it replaces. */
  ghost function Room(c: Config, s: Store, b: BlockRef, disk: Disk): nat {
    Space(c, s) + if disk.readable && b.id in s.blocks then |s.blocks[b.id]| else 0
  }

  /** The disk lets the block file be written, and an old one be removed first. */
  predicate Writable(s: Store, b: BlockRef, disk: Disk) {
    (b.id in s.blocks ==> disk.removable) && disk.writable
  }

  /** The bytes have the size and the digest of the reference, and are not more than 256 KiB. */
  predicate Named(c: Config, b: BlockRef, bytes: Bytes) {
    0 < |bytes| == b.size <= 262144 && c.digest(bytes) == b.id
  }

  /** A received block that a caller can know to be accepted. */
  ghost predicate Storable(c: Config, s: Store, b: BlockRef, bytes: Bytes, disk: Disk) {
    Named(c, b, bytes) && (Held(c, s, b, disk) || (b.size <= Room(c, s, b, disk) && Writable(s, b, disk)))
  }

  /** When a received block is accepted, and when it is refused for what reason. */
  lemma WhenABlockIsStored(c: Config, s: Store, b: BlockRef, bytes: Bytes, disk: Disk)
    ensures var result, fits := StoreBlock(c, s, b, bytes, disk).result, Named(c, b, bytes);
      var wanted, room := fits && !Held(c, s, b, disk), b.size <= Room(c, s, b, disk);
      && (result.Ok? <==> Storable(c, s, b, bytes, disk))
      && (result.Err? && result.error.Integrity? <==> !fits)
      && (result.Err? && result.error.QuotaExceeded? <==> wanted && !room)
      && (result.Err? && result.error.Io? <==> wanted && room && !Writable(s, b, disk))
  {
    hide Used;
    SpaceIsAvailable(c, s);
  }

  /** The blocks of the manifest are all in order, and together are what it names. */
  ghost predicate InOrder(c: Config, s: Store, m: Manifest) {
    && (forall i | 0 <= i < |m.blocks| ::
          var b := m.blocks[i];
          b.id in s.blocks && |s.blocks[b.id]| == b.size && c.digest(s.blocks[b.id]) == b.id)
    && (var bytes := Concat(StoredAs(s, m.blocks)); |bytes| == m.size && c.digest(bytes) == m.id)
  }

  /** What the store holds for the references; nothing for one that it does not hold. */
  function StoredAs(s: Store, refs: seq<BlockRef>): seq<Bytes> {
    seq(|refs|, i requires 0 <= i < |refs| => if refs[i].id in s.blocks then s.blocks[refs[i].id] else [])
  }

  ghost predicate AllGood(c: Config, s: Store, refs: seq<BlockRef>) {
    forall i | 0 <= i < |refs| :: Good(c, s, refs[i])
  }

  /** A block file is missing, and all blocks before it are in order. */
  ghost predicate GapFirst(c: Config, s: Store, refs: seq<BlockRef>) {
    exists i | 0 <= i < |refs| :: refs[i].id !in s.blocks && AllGood(c, s, refs[..i])
  }

  lemma AllGoodLast(c: Config, s: Store, refs: seq<BlockRef>)
    requires refs != []
    ensures AllGood(c, s, refs) <==> AllGood(c, s, Init(refs)) && Good(c, s, Last(refs))
  {
    hide Good;
    assert forall i | 0 <= i < |refs| - 1 :: Init(refs)[i] == refs[i];
  }

  lemma GapLast(c: Config, s: Store, refs: seq<BlockRef>)
    requires refs != []
    ensures GapFirst(c, s, refs)
       <==> GapFirst(c, s, Init(refs)) || (AllGood(c, s, Init(refs)) && Last(refs).id !in s.blocks)
  {
    hide AllGood;
    if GapFirst(c, s, refs) {
      var i :| 0 <= i < |refs| && refs[i].id !in s.blocks && AllGood(c, s, refs[..i]);
      if i < |refs| - 1 {
        assert Init(refs)[..i] == refs[..i] && Init(refs)[i] == refs[i];
      }
    }
    if GapFirst(c, s, Init(refs)) {
      var i :| 0 <= i < |refs| - 1 && Init(refs)[i].id !in s.blocks && AllGood(c, s, Init(refs)[..i]);
      assert Init(refs)[..i] == refs[..i] && Init(refs)[i] == refs[i];
    }
    assert refs[..|refs| - 1] == Init(refs);
  }

  lemma StoredLast(s: Store, refs: seq<BlockRef>)
    requires refs != [] && Last(refs).id in s.blocks
    ensures Concat(StoredAs(s, refs)) == Concat(StoredAs(s, Init(refs))) + s.blocks[Last(refs).id]
  {
    assert Init(StoredAs(s, refs)) == StoredAs(s, Init(refs));
  }

  lemma NoBlocks(c: Config, s: Store)
    ensures AllGood(c, s, []) && !GapFirst(c, s, []) && StoredAs(s, []) == [] && Concat([]) == []
  {
  }

  lemma {:induction false} WhenBlocksAreRead(c: Config, s: Store, refs: seq<BlockRef>)
    ensures var bytes := ReadAll(c, s, refs);
      && (bytes.Ok? <==> AllGood(c, s, refs))
      && (bytes.Ok? ==> bytes.value == Concat(StoredAs(s, refs)))
      && (bytes.Err? ==> bytes.error == if GapFirst(c, s, refs) then Io else Integrity)
  {
    hide AllGood, GapFirst, StoredAs, Concat;
    if refs == [] {
      NoBlocks(c, s);
    } else {
      WhenBlocksAreRead(c, s, Init(refs));
      AllGoodLast(c, s, refs);
      GapLast(c, s, refs);
      GapsAreNotGood(c, s, Init(refs));
      if Last(refs).id in s.blocks {
        StoredLast(s, refs);
      }
    }
  }

  lemma GapsAreNotGood(c: Config, s: Store, refs: seq<BlockRef>)
    ensures GapFirst(c, s, refs) ==> !AllGood(c, s, refs)
  {
  }

  lemma WhenBlocksVerify(c: Config, s: Store, m: Manifest)
    ensures var bytes := VerifyBlocks(c, s, m);
      && (bytes.Ok? <==> InOrder(c, s, m))
      && (bytes.Ok? ==> bytes.value == Concat(StoredAs(s, m.blocks)))
      && (bytes.Err? ==> bytes.error == if GapFirst(c, s, m.blocks) then Io else Integrity)
  {
    hide ReadAll, StoredAs, Concat;
    WhenBlocksAreRead(c, s, m.blocks);
  }

  lemma GapsAreOutOfOrder(c: Config, s: Store, m: Manifest)
    ensures GapFirst(c, s, m.blocks) ==> !InOrder(c, s, m)
  {
    GapsAreNotGood(c, s, m.blocks);
  }

  /** A manifest that a caller can know to be published: it is valid and in order, and is there already or finds room
      beside all that is used. */
  ghost predicate Committable(c: Config, s: Store, m: Manifest, writable: bool) {
    && ValidManifest(m) && InOrder(c, s, m)
    && (m.id in s.manifests || (Used(c, s) + c.encodedLength(m) <= c.quota && writable))
  }

  /** When a manifest is published, and when it is refused for what reason: for the quota exactly when it is valid, in
      order and new but does not fit beside all that is used; for the disk when it fits and cannot be written, or when a
      block file is missing behind blocks that are in order. */
  lemma WhenAManifestIsCommitted(c: Config, s: Store, m: Manifest, writable: bool)
    ensures var answer, valid := CommitManifest(c, s, m, writable), ValidManifest(m);
      var wanted := valid && InOrder(c, s, m) && m.id !in s.manifests;
      var fits := Used(c, s) + c.encodedLength(m) <= c.quota;
      var result := answer.result;
      && (result.Ok? <==> Committable(c, s, m, writable))
      && (result.Err? && result.error.QuotaExceeded? <==> wanted && !fits)
      && (result.Err? && result.error.Io? <==> (wanted && fits && !writable) || (valid && GapFirst(c, s, m.blocks)))
      && (result.Err? && result.error.Integrity? <==>
            !valid || (!InOrder(c, s, m) && !GapFirst(c, s, m.blocks)))
      && answer.store == if result.Ok? && m.id !in s.manifests
           then s.(manifests := s.manifests[m.id := Encoded(m)]) else s
  {
    hide Used, InOrder, GapFirst, VerifyBlocks, ValidManifest;
    SpaceIsAvailable(c, s);
    WhenBlocksVerify(c, s, m);
    GapsAreOutOfOrder(c, s, m);
  }

  /** What was described is valid exactly when it has no more than 16384 blocks. */
  lemma DescribedIsValid(c: Config, chunks: seq<Bytes>)
    requires ReadAsBlocks(chunks)
    ensures ValidManifest(Describe(c, chunks)) <==> |chunks| <= 16384
  {
    TotalOfRefs(c, chunks);
  }

  lemma {:induction false} TotalOfRefs(c: Config, chunks: seq<Bytes>)
    ensures Total(RefsOf(c, chunks)) == |Concat(chunks)|
  {
    if chunks != [] {
      TotalOfRefs(c, Init(chunks));
      assert Init(RefsOf(c, chunks)) == RefsOf(c, Init(chunks));
    }
  }

  /** A whole store loses a block in exactly one way: its file cannot be read, is removed, and cannot be written. */
  lemma WhenABlockIsLost(c: Config, s: Store, call: Call, u: set<Bytes>, id: ContentId)
    requires CollisionFree(c, u) && Whole(c, s, u) && Writes(call, u) && id in s.blocks
    requires call.ImportCall? ==> Has(call.first, u) && ReadAsBlocks(call.first)
    ensures id !in After(c, s, call).blocks
       <==> (&& call.StoreCall? && call.block.id == id && Named(c, call.block, call.bytes)
             && !call.disk.readable && call.disk.removable && !call.disk.writable
             && |call.bytes| <= Space(c, s))
  {
    if call.StoreCall? {
      hide Verify, Used;
      SpaceIsAvailable(c, s);
      assert call.bytes in u && s.blocks[id] in u;
    } else {
      CallKeepsWhole(c, s, call, u);
    }
  }

  // ---------- Import and export ----------

  lemma {:induction false} CopiedIsRead(c: Config, s: Store, refs: seq<BlockRef>)
    requires ReadAll(c, s, refs).Ok?
    ensures Copied(s, refs) == ReadAll(c, s, refs)
  {
    if refs != [] {
      CopiedIsRead(c, s, Init(refs));
    }
  }

  /** The bytes of a published artifact. */
  function Content(c: Config, s: Store, id: ContentId): Bytes
    requires Verify(c, s, id).Ok?
  {
    VerifyBlocks(c, s, LoadManifest(s, id).value).value
  }

  /** A verified artifact is exported as bytes that hash to its name. */
  lemma ExportIsContent(c: Config, s: Store, id: ContentId)
    requires Verify(c, s, id).Ok?
    ensures Export(c, s, id, false) == Ok(Content(c, s, id)) && c.digest(Content(c, s, id)) == id
  {
    CopiedIsRead(c, s, LoadManifest(s, id).value.blocks);
  }

  /** When an export is written, and what: never over a file that exists, and else exactly when the artifact is there
      under its name, valid, and all its blocks are in order. */
  lemma WhenAnExportIsWritten(c: Config, s: Store, id: ContentId, taken: bool)
    ensures var e := Export(c, s, id, taken);
      && (e == Err(DestinationExists) <==> taken)
      && (e == Err(NotFound) <==> !taken && id !in s.manifests)
      && (e.Ok? <==>
            && !taken && id in s.manifests && s.manifests[id].Encoded?
            && (var m := s.manifests[id].manifest; m.id == id && ValidManifest(m) && InOrder(c, s, m)))
      && (e.Ok? ==> e.value == Concat(StoredAs(s, s.manifests[id].manifest.blocks)) && c.digest(e.value) == id)
  {
    hide ValidManifest, InOrder, VerifyBlocks, StoredAs, Concat;
    if id in s.manifests && s.manifests[id].Encoded? {
      WhenBlocksVerify(c, s, s.manifests[id].manifest);
    }
    if Verify(c, s, id).Ok? {
      ExportIsContent(c, s, id);
    }
  }

  /** The strings that a round trip compares: those of the store and of both passes, and the whole contents. */
  ghost predicate Compared(c: Config, s: Store, first: seq<Bytes>, second: seq<Bytes>, u: set<Bytes>) {
    && CollisionFree(c, u)
    && Has(first, u) && Has(second, u) && Concat(first) in u
    && (forall id | id in s.manifests && Verify(c, s, id).Ok? :: Content(c, s, id) in u)
  }

  /** An import succeeds only if both passes read the same bytes, and then an export gives exactly these back; even
      when the artifact was already published in other blocks. */
  lemma ImportThenExport(c: Config, s: Store, first: seq<Bytes>, second: seq<Bytes>, writes: nat, u: set<Bytes>)
    requires Whole(c, s, u) && Compared(c, s, first, second, u) && ReadAsBlocks(first)
    requires Import(c, s, first, second, writes).result.Ok?
    ensures ReadBelow(second, |first|) == first && ReadAt(second, |first|) == []
    ensures var answer := Import(c, s, first, second, writes);
      Export(c, answer.store, answer.result.value.id, false) == Ok(Concat(first))
  {
    var answer := Import(c, s, first, second, writes);
    var m, t := Describe(c, first), answer.store;
    ImportedBlocks(c, s, first, second, writes, u);
    ImportKeepsWhole(c, s, first, second, writes, u);
    ImportVerifies(c, s, first, second, writes, u);
    ImportPublishes(c, s, first, second, writes);
    hide Import, Whole, Describe;
    assert Verify(c, t, m.id).Ok? by {
      hide *;
      WholeVerifies(c, t, u, m.id);
    }
    ExportIsContent(c, t, m.id);
    if m.id in s.manifests {
      assert Verify(c, s, m.id).Ok? by {
        hide *;
        WholeVerifies(c, s, u, m.id);
      }
      VerifyWithin(c, s, t, m.id);
      SameContent(c, s, t, m.id);
      assert Content(c, s, m.id) in u;
    }
  }

  lemma WholeVerifies(c: Config, s: Store, u: set<Bytes>, id: ContentId)
    requires Whole(c, s, u) && id in s.manifests
    ensures Verify(c, s, id).Ok?
  {
  }

  lemma SameContent(c: Config, s: Store, t: Store, id: ContentId)
    requires Within(s, t) && Verify(c, s, id).Ok? && Verify(c, t, id).Ok?
    ensures Content(c, t, id) == Content(c, s, id)
  {
    ReadAllWithin(c, s, t, LoadManifest(s, id).value.blocks);
  }

  lemma ImportPublishes(c: Config, s: Store, first: seq<Bytes>, second: seq<Bytes>, writes: nat)
    requires Import(c, s, first, second, writes).result.Ok?
    ensures var answer := Import(c, s, first, second, writes);
      && answer.result.value == Describe(c, first)
      && Describe(c, first).id in answer.store.manifests
      && (Describe(c, first).id !in s.manifests ==>
            LoadManifest(answer.store, Describe(c, first).id) == Ok(Describe(c, first)))
  {
    CopyUses(c, s, Describe(c, first).blocks, second, writes);
  }

  /** The blocks of an unchanging file are read without a gap. */
  lemma {:induction false} ChunksOfFile(file: Bytes)
    ensures Concat(Chunks(file)) == file && ReadAsBlocks(Chunks(file))
    ensures forall i | 0 <= i < |Chunks(file)| - 1 :: |Chunks(file)[i]| == BLOCK_BYTES
    decreases |file|
  {
    if file != [] {
      if |file| <= BLOCK_BYTES {
        assert Init([file]) == [];
        assert Concat(Init([file])) == [];
        assert Concat([file]) == [] + file == file;
      } else {
        ChunksOfFile(file[BLOCK_BYTES..]);
        ConcatFirst(file[..BLOCK_BYTES], Chunks(file[BLOCK_BYTES..]));
        assert file[..BLOCK_BYTES] + file[BLOCK_BYTES..] == file;
      }
    }
  }

  lemma {:induction false} ConcatFirst(chunk: Bytes, rest: seq<Bytes>)
    ensures Concat([chunk] + rest) == chunk + Concat(rest)
    decreases |rest|
  {
    if rest == [] {
      assert [chunk] + rest == [chunk] && Init([chunk]) == [];
      assert Concat([chunk]) == Concat(Init([chunk])) + chunk == [] + chunk == chunk;
    } else {
      assert Init([chunk] + rest) == [chunk] + Init(rest);
      ConcatFirst(chunk, Init(rest));
    }
  }

  // ---------- Resuming ----------

  /** The references agree: a digest comes with one size. */
  ghost predicate Consistent(refs: seq<BlockRef>) {
    forall i, j | 0 <= i < |refs| && 0 <= j < |refs| && refs[i].id == refs[j].id :: refs[i] == refs[j]
  }

  ghost predicate DistinctIds(refs: seq<BlockRef>) {
    forall i, j | 0 <= i < j < |refs| :: refs[i].id != refs[j].id
  }

  /** The missing blocks are references of the manifest, one for a digest, none of them in order; every digest whose
      first reference is not in order is among them. */
  lemma {:induction false} MissingIs(c: Config, s: Store, refs: seq<BlockRef>)
    ensures DistinctIds(MissingOf(c, s, refs))
    ensures forall b | b in MissingOf(c, s, refs) :: b in refs && !Good(c, s, b)
    ensures Consistent(refs) ==> forall b | b in refs :: Good(c, s, b) || b in MissingOf(c, s, refs)
  {
    if refs != [] {
      MissingIs(c, s, Init(refs));
      assert forall b | b in Init(refs) :: b in refs;
      assert refs == Init(refs) + [Last(refs)];
      forall b | b in refs && Consistent(refs)
        ensures Good(c, s, b) || b in MissingOf(c, s, refs)
      {
        assert Consistent(Init(refs));
        if b.id in Ids(Init(refs)) {
          SameIdSameRef(refs, b);
        }
      }
    }
  }

  lemma SameIdSameRef(refs: seq<BlockRef>, b: BlockRef)
    requires refs != [] && Consistent(refs) && b in refs && b.id in Ids(Init(refs))
    ensures b in Init(refs)
  {
    var other :| other in Init(refs) && other.id == b.id;
    assert other in refs;
  }

  /** What `describe` gives is consistent when its blocks do not collide. */
  lemma DescribedIsConsistent(c: Config, chunks: seq<Bytes>, u: set<Bytes>)
    requires CollisionFree(c, u) && Has(chunks, u)
    ensures Consistent(RefsOf(c, chunks))
  {
  }

  /** When every block of a described file is in order, its manifest verifies as exactly that file. */
  lemma DescribedVerifies(c: Config, s: Store, chunks: seq<Bytes>, u: set<Bytes>)
    requires CollisionFree(c, u) && BlocksWhole(c, s, u) && Has(chunks, u)
    requires forall b | b in RefsOf(c, chunks) :: Good(c, s, b)
    ensures VerifyBlocks(c, s, Describe(c, chunks)) == Ok(Concat(chunks))
  {
    forall i | 0 <= i < |chunks|
      ensures Good(c, s, RefsOf(c, chunks)[i]) && s.blocks[RefsOf(c, chunks)[i].id] == chunks[i]
    {
      assert RefsOf(c, chunks)[i] in RefsOf(c, chunks);
      assert s.blocks[RefsOf(c, chunks)[i].id] in u && chunks[i] in u;
    }
    ReadAllGood(c, s, RefsOf(c, chunks), chunks);
  }

  /** A stored block is in order and leaves the list of what is missing; the rest of the list stays. */
  lemma StoredIsNoLongerMissing(c: Config, s: Store, b: BlockRef, bytes: Bytes, refs: seq<BlockRef>)
    requires Fits(c, b, bytes) && Consistent(refs) && b in refs
    ensures var t := s.(blocks := s.blocks[b.id := bytes]);
      && Good(c, t, b)
      && forall x :: x in MissingOf(c, t, refs) <==> x in MissingOf(c, s, refs) && x != b
  {
    MissingIs(c, s, refs);
    MissingIs(c, s.(blocks := s.blocks[b.id := bytes]), refs);
  }
}

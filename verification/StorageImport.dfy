/** Exactly when an import succeeds, and what it leaves behind. */
module StorageImport {
  import opened Core
  import opened StorageModel
  import opened StorageTheorems

  /** The block directory with each of the blocks that was not there yet. */
  function Filled(c: Config, blocks: map<ContentId, Bytes>, chunks: seq<Bytes>): map<ContentId, Bytes> {
    if chunks == [] then blocks else
    var before, id := Filled(c, blocks, Init(chunks)), c.digest(Last(chunks));
    if id in before then before else before[id := Last(chunks)]
  }

  /** The digests that are not in the block directory yet. */
  function NewIds(c: Config, s: Store, chunks: seq<Bytes>): set<ContentId> {
    Ids(RefsOf(c, chunks)) - s.blocks.Keys
  }

  /** The store with all blocks of the file and its manifest. */
  function Imported(c: Config, s: Store, chunks: seq<Bytes>): Store {
    var m := Describe(c, chunks);
    Store(Filled(c, s.blocks, chunks), if m.id in s.manifests then s.manifests else s.manifests[m.id := Encoded(m)])
  }

  /** The second pass reads the blocks of the first one. */
  predicate Repeats(second: seq<Bytes>, chunks: seq<Bytes>) {
    forall i | 0 <= i < |chunks| :: ReadAt(second, i) == chunks[i]
  }

  /** No block of the file is stored damaged. */
  predicate Undamaged(c: Config, s: Store, chunks: seq<Bytes>) {
    forall i | 0 <= i < |chunks| ::
      var id := c.digest(chunks[i]);
      id in s.blocks ==> |s.blocks[id]| == |chunks[i]| && c.digest(s.blocks[id]) == id
  }

  lemma RefsLast(c: Config, chunks: seq<Bytes>)
    requires chunks != []
    ensures RefsOf(c, chunks) != [] && |RefsOf(c, chunks)| == |chunks|
    ensures Init(RefsOf(c, chunks)) == RefsOf(c, Init(chunks))
    ensures Last(RefsOf(c, chunks)) == BlockRef(c.digest(Last(chunks)), |Last(chunks)|)
    ensures Ids(RefsOf(c, chunks)) == Ids(RefsOf(c, Init(chunks))) + {c.digest(Last(chunks))}
  {
    IdsOf(RefsOf(c, chunks));
  }

  lemma NothingCopied(c: Config, s: Store, second: seq<Bytes>)
    ensures RefsOf(c, []) == [] && Ids([]) == {} && NewIds(c, s, []) == {} && Filled(c, s.blocks, []) == s.blocks
    ensures Repeats(second, []) && Undamaged(c, s, [])
  {
  }

  lemma FilledLast(c: Config, s: Store, chunks: seq<Bytes>)
    requires chunks != []
    ensures var before, id := Filled(c, s.blocks, Init(chunks)), c.digest(Last(chunks));
      Filled(c, s.blocks, chunks) == if id in before then before else before[id := Last(chunks)]
  {
  }

  /** What the block directory holds after the blocks were added. */
  lemma {:induction false} FilledIs(c: Config, s: Store, chunks: seq<Bytes>, u: set<Bytes>)
    requires CollisionFree(c, u) && Has(chunks, u)
    ensures var after := Filled(c, s.blocks, chunks);
      && after.Keys == s.blocks.Keys + Ids(RefsOf(c, chunks))
      && (forall id | id in s.blocks :: after[id] == s.blocks[id])
      && (forall id | id in after && id !in s.blocks :: after[id] in u && c.digest(after[id]) == id)
  {
    hide Ids, RefsOf, Filled, CollisionFree;
    if chunks == [] {
      NothingCopied(c, s, []);
    } else {
      FilledIs(c, s, Init(chunks), u);
      RefsLast(c, chunks);
      FilledLast(c, s, chunks);
    }
  }

  lemma {:induction false} FilledUses(c: Config, s: Store, chunks: seq<Bytes>)
    ensures Used(c, s.(blocks := Filled(c, s.blocks, chunks))) == Used(c, s) + Needed(s, RefsOf(c, chunks))
    ensures Filled(c, s.blocks, chunks).Keys == s.blocks.Keys + Ids(RefsOf(c, chunks))
  {
    hide Used, Ids, Needed;
    NeededLast(s, RefsOf(c, chunks));
    if chunks != [] {
      FilledUses(c, s, Init(chunks));
      RefsLast(c, chunks);
      BlockPut(c, s.(blocks := Filled(c, s.blocks, Init(chunks))), c.digest(Last(chunks)), Last(chunks));
    }
  }

  /** The last new digest, if it is one. */
  lemma NewIdsLast(c: Config, s: Store, chunks: seq<Bytes>, u: set<Bytes>)
    requires chunks != [] && CollisionFree(c, u) && Has(chunks, u)
    ensures var before, id := NewIds(c, s, Init(chunks)), c.digest(Last(chunks));
      && (id in Filled(c, s.blocks, Init(chunks)) ==> NewIds(c, s, chunks) == before)
      && (id !in Filled(c, s.blocks, Init(chunks)) ==> id !in before && NewIds(c, s, chunks) == before + {id})
  {
    hide Ids;
    RefsLast(c, chunks);
    FilledIs(c, s, Init(chunks), u);
  }

  lemma AllAndLast(c: Config, s: Store, chunks: seq<Bytes>, second: seq<Bytes>)
    requires chunks != []
    ensures Repeats(second, chunks)
       <==> Repeats(second, Init(chunks)) && ReadAt(second, |chunks| - 1) == Last(chunks)
    ensures Undamaged(c, s, chunks)
       <==> Undamaged(c, s, Init(chunks)) && Undamaged(c, s, [Last(chunks)])
  {
    assert forall i | 0 <= i < |chunks| - 1 :: chunks[i] == Init(chunks)[i];
    assert [Last(chunks)][0] == chunks[|chunks| - 1];
  }

  /** One block of the second pass. */
  lemma WhenABlockIsCopied(c: Config, p: Pass, blocks: map<ContentId, Bytes>, chunk: Bytes, bytes: Bytes, u: set<Bytes>)
    requires CollisionFree(c, u) && chunk in u && chunk != [] && (bytes != [] ==> bytes in u)
    requires p.error.None?
    requires var id := c.digest(chunk);
      && (id in blocks ==> id in p.store.blocks && p.store.blocks[id] == blocks[id])
      && (id in p.store.blocks && id !in blocks ==> p.store.blocks[id] in u && c.digest(p.store.blocks[id]) == id)
    ensures var q, id := CopyBlock(c, p, BlockRef(c.digest(chunk), |chunk|), bytes), c.digest(chunk);
      && (q.error.None? <==>
            && bytes == chunk
            && (id in blocks ==> |blocks[id]| == |chunk| && c.digest(blocks[id]) == id)
            && (id in p.store.blocks || p.writes > 0))
      && (q.error.None? ==> q == if id in p.store.blocks then p
            else p.(store := p.store.(blocks := p.store.blocks[id := chunk]), writes := p.writes - 1))
  {
  }

  lemma OneUndamaged(c: Config, s: Store, chunk: Bytes)
    ensures Undamaged(c, s, [chunk]) <==>
      (c.digest(chunk) in s.blocks ==>
        |s.blocks[c.digest(chunk)]| == |chunk| && c.digest(s.blocks[c.digest(chunk)]) == c.digest(chunk))
  {
    assert [chunk][0] == chunk;
  }

  lemma StaysFailed(c: Config, p: Pass, b: BlockRef, bytes: Bytes)
    requires p.error.Some?
    ensures CopyBlock(c, p, b, bytes) == p
  {
  }

  /** The second pass goes through exactly when it reads the same blocks, finds none of them damaged, and can write each
      new one. */
  lemma {:induction false} WhenBlocksAreCopied(c: Config, s: Store, chunks: seq<Bytes>, second: seq<Bytes>,
      writes: nat, u: set<Bytes>)
    requires CollisionFree(c, u) && Has(chunks, u) && Has(second, u) && ReadAsBlocks(chunks)
    ensures var p := CopyBlocks(c, s, RefsOf(c, chunks), second, writes);
      && (p.error.None? <==>
            Repeats(second, chunks) && Undamaged(c, s, chunks) && |NewIds(c, s, chunks)| <= writes)
      && (p.error.None? ==>
            && p.store == s.(blocks := Filled(c, s.blocks, chunks))
            && p.writes == writes - |NewIds(c, s, chunks)|)
  {
    hide CopyBlock, NewIds, RefsOf, Filled, CollisionFree, Repeats, Undamaged;
    if chunks == [] {
      NothingCopied(c, s, second);
    } else {
      var n := |chunks| - 1;
      WhenBlocksAreCopied(c, s, Init(chunks), second, writes, u);
      RefsLast(c, chunks);
      FilledIs(c, s, Init(chunks), u);
      NewIdsLast(c, s, chunks, u);
      AllAndLast(c, s, chunks, second);
      OneUndamaged(c, s, Last(chunks));
      FilledLast(c, s, chunks);
      var p := CopyBlocks(c, s, RefsOf(c, Init(chunks)), second, writes);
      if p.error.None? {
        WhenABlockIsCopied(c, p, s.blocks, Last(chunks), ReadAt(second, n), u);
      } else {
        StaysFailed(c, p, Last(RefsOf(c, chunks)), ReadAt(second, n));
      }
    }
  }

  /** The import as a whole: of a file of at most 16384 blocks, that the second pass reads as the first did and up to
      its end, with no block of it stored damaged, where all that is added fits the quota beside what is used, and
      every new block and the manifest, if it is new, can be written. */
  ghost predicate Importable(c: Config, s: Store, chunks: seq<Bytes>, second: seq<Bytes>, writes: nat) {
    && |chunks| <= 16384
    && Repeats(second, chunks) && ReadAt(second, |chunks|) == []
    && Undamaged(c, s, chunks)
    && (Imported(c, s, chunks) == s || Used(c, Imported(c, s, chunks)) <= c.quota)
    && |NewIds(c, s, chunks)| + (if Describe(c, chunks).id in s.manifests then 0 else 1) <= writes
  }

  /** What an import adds is what it is charged for. */
  lemma ImportedUses(c: Config, s: Store, chunks: seq<Bytes>)
    requires |chunks| <= 16384 && ReadAsBlocks(chunks)
    ensures Used(c, Imported(c, s, chunks)) == Used(c, s) + Required(c, s, Describe(c, chunks))
    ensures Required(c, s, Describe(c, chunks)) == 0 <==> Imported(c, s, chunks) == s
  {
    hide Used, Needed, RefsOf, Filled;
    var m, t := Describe(c, chunks), s.(blocks := Filled(c, s.blocks, chunks));
    FilledUses(c, s, chunks);
    RefsAreSmall(c, chunks);
    NeededIsSmall(s, m.blocks);
    NothingNeeded(c, s, chunks);
    if m.id !in s.manifests {
      ManifestPut(c, t, m);
    }
  }

  lemma RefsAreSmall(c: Config, chunks: seq<Bytes>)
    requires ReadAsBlocks(chunks)
    ensures |RefsOf(c, chunks)| == |chunks|
    ensures forall i | 0 <= i < |chunks| :: 0 < RefsOf(c, chunks)[i].size <= BLOCK_BYTES
  {
  }

  lemma {:induction false} NothingNeeded(c: Config, s: Store, chunks: seq<Bytes>)
    requires ReadAsBlocks(chunks)
    ensures Needed(s, RefsOf(c, chunks)) == 0 <==> Filled(c, s.blocks, chunks) == s.blocks
    ensures s.blocks.Keys <= Filled(c, s.blocks, chunks).Keys
  {
    if chunks != [] {
      NothingNeeded(c, s, Init(chunks));
      RefsLast(c, chunks);
      FilledUses(c, s, Init(chunks));
      hide Used, Ids;
      NeededLast(s, RefsOf(c, chunks));
    }
  }

  /** An import succeeds exactly when a caller can know it to, and then leaves exactly the blocks and the manifest of
      the file beside what was there. */
  lemma WhenAnImportSucceeds(c: Config, s: Store, first: seq<Bytes>, second: seq<Bytes>, writes: nat, u: set<Bytes>)
    requires CollisionFree(c, u) && Has(first, u) && Has(second, u) && ReadAsBlocks(first)
    ensures var answer := Import(c, s, first, second, writes);
      && (answer.result.Ok? <==> Importable(c, s, first, second, writes))
      && (answer.result.Ok? ==> answer == Answer(Imported(c, s, first), Ok(Describe(c, first))))
  {
    hide ValidManifest, Used, CopyBlocks, Required, RefsOf, Filled, NewIds, Repeats, Undamaged, ReadAt, Has,
        ReadAsBlocks;
    DescribedIsValid(c, first);
    if |first| <= 16384 {
      RefsAreSmall(c, first);
      SpaceIsAvailable(c, s);
      ImportedUses(c, s, first);
      WhenBlocksAreCopied(c, s, first, second, writes, u);
    }
  }
}

/** A block that is lost. */
module StorageLoss {
  import opened Core
  import opened StorageModel
  import opened StorageTheorems

  /** A digest that is good enough for blocks of different sizes. */
  const BY_SIZE := Config((bytes: Bytes) => ContentId(|bytes|), (m: Manifest) => 1, 1000)

  const ONE := BlockRef(ContentId(1), 1)

  /** The block is stored, and then received again while its file cannot be read and nothing can be written. */
  const LOSING := [
    StoreCall(ONE, [0], Disk(true, true, true)),
    StoreCall(ONE, [0], Disk(false, true, false))]

  /** An empty store holds any small block after it is received. */
  lemma FirstIsStored()
    ensures After(BY_SIZE, EMPTY, LOSING[0]) == EMPTY.(blocks := map[ONE.id := [0]])
    ensures Used(BY_SIZE, EMPTY.(blocks := map[ONE.id := [0]])) == 1
  {
    assert BlockSizes(EMPTY) == map[] && ManifestSizes(BY_SIZE, EMPTY) == map[];
    BlockPut(BY_SIZE, EMPTY, ONE.id, [0]);
    assert Fits(BY_SIZE, ONE, [0]);
  }

  /** Two calls whose bytes cannot collide, after which a block that was stored is gone. */
  lemma ABlockCanBeLost()
    ensures CollisionFree(BY_SIZE, {[0]}) && Possible(LOSING[0], {[0]}) && Writes(LOSING[1], {[0]})
    ensures Whole(BY_SIZE, AfterAll(BY_SIZE, EMPTY, LOSING[..1]), {[0]})
    ensures ONE.id in AfterAll(BY_SIZE, EMPTY, LOSING[..1]).blocks
    ensures ONE.id !in AfterAll(BY_SIZE, EMPTY, LOSING).blocks
  {
    FirstIsStored();
    hide After, Used;
    var s := EMPTY.(blocks := map[ONE.id := [0]]);
    assert Init(LOSING) == LOSING[..1] == [LOSING[0]] && Init([LOSING[0]]) == [];
    assert AfterAll(BY_SIZE, EMPTY, []) == EMPTY;
    assert AfterAll(BY_SIZE, EMPTY, [LOSING[0]]) == s;
    assert AfterAll(BY_SIZE, EMPTY, LOSING) == After(BY_SIZE, s, LOSING[1]);
    WhenABlockIsLost(BY_SIZE, s, LOSING[1], {[0]}, ONE.id);
  }
}

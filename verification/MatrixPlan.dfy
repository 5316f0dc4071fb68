/** The row plan of a job: its tiles and the exclusive or of their checksums. */
module MatrixPlan {
  import opened Core
  import opened Words
  import opened Executor
  import opened MatrixModel

  /** The chunks cover the rows from 0 to `size` without gap or overlap, and each is a task that `execute` accepts. */
  ghost predicate Tiles(plan: seq<ChunkPlan>, size: nat) {
    && size < 0x1_0000
    && |plan| > 0
    && plan[0].rowStart == 0
    && plan[|plan| - 1].rowEnd == size
    && (forall i, j | 0 <= i < j < |plan| && j == i + 1 :: plan[i].rowEnd == plan[j].rowStart)
    && (forall i | 0 <= i < |plan| ::
          && plan[i].index == i
          && plan[i].rowStart < plan[i].rowEnd <= size
          && ValidChunkTask(ChunkTask(size, plan[i].rowStart, plan[i].rowEnd)))
  }

  lemma TotalBounds(size: nat, chunkRows: nat)
    requires ValidPlan(size, chunkRows)
    ensures var total := TotalChunks(size, chunkRows);
      1 <= total <= size && (total - 1) * chunkRows < size <= total * chunkRows
  {
    var total := TotalChunks(size, chunkRows);
    assert size + chunkRows - 1 == total * chunkRows + (size + chunkRows - 1) % chunkRows;
    assert (total - 1) * chunkRows == total * chunkRows - chunkRows;
    if total > size {
      MulMonotone(size, total - 1, chunkRows);
      MulMonotone(1, chunkRows, size);
    }
  }

  /** One chunk of the plan: its first row and the arithmetic that computes its end fit in 16 bits. */
  lemma ChunkBounds(size: nat, chunkRows: nat, i: nat)
    requires ValidPlan(size, chunkRows) && i < TotalChunks(size, chunkRows)
    ensures var c := PlannedChunk(size, chunkRows, i);
      && c.rowStart < c.rowEnd <= size
      && c.rowEnd <= c.rowStart + chunkRows < 0x1_0000
      && (i == 0 ==> c.rowStart == 0)
      && (i < TotalChunks(size, chunkRows) - 1 ==> c.rowEnd == PlannedChunk(size, chunkRows, i + 1).rowStart)
      && (i == TotalChunks(size, chunkRows) - 1 ==> c.rowEnd == size)
  {
    var total := TotalChunks(size, chunkRows);
    TotalBounds(size, chunkRows);
    MulMonotone(i, total - 1, chunkRows);
    assert (i + 1) * chunkRows == i * chunkRows + chunkRows;
    if i < total - 1 {
      MulMonotone(i + 1, total - 1, chunkRows);
    }
  }

  /** Every accepted size and chunk height gives a plan of tiles. */
  lemma PlanTiles(size: nat, chunkRows: nat)
    requires ValidPlan(size, chunkRows)
    ensures Tiles(Plan(size, chunkRows), size)
  {
    var plan := Plan(size, chunkRows);
    TotalBounds(size, chunkRows);
    forall i | 0 <= i < |plan|
      ensures plan[i] == PlannedChunk(size, chunkRows, i)
      ensures plan[i].rowStart < plan[i].rowEnd <= size && plan[i].rowEnd <= plan[i].rowStart + chunkRows
      ensures i == 0 ==> plan[i].rowStart == 0
      ensures i < |plan| - 1 ==> plan[i].rowEnd == plan[i + 1].rowStart
      ensures i == |plan| - 1 ==> plan[i].rowEnd == size
    {
      ChunkBounds(size, chunkRows, i);
    }
  }

  /** The checksum of the i-th planned chunk. */
  ghost function Part(plan: seq<ChunkPlan>, size: nat, i: nat): U64
    requires Tiles(plan, size) && i < |plan|
  {
    ChunkChecksum(size, plan[i].rowStart, plan[i].rowEnd)
  }

  /** The exclusive or over the parts below `n` that are done. */
  ghost function XorOfDone(plan: seq<ChunkPlan>, size: nat, done: set<nat>, n: nat): U64
    requires Tiles(plan, size) && n <= |plan|
  {
    if n == 0 then 0
    else if n - 1 in done then XorWord(XorOfDone(plan, size, done, n - 1), Part(plan, size, n - 1))
    else XorOfDone(plan, size, done, n - 1)
  }

  lemma {:induction false} XorOfOneMore(plan: seq<ChunkPlan>, size: nat, done: set<nat>, i: nat, n: nat)
    requires Tiles(plan, size) && i < n <= |plan| && i !in done
    ensures XorOfDone(plan, size, done + {i}, n) == XorWord(XorOfDone(plan, size, done, n), Part(plan, size, i))
  {
    if i == n - 1 {
      XorOfSame(plan, size, done, done + {i}, n - 1);
    } else {
      XorOfOneMore(plan, size, done, i, n - 1);
      if n - 1 in done {
        SwapXor(XorOfDone(plan, size, done, n - 1), Part(plan, size, i), Part(plan, size, n - 1));
      }
    }
  }

  lemma SwapXor(a: nat, b: nat, c: nat)
    ensures Xor(Xor(a, b), c) == Xor(Xor(a, c), b)
  {
    XorAssociates(a, b, c);
    XorAssociates(a, c, b);
    XorCommutes(b, c);
  }

  lemma {:induction false} XorOfSame(plan: seq<ChunkPlan>, size: nat, x: set<nat>, y: set<nat>, n: nat)
    requires Tiles(plan, size) && n <= |plan|
    requires forall i: nat | i < n :: i in x <==> i in y
    ensures XorOfDone(plan, size, x, n) == XorOfDone(plan, size, y, n)
  {
    if n > 0 {
      XorOfSame(plan, size, x, y, n - 1);
    }
  }

  lemma {:induction false} XorOfNone(plan: seq<ChunkPlan>, size: nat, n: nat)
    requires Tiles(plan, size) && n <= |plan|
    ensures XorOfDone(plan, size, {}, n) == 0
  {
    if n > 0 {
      XorOfNone(plan, size, n - 1);
    }
  }

  /** Once every part is done, the exclusive or is the checksum of the rows covered. */
  lemma {:induction false} XorOfAll(plan: seq<ChunkPlan>, size: nat, done: set<nat>, n: nat)
    requires Tiles(plan, size) && 0 < n <= |plan|
    requires forall i: nat | i < n :: i in done
    ensures XorOfDone(plan, size, done, n) == ChunkChecksum(size, 0, plan[n - 1].rowEnd)
  {
    if n == 1 {
      XorZero(Part(plan, size, 0));
    } else {
      XorOfAll(plan, size, done, n - 1);
      ChunkSplits(size, 0, plan[n - 1].rowStart, plan[n - 1].rowEnd);
    }
  }

  /** Adding up the chunks of a plan in any order of completion gives the whole matrix. */
  lemma TilesCoverTheMatrix(plan: seq<ChunkPlan>, size: nat, done: set<nat>)
    requires Tiles(plan, size)
    requires forall i: nat | i < |plan| :: i in done
    ensures XorOfDone(plan, size, done, |plan|) == ChunkChecksum(size, 0, size)
  {
    XorOfAll(plan, size, done, |plan|);
  }
}

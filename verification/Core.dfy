/** Shared constants, wrappers and the chunk bounds of crates/swagri-core. */
module Core {

  datatype Option<+T> = None | Some(value: T)

  const MIN_MATRIX_SIZE := 16
  const MAX_DISTRIBUTED_MATRIX_SIZE := 768
  const MAX_MATRIX_CHUNK_ROWS := 128
  const NODE_PROTOCOL_VERSION := 4
  const MAX_UPDATE_BYTES := 128 * 1024 * 1024
  const UPDATE_CHUNK_BYTES := 256 * 1024

  type PeerId = nat
  type RequestId = nat

  type U16 = x: nat | x < 0x1_0000

  function Min(a: nat, b: nat): nat {
    if a <= b then a else b
  }

  function SaturatingDecrement(n: nat): nat {
    if n == 0 then 0 else n - 1
  }

  function Last<T>(s: seq<T>): T
    requires s != []
  {
    s[|s| - 1]
  }

  function Init<T>(s: seq<T>): seq<T>
    requires s != []
  {
    s[..|s| - 1]
  }

  lemma SubsetIsSmaller<T>(x: set<T>, y: set<T>)
    requires x <= y
    ensures |x| <= |y|
  {
    assert |y - x| == |y| - |x|;
  }

  ghost predicate NoDuplicates<T>(s: seq<T>) {
    forall i, j | 0 <= i < j < |s| :: s[i] != s[j]
  }

  /** The part of `Task` that the distributed matrix uses. */
  datatype ChunkTask = ChunkTask(size: U16, rowStart: U16, rowEnd: U16)

  /** `Task::validate` accepts the chunk. */
  predicate ValidChunkTask(task: ChunkTask) {
    && MIN_MATRIX_SIZE <= task.size <= MAX_DISTRIBUTED_MATRIX_SIZE
    && task.rowStart < task.rowEnd
    && task.rowEnd <= task.size
    && task.rowEnd - task.rowStart <= MAX_MATRIX_CHUNK_ROWS
  }
}

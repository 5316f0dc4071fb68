/** The matrix workloads of crates/swagri-executor. */
module Executor {
  import opened Core
  import opened Words

  // ---------- The two input matrices and their exact product ----------

  function Left(row: nat, column: nat): (v: U64)
    ensures 1 <= v <= 251
  {
    (row * 31 + column * 17 + 1) % 251 + 1
  }

  function Right(row: nat, column: nat): (v: U64)
    ensures 1 <= v <= 241
  {
    (row * 13 + column * 29 + 7) % 241 + 1
  }

  /** The first `n` terms of the dot product of a row of the left matrix and a column of the right one. */
  function Dot(row: nat, column: nat, n: nat): nat {
    if n == 0 then 0 else Dot(row, column, n - 1) + Left(row, n - 1) * Right(n - 1, column)
  }

  lemma {:induction false} DotBound(row: nat, column: nat, n: nat)
    ensures Dot(row, column, n) <= n * 60491
  {
    if n > 0 {
      DotBound(row, column, n - 1);
      TermBound(row, column, n - 1);
    }
  }

  lemma TermBound(row: nat, column: nat, n: nat)
    ensures Left(row, n) * Right(n, column) <= 60491
  {
    MulMonotone(Left(row, n), 251, Right(n, column));
  }

  /** One more accumulation step never wraps, for any 16-bit side. */
  lemma AccumulateExactly(row: nat, column: nat, n: nat)
    requires n < 0x1_0000
    ensures Dot(row, column, n) < TWO64 && Dot(row, column, n + 1) < TWO64
    ensures WrappingAdd(Dot(row, column, n), WrappingMul(Left(row, n), Right(n, column))) == Dot(row, column, n + 1)
  {
    DotBound(row, column, n);
    TermBound(row, column, n);
    WrapsExactly(Dot(row, column, n), Left(row, n), Right(n, column), 60491);
  }

  /** The exact value of one cell of the product of two matrices of side `size`. */
  function Cell(size: U16, row: nat, column: nat): U64 {
    DotBound(row, column, size);
    Dot(row, column, size)
  }

  // ---------- Order-independent chunk checksums ----------

  function CellChecksum(index: U64, value: U64): U64 {
    WrappingMul(
      RotateLeft(WrappingAdd(value, WrappingMul(index, 0x9e37_79b9_7f4a_7c15)), index % 63 + 1),
      0xa076_1d64_78bd_642f)
  }

  function CellIndex(size: U16, row: U16, column: nat): U64
    requires column < size
  {
    CellIndexFits(size, row, column);
    row * size + column
  }

  /** The word that one cell contributes. */
  function CellWord(size: U16, row: U16, column: nat): U64
    requires column < size
  {
    CellChecksum(CellIndex(size, row, column), Cell(size, row, column))
  }

  lemma CellIndexFits(size: U16, row: U16, column: nat)
    requires column < size
    ensures row * size + column < TWO64
  {
    MulMonotone(row, 0xffff, size);
  }

  /** The exclusive or over the words of the rows from `rowStart` up to `row`, and of the cells of `row` left of
      `column`. */
  function XorOfCells(size: U16, rowStart: U16, row: U16, column: nat): U64
    requires column <= size
    decreases row, column
  {
    if column > 0 then XorWord(XorOfCells(size, rowStart, row, column - 1), CellWord(size, row, column - 1))
    else if row <= rowStart then 0
    else XorOfCells(size, rowStart, row - 1, size)
  }

  /** The exclusive or over every cell of the rows from `rowStart` up to `rowEnd`. */
  function ChunkChecksum(size: U16, rowStart: U16, rowEnd: U16): U64 {
    XorOfCells(size, rowStart, rowEnd, 0)
  }

  lemma {:induction false} CellsSplit(size: U16, a: U16, b: U16, row: U16, column: nat)
    requires a <= b <= row && column <= size
    ensures XorOfCells(size, a, row, column) == Xor(XorOfCells(size, a, b, 0), XorOfCells(size, b, row, column))
    decreases row, column
  {
    var left := XorOfCells(size, a, b, 0);
    if column > 0 {
      CellsSplit(size, a, b, row, column - 1);
      XorAssociates(left, XorOfCells(size, b, row, column - 1), CellWord(size, row, column - 1));
    } else if row == b {
      XorZero(left);
    } else {
      CellsSplit(size, a, b, row - 1, size);
    }
  }

  /** Cutting a chunk anywhere leaves the exclusive or of the two parts unchanged. */
  lemma ChunkSplits(size: U16, a: U16, b: U16, c: U16)
    requires a <= b <= c
    ensures ChunkChecksum(size, a, c) == Xor(ChunkChecksum(size, a, b), ChunkChecksum(size, b, c))
  {
    CellsSplit(size, a, b, c, 0);
  }

  // ---------- The same checksums cell by cell ----------

  /** The word of the cell at a flat index: the exact dot product of its row and column, spread with the index. */
  function WordAt(size: U16, index: nat): U64
    requires size > 0 && index < size * size
  {
    CellOfIndex(size, index);
    DotBound(index / size, index % size, size);
    CellChecksum(index, Dot(index / size, index % size, size))
  }

  lemma CellOfIndex(size: U16, index: nat)
    requires size > 0 && index < size * size
    ensures index / size < size && index == index / size * size + index % size && index < TWO64
  {
    TableFits(size);
    if index / size >= size {
      MulMonotone(size, index / size, size);
      assert false;
    }
  }

  /** The exclusive or over the cells with flat indices from `from` up to `to`, each once. */
  function XorOfWords(size: U16, from: nat, to: nat): U64
    requires size > 0 && from <= to <= size * size
  {
    if from == to then 0 else XorWord(XorOfWords(size, from, to - 1), WordAt(size, to - 1))
  }

  lemma {:induction false} CellsAreWords(size: U16, a: U16, row: U16, column: nat)
    requires size > 0 && a <= row && column <= size
    requires a * size <= row * size + column <= size * size
    ensures XorOfCells(size, a, row, column) == XorOfWords(size, a * size, row * size + column)
    decreases row, column
  {
    hide CellWord, WordAt;
    if column > 0 {
      CellsAreWords(size, a, row, column - 1);
      WordOfTheCell(size, row, column - 1);
    } else if row > a {
      MulMonotone(a, row - 1, size);
      assert row * size == (row - 1) * size + size;
      CellsAreWords(size, a, row - 1, size);
    }
  }

  lemma WordOfTheCell(size: U16, row: U16, column: nat)
    requires column < size && row * size + column < size * size
    ensures CellWord(size, row, column) == WordAt(size, row * size + column)
  {
    hide Dot, CellChecksum;
    DivisionIs(row * size + column, size, row, column);
  }

  /** The checksum of a range of rows is the exclusive or of the words of exactly their cells, each once. */
  lemma ChunkIsXorOfItsCells(size: U16, rowStart: U16, rowEnd: U16)
    requires size > 0 && rowStart <= rowEnd <= size
    ensures rowStart * size <= rowEnd * size <= size * size
    ensures ChunkChecksum(size, rowStart, rowEnd) == XorOfWords(size, rowStart * size, rowEnd * size)
  {
    hide XorOfCells, XorOfWords;
    MulMonotone(rowStart, rowEnd, size);
    MulMonotone(rowEnd, size, size);
    CellsAreWords(size, rowStart, rowEnd, 0);
  }

  /** The word of a cell in plain numbers: its value and its index are spread over 64 bits, turned left by one to 63
      bits and spread again. */
  lemma CellChecksumIs(index: U64, value: U64)
    ensures var x, n := (value + index * 0x9e37_79b9_7f4a_7c15) % TWO64, index % 63 + 1;
      CellChecksum(index, value)
        == (x * Pow2(n) % TWO64 + x / Pow2(64 - n)) * 0xa076_1d64_78bd_642f % TWO64
  {
    hide Pow2, RotateLeft;
    WrapsOnce(value, index * 0x9e37_79b9_7f4a_7c15);
    SpreadAndTurned(index % 63 + 1, (value + index * 0x9e37_79b9_7f4a_7c15) % TWO64);
  }

  lemma SpreadAndTurned(n: nat, x: U64)
    requires n <= 64
    ensures WrappingMul(RotateLeft(x, n), 0xa076_1d64_78bd_642f)
         == (x * Pow2(n) % TWO64 + x / Pow2(64 - n)) * 0xa076_1d64_78bd_642f % TWO64
  {
    hide Pow2, RotateLeft;
    RotateLeftIs(x, n);
  }

  // ---------- Row-major tables ----------

  /** What a flat row-major array holds. `Partial` is the product while row `row` has folded in `inner` terms,
      one more to the left of `column`. */
  datatype Content = LeftInput | RightInput | Product | Partial(row: nat, inner: nat, column: nat)

  function Entry(content: Content, side: U16, r: nat, c: nat): U64 {
    match content
    case LeftInput => Left(r, c)
    case RightInput => Right(r, c)
    case Product => Cell(side, r, c)
    case Partial(row, inner, column) =>
      if r < row then Cell(side, r, c)
      else if r > row then 0
      else
        var terms := if c < column then inner + 1 else inner;
        if terms <= side then PartialFits(side, r, c, terms); Dot(r, c, terms) else 0
  }

  lemma PartialFits(side: U16, row: nat, column: nat, n: nat)
    requires n <= side
    ensures Dot(row, column, n) < TWO64
  {
    DotBound(row, column, n);
  }

  function RowOf(content: Content, side: U16, r: nat): (t: seq<U64>)
    ensures |t| == side
  {
    seq(side, c requires 0 <= c < side => Entry(content, side, r, c))
  }

  /** The first `n` rows, one after the other. */
  function Rows(content: Content, side: U16, n: nat): (t: seq<U64>)
    ensures |t| == n * side
  {
    if n == 0 then [] else Rows(content, side, n - 1) + RowOf(content, side, n - 1)
  }

  function Table(content: Content, side: U16): (t: seq<U64>)
    ensures |t| == side * side
  {
    Rows(content, side, side)
  }

  lemma {:induction false} RowsAt(content: Content, side: U16, n: nat, r: nat, c: nat)
    requires r < n && c < side
    ensures r * side + c < n * side
    ensures Rows(content, side, n)[r * side + c] == Entry(content, side, r, c)
  {
    assert n * side == (n - 1) * side + side;
    if r < n - 1 {
      RowsAt(content, side, n - 1, r, c);
    }
  }

  lemma {:induction false} RowsAgree(x: Content, y: Content, side: U16, n: nat)
    requires forall r, c | 0 <= r < n && 0 <= c < side :: Entry(x, side, r, c) == Entry(y, side, r, c)
    ensures Rows(x, side, n) == Rows(y, side, n)
  {
    if n > 0 {
      RowsAgree(x, y, side, n - 1);
      assert RowOf(x, side, n - 1) == RowOf(y, side, n - 1);
    }
  }

  lemma {:induction false} RowsUpdate(x: Content, y: Content, side: U16, n: nat, row: nat, column: nat)
    requires row < n && column < side
    requires forall r, c | 0 <= r < n && 0 <= c < side && (r != row || c != column) ::
      Entry(x, side, r, c) == Entry(y, side, r, c)
    ensures row * side + column < n * side
    ensures Rows(y, side, n) == Rows(x, side, n)[row * side + column := Entry(y, side, row, column)]
  {
    hide Entry, Rows, RowOf;
    OneMoreRow(x, side, n);
    OneMoreRow(y, side, n);
    var before, last := Rows(x, side, n - 1), RowOf(x, side, n - 1);
    if row < n - 1 {
      RowsUpdate(x, y, side, n - 1, row, column);
      SameRow(x, y, side, n - 1);
      UpdateFirst(before, last, row * side + column, Entry(y, side, row, column));
    } else {
      RowsAgree(x, y, side, n - 1);
      UpdatedRow(x, y, side, row, column);
      UpdateSecond(before, last, column, Entry(y, side, row, column));
    }
  }

  lemma OneMoreRow(content: Content, side: U16, n: nat)
    requires n > 0
    ensures n * side == (n - 1) * side + side
    ensures |Rows(content, side, n - 1)| == (n - 1) * side && |RowOf(content, side, n - 1)| == side
    ensures Rows(content, side, n) == Rows(content, side, n - 1) + RowOf(content, side, n - 1)
  {
  }

  lemma SameRow(x: Content, y: Content, side: U16, r: nat)
    requires forall c | 0 <= c < side :: Entry(x, side, r, c) == Entry(y, side, r, c)
    ensures RowOf(x, side, r) == RowOf(y, side, r)
  {
    hide Entry;
  }

  lemma UpdatedRow(x: Content, y: Content, side: U16, r: nat, column: nat)
    requires column < side
    requires forall c | 0 <= c < side && c != column :: Entry(x, side, r, c) == Entry(y, side, r, c)
    ensures RowOf(y, side, r) == RowOf(x, side, r)[column := Entry(y, side, r, column)]
  {
    hide Entry;
  }

  lemma UpdateFirst(s: seq<U64>, t: seq<U64>, k: nat, v: U64)
    requires k < |s|
    ensures s[k := v] + t == (s + t)[k := v]
  {
  }

  lemma UpdateSecond(s: seq<U64>, t: seq<U64>, k: nat, v: U64)
    requires k < |t|
    ensures s + t[k := v] == (s + t)[|s| + k := v]
  {
  }

  // ---------- The loops of `matrix_chunk` ----------

  /** The filling loop of one input matrix. */
  method Fill(content: Content, side: U16) returns (cells: array<U64>)
    ensures fresh(cells) && cells[..] == Table(content, side)
  {
    cells := new U64[side * side](_ => 0);
    for row := 0 to side
      invariant row * side <= side * side
      invariant cells[..row * side] == Rows(content, side, row)
    {
      FillRow(content, side, row, cells);
    }
  }

  method FillRow(content: Content, side: U16, row: nat, cells: array<U64>)
    requires row < side && cells.Length == side * side
    requires row * side <= cells.Length && cells[..row * side] == Rows(content, side, row)
    modifies cells
    ensures (row + 1) * side <= cells.Length && cells[..(row + 1) * side] == Rows(content, side, row + 1)
  {
    hide Entry, Rows;
    var start := row * side;
    MulMonotone(row + 1, side, side);
    assert (row + 1) * side == start + side;
    for column := 0 to side
      invariant cells[..start] == Rows(content, side, row)
      invariant forall c | 0 <= c < column :: cells[start + c] == Entry(content, side, row, c)
    {
      cells[start + column] := Entry(content, side, row, column);
    }
    OneMoreRow(content, side, row + 1);
    assert cells[start..start + side] == RowOf(content, side, row);
    Joined(cells[..], start, side);
  }

  lemma Joined(s: seq<U64>, start: nat, n: nat)
    requires start + n <= |s|
    ensures s[..start + n] == s[..start] + s[start..start + n]
  {
  }

  /** The innermost loop. */
  method AccumulateCell(size: U16, row: nat, column: nat, right: array<U64>) returns (value: U64)
    requires column < size && right[..] == Table(RightInput, size)
    ensures value == Cell(size, row, column)
  {
    value := 0;
    for inner := 0 to size
      invariant value == Dot(row, column, inner)
    {
      RowsAt(RightInput, size, size, inner, column);
      AccumulateExactly(row, column, inner);
      assert right[inner * size + column] == right[..][inner * size + column];
      value := WrappingAdd(value, WrappingMul(Left(row, inner), right[inner * size + column]));
    }
  }

  method WordOfCell(size: U16, row: U16, column: nat, right: array<U64>) returns (word: U64)
    requires column < size && right[..] == Table(RightInput, size)
    ensures word == CellWord(size, row, column)
  {
    var value := AccumulateCell(size, row, column, right);
    word := CellChecksum(CellIndex(size, row, column), value);
  }

  /** `matrix_chunk`: row, then column, then the inner index. */
  method MatrixChunk(size: U16, rowStart: U16, rowEnd: U16) returns (checksum: U64)
    ensures checksum == ChunkChecksum(size, rowStart, rowEnd)
  {
    var right := Fill(RightInput, size);
    checksum := 0;
    var row := rowStart;
    while row < rowEnd
      invariant rowStart <= row && (row <= rowEnd || row == rowStart)
      invariant checksum == XorOfCells(size, rowStart, row, 0)
      invariant right[..] == Table(RightInput, size)
    {
      for column := 0 to size
        invariant checksum == XorOfCells(size, rowStart, row, column)
        invariant right[..] == Table(RightInput, size)
      {
        var word := WordOfCell(size, row, column, right);
        checksum := XorWord(checksum, word);
      }
      row := row + 1;
    }
  }

  // ---------- The loops of `matrix_multiply` ----------

  /** Where a cell of a matrix is kept. */
  function Place(side: U16, row: nat, column: nat): (index: nat)
    requires row < side && column < side
    ensures index < side * side
  {
    MulMonotone(row + 1, side, side);
    row * side + column
  }

  lemma TableAt(content: Content, side: U16, row: nat, column: nat)
    requires row < side && column < side
    ensures Table(content, side)[Place(side, row, column)] == Entry(content, side, row, column)
  {
    RowsAt(content, side, side, row, column);
  }

  /** One step of the innermost loop. */
  lemma PartialStep(side: U16, row: nat, inner: nat, column: nat)
    requires row < side && inner < side && column < side
    ensures Dot(row, column, inner) < TWO64 && Dot(row, column, inner + 1) < TWO64
    ensures Table(Partial(row, inner, column), side)[Place(side, row, column)] == Dot(row, column, inner)
    ensures Table(RightInput, side)[Place(side, inner, column)] == Right(inner, column)
    ensures WrappingAdd(Dot(row, column, inner), WrappingMul(Left(row, inner), Right(inner, column)))
         == Dot(row, column, inner + 1)
    ensures Table(Partial(row, inner, column + 1), side)
         == Table(Partial(row, inner, column), side)[Place(side, row, column) := Dot(row, column, inner + 1)]
  {
    hide Table, Rows, Dot, WrappingAdd, WrappingMul;
    var x, y := Partial(row, inner, column), Partial(row, inner, column + 1);
    AccumulateExactly(row, column, inner);
    assert Entry(x, side, row, column) == Dot(row, column, inner);
    assert Entry(y, side, row, column) == Dot(row, column, inner + 1);
    TableAt(x, side, row, column);
    TableAt(RightInput, side, inner, column);
    OtherEntriesStay(side, row, inner, column);
    hide Entry;
    TableUpdate(x, y, side, row, column);
  }

  lemma TableUpdate(x: Content, y: Content, side: U16, row: nat, column: nat)
    requires row < side && column < side
    requires forall r, c | 0 <= r < side && 0 <= c < side && (r != row || c != column) ::
      Entry(x, side, r, c) == Entry(y, side, r, c)
    ensures Table(y, side) == Table(x, side)[Place(side, row, column) := Entry(y, side, row, column)]
  {
    hide Entry;
    RowsUpdate(x, y, side, side, row, column);
  }

  lemma OtherEntriesStay(side: U16, row: nat, inner: nat, column: nat)
    ensures forall r, c | 0 <= r < side && 0 <= c < side && (r != row || c != column) ::
      Entry(Partial(row, inner, column), side, r, c) == Entry(Partial(row, inner, column + 1), side, r, c)
  {
  }

  /** The innermost loop: one scaled row is added to an output row. */
  method AddScaledRow(side: U16, row: nat, inner: nat, leftValue: U64, right: array<U64>, output: array<U64>)
    requires row < side && inner < side && leftValue == Left(row, inner)
    requires right != output && right[..] == Table(RightInput, side)
    requires output[..] == Table(Partial(row, inner, 0), side)
    modifies output
    ensures output[..] == Table(Partial(row, inner, side), side)
  {
    for column := 0 to side
      invariant output[..] == Table(Partial(row, inner, column), side)
    {
      PartialStep(side, row, inner, column);
      var index, other := Place(side, row, column), Place(side, inner, column);
      assert output[index] == output[..][index];
      assert right[other] == right[..][other];
      output[index] := WrappingAdd(output[index], WrappingMul(leftValue, right[other]));
    }
  }

  /** The accumulation loops: row, then the inner index, then column. */
  method Multiply(side: U16) returns (output: array<U64>)
    ensures fresh(output) && output[..] == Table(Product, side)
  {
    var left := Fill(LeftInput, side);
    var right := Fill(RightInput, side);
    output := new U64[side * side](_ => 0);
    NothingYet(side, side);
    assert output[..] == Table(Partial(0, 0, 0), side);
    for row := 0 to side
      invariant left[..] == Table(LeftInput, side) && right[..] == Table(RightInput, side)
      invariant output[..] == Table(Partial(row, 0, 0), side)
    {
      for inner := 0 to side
        invariant left[..] == Table(LeftInput, side) && right[..] == Table(RightInput, side)
        invariant output[..] == Table(Partial(row, inner, 0), side)
      {
        RowsAt(LeftInput, side, side, row, inner);
        assert left[row * side + inner] == left[..][row * side + inner];
        AddScaledRow(side, row, inner, left[row * side + inner], right, output);
        RowsAgree(Partial(row, inner, side), Partial(row, inner + 1, 0), side, side);
      }
      RowsAgree(Partial(row, side, 0), Partial(row + 1, 0, 0), side, side);
    }
    RowsAgree(Partial(side, 0, 0), Product, side, side);
  }

  /** Both loop orders compute the same product: every cell of the output array is the exact dot product, and so is
      the value that the chunk loop accumulates for it. */
  lemma OneProduct(side: U16, row: nat, column: nat)
    requires row < side && column < side
    ensures row * side + column < side * side
    ensures Table(Product, side)[row * side + column] == Cell(side, row, column) == Dot(row, column, side)
  {
    RowsAt(Product, side, side, row, column);
  }

  lemma {:induction false} NothingYet(side: U16, n: nat)
    ensures forall k | 0 <= k < n * side :: Rows(Partial(0, 0, 0), side, n)[k] == 0
  {
    if n > 0 {
      NothingYet(side, n - 1);
      assert n * side == (n - 1) * side + side;
    }
  }

  function FoldCell(checksum: U64, value: U64, index: U64): U64 {
    RotateLeft(WrappingAdd(checksum, XorWord(value, index)), 11)
  }

  /** One step of the fold in plain numbers: 2048 is the eleventh power of two, and 53 bits are not carried round. */
  lemma FoldCellIs(checksum: U64, value: U64, index: U64)
    ensures var x := (checksum + Xor(value, index)) % TWO64;
      FoldCell(checksum, value, index) == x * 2048 % TWO64 + x / 0x20_0000_0000_0000
  {
    hide RotateLeft, Xor, Pow2;
    var x := (checksum + Xor(value, index)) % TWO64;
    RotateLeftIs(x, 11);
    ElevenBits();
  }

  lemma ElevenBits()
    ensures Pow2(11) == 2048 && Pow2(53) == 0x20_0000_0000_0000
  {
    assert Pow2(8) == 0x100 && Pow2(16) == 0x1_0000 && Pow2(24) == 0x100_0000 && Pow2(32) == 0x1_0000_0000;
    assert Pow2(40) == 0x100_0000_0000 && Pow2(48) == 0x1_0000_0000_0000;
  }

  /** The position-dependent checksum over the first `n` cells of a matrix. */
  function FoldCells(cells: seq<U64>, n: nat): U64
    requires n <= |cells| < TWO64
  {
    if n == 0 then 0x6a09_e667_f3bc_c909 else FoldCell(FoldCells(cells, n - 1), cells[n - 1], n - 1)
  }

  lemma TableFits(side: U16)
    ensures side * side < TWO64
  {
    MulMonotone(side, 0xffff, side);
  }

  /** `matrix_multiply`. */
  method MatrixMultiply(size: U16) returns (checksum: U64)
    ensures |Table(Product, size)| < TWO64
    ensures checksum == FoldCells(Table(Product, size), |Table(Product, size)|)
  {
    TableFits(size);
    var output := Multiply(size);
    checksum := FoldArray(output);
  }

  method FoldArray(cells: array<U64>) returns (checksum: U64)
    requires cells.Length < TWO64
    ensures checksum == FoldCells(cells[..], cells.Length)
  {
    checksum := 0x6a09_e667_f3bc_c909;
    for index := 0 to cells.Length
      invariant checksum == FoldCells(cells[..], index)
    {
      checksum := FoldCell(checksum, cells[index], index);
    }
  }

  // ---------- The MatrixChunk arm of `execute` ----------

  datatype Outcome =
    | ChunkResult(checksum: U64, size: U16, rowStart: U16, rowEnd: U16)
    | InvalidTask

  method Execute(task: ChunkTask) returns (outcome: Outcome)
    ensures outcome == Executed(task)
    ensures outcome.ChunkResult? <==>
      && 16 <= task.size <= 768 && task.rowStart < task.rowEnd <= task.size
      && task.rowEnd - task.rowStart <= 128
    ensures outcome.ChunkResult? ==>
      outcome == ChunkResult(outcome.checksum, task.size, task.rowStart, task.rowEnd)
  {
    if !ValidChunkTask(task) {
      return InvalidTask;
    }
    var checksum := MatrixChunk(task.size, task.rowStart, task.rowEnd);
    return ChunkResult(checksum, task.size, task.rowStart, task.rowEnd);
  }

  function Executed(task: ChunkTask): Outcome {
    if ValidChunkTask(task)
    then ChunkResult(ChunkChecksum(task.size, task.rowStart, task.rowEnd), task.size, task.rowStart, task.rowEnd)
    else InvalidTask
  }
}

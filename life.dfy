/**
 * Conway's Game of Life on a torus (lab2/life/Life.cpp). The grid is a
 * row-major sequence of `width * height` cells; `'#'` is live and `'.'` dead
 * (every character other than `'#'` counts as dead when a cell is judged).
 * One step computes every new cell from the old grid into a separate buffer
 * that is split into one block per worker, and then replaces the grid.
 */
module GameOfLife {
  import opened Arith

  const LIVE_CELL: char := '#'
  const DEAD_CELL: char := '.'

  /** The value the lab passes around: dimensions and row-major cells. */
  datatype Field = Field(width: int, height: int, cells: seq<char>)

  /**
   * What every read of the grid relies on: positive dimensions and at least
   * `width * height` cells (fewer would make the wrapped reads go out of bounds).
   */
  predicate WellFormed(f: Field) {
    f.width >= 1 && f.height >= 1 && |f.cells| >= f.width * f.height
  }

  lemma RowMajorBound(w: int, h: int, x: int, y: int)
    requires 0 <= x < w && 0 <= y < h
    ensures 0 <= y * w + x < w * h
  {
    MulMonotone(y, h - 1, w);
  }

  /** `(v + m) % m`: the source's wrap of a coordinate onto `[0, m)`, for `v >= -m`. */
  function Wrap(v: int, m: int): (r: int)
    requires m >= 1 && v >= -m
    ensures 0 <= r < m
  {
    (v + m) % m
  }

  /** Within one lap of the grid the wrap adds or removes at most one `m`. */
  lemma WrapNear(v: int, m: int)
    requires m >= 1 && -m <= v < 2 * m
    ensures Wrap(v, m) == if v < 0 then v + m else if v < m then v else v - m
  {
    if v < 0 {
      ModOfShift(v + m, m, 0);
    } else if v < m {
      ModOfShift(v, m, 1);
    } else {
      ModOfShift(v - m, m, 2);
    }
  }

  lemma WrapInside(v: int, m: int)
    requires m >= 1 && v >= -m
    ensures 0 <= v < m ==> Wrap(v, m) == v
  {
    if 0 <= v < m { WrapNear(v, m); }
  }

  /**
   * The cell a read at column `x`, row `y` returns: both coordinates are
   * wrapped onto the torus with `(x + width) % width` and
   * `(y + height) % height`, which stays non-negative for `x >= -width` and
   * `y >= -height`. Inside the grid that is the row-major cell `y * width + x`.
   */
  function GetCell(f: Field, x: int, y: int): (c: char)
    requires WellFormed(f) && x >= -f.width && y >= -f.height
    ensures 0 <= x < f.width && 0 <= y < f.height ==>
      y * f.width + x < |f.cells| && c == f.cells[y * f.width + x]
  {
    var cx := Wrap(x, f.width);
    var cy := Wrap(y, f.height);
    RowMajorBound(f.width, f.height, cx, cy);
    WrapInside(x, f.width);
    WrapInside(y, f.height);
    f.cells[cy * f.width + cx]
  }

  /** A read one step past any edge comes back in at the opposite edge. */
  lemma GetCellWraps(f: Field, x: int, y: int)
    requires WellFormed(f) && 0 <= x < f.width && 0 <= y < f.height
    ensures x == f.width - 1 ==> GetCell(f, x + 1, y) == GetCell(f, 0, y)
    ensures y == f.height - 1 ==> GetCell(f, x, y + 1) == GetCell(f, x, 0)
    ensures x == 0 ==> GetCell(f, -1, y) == GetCell(f, f.width - 1, y)
    ensures y == 0 ==> GetCell(f, x, -1) == GetCell(f, x, f.height - 1)
  {
    WrapNear(x, f.width);
    WrapNear(y, f.height);
    WrapNear(x + 1, f.width);
    WrapNear(y + 1, f.height);
    WrapNear(x - 1, f.width);
    WrapNear(y - 1, f.height);
    WrapNear(0, f.width);
    WrapNear(0, f.height);
    WrapNear(f.width - 1, f.width);
    WrapNear(f.height - 1, f.height);
  }

  function Alive(f: Field, x: int, y: int): (n: nat)
    requires WellFormed(f) && x >= -f.width && y >= -f.height
    ensures n <= 1 && (n == 1 <==> GetCell(f, x, y) == LIVE_CELL)
  {
    if GetCell(f, x, y) == LIVE_CELL then 1 else 0
  }

  /** Column and row of cell `pos`: `pos % width` and `pos / width`. */
  function Column(f: Field, pos: nat): (x: int)
    requires WellFormed(f)
    ensures 0 <= x < f.width
  {
    pos % f.width
  }

  function Row(f: Field, pos: nat): (y: int)
    requires WellFormed(f)
    ensures 0 <= y
  {
    pos / f.width
  }

  /**
   * Reference definition of the neighbour count: the live cells among the
   * eight cells around `pos`, named one by one.
   */
  function NeighborCount(f: Field, pos: nat): (n: nat)
    requires WellFormed(f)
    ensures n <= 8
  {
    var x, y := Column(f, pos), Row(f, pos);
    Alive(f, x - 1, y - 1) + Alive(f, x, y - 1) + Alive(f, x + 1, y - 1) +
    Alive(f, x - 1, y) + Alive(f, x + 1, y) +
    Alive(f, x - 1, y + 1) + Alive(f, x, y + 1) + Alive(f, x + 1, y + 1)
  }

  /** Live cells counted by the inner loop in column `i`, rows `y - 1 .. j - 1`, skipping `(x, y)`. */
  function ColumnSum(f: Field, x: int, y: int, i: int, j: int): nat
    requires WellFormed(f) && 0 <= x < f.width && 0 <= y
    requires x - 1 <= i <= x + 1 && y - 1 <= j <= y + 2
    decreases j - y
  {
    if j == y - 1 then 0
    else ColumnSum(f, x, y, i, j - 1) + (if !(i == x && j - 1 == y) then Alive(f, i, j - 1) else 0)
  }

  /** Live cells counted by the outer loop over the columns `x - 1 .. i - 1`. */
  function BlockSum(f: Field, x: int, y: int, i: int): nat
    requires WellFormed(f) && 0 <= x < f.width && 0 <= y
    requires x - 1 <= i <= x + 2
    decreases i - x
  {
    if i == x - 1 then 0 else BlockSum(f, x, y, i - 1) + ColumnSum(f, x, y, i - 1, y + 2)
  }

  /** One full run of the inner loop over column `i`. */
  lemma ColumnSumFull(f: Field, x: int, y: int, i: int)
    requires WellFormed(f) && 0 <= x < f.width && 0 <= y && x - 1 <= i <= x + 1
    ensures ColumnSum(f, x, y, i, y + 2) ==
      Alive(f, i, y - 1) + (if i == x then 0 else Alive(f, i, y)) + Alive(f, i, y + 1)
  {
    assert ColumnSum(f, x, y, i, y) == Alive(f, i, y - 1);
  }

  /** The nested loops' visiting order counts the same cells as the reference definition. */
  lemma BlockSumIsNeighborCount(f: Field, pos: nat)
    requires WellFormed(f)
    ensures BlockSum(f, Column(f, pos), Row(f, pos), Column(f, pos) + 2) == NeighborCount(f, pos)
  {
    var x, y := Column(f, pos), Row(f, pos);
    ColumnSumFull(f, x, y, x - 1);
    ColumnSumFull(f, x, y, x);
    ColumnSumFull(f, x, y, x + 1);
    assert BlockSum(f, x, y, x) == ColumnSum(f, x, y, x - 1, y + 2);
  }

  /** Rule S23: a live cell survives with two or three live neighbours. */
  function GetLiveCellNextState(neighboursNumber: int): (c: char)
    ensures c == LIVE_CELL || c == DEAD_CELL
    ensures c == LIVE_CELL <==> neighboursNumber == 2 || neighboursNumber == 3
  {
    if neighboursNumber == 2 || neighboursNumber == 3 then LIVE_CELL else DEAD_CELL
  }

  /** Rule B3: a dead cell is born with exactly three live neighbours. */
  function GetDeadCellNextState(neighboursNumber: int): (c: char)
    ensures c == LIVE_CELL || c == DEAD_CELL
    ensures c == LIVE_CELL <==> neighboursNumber == 3
  {
    if neighboursNumber == 3 then LIVE_CELL else DEAD_CELL
  }

  /** The next state of cell `pos`, judged on the old grid only. */
  function NextCell(f: Field, pos: nat): (c: char)
    requires WellFormed(f) && pos < |f.cells|
    ensures c == LIVE_CELL || c == DEAD_CELL
  {
    var n := NeighborCount(f, pos);
    if f.cells[pos] == LIVE_CELL then GetLiveCellNextState(n) else GetDeadCellNextState(n)
  }

  /** The whole next generation. */
  function NextGeneration(f: Field): (cells: seq<char>)
    requires WellFormed(f)
    ensures |cells| == |f.cells|
    ensures forall i :: 0 <= i < |cells| ==> cells[i] == NextCell(f, i)
  {
    seq(|f.cells|, i requires 0 <= i < |f.cells| => NextCell(f, i))
  }

  /** B3/S23 as stated for the whole grid: every cell is live or dead, and lives exactly by the rule. */
  lemma NextGenerationRule(f: Field, pos: nat)
    requires WellFormed(f) && pos < |f.cells|
    ensures NextGeneration(f)[pos] == LIVE_CELL || NextGeneration(f)[pos] == DEAD_CELL
    ensures f.cells[pos] == LIVE_CELL ==>
      (NextGeneration(f)[pos] == LIVE_CELL <==> NeighborCount(f, pos) in {2, 3})
    ensures f.cells[pos] != LIVE_CELL ==>
      (NextGeneration(f)[pos] == LIVE_CELL <==> NeighborCount(f, pos) == 3)
  {
  }

  /** The first cell of block `i` when `size` cells are split among `t` workers. */
  function BlockBegin(size: nat, t: nat, i: nat): nat
    requires t >= 1
  {
    i * (size / t)
  }

  /** One past the last cell of block `i`: the last block runs to the end. */
  function BlockEnd(size: nat, t: nat, i: nat): nat
    requires t >= 1
  {
    if i == t - 1 then size else (i + 1) * (size / t)
  }

  lemma BlockBeginBound(size: nat, t: nat, i: nat)
    requires t >= 1 && i < t
    ensures BlockBegin(size, t, i) <= BlockBegin(size, t, t - 1) <= size
  {
    var b := size / t;
    MulMonotone(i, t - 1, b);
    MulMonotone(t - 1, t, b);
    assert size == t * b + size % t;
  }

  lemma LastBlockCovers(size: nat, t: nat, k: nat)
    requires t >= 1 && k < size
    requires size / t == 0 || k / (size / t) >= t - 1
    ensures BlockBegin(size, t, t - 1) <= k < BlockEnd(size, t, t - 1)
  {
    var b := size / t;
    if b != 0 {
      MulMonotone(t - 1, k / b, b);
      assert k == (k / b) * b + k % b;
    }
  }

  lemma InnerBlockCovers(size: nat, t: nat, k: nat)
    requires t >= 1 && k < size
    requires size / t != 0 && k / (size / t) < t - 1
    ensures BlockBegin(size, t, k / (size / t)) <= k < BlockEnd(size, t, k / (size / t))
  {
    var b := size / t;
    var i := k / b;
    assert k == i * b + k % b;
    assert (i + 1) * b == i * b + b;
  }

  /** Every cell lies in some block. */
  lemma BlocksCover(size: nat, t: nat, k: nat)
    requires t >= 1 && k < size
    ensures exists i :: 0 <= i < t && BlockBegin(size, t, i) <= k < BlockEnd(size, t, i)
  {
    var b := size / t;
    if b == 0 || k / b >= t - 1 {
      LastBlockCovers(size, t, k);
    } else {
      InnerBlockCovers(size, t, k);
    }
  }

  /** A block ends where every later block begins or before. */
  lemma BlocksOrdered(size: nat, t: nat, i: nat, j: nat)
    requires t >= 1 && i < j < t
    ensures BlockEnd(size, t, i) <= BlockBegin(size, t, j)
  {
    MulMonotone(i + 1, j, size / t);
  }

  /**
   * The blocks `[0, bs)`, `[bs, 2bs)`, ..., `[(t-1)bs, size)` with
   * `bs = size / t` partition `[0, size)`: every cell belongs to exactly one
   * block, whatever the number of workers.
   */
  lemma BlocksPartition(size: nat, t: nat, k: nat)
    requires t >= 1 && k < size
    ensures exists i :: 0 <= i < t && BlockBegin(size, t, i) <= k < BlockEnd(size, t, i)
    ensures forall i, j ::
      (0 <= i < j < t && BlockBegin(size, t, i) <= k < BlockEnd(size, t, i)) ==>
      !(BlockBegin(size, t, j) <= k < BlockEnd(size, t, j))
  {
    BlocksCover(size, t, k);
    forall i, j | 0 <= i < j < t
      ensures BlockEnd(size, t, i) <= BlockBegin(size, t, j)
    {
      BlocksOrdered(size, t, i, j);
    }
  }

  /** The simulation: the grid, its dimensions and the number of workers. */
  class Life {
    var cells: seq<char>
    var width: int
    var height: int
    var threadsNum: int

    ghost predicate Valid()
      reads this
    {
      WellFormed(Field(width, height, cells)) && threadsNum >= 1
    }

    constructor (field: Field, threadsNum: int)
      requires WellFormed(field) && threadsNum >= 1
      ensures Valid()
      ensures cells == field.cells && width == field.width && height == field.height
      ensures this.threadsNum == threadsNum
    {
      cells := field.cells;
      width := field.width;
      height := field.height;
      this.threadsNum := threadsNum;
    }

    /** A copy of the current dimensions and cells. */
    function GetField(): (f: Field)
      reads this
      ensures f.width == width && f.height == height && f.cells == cells
    {
      Field(width, height, cells)
    }

    /** Counts the live cells around `pos` by visiting the 3x3 block and skipping its centre. */
    method GetCellNeighborsNumber(pos: nat) returns (result: int)
      requires Valid()
      ensures result == NeighborCount(GetField(), pos)
      ensures 0 <= result <= 8
    {
      var f := GetField();
      var x := Column(f, pos);
      var y := Row(f, pos);
      result := 0;
      var i := x - 1;
      while i <= x + 1
        invariant x - 1 <= i <= x + 2
        invariant result == BlockSum(f, x, y, i)
      {
        var j := y - 1;
        while j <= y + 1
          invariant y - 1 <= j <= y + 2
          invariant result == BlockSum(f, x, y, i) + ColumnSum(f, x, y, i, j)
        {
          if !(i == x && j == y) && GetCell(f, i, j) == LIVE_CELL {
            result := result + 1;
          }
          j := j + 1;
        }
        i := i + 1;
      }
      BlockSumIsNeighborCount(f, pos);
    }

    /** Writes the next state of every cell in `[begin, end)` into `result`, reading only the grid. */
    method NextStepForBlock(begin: nat, end: nat, result: array<char>)
      requires Valid() && begin <= end <= |cells| == result.Length
      modifies result
      ensures forall k :: begin <= k < end ==> result[k] == NextCell(GetField(), k)
      ensures forall k :: 0 <= k < result.Length && !(begin <= k < end) ==> result[k] == old(result[k])
    {
      var i := begin;
      while i < end
        invariant begin <= i <= end
        invariant forall k :: begin <= k < i ==> result[k] == NextCell(GetField(), k)
        invariant forall k :: 0 <= k < result.Length && !(begin <= k < i) ==> result[k] == old(result[k])
      {
        var neighboursNum := GetCellNeighborsNumber(i);
        result[i] := if cells[i] == LIVE_CELL
          then GetLiveCellNextState(neighboursNum)
          else GetDeadCellNextState(neighboursNum);
        i := i + 1;
      }
    }

    /**
     * One generation: the cells are split into `threadsNum` blocks, each block
     * is filled from the old grid into a fresh buffer, and the buffer then
     * replaces the grid. The blocks run one after the other here.
     */
    method NextStep()
      requires Valid()
      modifies this
      ensures Valid()
      ensures cells == NextGeneration(old(GetField()))
      ensures width == old(width) && height == old(height) && threadsNum == old(threadsNum)
    {
      var size := |cells|;
      var result := new char[size](_ => '\0');
      var t := 0;
      while t < threadsNum - 1
        invariant 0 <= t <= threadsNum - 1
        invariant BlockBegin(size, threadsNum, t) <= size
        modifies result
        invariant forall k :: 0 <= k < BlockBegin(size, threadsNum, t) ==> result[k] == NextCell(GetField(), k)
      {
        BlockBeginBound(size, threadsNum, t + 1);
        assert BlockEnd(size, threadsNum, t) == BlockBegin(size, threadsNum, t + 1);
        NextStepForBlock(BlockBegin(size, threadsNum, t), BlockEnd(size, threadsNum, t), result);
        t := t + 1;
      }
      BlockBeginBound(size, threadsNum, t);
      NextStepForBlock(BlockBegin(size, threadsNum, t), size, result);
      cells := result[..];
    }
  }
}

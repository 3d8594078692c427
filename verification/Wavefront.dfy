/**
  The dependency generator of the tiled Needleman-Wunsch example: a grid of blocks is walked along its
  anti-diagonals, each cut into tasks of taskSize blocks, and each task names the earlier tasks it needs.
 */
module Wavefront {

  // ---------------------------------------------------------------- diagonals

  /** Diagonal d of a grid of w times w blocks holds the blocks whose row and column add up to d. */
  predicate Diagonal(w: nat, d: int) {
    0 <= d < 2 * w - 1
  }

  /** The source's blk. */
  function Length(w: nat, d: nat): nat
    requires Diagonal(w, d)
  {
    if d < w then d + 1 else 2 * w - 1 - d
  }

  function TaskCount(blk: nat, size: nat): nat
    requires size > 0
  {
    (blk + (size - 1)) / size
  }

  /** The index of the first task of diagonal d, and for the one past the last, the number of tasks. */
  function First(w: nat, size: nat, d: nat): nat
    requires size > 0 && d <= 2 * w - 1
  {
    if d == 0 then 0 else First(w, size, d - 1) + TaskCount(Length(w, d - 1), size)
  }

  /** The task that computes the block at position p of diagonal d. */
  function TaskAt(w: nat, size: nat, d: nat, p: nat): nat
    requires size > 0 && Diagonal(w, d)
  {
    AtLeastZero(p, size);
    First(w, size, d) + p / size
  }

  lemma AtLeastZero(p: nat, size: nat)
    requires size > 0
    ensures p / size >= 0
  {
  }

  // ---------------------------------------------------------------- the dependencies of one block

  /** In the upper-left half, where blk is d + 1. */
  function UpperDeps(w: nat, size: nat, d: nat, p: nat): set<nat>
    requires size > 0 && d < w
  {
    (if p >= 1 && d >= 1 then {TaskAt(w, size, d - 1, p - 1)} else {}) +
    (if 1 <= p && p - 1 < d - 1 then {TaskAt(w, size, d - 2, p - 1)} else {}) +
    (if p < d then {TaskAt(w, size, d - 1, p)} else {})
  }

  /** In the lower-right half; the diagonal two before the first of them is still in the upper half. */
  function LowerDeps(w: nat, size: nat, d: nat, p: nat): set<nat>
    requires size > 0 && Diagonal(w, d) && d >= w
  {
    {TaskAt(w, size, d - 1, p + 1), TaskAt(w, size, d - 1, p), TaskAt(w, size, d - 2, if d == w then p else p + 1)}
  }

  function BlockDeps(w: nat, size: nat, d: nat, p: nat): set<nat>
    requires size > 0 && Diagonal(w, d)
  {
    if d < w then UpperDeps(w, size, d, p) else LowerDeps(w, size, d, p)
  }

  /** The dependencies of n blocks from position p on. */
  function RangeDeps(w: nat, size: nat, d: nat, p: nat, n: nat): set<nat>
    requires size > 0 && Diagonal(w, d)
  {
    if n == 0 then {} else RangeDeps(w, size, d, p, n - 1) + BlockDeps(w, size, d, p + n - 1)
  }

  /** One launched task: which blocks of which diagonal, and what it requires. */
  datatype Tile = Tile(d: nat, offset: nat, count: nat, deps: set<nat>)

  /** Blocks in task i of a diagonal. */
  function TileCount(w: nat, size: nat, d: nat, i: nat): int
    requires size > 0 && Diagonal(w, d)
  {
    if i == TaskCount(Length(w, d), size) - 1 then Length(w, d) - size * (TaskCount(Length(w, d), size) - 1) else size
  }

  lemma CountBounds(blk: nat, size: nat)
    requires size > 0
    ensures size * TaskCount(blk, size) >= blk
    ensures blk > 0 ==> TaskCount(blk, size) > 0 && size * (TaskCount(blk, size) - 1) < blk
  {
    var n := blk + (size - 1);
    assert n == (n / size) * size + n % size;
  }

  function TileAt(w: nat, size: nat, d: nat, i: nat): Tile
    requires size > 0 && Diagonal(w, d) && i < TaskCount(Length(w, d), size)
  {
    CountBounds(Length(w, d), size);
    var n: nat := TileCount(w, size, d, i);
    Tile(d, i * size, n, RangeDeps(w, size, d, i * size, n))
  }

  function DiagonalTiles(w: nat, size: nat, d: nat, n: nat): (r: seq<Tile>)
    requires size > 0 && Diagonal(w, d) && n <= TaskCount(Length(w, d), size)
    ensures |r| == n
  {
    if n == 0 then [] else DiagonalTiles(w, size, d, n - 1) + [TileAt(w, size, d, n - 1)]
  }

  /** All tasks of the first d diagonals, in launch order. */
  function Tiles(w: nat, size: nat, d: nat): (r: seq<Tile>)
    requires size > 0 && d <= 2 * w - 1
    ensures |r| == First(w, size, d)
  {
    if d == 0 then []
    else Tiles(w, size, d - 1) + DiagonalTiles(w, size, d - 1, TaskCount(Length(w, d - 1), size))
  }

  // ---------------------------------------------------------------- the loops

  lemma {:induction false} FirstNext(w: nat, size: nat, d: nat)
    requires size > 0 && Diagonal(w, d)
    ensures First(w, size, 0) == 0 && First(w, size, d + 1) == First(w, size, d) + TaskCount(Length(w, d), size)
  {
  }

  /** The two counting loops. */
  method CountTasks(w: nat, size: nat) returns (count: nat)
    requires size > 0 && w > 0
    ensures count == First(w, size, 2 * w - 1)
  {
    hide First;
    FirstNext(w, size, 0);
    count := 0;
    for blk := 1 to w + 1
      invariant count == First(w, size, blk - 1)
    {
      FirstNext(w, size, blk - 1);
      count := count + (blk + (size - 1)) / size;
    }
    var blk := w - 1;
    while blk >= 1
      invariant 0 <= blk < w && count == First(w, size, 2 * w - 1 - blk)
    {
      FirstNext(w, size, 2 * w - 1 - blk);
      count := count + (blk + (size - 1)) / size;
      blk := blk - 1;
    }
  }

  /** First indices of the two diagonals before d, or -1 where there is none. */
  predicate Starts(w: nat, size: nat, d: nat, nOrW: int, nw: int)
    requires size > 0 && d <= 2 * w - 1
  {
    && nOrW == (if d >= 1 then First(w, size, d - 1) else -1)
    && nw == (if d >= 2 then First(w, size, d - 2) else -1)
  }

  lemma {:induction false} RangeNext(w: nat, size: nat, d: nat, p: nat, n: nat)
    requires size > 0 && Diagonal(w, d)
    ensures RangeDeps(w, size, d, p, 0) == {}
    ensures RangeDeps(w, size, d, p, n + 1) == RangeDeps(w, size, d, p, n) + BlockDeps(w, size, d, p + n)
  {
    hide BlockDeps;
  }

  /** The innermost loop over the blocks of a task in the upper-left half. */
  method UpperTask(w: nat, size: nat, d: nat, i: nat, count: nat, nOrW: int, nw: int) returns (deps: set<nat>)
    requires size > 0 && d < w && Starts(w, size, d, nOrW, nw) && i * size + count <= Length(w, d)
    ensures deps == RangeDeps(w, size, d, i * size, count)
  {
    hide First, RangeDeps;
    RangeNext(w, size, d, i * size, 0);
    deps := {};
    var blk := d + 1;
    for j := 0 to count
      invariant deps == RangeDeps(w, size, d, i * size, j)
    {
      RangeNext(w, size, d, i * size, j);
      var nwNeighbour, nNeighbour, wNeighbour := i * size + j - 1, i * size + j, i * size + j - 1;
      if wNeighbour >= 0 {
        var task := nOrW + wNeighbour / size;
        if task >= 0 {
          deps := deps + {task};
        }
      }
      if nwNeighbour >= 0 && nwNeighbour < blk - 2 {
        var task := nw + nwNeighbour / size;
        if task >= 0 {
          deps := deps + {task};
        }
      }
      if nNeighbour >= 0 && nNeighbour < blk - 1 {
        var task := nOrW + nNeighbour / size;
        if task >= 0 {
          deps := deps + {task};
        }
      }
    }
  }

  method LowerTask(w: nat, size: nat, d: nat, i: nat, count: nat, nOrW: int, nw: int) returns (deps: set<nat>)
    requires size > 0 && Diagonal(w, d) && d >= w && Starts(w, size, d, nOrW, nw)
    ensures deps == RangeDeps(w, size, d, i * size, count)
  {
    hide First, RangeDeps;
    RangeNext(w, size, d, i * size, 0);
    deps := {};
    var blk := 2 * w - 1 - d;
    for j := 0 to count
      invariant deps == RangeDeps(w, size, d, i * size, j)
    {
      RangeNext(w, size, d, i * size, j);
      var nwNeighbour := if blk == w - 1 then i * size + j else i * size + j + 1;
      var nNeighbour, wNeighbour := i * size + j + 1, i * size + j;
      deps := deps + {nOrW + nNeighbour / size};
      deps := deps + {nOrW + wNeighbour / size};
      deps := deps + {nw + nwNeighbour / size};
    }
  }

  /** One round of either outer loop: the tasks of diagonal d, launched one after the other. */
  method LaunchDiagonal(w: nat, size: nat, d: nat, nOrW: int, nw: int, before: seq<Tile>) returns (tiles: seq<Tile>)
    requires size > 0 && Diagonal(w, d) && Starts(w, size, d, nOrW, nw)
    ensures tiles == before + DiagonalTiles(w, size, d, TaskCount(Length(w, d), size))
  {
    hide First, RangeDeps;
    var blk := if d < w then d + 1 else 2 * w - 1 - d;
    CountBounds(blk, size);
    var count := (blk + (size - 1)) / size;
    var lastSize: nat := blk - size * (count - 1);
    tiles := before;
    for i := 0 to count
      invariant tiles == before + DiagonalTiles(w, size, d, i)
    {
      TileFits(w, size, d, i);
      var thisSize := if i == count - 1 then lastSize else size;
      var deps;
      if d < w {
        deps := UpperTask(w, size, d, i, thisSize, nOrW, nw);
      } else {
        deps := LowerTask(w, size, d, i, thisSize, nOrW, nw);
      }
      tiles := tiles + [Tile(d, i * size, thisSize, deps)];
    }
  }

  lemma {:induction false} TileFits(w: nat, size: nat, d: nat, i: nat)
    requires size > 0 && Diagonal(w, d) && i < TaskCount(Length(w, d), size)
    ensures 0 < TileCount(w, size, d, i) <= size && i * size + TileCount(w, size, d, i) <= Length(w, d)
  {
    var blk, count := Length(w, d), TaskCount(Length(w, d), size);
    CountBounds(blk, size);
    hide TaskCount, Length;
    assert size * count == size * (count - 1) + size;
    if i < count - 1 {
      assert (i + 1) * size <= (count - 1) * size;
      assert (i + 1) * size == i * size + size;
    }
  }

  /** Both outer loops: every diagonal in turn, keeping where the last three began. */
  method Launch(w: nat, size: nat) returns (tiles: seq<Tile>, lastTaskIndex: int)
    requires size > 0 && w > 0
    ensures tiles == Tiles(w, size, 2 * w - 1) && lastTaskIndex == First(w, size, 2 * w - 2)
  {
    hide First, DiagonalTiles, TaskCount;
    FirstNext(w, size, 0);
    var nwIndex, nOrWIndex := -1, -1;
    lastTaskIndex, tiles := -1, [];
    for blk := 1 to w + 1
      invariant tiles == Tiles(w, size, blk - 1) && Starts(w, size, blk - 1, lastTaskIndex, nOrWIndex)
    {
      nwIndex := nOrWIndex;
      nOrWIndex := lastTaskIndex;
      lastTaskIndex := |tiles|;
      tiles := LaunchDiagonal(w, size, blk - 1, nOrWIndex, nwIndex, tiles);
    }
    var blk := w - 1;
    while blk >= 1
      invariant 0 <= blk < w && tiles == Tiles(w, size, 2 * w - 1 - blk)
      invariant Starts(w, size, 2 * w - 1 - blk, lastTaskIndex, nOrWIndex)
    {
      nwIndex := nOrWIndex;
      nOrWIndex := lastTaskIndex;
      lastTaskIndex := |tiles|;
      tiles := LaunchDiagonal(w, size, 2 * w - 1 - blk, nOrWIndex, nwIndex, tiles);
      blk := blk - 1;
    }
  }
}

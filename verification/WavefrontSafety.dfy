/** What the wavefront's dependencies mean for the blocks of the grid, and for who waits for the last task. */
module WavefrontSafety {
  import opened Wavefront
  import opened TaskStates
  import HostCallback
  import HostCallbackSafety

  // ---------------------------------------------------------------- the grid

  /** The row and column that the kernels compute for a position: nw_kernel1_gpu above, nw_kernel2_gpu below. */
  function RowOf(w: nat, d: nat, p: nat): int
    requires Diagonal(w, d)
  {
    if d < w then Length(w, d) - 1 - p else w - p - 1
  }

  function ColumnOf(w: nat, d: nat, p: nat): int
    requires Diagonal(w, d)
  {
    if d < w then p else p + w - Length(w, d)
  }

  /** The position of a block on its diagonal. */
  function Position(w: nat, r: nat, c: nat): nat
    requires r < w && c < w
  {
    if r + c < w then c else w - 1 - r
  }

  /**
    Positions along the diagonals and blocks of the grid correspond one to one: at its position the first kernel,
    whose blk is r + c + 1, and the second, whose blk is 2 * w - 1 - (r + c), compute block (r, c).
   */
  lemma PositionsAreBlocks(w: nat, r: nat, c: nat)
    requires r < w && c < w
    ensures Diagonal(w, r + c) && Position(w, r, c) < Length(w, r + c)
    ensures RowOf(w, r + c, Position(w, r, c)) == r && ColumnOf(w, r + c, Position(w, r, c)) == c
    ensures var p := Position(w, r, c);
            if r + c < w then var blk := r + c + 1; p < blk && r == blk - 1 - p && c == p
            else var blk := 2 * w - 1 - (r + c); p < blk && r == w - p - 1 && c == p + w - blk
  {
  }

  lemma BlocksArePositions(w: nat, d: nat, p: nat)
    requires Diagonal(w, d) && p < Length(w, d)
    ensures 0 <= RowOf(w, d, p) < w && 0 <= ColumnOf(w, d, p) < w && RowOf(w, d, p) + ColumnOf(w, d, p) == d
    ensures Position(w, RowOf(w, d, p), ColumnOf(w, d, p)) == p
  {
  }

  /** The task that computes block (r, c). */
  function TaskOf(w: nat, size: nat, r: nat, c: nat): nat
    requires size > 0 && r < w && c < w
  {
    TaskAt(w, size, r + c, Position(w, r, c))
  }

  /** The tasks of the blocks to the north, west and northwest, as far as there are any. */
  function NeighbourTasks(w: nat, size: nat, r: nat, c: nat): set<nat>
    requires size > 0 && r < w && c < w
  {
    (if r > 0 then {TaskOf(w, size, r - 1, c)} else {}) +
    (if c > 0 then {TaskOf(w, size, r, c - 1)} else {}) +
    (if r > 0 && c > 0 then {TaskOf(w, size, r - 1, c - 1)} else {})
  }

  lemma DepsAre(w: nat, size: nat, r: nat, c: nat)
    requires size > 0 && r < w && c < w
    ensures BlockDeps(w, size, r + c, Position(w, r, c)) == NeighbourTasks(w, size, r, c)
  {
    hide TaskAt;
  }

  /**
    The loops' index arithmetic names exactly the tasks of the blocks at (r - 1, c), (r, c - 1) and (r - 1, c - 1), as
    far as there are any, on all diagonals.
   */
  lemma DepsAreNeighbours(w: nat, size: nat, r: nat, c: nat, x: nat)
    requires size > 0 && r < w && c < w
    ensures x in BlockDeps(w, size, r + c, Position(w, r, c)) <==>
            || (r > 0 && x == TaskOf(w, size, r - 1, c))
            || (c > 0 && x == TaskOf(w, size, r, c - 1))
            || (r > 0 && c > 0 && x == TaskOf(w, size, r - 1, c - 1))
  {
    DepsAre(w, size, r, c);
    hide TaskOf, BlockDeps;
  }

  // ---------------------------------------------------------------- tiles

  lemma {:induction false} FirstGrows(w: nat, size: nat, d: nat, e: nat)
    requires size > 0 && d <= e <= 2 * w - 1
    ensures First(w, size, d) <= First(w, size, e)
    decreases e
  {
    if d < e {
      FirstNext(w, size, e - 1);
      FirstGrows(w, size, d, e - 1);
    }
  }

  lemma PositionInTile(p: nat, i: nat, size: nat)
    requires size > 0
    ensures p / size == i <==> i * size <= p < i * size + size
  {
    assert p == (p / size) * size + p % size;
    if p / size < i { assert (p / size + 1) * size <= i * size; }
    if p / size > i { assert (i + 1) * size <= (p / size) * size; }
  }

  lemma QuotientBelow(p: nat, n: nat, size: nat)
    requires size > 0 && p < size * n
    ensures p / size < n
  {
    assert p == (p / size) * size + p % size;
    assert (p / size - n) * size < size;
  }

  /** A position of diagonal d is in one of its tasks. */
  lemma {:induction false} TaskExists(w: nat, size: nat, d: nat, p: nat)
    requires size > 0 && Diagonal(w, d) && p < Length(w, d)
    ensures p / size < TaskCount(Length(w, d), size)
    ensures First(w, size, d) <= TaskAt(w, size, d, p) < First(w, size, d + 1)
  {
    CountBounds(Length(w, d), size);
    QuotientBelow(p, TaskCount(Length(w, d), size), size);
    hide TaskCount;
    FirstNext(w, size, d);
  }

  lemma {:induction false} DiagonalTileIs(w: nat, size: nat, d: nat, n: nat, i: nat)
    requires size > 0 && Diagonal(w, d) && i < n <= TaskCount(Length(w, d), size)
    ensures DiagonalTiles(w, size, d, n)[i] == TileAt(w, size, d, i)
    decreases n
  {
    hide TileAt;
    if i < n - 1 { DiagonalTileIs(w, size, d, n - 1, i); }
  }

  lemma {:induction false} TilesNext(w: nat, size: nat, e: nat)
    requires size > 0 && Diagonal(w, e)
    ensures Tiles(w, size, e + 1) == Tiles(w, size, e) + DiagonalTiles(w, size, e, TaskCount(Length(w, e), size))
  {
  }

  /** Task First(d) + i is the i-th of diagonal d. */
  lemma {:induction false} TileIs(w: nat, size: nat, e: nat, d: nat, i: nat)
    requires size > 0 && d < e <= 2 * w - 1 && i < TaskCount(Length(w, d), size)
    ensures First(w, size, d) + i < First(w, size, e)
    ensures Tiles(w, size, e)[First(w, size, d) + i] == TileAt(w, size, d, i)
    decreases e
  {
    hide TileAt, First, TaskCount, Tiles, DiagonalTiles, Length;
    FirstNext(w, size, e - 1);
    TilesNext(w, size, e - 1);
    if d < e - 1 {
      TileIs(w, size, e - 1, d, i);
    } else {
      DiagonalTileIs(w, size, d, TaskCount(Length(w, d), size), i);
    }
  }

  lemma {:induction false} RangeHas(w: nat, size: nat, d: nat, p: nat, n: nat, x: nat)
    requires size > 0 && Diagonal(w, d)
    ensures x in RangeDeps(w, size, d, p, n) <==> exists q :: p <= q < p + n && x in BlockDeps(w, size, d, q)
    decreases n
  {
    hide BlockDeps;
    if n > 0 { RangeHas(w, size, d, p, n - 1, x); }
  }

  // ---------------------------------------------------------------- the theorems

  function AllTiles(w: nat, size: nat): (r: seq<Tile>)
    requires size > 0 && w > 0
    ensures |r| == First(w, size, 2 * w - 1)
  {
    Tiles(w, size, 2 * w - 1)
  }

  /** The tile contains the block. */
  predicate Contains(w: nat, t: Tile, r: nat, c: nat)
    requires r < w && c < w
  {
    t.d == r + c && t.offset <= Position(w, r, c) < t.offset + t.count
  }

  /** The diagonal of a task, and its place there. */
  lemma {:induction false} DiagonalOf(w: nat, size: nat, e: nat, k: nat) returns (d: nat, i: nat)
    requires size > 0 && e <= 2 * w - 1 && k < First(w, size, e)
    ensures d < e && i < TaskCount(Length(w, d), size) && k == First(w, size, d) + i
    decreases e
  {
    hide TaskCount;
    if k < First(w, size, e - 1) {
      d, i := DiagonalOf(w, size, e - 1, k);
    } else {
      FirstNext(w, size, e - 1);
      d, i := e - 1, k - First(w, size, e - 1);
    }
  }

  /** Task k is task i of diagonal d: blocks from i * size on, and what these require. */
  lemma {:induction false} TaskIs(w: nat, size: nat, k: nat) returns (d: nat, i: nat)
    requires size > 0 && w > 0 && k < |AllTiles(w, size)|
    ensures Diagonal(w, d) && k == First(w, size, d) + i
    ensures var t := AllTiles(w, size)[k];
            t == Tile(d, i * size, t.count, RangeDeps(w, size, d, i * size, t.count)) && 0 < t.count <= size &&
            i * size + t.count <= Length(w, d)
  {
    hide First, TaskCount, Tiles, RangeDeps, TileCount, Length;
    d, i := DiagonalOf(w, size, 2 * w - 1, k);
    TileIs(w, size, 2 * w - 1, d, i);
    TileFits(w, size, d, i);
  }

  /** The last task of a diagonal ends with it, the others are full. */
  lemma {:induction false} TileHolds(w: nat, size: nat, d: nat, p: nat)
    requires size > 0 && Diagonal(w, d) && p < Length(w, d)
    ensures p / size < TaskCount(Length(w, d), size)
    ensures (p / size) * size <= p < (p / size) * size + TileCount(w, size, d, p / size)
  {
    TaskExists(w, size, d, p);
    PositionInTile(p, p / size, size);
    hide TaskCount, Length;
    LastOrFull(p, p / size, TaskCount(Length(w, d), size), Length(w, d), size);
  }

  lemma LastOrFull(p: nat, i: nat, n: nat, length: nat, size: nat)
    requires p < length && i < n && i * size <= p < i * size + size
    ensures p < i * size + if i == n - 1 then length - size * (n - 1) else size
  {
  }

  /** Each block is in the task that TaskOf names ... */
  lemma {:induction false} BlockInItsTask(w: nat, size: nat, r: nat, c: nat)
    requires size > 0 && r < w && c < w
    ensures TaskOf(w, size, r, c) < |AllTiles(w, size)| && Contains(w, AllTiles(w, size)[TaskOf(w, size, r, c)], r, c)
    ensures AllTiles(w, size)[TaskOf(w, size, r, c)] == TileAtBlock(w, size, r, c)
  {
    hide First, Length, Tiles, TileAt;
    PositionsAreBlocks(w, r, c);
    TaskExists(w, size, r + c, Position(w, r, c));
    TileIs(w, size, 2 * w - 1, r + c, Position(w, r, c) / size);
    TileAtHolds(w, size, r, c);
  }

  lemma {:induction false} TileAtHolds(w: nat, size: nat, r: nat, c: nat)
    requires size > 0 && r < w && c < w
    ensures Contains(w, TileAtBlock(w, size, r, c), r, c)
  {
    PositionsAreBlocks(w, r, c);
    TileHolds(w, size, r + c, Position(w, r, c));
    hide First, Length, TileCount, TaskCount, RangeDeps, Position;
  }

  ghost function TileAtBlock(w: nat, size: nat, r: nat, c: nat): Tile
    requires size > 0 && r < w && c < w
  {
    PositionsAreBlocks(w, r, c);
    TaskExists(w, size, r + c, Position(w, r, c));
    TileAt(w, size, r + c, Position(w, r, c) / size)
  }

  /** ... and in no other: the grid is computed exactly once. */
  lemma {:induction false} BlockInNoOther(w: nat, size: nat, r: nat, c: nat, k: nat)
    requires size > 0 && r < w && c < w && k < |AllTiles(w, size)| && Contains(w, AllTiles(w, size)[k], r, c)
    ensures k == TaskOf(w, size, r, c)
  {
    var d, i := TaskIs(w, size, k);
    hide First, AllTiles, RangeDeps;
    PositionInTile(Position(w, r, c), i, size);
  }

  lemma {:induction false} NeighbourTasksRequired(w: nat, size: nat, r: nat, c: nat)
    requires size > 0 && r < w && c < w
    ensures TaskOf(w, size, r, c) < |AllTiles(w, size)|
    ensures NeighbourTasks(w, size, r, c) <= AllTiles(w, size)[TaskOf(w, size, r, c)].deps
  {
    hide NeighbourTasks, BlockDeps, RangeDeps, AllTiles, TaskOf, First, Length;
    BlockInItsTask(w, size, r, c);
    DepsAre(w, size, r, c);
    var d, i := TaskIs(w, size, TaskOf(w, size, r, c));
    var t := AllTiles(w, size)[TaskOf(w, size, r, c)];
    assert t.deps == RangeDeps(w, size, r + c, t.offset, t.count);
    forall x | x in NeighbourTasks(w, size, r, c)
      ensures x in t.deps
    {
      RangeHas(w, size, r + c, t.offset, t.count, x);
    }
  }

  /** Every task requires the tasks of the blocks to the north, west and northwest of all its blocks. */
  lemma {:induction false} NeighboursRequired(w: nat, size: nat, r: nat, c: nat, r2: nat, c2: nat)
    requires size > 0 && r < w && c < w
    requires r2 <= r <= r2 + 1 && c2 <= c <= c2 + 1 && (r2, c2) != (r, c)
    ensures TaskOf(w, size, r, c) < |AllTiles(w, size)|
    ensures TaskOf(w, size, r2, c2) in AllTiles(w, size)[TaskOf(w, size, r, c)].deps
  {
    hide AllTiles, TaskOf;
    NeighbourTasksRequired(w, size, r, c);
    assert TaskOf(w, size, r2, c2) in NeighbourTasks(w, size, r, c);
  }

  /** And nothing else: what a task requires is a neighbour's task of one of its blocks, launched earlier. */
  lemma {:induction false} OnlyNeighboursRequired(w: nat, size: nat, k: nat, x: nat)
    returns (r: nat, c: nat, r2: nat, c2: nat)
    requires size > 0 && w > 0 && k < |AllTiles(w, size)| && x in AllTiles(w, size)[k].deps
    ensures r < w && c < w && Contains(w, AllTiles(w, size)[k], r, c) && x < k
    ensures r2 <= r <= r2 + 1 && c2 <= c <= c2 + 1 && (r2, c2) != (r, c) && x == TaskOf(w, size, r2, c2)
  {
    hide AllTiles, TaskOf, Contains;
    r, c := RequiredByBlock(w, size, k, x);
    r2, c2 := WhichNeighbour(w, size, r, c, x);
  }

  lemma WhichNeighbour(w: nat, size: nat, r: nat, c: nat, x: nat) returns (r2: nat, c2: nat)
    requires size > 0 && r < w && c < w && x in NeighbourTasks(w, size, r, c)
    ensures r2 <= r <= r2 + 1 && c2 <= c <= c2 + 1 && (r2, c2) != (r, c) && x == TaskOf(w, size, r2, c2)
  {
    hide TaskOf;
    if r > 0 && x == TaskOf(w, size, r - 1, c) {
      r2, c2 := r - 1, c;
    } else if c > 0 && x == TaskOf(w, size, r, c - 1) {
      r2, c2 := r, c - 1;
    } else {
      r2, c2 := r - 1, c - 1;
    }
  }

  lemma {:induction false} RequiredByBlock(w: nat, size: nat, k: nat, x: nat) returns (r: nat, c: nat)
    requires size > 0 && w > 0 && k < |AllTiles(w, size)| && x in AllTiles(w, size)[k].deps
    ensures r < w && c < w && Contains(w, AllTiles(w, size)[k], r, c) && x in NeighbourTasks(w, size, r, c) && x < k
  {
    hide First, RangeDeps, BlockDeps, AllTiles, NeighbourTasks, TaskOf;
    var d, i := TaskIs(w, size, k);
    var t := AllTiles(w, size)[k];
    RangeHas(w, size, d, t.offset, t.count, x);
    var q :| t.offset <= q < t.offset + t.count && x in BlockDeps(w, size, d, q);
    BlocksArePositions(w, d, q);
    r, c := RowOf(w, d, q), ColumnOf(w, d, q);
    hide RowOf, ColumnOf, Length;
    DepsAre(w, size, r, c);
    BlockInNoOther(w, size, r, c, k);
    NeighboursEarlier(w, size, r, c, x);
  }

  lemma {:induction false} NeighboursEarlier(w: nat, size: nat, r: nat, c: nat, x: nat)
    requires size > 0 && r < w && c < w && x in NeighbourTasks(w, size, r, c)
    ensures x < TaskOf(w, size, r, c)
  {
    hide First, TaskCount, TaskAt;
    if r > 0 { EarlierDiagonal(w, size, r - 1, c, r, c); }
    if c > 0 { EarlierDiagonal(w, size, r, c - 1, r, c); }
    if r > 0 && c > 0 { EarlierDiagonal(w, size, r - 1, c - 1, r, c); }
  }

  lemma {:induction false} EarlierDiagonal(w: nat, size: nat, r: nat, c: nat, r': nat, c': nat)
    requires size > 0 && r < w && c < w && r' < w && c' < w && r + c < r' + c'
    ensures TaskOf(w, size, r, c) < TaskOf(w, size, r', c')
  {
    hide First, TaskCount, TaskAt;
    PositionsAreBlocks(w, r, c);
    PositionsAreBlocks(w, r', c');
    TaskExists(w, size, r + c, Position(w, r, c));
    TaskExists(w, size, r' + c', Position(w, r', c'));
    FirstGrows(w, size, r + c + 1, r' + c');
  }

  // ---------------------------------------------------------------- at most four

  lemma {:induction false} Four(s: set<nat>, a: int, b: int)
    requires forall x :: x in s ==> x == a || x == a + 1 || x == b || x == b + 1
    ensures |s| <= 4
  {
    var all: set<int> := {a, a + 1, b, b + 1};
    var s': set<int> := s;
    assert s' <= all;
    assert all == s' + (all - s');
    assert |all| <= 4;
  }

  lemma {:induction false} NextTask(p: nat, i: nat, size: nat, n: nat)
    requires size > 0 && i * size <= p < i * size + n && n <= size
    ensures p / size == i && i <= (p + 1) / size <= i + 1 && (p > 0 ==> i - 1 <= (p - 1) / size <= i)
  {
    PositionInTile(p, i, size);
    PositionInTile(p + 1, i, size);
    PositionInTile(p + 1, i + 1, size);
    assert (i + 1) * size == i * size + size;
    if p > 0 {
      PositionInTile(p - 1, i, size);
      if i > 0 {
        assert (i - 1) * size == i * size - size;
        PositionInTile(p - 1, i - 1, size);
      }
    }
  }

  /** The tasks that a block's dependencies can be in, given the block's place i on its diagonal. */
  lemma {:induction false} DepsAreNear(w: nat, size: nat, d: nat, i: nat, p: nat, n: nat, x: nat)
    requires size > 0 && Diagonal(w, d) && i * size <= p < i * size + n && n <= size && x in BlockDeps(w, size, d, p)
    ensures d >= 1 && var lo := if d < w then i - 1 else i;
            var a, b := First(w, size, d - 1) + lo, (if d >= 2 then First(w, size, d - 2) else 0) + lo;
            x == a || x == a + 1 || x == b || x == b + 1
  {
    hide First;
    NextTask(p, i, size, n);
  }

  /** The 4 slots a task has in task_deps_list are enough. */
  lemma {:induction false} AtMostFour(w: nat, size: nat, k: nat)
    requires size > 0 && w > 0 && k < |AllTiles(w, size)|
    ensures |AllTiles(w, size)[k].deps| <= 4
  {
    hide First, RangeDeps, BlockDeps, AllTiles;
    var d, i := TaskIs(w, size, k);
    var t := AllTiles(w, size)[k];
    var lo := if d < w then i - 1 else i;
    var a, b := (if d >= 1 then First(w, size, d - 1) else 0) + lo, (if d >= 2 then First(w, size, d - 2) else 0) + lo;
    forall x | x in t.deps
      ensures x == a || x == a + 1 || x == b || x == b + 1
    {
      RangeHas(w, size, d, i * size, t.count, x);
      var q :| i * size <= q < i * size + t.count && x in BlockDeps(w, size, d, q);
      DepsAreNear(w, size, d, i, q, t.count, x);
    }
    Four(t.deps, a, b);
  }

  // ---------------------------------------------------------------- waiting for the last task

  /** A chain of tasks each of which requires the one before it. */
  ghost predicate Chain(tiles: seq<Tile>, path: seq<nat>) {
    && |path| > 0 && (forall j :: 0 <= j < |path| ==> path[j] < |tiles|)
    && forall j :: 0 < j < |path| ==> path[j - 1] in tiles[path[j]].deps
  }

  /** From every block's task such a chain leads to the last task. */
  lemma {:induction false} BlockToLast(w: nat, size: nat, r: nat, c: nat) returns (path: seq<nat>)
    requires size > 0 && r < w && c < w
    ensures Chain(AllTiles(w, size), path)
    ensures path[0] == TaskOf(w, size, r, c) && path[|path| - 1] == TaskOf(w, size, w - 1, w - 1)
    decreases 2 * w - r - c
  {
    BlockInItsTask(w, size, r, c);
    hide AllTiles, TaskAt, TileAtBlock;
    if r == w - 1 && c == w - 1 {
      path := [TaskOf(w, size, r, c)];
    } else {
      var r', c' := if r + 1 < w then r + 1 else r, if r + 1 < w then c else c + 1;
      NeighboursRequired(w, size, r', c', r, c);
      var rest := BlockToLast(w, size, r', c');
      path := [TaskOf(w, size, r, c)] + rest;
    }
  }

  lemma {:induction false} CornerIsLast(w: nat, size: nat)
    requires size > 0 && w > 0
    ensures TaskOf(w, size, w - 1, w - 1) == First(w, size, 2 * w - 2) == |AllTiles(w, size)| - 1
  {
    FirstNext(w, size, 2 * w - 2);
    CountBounds(1, size);
    assert TaskCount(1, size) == 1 by { PositionInTile(size, 1, size); }
    assert Length(w, 2 * w - 2) == 1;
    assert Position(w, w - 1, w - 1) == 0;
  }

  /** Every task leads to the one whose index `last_task_index` holds at the end, which is the last. */
  lemma {:induction false} TaskToLast(w: nat, size: nat, k: nat) returns (path: seq<nat>)
    requires size > 0 && w > 0 && k < |AllTiles(w, size)|
    ensures Chain(AllTiles(w, size), path)
    ensures path[0] == k && path[|path| - 1] == First(w, size, 2 * w - 2) == |AllTiles(w, size)| - 1
  {
    hide First, RangeDeps, AllTiles, TaskOf;
    var d, i := TaskIs(w, size, k);
    BlocksArePositions(w, d, i * size);
    var r, c := RowOf(w, d, i * size), ColumnOf(w, d, i * size);
    BlockInNoOther(w, size, r, c, k);
    CornerIsLast(w, size);
    path := BlockToLast(w, size, r, c);
  }

  /** The wavefront's tasks as launched into the callback-mode scheduler, the first of them with id first. */
  ghost predicate LaunchedAs(s: HostCallback.State, tiles: seq<Tile>, first: nat) {
    && first + |tiles| <= |s.tasks|
    && forall k, x {:trigger x in tiles[k].deps} :: 0 <= k < |tiles| && x in tiles[k].deps ==>
         first + x in s.tasks[first + k].preds
  }

  lemma {:induction false} ChainExecuted(
    s: HostCallback.State, es: seq<HostCallback.Event>, tiles: seq<Tile>, first: nat, path: seq<nat>, j: nat)
    requires HostCallback.Initial(s) && HostCallback.Possible(s, es)
    requires LaunchedAs(HostCallback.Exec(s, es), tiles, first) && Chain(tiles, path) && j < |path|
    requires HostCallback.Exec(s, es).tasks[first + path[|path| - 1]].status.Rank() >= Executed.Rank()
    ensures HostCallback.Exec(s, es).tasks[first + path[j]].status.Rank() >= Executed.Rank()
    decreases |path| - j
  {
    hide HostCallback.Initial, HostCallback.Possible, HostCallback.Exec;
    var s' := HostCallback.Exec(s, es);
    if j + 1 < |path| {
      ChainExecuted(s, es, tiles, first, path, j + 1);
      assert path[j] in tiles[path[j + 1]].deps;
      var t := first + path[j + 1];
      assert first + path[j] in s'.tasks[t].preds;
      var m :| 0 <= m < |s'.tasks[t].preds| && s'.tasks[t].preds[m] == first + path[j];
      HostCallbackSafety.RequiredExecuted(s, es, t, m);
    }
  }

  /** Waiting for the last task is waiting for all: once it is COMPLETED, every block has been computed. */
  lemma {:induction false} LastTaskIsEnough(
    s: HostCallback.State, es: seq<HostCallback.Event>, w: nat, size: nat, first: nat, k: nat)
    requires size > 0 && w > 0 && k < |AllTiles(w, size)|
    requires HostCallback.Initial(s) && HostCallback.Possible(s, es)
    requires LaunchedAs(HostCallback.Exec(s, es), AllTiles(w, size), first)
    requires HostCallback.Exec(s, es).tasks[first + |AllTiles(w, size)| - 1].status == Completed
    ensures HostCallback.Exec(s, es).tasks[first + k].status.Rank() >= Executed.Rank()
  {
    hide HostCallback.Initial, HostCallback.Possible, HostCallback.Exec, AllTiles;
    var path := TaskToLast(w, size, k);
    ChainExecuted(s, es, AllTiles(w, size), first, path, 0);
  }
}

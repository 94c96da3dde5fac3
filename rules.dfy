/** The value-level rules of the Game of Life engine: a grid as a value, the
    bounds check shared by every accessor, cell access, the Moore-neighbour
    count as the engine's scan computes it, and the generation step.
    The class in module Engine is proved against these functions. */
module Rules {
  import opened Pos
  import opened Results

  /** The state of a grid: its dimensions and its cells, column-major, so that
      `cells[x][y]` is the cell in column `x` and row `y`. */
  datatype Grid = Grid(dims: Dimensions, cells: seq<seq<bool>>)

  /** Every column exists and holds exactly one flag per row. */
  predicate WellFormed(g: Grid) {
    |g.cells| == g.dims.width &&
    forall x :: 0 <= x < |g.cells| ==> |g.cells[x]| == g.dims.height
  }

  predicate InBounds(dims: Dimensions, p: Position) {
    p.x < dims.width && p.y < dims.height
  }

  /** The one bounds check every accessor goes through. */
  function BoundCheck(dims: Dimensions, p: Position): Result<()> {
    if InBounds(dims, p) then Ok(()) else Err(OutOfBounds)
  }

  /** A grid of the given dimensions whose cells are all dead. */
  function NewGrid(dims: Dimensions): (g: Grid)
    ensures WellFormed(g) && g.dims == dims
    ensures forall p :: InBounds(dims, p) ==> Get(g, p) == Ok(false)
  {
    Grid(dims, seq(dims.width, _ => seq(dims.height, _ => false)))
  }

  /** The state of the cell at `p`, or an error when `p` is off the grid. */
  function Get(g: Grid, p: Position): Result<bool>
    requires WellFormed(g)
  {
    match BoundCheck(g.dims, p)
    case Err(e) => Err(e)
    case Ok(_) => Ok(g.cells[p.x][p.y])
  }

  /** The grid after writing `v` at `p`; an out-of-bounds write changes nothing. */
  function Set(g: Grid, p: Position, v: bool): (r: Grid)
    requires WellFormed(g)
    ensures WellFormed(r) && r.dims == g.dims
  {
    match BoundCheck(g.dims, p)
    case Err(_) => g
    case Ok(_) => g.(cells := g.cells[p.x := g.cells[p.x][p.y := v]])
  }

  /** Two well-formed grids of equal dimensions that agree on every cell are equal. */
  lemma GridExtensionality(a: Grid, b: Grid)
    requires WellFormed(a) && WellFormed(b) && a.dims == b.dims
    requires forall x, y :: 0 <= x < a.dims.width && 0 <= y < a.dims.height ==> a.cells[x][y] == b.cells[x][y]
    ensures a == b
  {
    forall x | 0 <= x < a.dims.width
      ensures a.cells[x] == b.cells[x]
    {
      assert forall y :: 0 <= y < a.dims.height ==> a.cells[x][y] == b.cells[x][y];
    }
  }

  lemma GetSpec(g: Grid, p: Position)
    requires WellFormed(g)
    ensures Get(g, p).Err? <==> p.x >= g.dims.width || p.y >= g.dims.height
    ensures Get(g, p).Ok? ==> Get(g, p).value == g.cells[p.x][p.y]
  {
  }

  /** Reading back a written cell gives the written value. Every other cell, the
      dimensions, and the whole grid on an out-of-bounds write stay as they were. */
  lemma GetAfterSet(g: Grid, p: Position, v: bool, q: Position)
    requires WellFormed(g)
    ensures Set(g, p, v).dims == g.dims
    ensures BoundCheck(g.dims, p).Err? ==> Set(g, p, v) == g
    ensures Get(Set(g, p, v), q) == if q == p && InBounds(g.dims, p) then Ok(v) else Get(g, q)
  {
  }

  // ---------------------------------------------------------------------------
  // Neighbour count

  /** Whether the scan counts offset `(h, v)` around `p`: the cell it lands on
      must lie on the grid (negative coordinates are skipped, a probe past the
      far edges reads as nothing) and be alive, and the origin offset is never
      counted even when the origin cell is alive. `CountedSpec` restates this
      through the bounds-checked `Get` the scan calls. */
  predicate Counted(g: Grid, p: Position, h: int, v: int)
    requires WellFormed(g)
  {
    0 <= p.x + h < g.dims.width && 0 <= p.y + v < g.dims.height &&
    g.cells[p.x + h][p.y + v] && !(h == 0 && v == 0)
  }

  /** An offset with non-negative coordinates counts exactly when its cell reads
      alive and it is not the origin. */
  lemma CountedSpec(g: Grid, p: Position, h: int, v: int)
    requires WellFormed(g) && 0 <= p.x + h && 0 <= p.y + v
    ensures Counted(g, p, h, v) <==> Get(g, Position(p.x + h, p.y + v)) == Ok(true) && !(h == 0 && v == 0)
  {
  }

  /** The states the nested scan passes through: `h` and `v` run over -1..1,
      `v` is 2 when an inner pass has finished, and `(2, -1)` is the end. */
  predicate ScanPoint(h: int, v: int) {
    (-1 <= h <= 1 && -1 <= v <= 2) || (h == 2 && v == -1)
  }

  /** The count after the scan has visited every offset before `(h, v)`, in the
      order of the source's loops: `h` outer, `v` inner. */
  function ScanCount(g: Grid, p: Position, h: int, v: int): nat
    requires WellFormed(g) && ScanPoint(h, v)
    decreases 4 * (h + 1) + (v + 1)
  {
    if v == -1 then
      if h == -1 then 0 else ScanCount(g, p, h - 1, 2)
    else
      ScanCount(g, p, h, v - 1) + (if Counted(g, p, h, v - 1) then 1 else 0)
  }

  /** The number of live neighbours of `p`, or an error when `p` itself is off the grid. */
  function NeighborCount(g: Grid, p: Position): Result<nat>
    requires WellFormed(g)
  {
    match BoundCheck(g.dims, p)
    case Err(e) => Err(e)
    case Ok(_) => Ok(ScanCount(g, p, 2, -1))
  }

  /** Reference definition: the offsets `(h, v) != (0, 0)` in {-1,0,1}² that
      land on a live cell of the grid. */
  function AliveNeighbors(g: Grid, p: Position): set<(int, int)>
    requires WellFormed(g)
  {
    set h: int, v: int |
      -1 <= h <= 1 && -1 <= v <= 1 && (h, v) != (0, 0) &&
      0 <= p.x + h < g.dims.width && 0 <= p.y + v < g.dims.height &&
      g.cells[p.x + h][p.y + v]
      :: (h, v)
  }

  /** The offsets the scan has counted before reaching `(h, v)`. */
  function ScanPrefix(g: Grid, p: Position, h: int, v: int): set<(int, int)>
    requires WellFormed(g)
  {
    set h': int, v': int |
      -1 <= h' <= 1 && -1 <= v' <= 1 && (h' < h || (h' == h && v' < v)) && Counted(g, p, h', v')
      :: (h', v')
  }

  /** Before the first offset nothing is counted, and a finished inner pass
      has counted what the next pass starts with. */
  lemma ScanPrefixRollover(g: Grid, p: Position, h: int)
    requires WellFormed(g) && -1 <= h <= 2
    ensures h == -1 ==> ScanPrefix(g, p, h, -1) == {}
    ensures h != -1 ==> ScanPrefix(g, p, h, -1) == ScanPrefix(g, p, h - 1, 2)
  {
  }

  /** Visiting offset `(h, v - 1)` adds it to the counted offsets exactly when it counts. */
  lemma ScanPrefixStep(g: Grid, p: Position, h: int, v: int)
    requires WellFormed(g) && -1 <= h <= 1 && -1 < v <= 2
    ensures (h, v - 1) !in ScanPrefix(g, p, h, v - 1)
    ensures ScanPrefix(g, p, h, v) ==
              ScanPrefix(g, p, h, v - 1) + (if Counted(g, p, h, v - 1) then {(h, v - 1)} else {})
  {
  }

  lemma {:induction false} ScanCountIsPrefixSize(g: Grid, p: Position, h: int, v: int)
    requires WellFormed(g) && ScanPoint(h, v)
    ensures ScanCount(g, p, h, v) == |ScanPrefix(g, p, h, v)|
    decreases 4 * (h + 1) + (v + 1)
  {
    if v == -1 {
      ScanPrefixRollover(g, p, h);
      if h != -1 {
        ScanCountIsPrefixSize(g, p, h - 1, 2);
      }
    } else {
      ScanCountIsPrefixSize(g, p, h, v - 1);
      ScanPrefixStep(g, p, h, v);
    }
  }

  /** The Moore neighbourhood without its centre. */
  function Ring(): set<(int, int)> {
    {(-1, -1), (-1, 0), (-1, 1), (0, -1), (0, 1), (1, -1), (1, 0), (1, 1)}
  }

  lemma SubsetSize<T>(a: set<T>, b: set<T>)
    requires a <= b
    ensures |a| <= |b|
  {
    assert b == a + (b - a);
  }

  /** The neighbour count fails exactly when `p` is off the grid; otherwise it is
      the number of in-bounds live neighbours, never wrapping, at most 8. */
  lemma NeighborCountSpec(g: Grid, p: Position)
    requires WellFormed(g)
    ensures NeighborCount(g, p).Err? <==> p.x >= g.dims.width || p.y >= g.dims.height
    ensures NeighborCount(g, p).Ok? ==> NeighborCount(g, p).value == |AliveNeighbors(g, p)|
    ensures NeighborCount(g, p).Ok? ==> NeighborCount(g, p).value <= 8
  {
    if InBounds(g.dims, p) {
      ScanCountIsPrefixSize(g, p, 2, -1);
      FinishedScanIsAliveNeighbors(g, p);
      AliveNeighborsInRing(g, p);
    }
  }

  /** A finished scan has counted exactly the live neighbours. */
  lemma FinishedScanIsAliveNeighbors(g: Grid, p: Position)
    requires WellFormed(g) && InBounds(g.dims, p)
    ensures ScanPrefix(g, p, 2, -1) == AliveNeighbors(g, p)
  {
  }

  /** Every live neighbour is an offset of the ring, so there are at most eight. */
  lemma AliveNeighborsInRing(g: Grid, p: Position)
    requires WellFormed(g)
    ensures AliveNeighbors(g, p) <= Ring() && |AliveNeighbors(g, p)| <= 8
  {
    SubsetSize(AliveNeighbors(g, p), Ring());
  }

  /** Two scans around `p` agree when every offset counts in one exactly when
      it counts in the other. */
  lemma {:induction false} ScanCountAgree(a: Grid, b: Grid, p: Position, h: int, v: int)
    requires WellFormed(a) && WellFormed(b) && ScanPoint(h, v)
    requires forall h', v' :: -1 <= h' <= 1 && -1 <= v' <= 1 ==> Counted(a, p, h', v') == Counted(b, p, h', v')
    ensures ScanCount(a, p, h, v) == ScanCount(b, p, h, v)
    decreases 4 * (h + 1) + (v + 1)
  {
    if v == -1 {
      if h != -1 {
        ScanCountAgree(a, b, p, h - 1, 2);
      }
    } else {
      ScanCountAgree(a, b, p, h, v - 1);
    }
  }

  lemma CountedAgree(a: Grid, b: Grid, p: Position, h: int, v: int)
    requires WellFormed(a) && WellFormed(b) && a.dims == b.dims
    requires (h, v) == (0, 0) || !(0 <= p.x + h < a.dims.width && 0 <= p.y + v < a.dims.height) ||
             a.cells[p.x + h][p.y + v] == b.cells[p.x + h][p.y + v]
    ensures Counted(a, p, h, v) == Counted(b, p, h, v)
  {
  }

  /** The count at `p` depends only on the eight cells around `p`, never on the
      state of `p` itself: writing `p` leaves its count unchanged. */
  lemma NeighborCountIgnoresOrigin(g: Grid, p: Position, v: bool)
    requires WellFormed(g)
    ensures NeighborCount(Set(g, p, v), p) == NeighborCount(g, p)
  {
    if InBounds(g.dims, p) {
      forall h', v' | -1 <= h' <= 1 && -1 <= v' <= 1
        ensures Counted(Set(g, p, v), p, h', v') == Counted(g, p, h', v')
      {
        CountedAgree(Set(g, p, v), g, p, h', v');
      }
      ScanCountAgree(Set(g, p, v), g, p, 2, -1);
    }
  }

  /** A corner cell has at most three neighbours on the grid: at the near edges
      the scan skips negative offsets, at the far edges its probes fail and are
      ignored. */
  lemma CornerHasAtMostThree(g: Grid, p: Position)
    requires WellFormed(g) && InBounds(g.dims, p)
    requires (p.x == 0 || p.x == g.dims.width - 1) && (p.y == 0 || p.y == g.dims.height - 1)
    ensures NeighborCount(g, p).Ok?
    ensures NeighborCount(g, p).value <= 3
  {
    NeighborCountSpec(g, p);
    var sx := if p.x == 0 then 1 else -1;
    var sy := if p.y == 0 then 1 else -1;
    SubsetSize(AliveNeighbors(g, p), {(sx, 0), (0, sy), (sx, sy)});
  }

  /** A cell on any edge of the grid has at most five neighbours on the grid. */
  lemma EdgeHasAtMostFive(g: Grid, p: Position)
    requires WellFormed(g) && InBounds(g.dims, p)
    requires p.x == 0 || p.y == 0 || p.x == g.dims.width - 1 || p.y == g.dims.height - 1
    ensures NeighborCount(g, p).Ok?
    ensures NeighborCount(g, p).value <= 5
  {
    NeighborCountSpec(g, p);
    if p.x == 0 {
      SubsetSize(AliveNeighbors(g, p), {(0, -1), (0, 1), (1, -1), (1, 0), (1, 1)});
    } else if p.x == g.dims.width - 1 {
      SubsetSize(AliveNeighbors(g, p), {(0, -1), (0, 1), (-1, -1), (-1, 0), (-1, 1)});
    } else if p.y == 0 {
      SubsetSize(AliveNeighbors(g, p), {(-1, 0), (1, 0), (-1, 1), (0, 1), (1, 1)});
    } else {
      SubsetSize(AliveNeighbors(g, p), {(-1, 0), (1, 0), (-1, -1), (0, -1), (1, -1)});
    }
  }

  /** An interior cell has eight neighbours on the grid: all alive, all counted. */
  lemma InteriorCanReachEight(g: Grid, p: Position)
    requires WellFormed(g) && 0 < p.x < g.dims.width - 1 && 0 < p.y < g.dims.height - 1
    requires forall x, y :: p.x - 1 <= x <= p.x + 1 && p.y - 1 <= y <= p.y + 1 ==> g.cells[x][y]
    ensures NeighborCount(g, p) == Ok(8)
  {
    NeighborCountSpec(g, p);
    AllAliveIsRing(g, p);
    RingSize();
  }

  lemma AllAliveIsRing(g: Grid, p: Position)
    requires WellFormed(g) && 0 < p.x < g.dims.width - 1 && 0 < p.y < g.dims.height - 1
    requires forall x, y :: p.x - 1 <= x <= p.x + 1 && p.y - 1 <= y <= p.y + 1 ==> g.cells[x][y]
    ensures AliveNeighbors(g, p) == Ring()
  {
    forall o | o in Ring() ensures o in AliveNeighbors(g, p) {
      assert g.cells[p.x + o.0][p.y + o.1];
    }
  }

  lemma RingSize()
    ensures |Ring()| == 8
  {
  }

  // ---------------------------------------------------------------------------
  // Generation step

  /** The value the step writes into a cell of the fresh grid, following the
      source's branch order; the unmatched case (two neighbours, dead) writes
      nothing and the fresh grid's cell stays dead. */
  function Rule(n: nat, alive: bool): (next: bool)
    ensures next <==> n == 3 || (n == 2 && alive)
  {
    if n < 2 then false
    else if (n == 2 || n == 3) && alive then true
    else if n > 3 then false
    else if n == 3 then true
    else false
  }

  /** The state cell `(x, y)` takes in the next generation. */
  function NextCell(g: Grid, x: nat, y: nat): bool
    requires WellFormed(g) && x < g.dims.width && y < g.dims.height
  {
    Rule(ScanCount(g, Position(x, y), 2, -1), g.cells[x][y])
  }

  /** The next generation: a grid of the same dimensions whose every cell follows
      the rule applied to the current grid. */
  function Step(g: Grid): (r: Grid)
    requires WellFormed(g)
    ensures WellFormed(r) && r.dims == g.dims
    ensures forall x, y :: 0 <= x < g.dims.width && 0 <= y < g.dims.height ==> r.cells[x][y] == NextCell(g, x, y)
  {
    Grid(g.dims,
      seq(g.dims.width, x requires 0 <= x < g.dims.width =>
        seq(g.dims.height, y requires 0 <= y < g.dims.height => NextCell(g, x, y))))
  }

  /** A cell of the next generation is alive exactly when it has three live
      neighbours, or two and is alive now. */
  lemma StepCell(g: Grid, p: Position)
    requires WellFormed(g) && InBounds(g.dims, p)
    ensures NeighborCount(g, p).Ok? && Get(g, p).Ok?
    ensures var n, alive := NeighborCount(g, p).value, Get(g, p).value;
      Get(Step(g), p) == Ok(n == 3 || (n == 2 && alive))
  {
  }
}

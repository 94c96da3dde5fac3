/** The engine's unit tests, restated as methods that drive the engine object
    through the same calls as the tests and promise, in their contracts, the
    values the tests check. The lemmas here track which cells are alive as a
    set of positions, so that counts and generations reduce to arithmetic on
    small sets. */
module Examples {
  import opened Pos
  import opened Results
  import opened Rules
  import Engine
  import Display

  function Bit(b: bool): nat {
    if b then 1 else 0
  }

  /** The scan written out offset by offset; the origin offset contributes nothing. */
  function Sum8(g: Grid, p: Position): nat
    requires WellFormed(g)
  {
    Bit(Counted(g, p, -1, -1)) + Bit(Counted(g, p, -1, 0)) + Bit(Counted(g, p, -1, 1)) +
    Bit(Counted(g, p, 0, -1)) + Bit(Counted(g, p, 0, 1)) +
    Bit(Counted(g, p, 1, -1)) + Bit(Counted(g, p, 1, 0)) + Bit(Counted(g, p, 1, 1))
  }

  lemma NeighborCountUnfolded(g: Grid, p: Position)
    requires WellFormed(g) && InBounds(g.dims, p)
    ensures NeighborCount(g, p) == Ok(Sum8(g, p))
  {
    assert ScanCount(g, p, -1, 2) == Bit(Counted(g, p, -1, -1)) + Bit(Counted(g, p, -1, 0)) + Bit(Counted(g, p, -1, 1));
    assert ScanCount(g, p, 0, 2) == ScanCount(g, p, -1, 2) + Bit(Counted(g, p, 0, -1)) + Bit(Counted(g, p, 0, 1));
    assert ScanCount(g, p, 1, 2) == ScanCount(g, p, 0, 2) + Bit(Counted(g, p, 1, -1)) + Bit(Counted(g, p, 1, 0)) + Bit(Counted(g, p, 1, 1));
  }

  /** Column `x`, row `y` is on the grid and in `alive`. */
  predicate Listed(alive: set<Position>, d: Dimensions, x: int, y: int) {
    0 <= x < d.width && 0 <= y < d.height && Position(x, y) in alive
  }

  /** How many of the eight cells around `p` are in `alive`. */
  function ListedAround(alive: set<Position>, d: Dimensions, p: Position): nat {
    Bit(Listed(alive, d, p.x + -1, p.y + -1)) + Bit(Listed(alive, d, p.x + -1, p.y + 0)) + Bit(Listed(alive, d, p.x + -1, p.y + 1)) +
    Bit(Listed(alive, d, p.x + 0, p.y + -1)) + Bit(Listed(alive, d, p.x + 0, p.y + 1)) +
    Bit(Listed(alive, d, p.x + 1, p.y + -1)) + Bit(Listed(alive, d, p.x + 1, p.y + 0)) + Bit(Listed(alive, d, p.x + 1, p.y + 1))
  }

  /** The live cells of `g` are exactly the on-grid positions in `alive`. */
  predicate Holds(g: Grid, alive: set<Position>) {
    WellFormed(g) &&
    forall x, y :: 0 <= x < g.dims.width && 0 <= y < g.dims.height ==> g.cells[x][y] == (Position(x, y) in alive)
  }

  /** A new grid holds no live cell. */
  lemma NewHolds(d: Dimensions)
    ensures Holds(NewGrid(d), {})
  {
    forall x, y | 0 <= x < d.width && 0 <= y < d.height
      ensures !NewGrid(d).cells[x][y]
    {
      assert Get(NewGrid(d), Position(x, y)) == Ok(false);
    }
  }

  /** Setting an on-grid cell alive adds it to the held set. */
  lemma HoldsAfterSet(g: Grid, alive: set<Position>, p: Position, alive': set<Position>)
    requires Holds(g, alive) && InBounds(g.dims, p)
    requires forall q :: q in alive' <==> q in alive || q == p
    ensures Holds(Set(g, p, true), alive')
  {
    forall x, y | 0 <= x < g.dims.width && 0 <= y < g.dims.height
      ensures Set(g, p, true).cells[x][y] == (Position(x, y) in alive')
    {
      GetAfterSet(g, p, true, Position(x, y));
    }
  }

  /** Reading an on-grid cell of a grid that holds `alive` tells whether it is listed. */
  lemma HeldGet(g: Grid, alive: set<Position>, p: Position)
    requires Holds(g, alive) && InBounds(g.dims, p)
    ensures Get(g, p) == Ok(p in alive)
  {
  }

  /** One offset of the scan around `p` counts exactly when that cell is held. */
  lemma CountedIsListed(g: Grid, alive: set<Position>, p: Position, h: int, v: int)
    requires Holds(g, alive)
    requires -1 <= h <= 1 && -1 <= v <= 1 && !(h == 0 && v == 0)
    ensures Bit(Counted(g, p, h, v)) == Bit(Listed(alive, g.dims, p.x + h, p.y + v))
  {
  }

  /** The scan and the listed count agree when they agree offset by offset. */
  lemma SumsAgree(g: Grid, alive: set<Position>, p: Position)
    requires WellFormed(g)
    requires Bit(Counted(g, p, -1, -1)) == Bit(Listed(alive, g.dims, p.x + -1, p.y + -1))
    requires Bit(Counted(g, p, -1, 0)) == Bit(Listed(alive, g.dims, p.x + -1, p.y + 0))
    requires Bit(Counted(g, p, -1, 1)) == Bit(Listed(alive, g.dims, p.x + -1, p.y + 1))
    requires Bit(Counted(g, p, 0, -1)) == Bit(Listed(alive, g.dims, p.x + 0, p.y + -1))
    requires Bit(Counted(g, p, 0, 1)) == Bit(Listed(alive, g.dims, p.x + 0, p.y + 1))
    requires Bit(Counted(g, p, 1, -1)) == Bit(Listed(alive, g.dims, p.x + 1, p.y + -1))
    requires Bit(Counted(g, p, 1, 0)) == Bit(Listed(alive, g.dims, p.x + 1, p.y + 0))
    requires Bit(Counted(g, p, 1, 1)) == Bit(Listed(alive, g.dims, p.x + 1, p.y + 1))
    ensures Sum8(g, p) == ListedAround(alive, g.dims, p)
  {
  }

  /** The scan on a grid holding `alive` counts the held cells around `p`. */
  lemma HeldSum(g: Grid, alive: set<Position>, p: Position)
    requires Holds(g, alive)
    ensures Sum8(g, p) == ListedAround(alive, g.dims, p)
  {
    CountedIsListed(g, alive, p, -1, -1);
    CountedIsListed(g, alive, p, -1, 0);
    CountedIsListed(g, alive, p, -1, 1);
    CountedIsListed(g, alive, p, 0, -1);
    CountedIsListed(g, alive, p, 0, 1);
    CountedIsListed(g, alive, p, 1, -1);
    CountedIsListed(g, alive, p, 1, 0);
    CountedIsListed(g, alive, p, 1, 1);
    SumsAgree(g, alive, p);
  }

  /** The neighbour count on a grid holding `alive` is the number of held cells around `p`. */
  lemma HeldCount(g: Grid, alive: set<Position>, p: Position)
    requires Holds(g, alive) && InBounds(g.dims, p)
    ensures NeighborCount(g, p) == Ok(ListedAround(alive, g.dims, p))
  {
    NeighborCountUnfolded(g, p);
    HeldSum(g, alive, p);
  }

  /** On a 3×3 grid, `now` lists exactly the cells the rule keeps or makes alive from `was`. */
  ghost predicate RuleTable(was: set<Position>, now: set<Position>) {
    forall p {:trigger ListedAround(was, Dimensions(3, 3), p)} ::
      InBounds(Dimensions(3, 3), p) ==> (p in now <==> Rule(ListedAround(was, Dimensions(3, 3), p), p in was))
  }

  /** One generation from a 3×3 grid holding `was` holds `now` when the rule table says so. */
  lemma StepHolds(g: Grid, was: set<Position>, now: set<Position>)
    requires Holds(g, was) && g.dims == Dimensions(3, 3) && RuleTable(was, now)
    ensures Holds(Step(g), now)
  {
    forall x, y | 0 <= x < g.dims.width && 0 <= y < g.dims.height
      ensures Step(g).cells[x][y] == (Position(x, y) in now)
    {
      StepCell(g, Position(x, y));
      HeldCount(g, was, Position(x, y));
    }
  }

  /** `set_cell_at(p, true).unwrap()`: sets an on-grid cell alive and adds it to the held set. */
  method Plant(gol: Engine.GoL, p: Position, ghost alive: set<Position>, ghost alive': set<Position>)
    requires gol.Valid() && Holds(gol.model, alive) && InBounds(gol.dims, p)
    requires forall q :: q in alive' <==> q in alive || q == p
    modifies gol, gol.cells
    ensures gol.Valid() && Holds(gol.model, alive')
  {
    ghost var before := gol.model;
    var written := gol.SetCellAt(p, true);
    assert written.Ok?;
    HoldsAfterSet(before, alive, p, alive');
  }

  /** `get_cell_at(p).unwrap()` on a grid holding `alive`. */
  method Probe(gol: Engine.GoL, ghost alive: set<Position>, p: Position) returns (r: Result<bool>)
    requires gol.Valid() && Holds(gol.model, alive) && InBounds(gol.dims, p)
    ensures r == Ok(p in alive)
  {
    r := gol.GetCellAt(p);
    HeldGet(gol.model, alive, p);
  }

  /** `get_neighbors_alive_count(p).unwrap()` on a grid holding `alive`. */
  method Neighbors(gol: Engine.GoL, ghost alive: set<Position>, p: Position, ghost want: nat) returns (r: Result<nat>)
    requires gol.Valid() && Holds(gol.model, alive) && InBounds(gol.dims, p)
    requires ListedAround(alive, gol.dims, p) == want
    ensures r == Ok(want)
  {
    r := gol.GetNeighborsAliveCount(p);
    HeldCount(gol.model, alive, p);
  }

  /** make_game_test: a new 5×5 game reports its dimensions and every cell reads dead. */
  method MakeGameTest() returns (width: nat, height: nat, allDead: bool)
    ensures width == 5 && height == 5 && allDead
  {
    var game := new Engine.GoL(Dimensions(5, 5));
    width, height := game.dims.width, game.dims.height;
    allDead := true;
    for x := 0 to 5
      invariant allDead
    {
      for y := 0 to 5
        invariant allDead
      {
        var cell := game.GetCellAt(Position(x, y));
        if cell != Ok(false) {
          allDead := false;
        }
      }
    }
  }

  /** set_game_test: reading (0,0) succeeds, setting it succeeds and reads back
      alive, and setting (5,5) on a 5×5 grid fails. */
  method SetGameTest() returns (first: Result<bool>, written: Result<()>, got: Result<bool>, outside: Result<()>)
    ensures first.Ok? && written.Ok? && got == Ok(true) && outside.Err?
  {
    var game := new Engine.GoL(Dimensions(5, 5));
    first := game.GetCellAt(Position(0, 0));
    written := game.SetCellAt(Position(0, 0), true);
    GetAfterSet(NewGrid(Dimensions(5, 5)), Position(0, 0), true, Position(0, 0));
    got := game.GetCellAt(Position(0, 0));
    outside := game.SetCellAt(Position(5, 5), true);
  }

  /** get_game_test: a set cell reads back alive, and reading (6,6) fails. */
  method GetGameTest() returns (got: Result<bool>, outside: Result<bool>)
    ensures got == Ok(true) && outside.Err?
  {
    var game := new Engine.GoL(Dimensions(5, 5));
    var written := game.SetCellAt(Position(1, 1), true);
    GetAfterSet(NewGrid(Dimensions(5, 5)), Position(1, 1), true, Position(1, 1));
    got := game.GetCellAt(Position(1, 1));
    outside := game.GetCellAt(Position(6, 6));
  }

  /** The listed counts around the cells get_neighbors_test queries: `want` is
      the number of live cells around `p`. */
  lemma NeighborsTable(alive: set<Position>, p: Position, want: nat)
    requires alive == {Position(1, 0), Position(0, 1), Position(2, 0), Position(2, 1)}
    requires (p == Position(4, 4) && want == 0) || (p == Position(0, 3) && want == 0) ||
             (p == Position(3, 3) && want == 0) || (p == Position(0, 0) && want == 2) ||
             (p == Position(0, 1) && want == 1) || (p == Position(2, 2) && want == 1)
    ensures ListedAround(alive, Dimensions(5, 5), p) == want
  {
  }

  /** get_neighbors_test's grid: 5×5 with live cells (1,0), (0,1), (2,0), (2,1). */
  method NeighborsGrid() returns (game: Engine.GoL)
    ensures game.Valid() && game.dims == Dimensions(5, 5)
    ensures Holds(game.model, {Position(1, 0), Position(0, 1), Position(2, 0), Position(2, 1)})
  {
    game := new Engine.GoL(Dimensions(5, 5));
    NewHolds(Dimensions(5, 5));
    Plant(game, Position(1, 0), {}, {Position(1, 0)});
    Plant(game, Position(0, 1), {Position(1, 0)}, {Position(1, 0), Position(0, 1)});
    Plant(game, Position(2, 0), {Position(1, 0), Position(0, 1)}, {Position(1, 0), Position(0, 1), Position(2, 0)});
    Plant(game, Position(2, 1), {Position(1, 0), Position(0, 1), Position(2, 0)},
          {Position(1, 0), Position(0, 1), Position(2, 0), Position(2, 1)});
  }

  // get_neighbors_test makes seven queries of one grid; each is a method of its own.

  /** get_neighbors_test: a query off the grid fails. */
  method NeighborsOutsideTest() returns (outside: Result<nat>)
    ensures outside.Err?
  {
    var game := NeighborsGrid();
    outside := game.GetNeighborsAliveCount(Position(7, 7));
  }

  /** get_neighbors_test: a corner far from the live cells has no live neighbours. */
  method NeighborsEmptyCornerTest() returns (count: Result<nat>)
    ensures count == Ok(0)
  {
    var game := NeighborsGrid();
    ghost var alive := {Position(1, 0), Position(0, 1), Position(2, 0), Position(2, 1)};
    NeighborsTable(alive, Position(4, 4), 0);
    count := Neighbors(game, alive, Position(4, 4), 0);
  }

  /** get_neighbors_test: an edge cell far from the live cells has no live neighbours. */
  method NeighborsEmptyEdgeTest() returns (count: Result<nat>)
    ensures count == Ok(0)
  {
    var game := NeighborsGrid();
    ghost var alive := {Position(1, 0), Position(0, 1), Position(2, 0), Position(2, 1)};
    NeighborsTable(alive, Position(0, 3), 0);
    count := Neighbors(game, alive, Position(0, 3), 0);
  }

  /** get_neighbors_test: an interior cell far from the live cells has no live neighbours. */
  method NeighborsEmptyInteriorTest() returns (count: Result<nat>)
    ensures count == Ok(0)
  {
    var game := NeighborsGrid();
    ghost var alive := {Position(1, 0), Position(0, 1), Position(2, 0), Position(2, 1)};
    NeighborsTable(alive, Position(3, 3), 0);
    count := Neighbors(game, alive, Position(3, 3), 0);
  }

  /** get_neighbors_test: the corner (0,0) has two live neighbours. */
  method NeighborsCornerTest() returns (count: Result<nat>)
    ensures count == Ok(2)
  {
    var game := NeighborsGrid();
    ghost var alive := {Position(1, 0), Position(0, 1), Position(2, 0), Position(2, 1)};
    NeighborsTable(alive, Position(0, 0), 2);
    count := Neighbors(game, alive, Position(0, 0), 2);
  }

  /** get_neighbors_test: the edge cell (0,1), itself alive, has one live neighbour. */
  method NeighborsEdgeTest() returns (count: Result<nat>)
    ensures count == Ok(1)
  {
    var game := NeighborsGrid();
    ghost var alive := {Position(1, 0), Position(0, 1), Position(2, 0), Position(2, 1)};
    NeighborsTable(alive, Position(0, 1), 1);
    count := Neighbors(game, alive, Position(0, 1), 1);
  }

  /** get_neighbors_test: the interior cell (2,2) has one live neighbour. */
  method NeighborsInteriorTest() returns (count: Result<nat>)
    ensures count == Ok(1)
  {
    var game := NeighborsGrid();
    ghost var alive := {Position(1, 0), Position(0, 1), Position(2, 0), Position(2, 1)};
    NeighborsTable(alive, Position(2, 2), 1);
    count := Neighbors(game, alive, Position(2, 2), 1);
  }

  /** Every position of the 3×3 grid, for the rule tables below. */
  lemma NineCells(p: Position)
    requires InBounds(Dimensions(3, 3), p)
    ensures p.x == 0 || p.x == 1 || p.x == 2
    ensures p.y == 0 || p.y == 1 || p.y == 2
  {
  }

  lemma LoneCellTable(was: set<Position>, now: set<Position>)
    requires was == {Position(1, 1)} && now == {}
    ensures RuleTable(was, now) && ListedAround(now, Dimensions(3, 3), Position(1, 1)) == 0
  {
    forall p | InBounds(Dimensions(3, 3), p)
      ensures p in now <==> Rule(ListedAround(was, Dimensions(3, 3), p), p in was)
    {
      NineCells(p);
    }
  }

  lemma DiagonalPairTable(was: set<Position>, now: set<Position>)
    requires was == {Position(0, 0), Position(1, 1)} && now == {}
    ensures RuleTable(was, now) && ListedAround(now, Dimensions(3, 3), Position(1, 1)) == 0
  {
    forall p | InBounds(Dimensions(3, 3), p)
      ensures p in now <==> Rule(ListedAround(was, Dimensions(3, 3), p), p in was)
    {
      NineCells(p);
    }
  }

  lemma SurvivorTable(was: set<Position>, now: set<Position>)
    requires was == {Position(0, 0), Position(1, 1), Position(2, 0)}
    requires now == {Position(1, 0), Position(1, 1)}
    ensures RuleTable(was, now) && ListedAround(now, Dimensions(3, 3), Position(1, 1)) == 1
  {
    forall p | InBounds(Dimensions(3, 3), p)
      ensures p in now <==> Rule(ListedAround(was, Dimensions(3, 3), p), p in was)
    {
      NineCells(p);
    }
  }

  lemma BirthTable(was: set<Position>, now: set<Position>)
    requires was == {Position(0, 0), Position(2, 0), Position(1, 2)}
    requires now == {Position(1, 1)}
    ensures RuleTable(was, now) && ListedAround(now, Dimensions(3, 3), Position(1, 1)) == 0
  {
    forall p | InBounds(Dimensions(3, 3), p)
      ensures p in now <==> Rule(ListedAround(was, Dimensions(3, 3), p), p in was)
    {
      NineCells(p);
    }
  }

  lemma OvercrowdTable(was: set<Position>, now: set<Position>)
    requires was == {Position(0, 0), Position(2, 0), Position(1, 1), Position(0, 2), Position(2, 2)}
    requires now == {Position(1, 0), Position(0, 1), Position(2, 1), Position(1, 2)}
    ensures RuleTable(was, now) && ListedAround(now, Dimensions(3, 3), Position(1, 1)) == 4
  {
    forall p | InBounds(Dimensions(3, 3), p)
      ensures p in now <==> Rule(ListedAround(was, Dimensions(3, 3), p), p in was)
    {
      NineCells(p);
    }
  }

  /** `simulate_next_step(&gol).unwrap()` on a 3×3 grid holding `was`: the next
      generation holds `now`. */
  method Advance(gol: Engine.GoL, ghost was: set<Position>, ghost now: set<Position>) returns (next: Engine.GoL)
    requires gol.Valid() && gol.dims == Dimensions(3, 3) && Holds(gol.model, was) && RuleTable(was, now)
    ensures next.Valid() && next.dims == Dimensions(3, 3) && Holds(next.model, now)
  {
    var r := Engine.GoL.SimulateNextStep(gol);
    StepHolds(gol.model, was, now);
    next := r.value;
  }

  // simulate_next_step_test runs five cases on a fresh 3×3 grid each. Each case
  // is a method that plants the cells and computes the next generation, and a
  // method that reads that generation as the test does.

  /** First case: a lone centre cell, one generation on. */
  method LoneCellNext() returns (gol: Engine.GoL)
    ensures gol.Valid() && gol.dims == Dimensions(3, 3) && Holds(gol.model, {})
  {
    gol := new Engine.GoL(Dimensions(3, 3));
    NewHolds(Dimensions(3, 3));
    ghost var was: set<Position>, now: set<Position> := {Position(1, 1)}, {};
    Plant(gol, Position(1, 1), {}, was);
    LoneCellTable(was, now);
    gol := Advance(gol, was, now);
  }

  /** The lone cell dies, and the centre then has no neighbours. */
  method StepZeroNeighborsTest() returns (centre: Result<bool>, count: Result<nat>)
    ensures centre == Ok(false) && count == Ok(0)
  {
    var gol := LoneCellNext();
    ghost var now: set<Position> := {};
    centre := Probe(gol, now, Position(1, 1));
    count := Neighbors(gol, now, Position(1, 1), 0);
  }

  /** Second case: two diagonal cells, one generation on. */
  method DiagonalPairNext() returns (gol: Engine.GoL)
    ensures gol.Valid() && gol.dims == Dimensions(3, 3) && Holds(gol.model, {})
  {
    gol := new Engine.GoL(Dimensions(3, 3));
    NewHolds(Dimensions(3, 3));
    ghost var was: set<Position>, now: set<Position> := {Position(0, 0), Position(1, 1)}, {};
    Plant(gol, Position(0, 0), {}, {Position(0, 0)});
    Plant(gol, Position(1, 1), {Position(0, 0)}, was);
    DiagonalPairTable(was, now);
    gol := Advance(gol, was, now);
  }

  /** Both diagonal cells, with one neighbour each, die. */
  method StepOneNeighborTest() returns (centre: Result<bool>, corner: Result<bool>, count: Result<nat>)
    ensures centre == Ok(false) && corner == Ok(false) && count == Ok(0)
  {
    var gol := DiagonalPairNext();
    ghost var now: set<Position> := {};
    centre := Probe(gol, now, Position(1, 1));
    corner := Probe(gol, now, Position(0, 0));
    count := Neighbors(gol, now, Position(1, 1), 0);
  }

  /** Third case: the two top corners and the centre, one generation on. */
  method SurvivorNext() returns (gol: Engine.GoL)
    ensures gol.Valid() && gol.dims == Dimensions(3, 3) && Holds(gol.model, {Position(1, 0), Position(1, 1)})
  {
    gol := new Engine.GoL(Dimensions(3, 3));
    NewHolds(Dimensions(3, 3));
    ghost var was := {Position(0, 0), Position(1, 1), Position(2, 0)};
    ghost var now := {Position(1, 0), Position(1, 1)};
    Plant(gol, Position(0, 0), {}, {Position(0, 0)});
    Plant(gol, Position(1, 1), {Position(0, 0)}, {Position(0, 0), Position(1, 1)});
    Plant(gol, Position(2, 0), {Position(0, 0), Position(1, 1)}, was);
    SurvivorTable(was, now);
    gol := Advance(gol, was, now);
  }

  /** The two top corners die, (1,0) is born with three neighbours and the
      centre survives with two. */
  method StepTwoNeighborsTest() returns (left: Result<bool>, right: Result<bool>, born: Result<bool>, kept: Result<bool>)
    ensures left == Ok(false) && right == Ok(false) && born == Ok(true) && kept == Ok(true)
  {
    var gol := SurvivorNext();
    ghost var now := {Position(1, 0), Position(1, 1)};
    left := Probe(gol, now, Position(0, 0));
    right := Probe(gol, now, Position(2, 0));
    born := Probe(gol, now, Position(1, 0));
    kept := Probe(gol, now, Position(1, 1));
  }

  /** After that generation the centre has one live neighbour. */
  method StepTwoNeighborsCountTest() returns (count: Result<nat>)
    ensures count == Ok(1)
  {
    var gol := SurvivorNext();
    ghost var now := {Position(1, 0), Position(1, 1)};
    count := Neighbors(gol, now, Position(1, 1), 1);
  }

  /** Fourth case: two top corners and the bottom midpoint, one generation on. */
  method BirthNext() returns (gol: Engine.GoL)
    ensures gol.Valid() && gol.dims == Dimensions(3, 3) && Holds(gol.model, {Position(1, 1)})
  {
    gol := new Engine.GoL(Dimensions(3, 3));
    NewHolds(Dimensions(3, 3));
    ghost var was := {Position(0, 0), Position(2, 0), Position(1, 2)};
    ghost var now := {Position(1, 1)};
    Plant(gol, Position(0, 0), {}, {Position(0, 0)});
    Plant(gol, Position(2, 0), {Position(0, 0)}, {Position(0, 0), Position(2, 0)});
    Plant(gol, Position(1, 2), {Position(0, 0), Position(2, 0)}, was);
    BirthTable(was, now);
    gol := Advance(gol, was, now);
  }

  /** The dead centre with three neighbours is born, and then has no neighbours. */
  method StepThreeNeighborsTest() returns (centre: Result<bool>, count: Result<nat>)
    ensures centre == Ok(true) && count == Ok(0)
  {
    var gol := BirthNext();
    ghost var now := {Position(1, 1)};
    centre := Probe(gol, now, Position(1, 1));
    count := Neighbors(gol, now, Position(1, 1), 0);
  }

  /** Fifth case: the four corners and the centre, one generation on. */
  method OvercrowdNext() returns (gol: Engine.GoL)
    ensures gol.Valid() && gol.dims == Dimensions(3, 3)
    ensures Holds(gol.model, {Position(1, 0), Position(0, 1), Position(2, 1), Position(1, 2)})
  {
    gol := new Engine.GoL(Dimensions(3, 3));
    NewHolds(Dimensions(3, 3));
    ghost var was := {Position(0, 0), Position(2, 0), Position(1, 1), Position(0, 2), Position(2, 2)};
    ghost var now := {Position(1, 0), Position(0, 1), Position(2, 1), Position(1, 2)};
    Plant(gol, Position(0, 0), {}, {Position(0, 0)});
    Plant(gol, Position(2, 0), {Position(0, 0)}, {Position(0, 0), Position(2, 0)});
    Plant(gol, Position(1, 1), {Position(0, 0), Position(2, 0)}, {Position(0, 0), Position(2, 0), Position(1, 1)});
    Plant(gol, Position(0, 2), {Position(0, 0), Position(2, 0), Position(1, 1)},
          {Position(0, 0), Position(2, 0), Position(1, 1), Position(0, 2)});
    Plant(gol, Position(2, 2), {Position(0, 0), Position(2, 0), Position(1, 1), Position(0, 2)}, was);
    OvercrowdTable(was, now);
    gol := Advance(gol, was, now);
  }

  /** The four edge midpoints are born, and the centre, with four neighbours, dies. */
  method StepFourNeighborsTest() returns (top: Result<bool>, left: Result<bool>, right: Result<bool>, bottom: Result<bool>,
                                          centre: Result<bool>)
    ensures top == Ok(true) && left == Ok(true) && right == Ok(true) && bottom == Ok(true)
    ensures centre == Ok(false)
  {
    var gol := OvercrowdNext();
    ghost var now := {Position(1, 0), Position(0, 1), Position(2, 1), Position(1, 2)};
    top := Probe(gol, now, Position(1, 0));
    left := Probe(gol, now, Position(0, 1));
    right := Probe(gol, now, Position(2, 1));
    bottom := Probe(gol, now, Position(1, 2));
    centre := Probe(gol, now, Position(1, 1));
  }

  /** After that generation the centre has four live neighbours. */
  method StepFourNeighborsCountTest() returns (count: Result<nat>)
    ensures count == Ok(4)
  {
    var gol := OvercrowdNext();
    ghost var now := {Position(1, 0), Position(0, 1), Position(2, 1), Position(1, 2)};
    count := Neighbors(gol, now, Position(1, 1), 4);
  }

  // viewport_test renders a 5×5 grid holding (1,1), (3,2) and (3,3).

  /** Row `y` of the window at `origin`, first `k` columns, drawn from the set of live cells. */
  function PictureRow(alive: set<Position>, origin: Position, y: nat, k: nat): string {
    if k == 0 then ""
    else PictureRow(alive, origin, y, k - 1) + [Display.Glyph(Position(origin.x + k - 1, origin.y + y) in alive)]
  }

  /** The first `k` rows of the window at `origin`, drawn from the set of live cells. */
  function Picture(alive: set<Position>, origin: Position, window: Dimensions, k: nat): seq<string> {
    if k == 0 then []
    else Picture(alive, origin, window, k - 1) + [PictureRow(alive, origin, k - 1, window.width)]
  }

  lemma {:induction false} HeldRow(g: Grid, alive: set<Position>, origin: Position, y: nat, k: nat)
    requires Holds(g, alive)
    requires origin.x + k <= g.dims.width && origin.y + y < g.dims.height
    ensures Display.ScanRow(g, origin, y, k) == PictureRow(alive, origin, y, k)
  {
    if k > 0 {
      HeldRow(g, alive, origin, y, k - 1);
      HeldGet(g, alive, Position(origin.x + k - 1, origin.y + y));
    }
  }

  lemma {:induction false} HeldRows(g: Grid, alive: set<Position>, origin: Position, window: Dimensions, k: nat)
    requires Holds(g, alive)
    requires origin.x + window.width <= g.dims.width && origin.y + k <= g.dims.height
    ensures Display.ScanRows(g, origin, window, k) == Picture(alive, origin, window, k)
  {
    if k > 0 {
      HeldRows(g, alive, origin, window, k - 1);
      HeldRow(g, alive, origin, k - 1, window.width);
    }
  }

  /** A window that fits inside a grid holding `alive` renders as the picture of `alive`. */
  lemma HeldViewport(g: Grid, alive: set<Position>, origin: Position, window: Dimensions)
    requires Holds(g, alive)
    requires origin.x + window.width <= g.dims.width && origin.y + window.height <= g.dims.height
    ensures Display.Viewport(g, origin, window) == Ok(Picture(alive, origin, window, window.height))
  {
    HeldRows(g, alive, origin, window, window.height);
  }

  /** A five-column row of the window at the origin, glyph by glyph. */
  lemma PictureRowOfFive(alive: set<Position>, y: nat)
    ensures PictureRow(alive, Position(0, 0), y, 5) ==
              [Display.Glyph(Position(0, y) in alive), Display.Glyph(Position(1, y) in alive),
               Display.Glyph(Position(2, y) in alive), Display.Glyph(Position(3, y) in alive),
               Display.Glyph(Position(4, y) in alive)]
  {
    var origin := Position(0, 0);
    assert PictureRow(alive, origin, y, 1) == [Display.Glyph(Position(0, y) in alive)];
    assert PictureRow(alive, origin, y, 3) == PictureRow(alive, origin, y, 1) +
             [Display.Glyph(Position(1, y) in alive), Display.Glyph(Position(2, y) in alive)];
  }

  /** The five rows of a window at the origin, row by row. */
  lemma PictureOfFive(alive: set<Position>, window: Dimensions)
    ensures Picture(alive, Position(0, 0), window, 5) ==
              [PictureRow(alive, Position(0, 0), 0, window.width), PictureRow(alive, Position(0, 0), 1, window.width),
               PictureRow(alive, Position(0, 0), 2, window.width), PictureRow(alive, Position(0, 0), 3, window.width),
               PictureRow(alive, Position(0, 0), 4, window.width)]
  {
    var origin := Position(0, 0);
    assert Picture(alive, origin, window, 1) == [PictureRow(alive, origin, 0, window.width)];
    assert Picture(alive, origin, window, 3) == Picture(alive, origin, window, 1) +
             [PictureRow(alive, origin, 1, window.width), PictureRow(alive, origin, 2, window.width)];
  }

  /** The picture viewport_test expects of its grid. */
  lemma ViewportPicture(alive: set<Position>)
    requires alive == {Position(1, 1), Position(3, 2), Position(3, 3)}
    ensures Picture(alive, Position(0, 0), Dimensions(5, 5), 5) == ["     ", " 1   ", "   1 ", "   1 ", "     "]
  {
    PictureOfFive(alive, Dimensions(5, 5));
    PictureRowOfFive(alive, 0);
    PictureRowOfFive(alive, 1);
    PictureRowOfFive(alive, 2);
    PictureRowOfFive(alive, 3);
    PictureRowOfFive(alive, 4);
  }

  /** viewport_test's grid. */
  method ViewportGrid() returns (gol: Engine.GoL)
    ensures gol.Valid() && gol.dims == Dimensions(5, 5)
    ensures Holds(gol.model, {Position(1, 1), Position(3, 2), Position(3, 3)})
  {
    gol := new Engine.GoL(Dimensions(5, 5));
    NewHolds(Dimensions(5, 5));
    Plant(gol, Position(1, 1), {}, {Position(1, 1)});
    Plant(gol, Position(3, 2), {Position(1, 1)}, {Position(1, 1), Position(3, 2)});
    Plant(gol, Position(3, 3), {Position(1, 1), Position(3, 2)}, {Position(1, 1), Position(3, 2), Position(3, 3)});
  }

  /** viewport_test: a window at (5,5) reaches past the 5×5 grid and is refused. */
  method ViewportOutsideTest() returns (r: Result<seq<string>>)
    ensures r.Err?
  {
    var gol := ViewportGrid();
    r := Display.GetViewportData(Position(5, 5), Dimensions(5, 5), gol);
  }

  /** viewport_test: the whole grid renders as five rows with the three live cells set. */
  method ViewportRowsTest() returns (r: Result<seq<string>>)
    ensures r == Ok(["     ", " 1   ", "   1 ", "   1 ", "     "])
  {
    var gol := ViewportGrid();
    r := Display.GetViewportData(Position(0, 0), Dimensions(5, 5), gol);
    ghost var alive := {Position(1, 1), Position(3, 2), Position(3, 3)};
    HeldViewport(gol.model, alive, Position(0, 0), Dimensions(5, 5));
    ViewportPicture(alive);
  }
}

# Game of Life grid engine

This is a model of the core of a terminal Game of Life written in Rust: the grid object in `src/lib.rs` and the viewport extraction in `src/display.rs`.

A game holds a rectangular grid of cells plus its dimensions. The grid is column-major: `map[x][y]` is column `x`, row `y`. The core provides:

- a bounds check on positions, with positions and dimensions treated as unsigned;
- reading and writing a single cell, each failing with an error when the position is off the grid;
- counting the live neighbours around a cell with a nested scan over the offsets `-1..1`. The scan skips offsets that would go negative and ignores probes past the far edges. It never counts the cell itself;
- building the next generation into a fresh grid by the Game of Life rule;
- rendering a window of the grid as strings, `'1'` for live and `' '` for dead.

The Dafny project has these modules:

| module | file | contents |
|---|---|---|
| `Pos` | `pos.dfy` | Position and dimensions as pairs of naturals |
| `Results` | `results.dfy` | The result type: `Ok(value)` or `Err(OutOfBounds)` |
| `Rules` | `rules.dfy` | See below |
| `Engine` | `engine.dfy` | See below |
| `Display` | `display.dfy` | See below |
| `Examples` | `examples.dfy` | The repository's unit tests, as verified methods |

- **Rules** describes the grid as a value: dimensions plus a `seq<seq<bool>>`. It defines:
  - bounds-checked `Get` and `Set`;
  - the neighbour scan `ScanCount`, which follows the source's loop offset by offset, and `NeighborCount` built on it;
  - `AliveNeighbors`, an independent set-based definition of the live neighbours;
  - the rule and the generation `Step`.
- **Engine** has the class `GoL`:
  - an `array2<bool>` updated in place;
  - a ghost field `model` holding the grid as a `Rules` value;
  - methods for the source's operations, each proved to compute what `Rules` specifies.
- **Display** has `GetViewportData`, with the same loops as the source, proved equal to the value-level `Viewport`. A separate lemma gives the viewport's shape and content.
- **Examples** works on small grids, each described by its set of live cells. Each test query is its own method, and its `ensures` is the outcome the Rust test asserts.

In `get_viewport_data`, any window that fits inside the grid is rendered, including one smaller than the grid. Padding for a window reaching past the grid is only a TODO comment (`src/display.rs:26`). The code refuses such a window with an error, and so does the model.

## Model

| member | source | states |
|---|---|---|
| Rules.NewGrid | src/lib.rs:13-18 | A new grid has the requested dimensions and every on-grid cell reads as dead |
| Engine.GoL.constructor | src/lib.rs:13-18 | A new game over a fresh array has the requested dimensions and holds the all-dead grid |
| Rules.GetSpec | src/lib.rs:20-34 | Reading a cell fails exactly when x >= width or y >= height; otherwise it returns the stored cell |
| Engine.GoL.GetCellAt | src/lib.rs:29-34 | Reading the array agrees with the value-level `Get` on the game's grid, so the error cases of `GetSpec` apply |
| Engine.GoL.SetCellAt | src/lib.rs:37-45 | The result is the bounds check's verdict; on success the one cell is written, on failure the grid is unchanged; the object stays consistent |
| Rules.GetAfterSet | src/lib.rs:37-45 | After a write, the written position reads the new value if it was on the grid; every other position reads as before; an off-grid write changes nothing |
| Rules.CountedSpec | src/lib.rs:59-66 | An offset adds one to the count exactly when reading that neighbour succeeds with a live cell and the offset is not (0, 0) |
| Engine.GoL.GetNeighborsAliveCount | src/lib.rs:48-78 | The nested scan with skips and ignored probes returns exactly `Rules.NeighborCount` of the game's grid |
| Rules.ScanCountIsPrefixSize | src/lib.rs:57-73 | At every point of the scan, the running count is the size of the set of offsets counted so far |
| Rules.NeighborCountSpec | src/lib.rs:48-78 | The count fails exactly when the position is off the grid; otherwise it equals the number of live on-grid cells among the eight around it, and is at most 8 |
| Rules.FinishedScanIsAliveNeighbors | src/lib.rs:57-73 | After the complete scan the counted offsets are exactly the live neighbours of the set-based definition |
| Rules.AliveNeighborsInRing | src/lib.rs:57-58 | The live neighbours lie among the eight offsets around the cell, so there are at most eight |
| Rules.ScanCountAgree | src/lib.rs:57-73 | Two grids that agree on which offsets to count give the same count |
| Rules.NeighborCountIgnoresOrigin | src/lib.rs:65 | Writing any value at the cell itself does not change its neighbour count |
| Rules.CornerHasAtMostThree | src/lib.rs:59-66 | At each of the four corners the count succeeds and is at most 3. At the near edges negative offsets are skipped; at the far edges failed probes are ignored |
| Rules.EdgeHasAtMostFive | src/lib.rs:59-66 | At any cell on one of the four edges (x == 0, y == 0, x == width - 1 or y == height - 1) the count succeeds and is at most 5 |
| Rules.InteriorCanReachEight | src/lib.rs:57-73 | An interior cell whose whole 3x3 block is alive has exactly 8 live neighbours |
| Rules.AllAliveIsRing | src/lib.rs:57-73 | For such a block, the set of live neighbours is the full ring of eight offsets |
| Rules.RingSize | src/lib.rs:57-58 | The ring of offsets around a cell has exactly eight members |
| Rules.Rule | src/lib.rs:95-111 | The four-branch cascade writes a live cell exactly when there are three neighbours, or two and the cell is alive; the unmatched case leaves the fresh cell dead |
| Rules.Step | src/lib.rs:80-116 | The next generation keeps the dimensions; every cell is the rule applied to that cell's neighbour count and state in the old grid |
| Rules.StepCell | src/lib.rs:80-116 | For every on-grid cell, count and read both succeed, and the cell in the next generation is alive exactly when n == 3 or (n == 2 and alive) |
| Engine.GoL.SimulateNextStep | src/lib.rs:80-116 | It always succeeds; the new game is fresh and holds exactly `Rules.Step` of the old grid; the old game and its array are unchanged |
| Display.ViewportSpec | src/display.rs:15-43 | The viewport fails exactly when the window reaches past the grid in either axis; otherwise it has one row per window row and one character per window column; each character is '1' or ' ', and it is '1' exactly when that cell is alive |
| Display.GetViewportData | src/display.rs:15-43 | The loops return exactly `Viewport` of the game's grid, and the game is not modified |
| Display.GetViewportDataTwice | src/display.rs:15 | Extraction only borrows the game: two calls with the same arguments return the same rows |
| Examples.NeighborCountUnfolded | src/lib.rs:57-73 | The count of an on-grid cell is the sum of the eight neighbour indicators |
| Examples.HeldCount | src/lib.rs:48-78 | On a grid described by a set of live cells, the count is the number of those cells among the on-grid neighbours |
| Examples.StepHolds | src/lib.rs:80-116 | On a 3x3 grid, if the next-generation set obeys the rule cell by cell, then `Step` produces exactly that set |
| Examples.HeldViewport | src/display.rs:15-43 | On a grid described by a set of live cells, a window inside the grid renders as the picture of that set |
| Examples.MakeGameTest | src/lib.rs:125-138 | A new 5x5 game has width 5, height 5 and only dead cells |
| Examples.SetGameTest | src/lib.rs:140-157 | Writing (0, 0) succeeds and reads back alive; writing (5, 5) on the 5x5 grid fails |
| Examples.GetGameTest | src/lib.rs:159-171 | A written cell (1, 1) reads alive; reading (6, 6) fails |
| Examples.NeighborsOutsideTest | src/lib.rs:182-184 | Counting at (7, 7) on the 5x5 grid fails |
| Examples.NeighborsEmptyCornerTest | src/lib.rs:186-188 | Corner (4, 4) has 0 live neighbours |
| Examples.NeighborsEmptyEdgeTest | src/lib.rs:189-191 | Edge cell (0, 3) has 0 live neighbours |
| Examples.NeighborsEmptyInteriorTest | src/lib.rs:192-194 | Interior cell (3, 3) has 0 live neighbours |
| Examples.NeighborsCornerTest | src/lib.rs:196-198 | Corner (0, 0) has 2 live neighbours |
| Examples.NeighborsEdgeTest | src/lib.rs:199-201 | Edge cell (0, 1) has 1 live neighbour |
| Examples.NeighborsInteriorTest | src/lib.rs:202-204 | Interior cell (2, 2) has 1 live neighbour |
| Examples.StepZeroNeighborsTest | src/lib.rs:209-220 | A lone cell dies; afterwards the centre has 0 neighbours |
| Examples.StepOneNeighborTest | src/lib.rs:222-237 | A diagonal pair dies out |
| Examples.StepTwoNeighborsTest | src/lib.rs:239-254 | With the top corners and the centre alive, the corners die, (1, 0) is born and the centre survives |
| Examples.StepTwoNeighborsCountTest | src/lib.rs:239-257 | On the same grid the centre then has 1 live neighbour |
| Examples.StepThreeNeighborsTest | src/lib.rs:259-274 | A dead centre with three live neighbours is born; it then has 0 live neighbours |
| Examples.StepFourNeighborsTest | src/lib.rs:276-294 | With the four corners and the centre alive, the four edge midpoints are born and the overcrowded centre dies |
| Examples.StepFourNeighborsCountTest | src/lib.rs:276-297 | On the same grid the centre then has 4 live neighbours |
| Examples.ViewportOutsideTest | src/display.rs:56-58 | A 5x5 window at (5, 5) of a 5x5 grid fails |
| Examples.ViewportRowsTest | src/display.rs:50-68 | The full window of the test grid renders as the five rows the test expects |

## Left out

- `src/main.rs`, `src/inputs/events.rs` and `src/inputs/key.rs` are not part of this model. They hold the terminal UI, the input thread and the channel between them, which are I/O and concurrency.
- `src/pos.rs` is not part of this model. Position and dimensions are modelled as pairs of naturals, which matches their unsigned fields.
- Error messages: the source's error strings ("Position out of bounds", "Viewport out of bounds") become the single error value `OutOfBounds`. Callers only ever test whether a result is an error.
- Engine.GoL.GetNeighborsAliveCount: computes with unbounded integers. It does not model the `usize`-to-`i32` casts or an `i32` count, which matter only on grids wider or taller than 2^31 cells.
- Display.GetViewportData: does not model the `usize` overflow of `width + x` in the bounds check. The sum is taken exactly, which matches the source for window arguments whose sums fit in `usize`.
- Engine.GoL.SimulateNextStep: the source's error arms are proved unreachable, so the model always returns `Ok`. These are the `Err(msg) => return Err(msg)` arms after the count and the read, which the `.value` reads require to be `Ok`. They also include the `if let Err(msg)` arms after each write, each of which is followed by an `assert` that the write succeeded. All are left out of the code rather than written as dead branches.
- Engine.GoL.SimulateNextStep: the source iterates over the outer and inner vectors. The model iterates over the array's two lengths, which are the same numbers.
- Viewport padding for a window reaching past the grid is not modelled, because the code does not implement it. It refuses such a window with an error instead.
- Examples: the Rust tests' `unwrap` panics and assertion messages are not modelled. The value each assertion checks is the `ensures` of a method.

# Sokoban search engine, modelled in Dafny

This project models the solver in `sokoban.js`. The pieces are:

- The `Sokoban` constructor builds the puzzle from its input lines:
  - a flat, row-major board string;
  - the target board, a snapshot of the grid rows taken before the player is placed;
  - the board width `nCols`.
- Two move generators:
  - `move`: the player steps onto a floor cell;
  - `push`: the player steps into a box's cell and the box moves one cell further.
- `isSolved`, the goal test.
- Three explorers, all sharing the same direction table Up, Down, Left, Right:
  - `dfs`/`algDepth`: depth-first with one shared visited set that abandons any record deeper than level 64;
  - `algAmplitude`: breadth-first over a FIFO queue, marking a board visited when it is dequeued;
  - `dls`/`algIterativeDepth`: depth-limited search re-run for limits 10 up to `maxLevel`, each run with a fresh visited set.

Board strings use these characters:

- `'0'`: floor
- `'@'`: the player
- `'B'`: a box
- `'X'`: a target marker (in the target board only)
- anything else: an obstacle

The visited key is the whole board string. It includes the `'@'` marker, so two states with the same boxes but different player cells are different keys.

Modules:

- `Wrappers`: `Option`.
- `Boards`: the board encoding.
  - `CharIs` models JavaScript's `charAt(i) === c`, which is false outside the string.
  - Also here: the `Board` search record, the parsed `Sokoban` record, and the predicates saying where the player stands.
- `Moves`: `move` and `push` as functions returning `Option<string>`, with `None` where the source returns `null`.
- `Goal`: `isSolved` as a `forall`, and its meaning in terms of box cells and target cells.
- `Parser`: the constructor.
  - `Parse` is a method with both of the constructor's loops.
  - It is proved equal to the fold `ScanAll` of the one-line step `ScanLine`.
  - Lemmas state what that fold builds, down to the character in each cell.
- `Search`: what the explorers share:
  - the direction table;
  - `Expand`, one iteration of their direction loop;
  - `Replay`, which replays a label path from the initial record.
- `DepthFirst`: `dfs`, `algDepth`, `dls` and `algIterativeDepth`.
  - The recursive methods thread the visited set in and out.
  - They are proved equal to the reference function `Explore`. It is proved sound, to mark each board at most once, and to mark only boards within the depth limit.
  - The limit loop is proved equal to `Deepening`, and `Deepening` is proved to return the first limit that answers.
- `BreadthFirst`: `algAmplitude`.
  - The method is proved equal to the reference function `Bfs`.
  - `Bfs` is proved:
    - sound;
    - optimal (no solving path is shorter than the answer);
    - complete (`None` only when no path solves the puzzle);
    - to expand each board at most once.
  - Optimality holds from any start on the board, with no need for `'@'` to be unique, because the board string alone fixes the player's index on every reachable record (`Search.SameBoardSameIndex`).
  - Termination follows from a finite universe: strings of the initial board's length over its characters plus `'0'`, `'@'` and `'B'`.
- `Scenario`: two puzzles and one input worked through the model:
  - a one-row puzzle, built by the constructor, that every explorer answers with the single push `R`;
  - a two-cell puzzle, built by the constructor, on which every explorer returns no solution.
  - an input whose player column lies past the last JavaScript array index, so the constructor's stamp is lost.

## Model

| member | source | states |
|---|---|---|
| Moves.Move | sokoban.js:141-160 | Fails exactly when the destination cell (read as by `charAt`, so off-board fails) is not floor. Otherwise the result has the same length, `'@'` at the destination, `'0'` at the player's old cell, and every other cell unchanged. |
| Moves.MovePermutes | sokoban.js:141-160 | A successful move from a cell holding `'@'` keeps the multiset of characters, so the number of players and of boxes is unchanged. |
| Moves.Push | sokoban.js:162-180 | Fails exactly when the cell two steps away is not floor. Otherwise: `'B'` two steps away, `'@'` one step away, `'0'` at the player's old cell, everything else unchanged, same length. |
| Moves.PushPermutes | sokoban.js:162-180 | Under the explorers' guard (the player on `'@'`, a `'B'` one step away), a successful push keeps the multiset of characters. |
| Goal.IsSolved | sokoban.js:189-203 | The goal test as a `forall`: at every index of the board under test, the target board reads `'X'` exactly where the board holds `'B'`. An index past the end of the target board reads as not `'X'`. Its meaning is stated by the two lemmas below. |
| Goal.SolvedIffBoxesOnTargets | sokoban.js:189-203 | The board is solved iff its box cells are exactly the target cells of the target board that lie within the board's length. Targets past its end are never checked. |
| Goal.SolvedWhenBoxesAreTargets | sokoban.js:189-203 | When the target board is no longer than the board, solved iff the set of box cells equals the set of target cells. |
| Search.Expand | sokoban.js:296-347 | The child of one direction: the player displaced by that direction's `(dx, dy)`, level one deeper, same board length, the direction's label, player still on the board. |
| Search.ExpandFlat | sokoban.js:296-347 | Take `p` as the player's flat index and `d` as the direction's flat offset. `Expand` succeeds exactly when cell `p + d` is floor, or holds a box with floor at `p + 2d`. A push leaves `'0'` at `p`, `'@'` at `p + d` and `'B'` at `p + 2d`. A move leaves `'0'` at `p` and `'@'` at `p + d`. The child's player stands at `p + d`. |
| Search.ExpandKeepsConsistent | sokoban.js:296-347 | From a record whose `'@'` is unique and at the player's index, every child is such a record again, with the same characters counted. |
| Search.SameBoardSameIndex | sokoban.js:296-347 | For any start, two records replayed from it with the same board string have the player at the same flat index. A stale `'@'` of the start (away from its player's cell) is never written or cleared by a step, and a player never steps onto one. |
| Search.ExpandBySameBoard | sokoban.js:296-347 | Two records replayed from the same start with the same board string have the same successful directions and the same child boards. This justifies keying the visited set on the board string alone (sokoban.js:276, 405, 484). |
| Search.Succ | sokoban.js:296-347 | `Expand`'s child record, or none when the direction index is outside the table or the player is off the board. |
| Search.LabelDir | sokoban.js:215-230 | A character names a direction exactly when it is one of the table's labels `U`, `D`, `L`, `R`. It then names the direction whose move and push labels both equal it. Any other character names none. |
| Search.Replay | sokoban.js:318-320 | Replays a label path from a start record, applying the explorers' expansion for each label in turn. It gives none when a label is not in the table or its expansion fails. |
| Search.ReplayStep | sokoban.js:318-320 | Appending the label of a successful expansion to a path that replays to a record replays to the child. |
| Search.ReplayLevel | sokoban.js:318-320 | A replayed record is as many levels as the path has labels below the start, has the start's board length, and (for a non-empty path) stands on the board. |
| Search.ReplayConsistent | sokoban.js:296-347 | From a consistent start, every record a path replays to is consistent and has the start's multiset of characters, so the box count is the same on every reachable board, a solution's final board included. |
| Parser.Parse | sokoban.js:36-129 | The fields equal the line loop's result. `currBoard` is that loop's board with each `'X'` replaced by `'0'` and every other character kept, so the puzzle is `Built` of the lines. When every stamp lands on the board, the player stands on the board or the board is empty. |
| Parser.Stamp | sokoban.js:86-101 | The array write `sceneChar[pos] = c`: a negative index, or one of 2^32 − 1 or more (not a JavaScript array index), leaves the board unchanged; an index on the board rewrites that one cell; any other index past the end appends the character. |
| Parser.ScanLine | sokoban.js:67-112 | One iteration of the line loop. An empty line changes nothing. The first coordinate line snapshots the target board, sets the player fields and stamps `'@'`. A later coordinate line stamps `'B'`. A grid row is appended. `nCols` is set from the first non-empty line. |
| Parser.ScanAll | sokoban.js:67-112 | The line loop over all lines, from the empty state. |
| Parser.Built | sokoban.js:36-129 | The constructor's fields: the line loop's target board, player fields and width, with `currBoard` the loop's board cleared of `'X'`. |
| Parser.Cleared | sokoban.js:118-125 | The cleared board has the same length, `'0'` where the board has `'X'`, the board's character everywhere else, and no `'X'` left. |
| Parser.WidthIsFirstLine | sokoban.js:107-110 | `nCols` is the length of the first non-empty line, or 0 if there is none. |
| Parser.RowsBeforeCoord | sokoban.js:67-112 | Before any coordinate line, the board is the grid rows concatenated in order, and the target board and player fields are still unset. |
| Parser.PlayerFieldsStay | sokoban.js:77-90 | Once the player line is read, later lines change neither the target board nor the player fields. |
| Parser.PlayerFromFirstCoord | sokoban.js:73-90 | The first coordinate line sets the player flag, `playerX` = its column and `playerY` = its row, and makes the target board the grid rows read before it. With no coordinate line the player stays at (0, 0) with the flag unset. |
| Parser.LineBoard | sokoban.js:71-110 | A coordinate line whose stamp lands on the board writes exactly one cell, its stamp position, with `'@'` before the player is placed and `'B'` after. A grid row appends its cells. |
| Parser.BoardIsRowsStamped | sokoban.js:67-112 | When every stamp lands on the board, the board has the grid rows' length. Each cell holds the character of the last coordinate line stamped there, or the grid rows' character if no line stamped it. |
| Parser.UnstampedCellIsRow | sokoban.js:67-112 | When every stamp lands on the board, a cell that no coordinate line stamps holds the grid rows' character. |
| Parser.BoxStampHoldsBox | sokoban.js:91-102 | When every stamp lands on the board, each coordinate line after the player's leaves `'B'` at its stamp position on the final board. |
| Parser.PlayerStampHoldsPlayer | sokoban.js:77-90 | When every stamp lands on the board, the player's line leaves `'@'` at `playerY * nCols + playerX` (with the width known then) unless a later coordinate line stamps the same cell. |
| Parser.PlayerIffCoord | sokoban.js:67-90 | The player flag is set exactly when some coordinate line has been read. |
| Parser.AtStampIsPlayer | sokoban.js:77-102 | The only cell whose last stamp is `'@'` is the stamp position of the player's line. |
| Parser.ParsedConsistent | sokoban.js:36-129 | If every stamp lands on the board, the grid rows hold no `'@'`, and no later coordinate line stamps the player's cell, then the built puzzle's start has exactly one `'@'`, at the player's index. |
| Parser.ScanGrows | sokoban.js:67-112 | The board never shrinks from line to line, and once `nCols` is set it never changes. |
| Parser.PlayerPlaced | sokoban.js:84-90 | When every stamp lands on the board, the player's flat index (with the final width) lies on the board, or the board is empty. |
| DepthFirst.Explore | sokoban.js:479-496 | The recursive search of `dls` (and of `dfs` with limit 64) as a function. It refuses a visited board or one deeper than the limit. Otherwise it marks the board visited, answers with its level and path if it is solved, and else tries the directions. |
| DepthFirst.ExploreDirs | sokoban.js:499-538 | The direction loop: in the order Up, Down, Left, Right, the first child whose subtree answers gives the answer. The visited set flows from each subtree to the next. |
| DepthFirst.ExploreMarksOnce | sokoban.js:272-351 | The visited set only grows, by exactly the boards the search marks. No board is marked twice, and none that was already visited is marked. |
| DepthFirst.ExploreSound | sokoban.js:281-294 | An answer's depth is at most the limit. Its path extends the current path and replays from the start record. The record reached has the answer's depth as its level (the start's level plus the path's length), and its board passes the goal test. |
| DepthFirst.ExploreMarksWithin | sokoban.js:484-491 | A board refused because it is deeper than the limit (or already visited) leaves the visited set unchanged. Every board the search marks is reached from the start record at a level of at most the limit. |
| DepthFirst.Dls | sokoban.js:479-542 | The method's answer and visited set after the call are those of the reference search `Explore` for the given limit. |
| DepthFirst.Dfs | sokoban.js:272-351 | The same as `Dls`, with the fixed limit 64. |
| DepthFirst.AlgDepth | sokoban.js:359-372 | The answer is the reference search's from the initial record with an empty visited set and limit 64. An answer has a depth equal to its path's length and at most 64 and its path solves the puzzle. |
| DepthFirst.Attempt | sokoban.js:555-570 | One attempt of the limit loop: the search from the initial record with a fresh visited set and an empty path. |
| DepthFirst.Deepening | sokoban.js:550-580 | The limit loop: the first attempt from `limit` up to `maxLevel` that answers, or none. |
| DepthFirst.DeepeningFirst | sokoban.js:545-581 | The limit loop gives no answer iff every attempt in the range does. Otherwise it gives the attempt of the least limit that answers. |
| DepthFirst.DeepeningSound | sokoban.js:545-581 | An answer of the limit loop has a depth equal to its path's length, a depth within the largest limit, and a path that solves the puzzle. |
| DepthFirst.AlgIterativeDepth | sokoban.js:545-581 | The answer is that of the reference limit loop from 10 to `maxLevel`. It is sound, and `null` when `maxLevel < 10`. |
| BreadthFirst.Bfs | sokoban.js:396-463 | The loop as a function. It skips a visited front board. Otherwise it marks the board and answers if it is solved, and else appends the board's children and goes on. An empty queue gives none. |
| BreadthFirst.Children | sokoban.js:419-459 | The entries one dequeued record appends, in direction order, each with the path extended by its label. |
| BreadthFirst.Marked | sokoban.js:405-410 | The boards the loop adds to the visited set, in order. |
| BreadthFirst.BfsCorrect | sokoban.js:382-463 | From any state meeting the loop invariant, an answer of `Bfs` has a depth equal to its path's length and solves the puzzle. No solving path is shorter than the answer, and no answer means no path solves the puzzle. |
| BreadthFirst.BfsMarksOnce | sokoban.js:396-416 | Duplicates may wait in the queue, but the boards `Bfs` marks visited are pairwise distinct and none was visited before. |
| BreadthFirst.ExpandKeepsLevelsOrdered | sokoban.js:396-459 | Dequeuing the front and appending its children keeps the queue's levels non-decreasing and within one level of each other. |
| BreadthFirst.ChildrenLevel | sokoban.js:419-459 | Every enqueued child is one level below the dequeued record. |
| BreadthFirst.Frontier | sokoban.js:382-463 | Under the loop invariant, while some board reached by a path is not yet visited, the queue is non-empty and holds an entry no deeper than that path (the layer argument behind optimality). |
| BreadthFirst.ReplayInUniverse | sokoban.js:382-463 | Every reachable board has the initial board's length and characters from a fixed finite alphabet, so the search space is finite. |
| BreadthFirst.EnqueueChildren | sokoban.js:419-459 | The inner direction loop appends the children of the dequeued record in direction order, exactly as `Children` lists them. |
| BreadthFirst.AlgAmplitude | sokoban.js:382-463 | The answer equals `Bfs` from the initial queue. An answer has a depth equal to its path's length and solves the puzzle, and no solving path is shorter. The answer is `null` only when no path solves the puzzle. The boards the loop adds to its visited set are those of `Marked`, in order. |
| Scenario.OneRowParses | sokoban.js:67-112 | The lines `00X`, `0,0`, `0,1` give the board `@BX`, target board `00X` and width 3, with every stamp on the board. The constructor builds `Puzzle` from them. |
| Scenario.OneRowSolvedByPushRight | sokoban.js:296-347 | That puzzle is consistent, solved by the single push `R`, and not solved by the empty path. |
| Scenario.OneRowDepthFirst | sokoban.js:479-542 | On that puzzle, every depth-limited attempt with a limit of at least 1 answers depth 1 with path `R`: Up, Down and Left fail before Right is tried. |
| Scenario.OneRowDeepening | sokoban.js:545-581 | On that puzzle, the limit loop answers depth 1 with path `R` for every `maxLevel` of at least 10. |
| Scenario.OneRowBreadthFirst | sokoban.js:382-463 | On that puzzle, the breadth-first search answers depth 1 with path `R`. |
| Scenario.StuckParses | sokoban.js:67-112 | The lines `0X`, `0,1`, `0,0` give the board `B@` with target board `0X` and width 2. The constructor builds `Stuck` from them. |
| Scenario.StuckDeepening | sokoban.js:545-581 | On that puzzle every depth-limited attempt fails, so the limit loop gives no answer for any `maxLevel`. |
| Scenario.StuckBreadthFirst | sokoban.js:382-463 | On that puzzle the breadth-first search gives no answer, and no path solves it. |
| Scenario.FarColumnIgnored | sokoban.js:77-90 | The lines `00X`, `0,4294967295` leave the board `00X`: the player's stamp position 2^32 − 1 is not an array index, so the write is lost, while the player fields still take column 4294967295 and row 0. Not every stamp lands on the board. |

## Left out

- The command-line driver and file reading (sokoban.js:586-615) are I/O and are not part of this model.
- `solve` and `solveSinglePrint` (sokoban.js:211-256) are left out as drivers: they build the direction tables and print the explorers' results. Two pieces of them are modelled elsewhere:
  - the direction table `solve` builds is `Search.Dirs` with its labels `Search.DirLabels`;
  - `solveSinglePrint` calls `algIterativeDepth` with `maxLevel` fixed at 64, while `DepthFirst.AlgIterativeDepth` takes `maxLevel` as a parameter, so that call is the case `maxLevel == 64`.
- Where the drivers format a null result they dereference `.path`; that crash is not modelled.
- `line.split(",")` and `parseInt` are abstracted:
  - A line is either a grid `Row` or an already-parsed `Coord(width, row, col)`, where `width` is the line's own length, as `nCols` needs it.
  - A non-numeric coordinate (`NaN`) is not modelled.
- `Moves.Move` and `Moves.Push` require the player's own cell to lie on the board, unlike the source. Outside the board, the source's array write ignores a negative index or grows the array. Every caller in the model keeps the player on the board.
- `DepthFirst.Dls`, `DepthFirst.Dfs`, `DepthFirst.AlgDepth` and `DepthFirst.AlgIterativeDepth` require that the initial record stands on the board, or that the board is empty. `Parser.Parse` proves exactly this whenever every stamp lands on the board.
- `BreadthFirst.AlgAmplitude` requires the same start condition as the depth-first explorers.
- The unused fields `sol`, `amplitudeCount`, `depthCount` and `prints` carry no behaviour and are dropped (sokoban.js:17, 49-53).
- The model does not capture the source's operation costs:
  - copying paths with `slice`: a path is a value here, extended by one label per step;
  - the cost of `queue.shift()`: the queue is a sequence value in a local variable.
- The shared mutable `Set` is modelled as a set value passed into each call and returned from it. This is equivalent for this sequential code, but aliasing is not modelled.
- The model's strings are sequences of Unicode scalar values. JavaScript's `length`, `charAt` and `split("")` work on UTF-16 code units (sokoban.js:88, 109, 120, 147, 166, 196, 307). The two agree on the board characters above, but not on input with characters outside the Basic Multilingual Plane.
- Integers here are unbounded. JavaScript numbers are doubles, exact only below 2^53, so the index arithmetic `y * nCols + x` (sokoban.js:87, 98, 144, 163) agrees with the model only on boards below that size.
- The constructor's stamp into an array (`sceneChar[pos] = c`) is modelled on every index rather than required to fall on the board:
  - a negative index, or one of 2^32 − 1 or more, is an ordinary property rather than an array index, and leaves the board unchanged;
  - any other index at or past the end appends the character (the holes of a grown array join as the empty string).

## Notes on the code

- The goal test compares with the literal `'X'` at each index of the board under examination. Target cells past the end of that board are never checked (`Goal.SolvedIffBoxesOnTargets`).
- The board string, including `'@'`, is the visited key in all three explorers. The model follows the code.
- The doc comment of `dfs` (sokoban.js:261) names the shortest path as its goal. The code returns the first answer found in direction order within depth 64, and the model proves only that this answer is sound.
- A puzzle without a coordinate line leaves the player flag unset and the player at (0, 0). The model keeps that default rather than rejecting the input.

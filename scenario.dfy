/**
 * Two small puzzles worked through the model: a one-row puzzle solved by
 * one push, and a two-cell puzzle that no explorer can solve.
 */
module Scenario {
  import opened Wrappers
  import opened Boards
  import opened Goal
  import opened Moves
  import opened Search
  import opened DepthFirst
  import opened Parser
  import opened BreadthFirst

  /** The input lines `00X`, `0,0` (the player) and `0,1` (a box). */
  const Lines: seq<Line> := [Row("00X"), Coord(3, 0, 0), Coord(3, 0, 1)]

  /** The puzzle the constructor builds from `Lines`. */
  const Puzzle: Sokoban := Sokoban("00X", "@B0", true, 0, 0, 3)

  /**
   * The line loop reads the target board `00X`, puts the player on cell 0
   * and the box on cell 1; clearing the target gives `@B0`.
   */
  lemma OneRowParses()
    ensures ScanAll(Lines) == Scan("@BX", "00X", 3, true, 0, 0)
    ensures StampsFit(Lines)
    ensures Built(Lines) == Puzzle
  {
    var s0 := Start;
    var s1 := ScanLine(s0, Lines[0]);
    assert s0.board + "00X" == "00X";
    assert s1 == Scan("00X", "", 3, false, 0, 0);
    var s2 := ScanLine(s1, Lines[1]);
    assert Stamp("00X", 0, '@') == "@0X";
    assert s2 == Scan("@0X", "00X", 3, true, 0, 0);
    var s3 := ScanLine(s2, Lines[2]);
    assert Stamp("@0X", 1, 'B') == "@BX";
    assert s3 == Scan("@BX", "00X", 3, true, 0, 0);
    assert Lines[..1] == [Lines[0]] && Lines[..2][..1] == Lines[..1];
    assert ScanAll(Lines[..1]) == s1;
    assert Lines[..2] == Lines[..1] + [Lines[1]];
    assert ScanAll(Lines[..2]) == s2;
    assert Lines[..3][..2] == Lines[..2] && Lines[..3] == Lines;
    assert ScanAll(Lines) == s3;
    assert Cleared("@BX") == "@B0";
  }

  /** Replaying the label `R` from the start of `Puzzle` performs the push to the right. */
  lemma OneRowReplay()
    ensures Replay(Puzzle, InitialBoard(Puzzle), "R") == Some(Board("0@B", 1, 0, 1))
  {
    var b := InitialBoard(Puzzle);
    OneRowPushRight();
    ReplayStep(Puzzle, b, [], b, 3);
    assert [] + ['R'] == "R";
  }

  /** Pushing right solves the puzzle, and the start is not solved: every solution has length at least 1. */
  lemma OneRowSolvedByPushRight()
    ensures Consistent(Puzzle.nCols, InitialBoard(Puzzle))
    ensures Solves(Puzzle, "R") && !Solves(Puzzle, [])
  {
    OneRowReplay();
    OneRowTarget();
    assert !IsSolved(Puzzle.destBoard, Puzzle.currBoard) by {
      assert !CharIs(Puzzle.destBoard, 1, 'X') && Puzzle.currBoard[1] == 'B';
    }
  }

  /** From the start of `Puzzle`, Up, Down and Left fail: off the board above, below and to the left. */
  lemma OneRowBlocked(i: nat)
    requires i < 3
    ensures Expand(Puzzle, InitialBoard(Puzzle), i).None?
  {
    var b := InitialBoard(Puzzle);
    if i == 0 {
      assert !CharIs(b.cur, -3, 'B') && !CharIs(b.cur, -3, '0');
    } else if i == 1 {
      assert !CharIs(b.cur, 3, 'B') && !CharIs(b.cur, 3, '0');
    } else {
      assert !CharIs(b.cur, -1, 'B') && !CharIs(b.cur, -1, '0');
    }
  }

  /** The push to the right moves the box from cell 1 to cell 2 and the player to cell 1. */
  lemma PushRightBoard()
    ensures Push(3, 0, 0, 1, 0, "@B0") == Some("0@B")
  {
    assert "@B0"[0 := '0'][1 := '@'][2 := 'B'] == "0@B";
  }

  /** Right pushes the box. */
  lemma OneRowPushRight()
    ensures Expand(Puzzle, InitialBoard(Puzzle), 3) == Some((Board("0@B", 1, 0, 1), 'R'))
  {
    PushRightBoard();
    assert CharIs("@B0", 1, 'B') && !CharIs("@B0", 2, 'B');
  }

  /** The pushed board has its one box on the one target. */
  lemma OneRowTarget()
    ensures IsSolved(Puzzle.destBoard, "0@B")
  {
    assert !CharIs("00X", 0, 'X') && !CharIs("00X", 1, 'X') && CharIs("00X", 2, 'X');
  }

  /** From the start of `Puzzle`, only Right succeeds. */
  lemma OneRowSteps()
    ensures forall i :: 0 <= i < 3 ==> Expand(Puzzle, InitialBoard(Puzzle), i).None?
    ensures Expand(Puzzle, InitialBoard(Puzzle), 3) == Some((Board("0@B", 1, 0, 1), 'R'))
    ensures IsSolved(Puzzle.destBoard, "0@B")
  {
    forall i | 0 <= i < 3 ensures Expand(Puzzle, InitialBoard(Puzzle), i).None? {
      OneRowBlocked(i);
    }
    OneRowPushRight();
    OneRowTarget();
  }

  /** The record after pushing right passes the goal test, so the search answers there. */
  lemma OneRowChild(visited: set<string>, limit: int)
    requires 1 <= limit && "0@B" !in visited
    ensures Explore(Puzzle, Board("0@B", 1, 0, 1), visited, "R", limit).result == Some(Solution(1, "R"))
  {
    OneRowTarget();
  }

  /** The direction loop at the start of `Puzzle` answers by the push of direction 3, Right. */
  lemma {:induction false} OneRowDirs(limit: int, i: nat)
    requires 1 <= limit && i <= 3
    ensures ExploreDirs(Puzzle, InitialBoard(Puzzle), {"@B0"}, [], limit, i).result == Some(Solution(1, "R"))
    decreases 3 - i
  {
    if i == 3 {
      OneRowPushRight();
      assert [] + ['R'] == "R";
      OneRowChild({"@B0"}, limit);
    } else {
      OneRowBlocked(i);
      OneRowDirs(limit, i + 1);
    }
  }

  /**
   * Every depth-limited attempt with a limit of at least 1 answers the
   * one push `R` at depth 1: Right is the first direction that succeeds.
   */
  lemma OneRowDepthFirst(limit: int)
    requires 1 <= limit
    ensures Attempt(Puzzle, limit) == Some(Solution(1, "R"))
  {
    OneRowSolvedByPushRight();
    var b := InitialBoard(Puzzle);
    OneRowDirs(limit, 0);
    assert {} + {b.cur} == {"@B0"};
    assert Explore(Puzzle, b, {}, [], limit).result == ExploreDirs(Puzzle, b, {} + {b.cur}, [], limit, 0).result;
  }

  /** The deepening loop therefore answers at its first limit, 10. */
  lemma OneRowDeepening(maxLevel: int)
    requires 10 <= maxLevel
    ensures Deepening(Puzzle, 10, maxLevel) == Some(Solution(1, "R"))
  {
    OneRowDepthFirst(10);
  }

  /** With the pushed record at the front of the queue and not yet visited, the breadth-first search answers it. */
  lemma OneRowBfsFront(q: seq<Entry>, visited: set<string>)
    requires AllReached(Puzzle, q) && visited <= Universe(Puzzle)
    requires q != [] && q[0] == Entry(Board("0@B", 1, 0, 1), "R") && "0@B" !in visited
    ensures Bfs(Puzzle, q, visited) == Some(Solution(1, "R"))
  {
    OneRowTarget();
  }

  /** The start of `Puzzle` has one child, the push to the right. */
  lemma OneRowChildren()
    ensures Children(Puzzle, InitialBoard(Puzzle), [], 0) == [Entry(Board("0@B", 1, 0, 1), "R")]
  {
    OneRowSteps();
    var b := InitialBoard(Puzzle);
    assert [] + ['R'] == "R";
    assert Children(Puzzle, b, [], 3) == [Entry(Board("0@B", 1, 0, 1), "R")];
  }

  /** The breadth-first search answers the one push `R` at depth 1. */
  lemma OneRowBreadthFirst()
    ensures Bfs(Puzzle, [Entry(InitialBoard(Puzzle), [])], {}) == Some(Solution(1, "R"))
  {
    OneRowSolvedByPushRight();
    OneRowChildren();
    var b := InitialBoard(Puzzle);
    var q := [Entry(b, [])];
    InitialInv(Puzzle);
    FrontFacts(Puzzle, q, {});
    var next := q[1..] + Children(Puzzle, b, [], 0);
    assert next[0] == Entry(Board("0@B", 1, 0, 1), "R");
    OneRowBfsFront(next, {} + {b.cur});
  }

  /** The input lines `0X`, `0,1` (the player, on the target) and `0,0` (a box, in the corner). */
  const StuckLines: seq<Line> := [Row("0X"), Coord(3, 0, 1), Coord(3, 0, 0)]

  /** The puzzle the constructor builds from `StuckLines`. */
  const Stuck: Sokoban := Sokoban("0X", "B@", true, 1, 0, 2)

  /** The line loop on `StuckLines` puts the player over the target and the box in the corner. */
  lemma StuckParses()
    ensures ScanAll(StuckLines) == Scan("B@", "0X", 2, true, 1, 0)
    ensures StampsFit(StuckLines)
    ensures Built(StuckLines) == Stuck
  {
    var s1 := ScanLine(Start, StuckLines[0]);
    assert Start.board + "0X" == "0X";
    assert s1 == Scan("0X", "", 2, false, 0, 0);
    var s2 := ScanLine(s1, StuckLines[1]);
    assert Stamp("0X", 1, '@') == "0@";
    assert s2 == Scan("0@", "0X", 2, true, 1, 0);
    var s3 := ScanLine(s2, StuckLines[2]);
    assert Stamp("0@", 0, 'B') == "B@";
    assert s3 == Scan("B@", "0X", 2, true, 1, 0);
    assert StuckLines[..1] == [StuckLines[0]] && StuckLines[..2][..1] == StuckLines[..1];
    assert ScanAll(StuckLines[..1]) == s1;
    assert StuckLines[..2] == StuckLines[..1] + [StuckLines[1]];
    assert ScanAll(StuckLines[..2]) == s2;
    assert StuckLines[..3][..2] == StuckLines[..2] && StuckLines[..3] == StuckLines;
    assert ScanAll(StuckLines) == s3;
    assert Cleared("B@") == "B@";
  }

  /** Neither a move nor a push is possible from the start of `Stuck`. */
  lemma StuckHasNoStep(i: nat)
    requires i < 4
    ensures Expand(Stuck, InitialBoard(Stuck), i).None?
  {
    var b := InitialBoard(Stuck);
    assert InRange(2, b);
    if i == 0 {
      assert !CharIs(b.cur, -1, 'B') && !CharIs(b.cur, -1, '0');
    } else if i == 1 {
      assert !CharIs(b.cur, 3, 'B') && !CharIs(b.cur, 3, '0');
    } else if i == 2 {
      assert CharIs(b.cur, 0, 'B') && !CharIs(b.cur, -1, 'B') && !CharIs(b.cur, -1, '0');
    } else {
      assert !CharIs(b.cur, 2, 'B') && !CharIs(b.cur, 2, '0');
    }
  }

  /** With no step possible, the direction loop ends with nothing found and nothing marked. */
  lemma {:induction false} StuckDirs(visited: set<string>, limit: int, i: nat)
    requires i <= 4 && 0 <= limit
    ensures ExploreDirs(Stuck, InitialBoard(Stuck), visited, [], limit, i) == Outcome(None, visited, [])
    decreases 4 - i
  {
    if i < 4 {
      StuckHasNoStep(i);
      StuckDirs(visited, limit, i + 1);
    }
  }

  /** The start of `Stuck` is consistent and not solved. */
  lemma StuckStart()
    ensures Consistent(Stuck.nCols, InitialBoard(Stuck))
    ensures !IsSolved(Stuck.destBoard, Stuck.currBoard)
  {
    assert CharIs(Stuck.destBoard, 1, 'X') && Stuck.currBoard[1] != 'B';
  }

  /** Every depth-limited attempt on `Stuck` fails, so the deepening loop does for any `maxLevel`. */
  lemma StuckDeepening()
    ensures forall limit :: Attempt(Stuck, limit).None?
    ensures forall maxLevel :: Deepening(Stuck, 10, maxLevel).None?
  {
    StuckStart();
    forall limit ensures Attempt(Stuck, limit).None? {
      var b := InitialBoard(Stuck);
      if 0 <= limit {
        StuckDirs({} + {b.cur}, limit, 0);
        assert Explore(Stuck, b, {}, [], limit).result == ExploreDirs(Stuck, b, {} + {b.cur}, [], limit, 0).result;
      }
    }
    forall maxLevel ensures Deepening(Stuck, 10, maxLevel).None? {
      DeepeningFirst(Stuck, 10, maxLevel);
    }
  }

  /** The breadth-first search on `Stuck` empties its queue without a solution, and no path solves `Stuck`. */
  lemma StuckBreadthFirst()
    ensures Bfs(Stuck, [Entry(InitialBoard(Stuck), [])], {}).None?
    ensures forall p :: !Solves(Stuck, p)
  {
    var b := InitialBoard(Stuck);
    StuckStart();
    forall i | 0 <= i < 4 ensures Expand(Stuck, b, i).None? {
      StuckHasNoStep(i);
    }
    assert Children(Stuck, b, [], 0) == [];
    assert [Entry(b, [])][1..] + [] == [];
    InitialInv(Stuck);
    BfsCorrect(Stuck, [Entry(b, [])], {}, map[], b.cur);
  }

  /** The input lines `00X` and `0,4294967295`: the player's column is past the last array index. */
  const FarLines: seq<Line> := [Row("00X"), Coord(12, 0, 4294967295)]

  /**
   * The player's stamp position 4294967295 is not an array index, so the
   * write leaves the board as read, while the player fields still take the
   * line's coordinates.
   */
  lemma FarColumnIgnored()
    ensures ScanAll(FarLines) == Scan("00X", "00X", 3, true, 4294967295, 0)
    ensures !StampsFit(FarLines)
  {
    var s1 := ScanLine(Start, FarLines[0]);
    assert Start.board + "00X" == "00X";
    assert s1 == Scan("00X", "", 3, false, 0, 0);
    assert Stamp("00X", 4294967295, '@') == "00X";
    assert FarLines[..1] == [FarLines[0]];
    assert ScanAll(FarLines[..1]) == s1;
    assert FarLines[..2] == FarLines;
    assert StampPos(ScanAll(FarLines[..1]), FarLines[1]) == 4294967295;
  }
}

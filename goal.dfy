/** The goal test `isSolved`: boxes stand exactly on the target cells. */
module Goal {
  import opened Boards

  /**
   * `isSolved(trialBoard)`: at every cell of the trial board, the target
   * board reads 'X' exactly where the trial board holds a box.
   */
  predicate IsSolved(destBoard: string, trialBoard: string)
  {
    forall i :: 0 <= i < |trialBoard| ==> CharIs(destBoard, i, 'X') == (trialBoard[i] == 'B')
  }

  /** Indices of the box cells of a board. */
  function BoxCells(board: string): set<int>
  {
    set i | 0 <= i < |board| && board[i] == 'B'
  }

  /** Indices of the target cells of the target board. */
  function TargetCells(destBoard: string): set<int>
  {
    set i | 0 <= i < |destBoard| && destBoard[i] == 'X'
  }

  /**
   * The goal test holds exactly when the box cells are the target cells
   * that lie on the trial board; targets past its end are ignored.
   */
  lemma SolvedIffBoxesOnTargets(destBoard: string, trialBoard: string)
    ensures IsSolved(destBoard, trialBoard) <==>
      BoxCells(trialBoard) == set i | i in TargetCells(destBoard) && i < |trialBoard|
  {
    var targets := set i | i in TargetCells(destBoard) && i < |trialBoard|;
    if IsSolved(destBoard, trialBoard) {
      forall i | i in BoxCells(trialBoard) ensures i in targets {
        assert CharIs(destBoard, i, 'X');
      }
      forall i | i in targets ensures i in BoxCells(trialBoard) {
        assert CharIs(destBoard, i, 'X');
      }
    } else {
      var i :| 0 <= i < |trialBoard| && CharIs(destBoard, i, 'X') != (trialBoard[i] == 'B');
      if trialBoard[i] == 'B' {
        assert i in BoxCells(trialBoard) && i !in targets;
      } else {
        assert CharIs(destBoard, i, 'X');
        assert i in targets && i !in BoxCells(trialBoard);
      }
    }
  }

  /** A trial board with a box on every target and nowhere else passes the goal test. */
  lemma SolvedWhenBoxesAreTargets(destBoard: string, trialBoard: string)
    requires |destBoard| <= |trialBoard|
    ensures IsSolved(destBoard, trialBoard) <==> BoxCells(trialBoard) == TargetCells(destBoard)
  {
    SolvedIffBoxesOnTargets(destBoard, trialBoard);
    assert TargetCells(destBoard) == set i | i in TargetCells(destBoard) && i < |trialBoard|;
  }
}

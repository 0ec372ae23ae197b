/**
 * The move generator: `move` steps the player onto a floor cell, `push`
 * moves the player into the adjacent cell and the box there one cell on.
 * Both return a new board string, or None where the source returns null.
 */
module Moves {
  import opened Wrappers
  import opened Boards

  /**
   * `move(x, y, dx, dy, trialBoard)`: the player at (x, y) steps by (dx, dy).
   * Fails exactly when the destination is not floor (off-board reads as "").
   */
  function Move(nCols: int, x: int, y: int, dx: int, dy: int, trialBoard: string): (r: Option<string>)
    requires 0 <= Index(nCols, x, y) < |trialBoard|
    ensures r.None? <==> !CharIs(trialBoard, Index(nCols, x + dx, y + dy), '0')
    ensures r.Some? ==> |r.value| == |trialBoard|
    ensures r.Some? ==> forall k :: 0 <= k < |trialBoard| ==>
      r.value[k] == if k == Index(nCols, x + dx, y + dy) then '@'
                    else if k == Index(nCols, x, y) then '0'
                    else trialBoard[k]
  {
    var newPlayerPos := (y + dy) * nCols + x + dx;
    if !CharIs(trialBoard, newPlayerPos, '0') then None
    else Some(trialBoard[y * nCols + x := '0'][newPlayerPos := '@'])
  }

  /**
   * `push(x, y, dx, dy, trialBoard)`: the player moves one step and whatever
   * is there moves a second step. Fails exactly when the second cell is not
   * floor. The source's callers check that the first cell holds a box.
   */
  function Push(nCols: int, x: int, y: int, dx: int, dy: int, trialBoard: string): (r: Option<string>)
    requires 0 <= Index(nCols, x, y) < |trialBoard|
    ensures r.None? <==> !CharIs(trialBoard, Index(nCols, x + 2 * dx, y + 2 * dy), '0')
    ensures r.Some? ==> |r.value| == |trialBoard|
    ensures r.Some? ==> forall k :: 0 <= k < |trialBoard| ==>
      r.value[k] == if k == Index(nCols, x + 2 * dx, y + 2 * dy) then 'B'
                    else if k == Index(nCols, x + dx, y + dy) then '@'
                    else if k == Index(nCols, x, y) then '0'
                    else trialBoard[k]
  {
    var newBoxPos := (y + 2 * dy) * nCols + x + 2 * dx;
    if !CharIs(trialBoard, newBoxPos, '0') then None
    else
      var p := y * nCols + x;
      var p1 := (y + dy) * nCols + x + dx;
      IndexShift(nCols, x, y, dx, dy, 1);
      IndexShift(nCols, x, y, dx, dy, 2);
      assert p1 == (p + newBoxPos) / 2;
      Some(trialBoard[p := '0'][p1 := '@'][newBoxPos := 'B'])
  }

  /** A move from the player's own cell swaps '@' with a '0': every character count is kept. */
  lemma MovePermutes(nCols: int, x: int, y: int, dx: int, dy: int, trialBoard: string)
    requires 0 <= Index(nCols, x, y) < |trialBoard| && trialBoard[Index(nCols, x, y)] == '@'
    requires Move(nCols, x, y, dx, dy, trialBoard).Some?
    ensures multiset(Move(nCols, x, y, dx, dy, trialBoard).value) == multiset(trialBoard)
  {
    var p, q := Index(nCols, x, y), Index(nCols, x + dx, y + dy);
    assert trialBoard[q] == '0';
    var mid := trialBoard[p := '0'];
    assert Move(nCols, x, y, dx, dy, trialBoard).value == mid[q := '@'];
    assert multiset(mid) == multiset(trialBoard) - multiset{'@'} + multiset{'0'};
    assert mid[q] == '0';
  }

  /**
   * Under the explorers' guard (a box in the first cell) a push from the
   * player's cell permutes '@', 'B' and '0': every character count is kept.
   */
  lemma PushPermutes(nCols: int, x: int, y: int, dx: int, dy: int, trialBoard: string)
    requires 0 <= Index(nCols, x, y) < |trialBoard| && trialBoard[Index(nCols, x, y)] == '@'
    requires CharIs(trialBoard, Index(nCols, x + dx, y + dy), 'B')
    requires Push(nCols, x, y, dx, dy, trialBoard).Some?
    ensures multiset(Push(nCols, x, y, dx, dy, trialBoard).value) == multiset(trialBoard)
  {
    var p, p1, p2 := Index(nCols, x, y), Index(nCols, x + dx, y + dy), Index(nCols, x + 2 * dx, y + 2 * dy);
    assert trialBoard[p1] == 'B' && trialBoard[p2] == '0';
    var m1 := trialBoard[p := '0'];
    var m2 := m1[p1 := '@'];
    var m3 := m2[p2 := 'B'];
    assert m1[p1] == 'B' && m2[p2] == '0';
    assert Push(nCols, x, y, dx, dy, trialBoard).value == m3 by {
      IndexShift(nCols, x, y, dx, dy, 1);
      IndexShift(nCols, x, y, dx, dy, 2);
    }
  }
}

/**
 * Board encoding: a board is the row-major string of its cells, one
 * character per cell. '0' is floor, '@' the player, 'B' a box and 'X' a
 * target marker; every other character is an obstacle.
 */
module Boards {

  /**
   * JavaScript `s.charAt(i) === c` for a one-character `c`: `charAt` gives
   * "" outside the string, and "" equals no character.
   */
  predicate CharIs(s: string, i: int, c: char)
  {
    0 <= i < |s| && s[i] == c
  }

  /** Flat index of column `x`, row `y` on a board `nCols` wide. */
  function Index(nCols: int, x: int, y: int): int
  {
    y * nCols + x
  }

  /** The flat index of a displaced cell is the old index plus the flat offset. */
  lemma IndexShift(nCols: int, x: int, y: int, dx: int, dy: int, k: int)
    ensures Index(nCols, x + k * dx, y + k * dy) == Index(nCols, x, y) + k * (dy * nCols + dx)
  {
    calc {
      Index(nCols, x + k * dx, y + k * dy);
      (y + k * dy) * nCols + x + k * dx;
      y * nCols + (k * dy) * nCols + x + k * dx;
      { assert (k * dy) * nCols == k * (dy * nCols); }
      Index(nCols, x, y) + k * (dy * nCols + dx);
    }
  }

  /** The search record `Board` of the source (its unused `sol` is dropped). */
  datatype Board = Board(cur: string, x: int, y: int, level: int)

  /** The parsed puzzle: the fields the `Sokoban` constructor leaves behind. */
  datatype Sokoban = Sokoban(
    destBoard: string,
    currBoard: string,
    player: bool,
    playerX: int,
    playerY: int,
    nCols: int)

  /** Flat index of the player's cell on `b`. */
  function PlayerIndex(nCols: int, b: Board): int
  {
    Index(nCols, b.x, b.y)
  }

  /** The player's cell lies on the board, so move and push write only in range. */
  predicate InRange(nCols: int, b: Board)
  {
    0 <= PlayerIndex(nCols, b) < |b.cur|
  }

  /** A record the explorers may start from: either in range or an empty board. */
  predicate Startable(nCols: int, b: Board)
  {
    |b.cur| == 0 || InRange(nCols, b)
  }

  /** The player marker '@' occurs exactly once, at the player's index. */
  predicate Consistent(nCols: int, b: Board)
  {
    && InRange(nCols, b)
    && b.cur[PlayerIndex(nCols, b)] == '@'
    && forall k :: 0 <= k < |b.cur| && k != PlayerIndex(nCols, b) ==> b.cur[k] != '@'
  }

  /** The record every explorer starts from (level 0). */
  function InitialBoard(s: Sokoban): (b: Board)
    ensures b.cur == s.currBoard && b.level == 0
  {
    Board(s.currBoard, s.playerX, s.playerY, 0)
  }
}

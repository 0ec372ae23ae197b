/**
 * The `Sokoban` constructor: it reads the input lines into the target
 * board, the working board (targets cleared to floor), the player's
 * coordinates and the board width.
 */
module Parser {
  import opened Wrappers
  import opened Boards

  /**
   * One input line. A line without a comma is a grid row; a "row,col" line
   * is given already split and converted to numbers, with `width` its
   * length in characters.
   */
  datatype Line = Row(cells: string) | Coord(width: nat, row: int, col: int)

  /** `line.length`. */
  function Length(line: Line): nat
  {
    match line
    case Row(cells) => |cells|
    case Coord(width, _, _) => width
  }

  /** A coordinate line that the constructor processes (empty lines are skipped). */
  predicate IsCoord(line: Line)
  {
    line.Coord? && Length(line) > 0
  }

  /**
   * `sceneChar = board.split(""); sceneChar[pos] = ch; board = sceneChar.join("")`.
   * A negative index, or one of 2^32 - 1 or more, is not an array index but an
   * ordinary property that `join` ignores; any other index at or past the end
   * grows the array, and its holes join as "".
   */
  function Stamp(board: string, pos: int, ch: char): string
  {
    if pos < 0 then board
    else if pos < |board| then board[pos := ch]
    else if pos < ArrayIndexBound then board + [ch]
    else board
  }

  /** JavaScript array indices are the integers below 2^32 - 1. */
  const ArrayIndexBound: int := 0xFFFF_FFFF

  /** The constructor's state between lines: `board`, `destBoard`, `nCols` and the player fields. */
  datatype Scan = Scan(board: string, destBoard: string, nCols: int, player: bool, playerX: int, playerY: int)

  /** The state before the first line. */
  const Start: Scan := Scan("", "", 0, false, 0, 0)

  /** Where a coordinate line stamps its character. */
  function StampPos(st: Scan, line: Line): int
    requires line.Coord?
  {
    line.row * st.nCols + line.col
  }

  /** One iteration of the constructor's line loop. */
  function ScanLine(st: Scan, line: Line): Scan
  {
    if Length(line) == 0 then st
    else
      var st' :=
        match line
        case Coord(_, row, col) =>
          if !st.player then
            st.(player := true, destBoard := st.board, playerX := col, playerY := row,
                board := Stamp(st.board, StampPos(st, line), '@'))
          else
            st.(board := Stamp(st.board, StampPos(st, line), 'B'))
        case Row(cells) => st.(board := st.board + cells);
      if st'.nCols == 0 then st'.(nCols := Length(line)) else st'
  }

  /** The state after the line loop over `lines`. */
  function ScanAll(lines: seq<Line>): Scan
    decreases |lines|
  {
    if lines == [] then Start else ScanLine(ScanAll(lines[..|lines| - 1]), lines[|lines| - 1])
  }

  /** `board` with every 'X' replaced by '0' and every other character kept. */
  function Cleared(board: string): (r: string)
    ensures |r| == |board|
    ensures forall k :: 0 <= k < |r| ==> r[k] == if board[k] == 'X' then '0' else board[k]
    ensures forall k :: 0 <= k < |r| ==> r[k] != 'X'
    decreases |board|
  {
    if board == [] then ""
    else Cleared(board[..|board| - 1]) + [if board[|board| - 1] == 'X' then '0' else board[|board| - 1]]
  }

  /** The puzzle the constructor builds: the line loop's fields, with the board cleared of targets. */
  ghost function Built(ruta: seq<Line>): Sokoban
  {
    var sc := ScanAll(ruta);
    Sokoban(sc.destBoard, Cleared(sc.board), sc.player, sc.playerX, sc.playerY, sc.nCols)
  }

  /**
   * The constructor `new Sokoban(ruta)`: the line loop, then the loop that
   * copies the board with every 'X' replaced by '0'.
   */
  method Parse(ruta: seq<Line>) returns (game: Sokoban)
    ensures var sc := ScanAll(ruta);
      && game.destBoard == sc.destBoard && game.nCols == sc.nCols
      && game.player == sc.player && game.playerX == sc.playerX && game.playerY == sc.playerY
    ensures |game.currBoard| == |ScanAll(ruta).board|
    ensures forall c :: 0 <= c < |game.currBoard| ==>
      game.currBoard[c] == if ScanAll(ruta).board[c] == 'X' then '0' else ScanAll(ruta).board[c]
    ensures StampsFit(ruta) ==> Startable(game.nCols, InitialBoard(game))
    ensures game == Built(ruta)
  {
    var player, playerX, playerY := false, 0, 0;
    var nCols := 0;
    var destBoard := "";
    var board := "";
    for i := 0 to |ruta|
      invariant Scan(board, destBoard, nCols, player, playerX, playerY) == ScanAll(ruta[..i])
    {
      var line := ruta[i];
      assert ruta[..i + 1][..i] == ruta[..i];
      if Length(line) > 0 {
        match line {
          case Coord(_, row, col) =>
            if !player {
              player := true;
              destBoard := board;
              playerX, playerY := col, row;
              var pos := playerY * nCols + playerX;
              board := Stamp(board, pos, '@');
            } else {
              var pos := row * nCols + col;
              board := Stamp(board, pos, 'B');
            }
          case Row(cells) =>
            board := board + cells;
        }
        if nCols == 0 {
          nCols := Length(line);
        }
      }
    }
    assert ruta[..|ruta|] == ruta;
    var currBoard := "";
    for c := 0 to |board|
      invariant |currBoard| == c
      invariant forall k :: 0 <= k < c ==> currBoard[k] == if board[k] == 'X' then '0' else board[k]
    {
      var ch := board[c];
      var newCharCurr := if ch != 'X' then ch else '0';
      currBoard := currBoard + [newCharCurr];
    }
    game := Sokoban(destBoard, currBoard, player, playerX, playerY, nCols);
    assert currBoard == Cleared(board);
    PlayerPlaced(ruta);
  }

  /** The length of the first non-empty line, or 0 when there is none. */
  function FirstWidth(lines: seq<Line>): nat
    decreases |lines|
  {
    if lines == [] then 0
    else if Length(lines[0]) > 0 then Length(lines[0])
    else FirstWidth(lines[1..])
  }

  /** The grid rows of `lines`, concatenated in order. */
  function Rows(lines: seq<Line>): string
    decreases |lines|
  {
    if lines == [] then ""
    else (if lines[0].Row? then lines[0].cells else "") + Rows(lines[1..])
  }

  /** No coordinate line is processed. */
  ghost predicate NoCoord(lines: seq<Line>)
  {
    forall k :: 0 <= k < |lines| ==> !IsCoord(lines[k])
  }

  /** Line `j` is the first coordinate line that is processed. */
  ghost predicate IsFirstCoord(lines: seq<Line>, j: int)
  {
    0 <= j < |lines| && IsCoord(lines[j]) && NoCoord(lines[..j])
  }

  /** Every coordinate stamp falls on the board built so far. */
  ghost predicate StampsFit(lines: seq<Line>)
  {
    forall i :: 0 <= i < |lines| && IsCoord(lines[i]) ==>
      0 <= StampPos(ScanAll(lines[..i]), lines[i]) < |ScanAll(lines[..i]).board|
  }

  lemma {:induction false} FirstWidthSnoc(lines: seq<Line>, line: Line)
    ensures FirstWidth(lines + [line]) == if FirstWidth(lines) != 0 then FirstWidth(lines) else Length(line)
    decreases |lines|
  {
    if lines == [] {
      assert [line][1..] == [];
    } else {
      assert (lines + [line])[1..] == lines[1..] + [line];
      FirstWidthSnoc(lines[1..], line);
    }
  }

  lemma {:induction false} RowsSnoc(lines: seq<Line>, line: Line)
    ensures Rows(lines + [line]) == Rows(lines) + (if line.Row? then line.cells else "")
    decreases |lines|
  {
    var tail := if line.Row? then line.cells else "";
    if lines == [] {
      assert [line][1..] == [];
      assert Rows([line]) == tail + Rows([]);
    } else {
      var head := if lines[0].Row? then lines[0].cells else "";
      assert (lines + [line])[0] == lines[0];
      assert (lines + [line])[1..] == lines[1..] + [line];
      assert Rows(lines + [line]) == head + Rows(lines[1..] + [line]);
      RowsSnoc(lines[1..], line);
      StringAssoc(head, Rows(lines[1..]), tail);
    }
  }

  lemma StringAssoc(a: string, b: string, c: string)
    ensures a + (b + c) == (a + b) + c
  {
  }

  /** `nCols` is the length of the first non-empty line (0 when every line is empty). */
  lemma {:induction false} WidthIsFirstLine(lines: seq<Line>)
    ensures ScanAll(lines).nCols == FirstWidth(lines)
    decreases |lines|
  {
    if lines != [] {
      var init := lines[..|lines| - 1];
      WidthIsFirstLine(init);
      FirstWidthSnoc(init, lines[|lines| - 1]);
      assert init + [lines[|lines| - 1]] == lines;
    }
  }

  /**
   * Before any coordinate line the board is the grid rows concatenated in
   * order, and the target board and player fields are untouched.
   */
  lemma {:induction false} RowsBeforeCoord(lines: seq<Line>)
    requires NoCoord(lines)
    ensures ScanAll(lines) == Scan(Rows(lines), "", FirstWidth(lines), false, 0, 0)
    decreases |lines|
  {
    if lines != [] {
      var init, last := lines[..|lines| - 1], lines[|lines| - 1];
      assert NoCoord(init);
      RowsBeforeCoord(init);
      FirstWidthSnoc(init, last);
      RowsSnoc(init, last);
      assert init + [last] == lines;
    }
  }

  /** Once the player line is read, the target board and player fields never change. */
  lemma {:induction false} PlayerFieldsStay(lines: seq<Line>, m: nat)
    requires m <= |lines| && ScanAll(lines[..m]).player
    ensures var a, z := ScanAll(lines[..m]), ScanAll(lines);
      z.player && z.destBoard == a.destBoard && z.playerX == a.playerX && z.playerY == a.playerY
    decreases |lines| - m
  {
    if m < |lines| {
      assert lines[..m + 1][..m] == lines[..m];
      PlayerFieldsStay(lines, m + 1);
    } else {
      assert lines[..m] == lines;
    }
  }

  /**
   * The first coordinate line sets the player flag and the player's
   * coordinates (`playerY` = row, `playerX` = col), and the target board is
   * the grid rows read before it; with no coordinate line none of this
   * happens and the target board stays empty.
   */
  lemma PlayerFromFirstCoord(lines: seq<Line>)
    ensures NoCoord(lines) ==>
      var sc := ScanAll(lines);
      !sc.player && sc.destBoard == "" && sc.playerX == 0 && sc.playerY == 0 && sc.board == Rows(lines)
    ensures forall j :: IsFirstCoord(lines, j) ==>
      var sc := ScanAll(lines);
      sc.player && sc.playerX == lines[j].col && sc.playerY == lines[j].row && sc.destBoard == Rows(lines[..j])
  {
    if NoCoord(lines) {
      RowsBeforeCoord(lines);
    }
    forall j | IsFirstCoord(lines, j)
      ensures var sc := ScanAll(lines);
        sc.player && sc.playerX == lines[j].col && sc.playerY == lines[j].row && sc.destBoard == Rows(lines[..j])
    {
      RowsBeforeCoord(lines[..j]);
      assert lines[..j + 1][..j] == lines[..j];
      PlayerFieldsStay(lines, j + 1);
    }
  }

  lemma {:induction false} StampsFitPrefix(lines: seq<Line>, m: nat)
    requires m <= |lines| && StampsFit(lines)
    ensures StampsFit(lines[..m])
  {
    forall i | 0 <= i < m && IsCoord(lines[..m][i])
      ensures 0 <= StampPos(ScanAll(lines[..m][..i]), lines[..m][i]) < |ScanAll(lines[..m][..i]).board|
    {
      assert lines[..m][..i] == lines[..i];
    }
  }

  /** The character a coordinate line stamps: '@' for the player's line, 'B' for every later one. */
  function StampChar(st: Scan): char
  {
    if st.player then 'B' else '@'
  }

  /** A processed coordinate line writes its character at its stamp position; a grid row is appended. */
  lemma LineBoard(st: Scan, line: Line)
    ensures IsCoord(line) && 0 <= StampPos(st, line) < |st.board| ==>
      ScanLine(st, line).board == st.board[StampPos(st, line) := StampChar(st)]
    ensures line.Row? ==> ScanLine(st, line).board == st.board + line.cells
  {
    if line.Row? && Length(line) == 0 {
      assert st.board + line.cells == st.board;
    }
  }

  /**
   * The character of the last processed coordinate line whose stamp hits
   * cell `k`, or None when none does.
   */
  ghost function LastStamp(lines: seq<Line>, k: int): Option<char>
    decreases |lines|
  {
    if lines == [] then None
    else
      var init, last := lines[..|lines| - 1], lines[|lines| - 1];
      if IsCoord(last) && StampPos(ScanAll(init), last) == k then Some(StampChar(ScanAll(init)))
      else LastStamp(init, k)
  }

  /** The board is the grid rows with each stamped cell holding the character last stamped there. */
  ghost predicate BoardFromRows(lines: seq<Line>)
  {
    var board, rows := ScanAll(lines).board, Rows(lines);
    && |board| == |rows|
    && forall k :: 0 <= k < |board| ==>
         board[k] == if LastStamp(lines, k).Some? then LastStamp(lines, k).value else rows[k]
  }

  /** With every stamp on the board, a stamped cell lies on the final board. */
  lemma {:induction false} LastStampInRange(lines: seq<Line>, k: int)
    requires StampsFit(lines) && LastStamp(lines, k).Some?
    ensures 0 <= k < |ScanAll(lines).board|
    decreases |lines|
  {
    var init, last := lines[..|lines| - 1], lines[|lines| - 1];
    StampsFitPrefix(lines, |lines| - 1);
    ScanGrows(lines, |lines| - 1);
    if !(IsCoord(last) && StampPos(ScanAll(init), last) == k) {
      LastStampInRange(init, k);
    }
  }

  /** One more line keeps `BoardFromRows`. */
  lemma BoardFromRowsStep(lines: seq<Line>)
    requires lines != [] && StampsFit(lines) && BoardFromRows(lines[..|lines| - 1])
    ensures BoardFromRows(lines)
  {
    var init, last := lines[..|lines| - 1], lines[|lines| - 1];
    var st := ScanAll(init);
    var board := ScanAll(lines).board;
    assert ScanAll(lines) == ScanLine(st, last);
    assert init + [last] == lines;
    RowsSnoc(init, last);
    StampsFitPrefix(lines, |lines| - 1);
    LineBoard(st, last);
    if IsCoord(last) {
      assert 0 <= StampPos(st, last) < |st.board|;
      assert Rows(lines) == Rows(init) + "";
    } else if last.Row? {
      forall k | |st.board| <= k
        ensures LastStamp(init, k).None?
      {
        if LastStamp(init, k).Some? {
          LastStampInRange(init, k);
        }
      }
      assert forall k :: 0 <= k < |board| ==> board[k] == if k < |st.board| then st.board[k] else last.cells[k - |st.board|];
      assert forall k :: 0 <= k < |board| ==> Rows(lines)[k] == if k < |st.board| then Rows(init)[k] else last.cells[k - |st.board|];
    } else {
      assert board == st.board;
      assert Rows(lines) == Rows(init) + "";
    }
  }

  /**
   * When every stamp falls on the board, the board has the grid rows'
   * length, and each cell holds the character of the last coordinate line
   * stamped there, or the row character when none was.
   */
  lemma {:induction false} BoardIsRowsStamped(lines: seq<Line>)
    requires StampsFit(lines)
    ensures BoardFromRows(lines)
    decreases |lines|
  {
    if lines != [] {
      StampsFitPrefix(lines, |lines| - 1);
      BoardIsRowsStamped(lines[..|lines| - 1]);
      BoardFromRowsStep(lines);
    }
  }

  /** Lines from `m` on that stamp elsewhere leave the last stamp of cell `k` as it was. */
  lemma {:induction false} LastStampOutside(lines: seq<Line>, m: nat, k: int)
    requires m <= |lines|
    requires forall i :: m <= i < |lines| && IsCoord(lines[i]) ==> StampPos(ScanAll(lines[..i]), lines[i]) != k
    ensures LastStamp(lines, k) == LastStamp(lines[..m], k)
    decreases |lines|
  {
    if m < |lines| {
      var init := lines[..|lines| - 1];
      forall i | m <= i < |init| && IsCoord(init[i])
        ensures StampPos(ScanAll(init[..i]), init[i]) != k
      {
        assert init[i] == lines[i] && init[..i] == lines[..i];
      }
      LastStampOutside(init, m, k);
      assert init[..m] == lines[..m];
    } else {
      assert lines[..m] == lines;
    }
  }

  /** Once the player is placed, a cell whose last stamp is 'B' keeps it. */
  lemma {:induction false} LastStampStaysBox(lines: seq<Line>, m: nat, k: int)
    requires m <= |lines| && ScanAll(lines[..m]).player && LastStamp(lines[..m], k) == Some('B')
    ensures LastStamp(lines, k) == Some('B')
    decreases |lines|
  {
    if m < |lines| {
      var init := lines[..|lines| - 1];
      assert init[..m] == lines[..m];
      LastStampStaysBox(init, m, k);
      PlayerFieldsStay(init, m);
    } else {
      assert lines[..m] == lines;
    }
  }

  /** A cell that no coordinate line stamps holds the grid rows' character. */
  lemma UnstampedCellIsRow(lines: seq<Line>, k: int)
    requires StampsFit(lines) && 0 <= k < |ScanAll(lines).board|
    requires forall i :: 0 <= i < |lines| && IsCoord(lines[i]) ==> StampPos(ScanAll(lines[..i]), lines[i]) != k
    ensures k < |Rows(lines)| && ScanAll(lines).board[k] == Rows(lines)[k]
  {
    LastStampOutside(lines, 0, k);
    assert lines[..0] == [];
    BoardIsRowsStamped(lines);
  }

  /** Every coordinate line after the player's leaves a 'B' at its stamp position. */
  lemma BoxStampHoldsBox(lines: seq<Line>, i: nat)
    requires StampsFit(lines) && i < |lines| && IsCoord(lines[i]) && ScanAll(lines[..i]).player
    ensures var p := StampPos(ScanAll(lines[..i]), lines[i]);
      0 <= p < |ScanAll(lines).board| && ScanAll(lines).board[p] == 'B'
  {
    var p := StampPos(ScanAll(lines[..i]), lines[i]);
    assert lines[..i + 1][..i] == lines[..i];
    assert LastStamp(lines[..i + 1], p) == Some('B');
    PlayerFieldsStay(lines[..i + 1], i);
    assert lines[..i + 1][..i + 1] == lines[..i + 1];
    LastStampStaysBox(lines, i + 1, p);
    LastStampInRange(lines, p);
    BoardIsRowsStamped(lines);
  }

  /**
   * The player's line leaves '@' at its stamp position (`playerY * nCols +
   * playerX` with the width known then) unless a later coordinate line
   * stamps the same cell.
   */
  lemma PlayerStampHoldsPlayer(lines: seq<Line>, j: nat)
    requires StampsFit(lines) && IsFirstCoord(lines, j)
    requires forall i :: j < i < |lines| && IsCoord(lines[i]) ==>
      StampPos(ScanAll(lines[..i]), lines[i]) != StampPos(ScanAll(lines[..j]), lines[j])
    ensures var p := StampPos(ScanAll(lines[..j]), lines[j]);
      && p == ScanAll(lines).playerY * ScanAll(lines[..j]).nCols + ScanAll(lines).playerX
      && 0 <= p < |ScanAll(lines).board| && ScanAll(lines).board[p] == '@'
  {
    var p := StampPos(ScanAll(lines[..j]), lines[j]);
    RowsBeforeCoord(lines[..j]);
    PlayerFromFirstCoord(lines);
    assert lines[..j + 1][..j] == lines[..j];
    assert LastStamp(lines[..j + 1], p) == Some('@');
    LastStampOutside(lines, j + 1, p);
    LastStampInRange(lines, p);
    BoardIsRowsStamped(lines);
  }

  /** The constructor's board never gets shorter, and a non-zero width never changes. */
  lemma {:induction false} ScanGrows(lines: seq<Line>, m: nat)
    requires m <= |lines|
    ensures |ScanAll(lines[..m]).board| <= |ScanAll(lines).board|
    ensures ScanAll(lines[..m]).nCols != 0 ==> ScanAll(lines).nCols == ScanAll(lines[..m]).nCols
    decreases |lines| - m
  {
    if m < |lines| {
      assert lines[..m + 1][..m] == lines[..m];
      ScanGrows(lines, m + 1);
    } else {
      assert lines[..m] == lines;
    }
  }

  lemma {:induction false} EmptyRowsHaveNoWidth(lines: seq<Line>)
    requires FirstWidth(lines) == 0
    ensures Rows(lines) == ""
    decreases |lines|
  {
    if lines != [] {
      EmptyRowsHaveNoWidth(lines[1..]);
    }
  }

  /**
   * When every stamp falls on the board, the player's index (with the final
   * width) lies on the board, or the board is empty.
   */
  lemma PlayerPlaced(lines: seq<Line>)
    ensures var sc := ScanAll(lines);
      StampsFit(lines) ==> |sc.board| == 0 || 0 <= sc.playerY * sc.nCols + sc.playerX < |sc.board|
  {
    if StampsFit(lines) {
      if NoCoord(lines) {
        RowsBeforeCoord(lines);
      } else {
        assert lines[..|lines|] == lines;
        var j := FirstCoordOf(lines, |lines|);
        PlayerPlacedAt(lines, j);
      }
    }
  }

  lemma PlayerPlacedAt(lines: seq<Line>, j: int)
    requires StampsFit(lines) && IsFirstCoord(lines, j)
    ensures var sc := ScanAll(lines); 0 <= sc.playerY * sc.nCols + sc.playerX < |sc.board|
  {
    PlayerFromFirstCoord(lines);
    var pre := ScanAll(lines[..j]);
    assert 0 <= StampPos(pre, lines[j]) < |pre.board|;
    RowsBeforeCoord(lines[..j]);
    if pre.nCols == 0 {
      EmptyRowsHaveNoWidth(lines[..j]);
    }
    ScanGrows(lines, j);
  }

  /** The first processed coordinate line among the first `n`. */
  lemma {:induction false} FirstCoordOf(lines: seq<Line>, n: nat) returns (j: int)
    requires n <= |lines| && !NoCoord(lines[..n])
    ensures IsFirstCoord(lines, j) && j < n
    decreases n
  {
    if NoCoord(lines[..n - 1]) {
      j := n - 1;
      assert lines[..n][j] == lines[j];
    } else {
      j := FirstCoordOf(lines, n - 1);
    }
  }

  /** The player flag is set exactly when some coordinate line has been processed. */
  lemma {:induction false} PlayerIffCoord(lines: seq<Line>)
    ensures ScanAll(lines).player <==> !NoCoord(lines)
    decreases |lines|
  {
    if lines != [] {
      var init, last := lines[..|lines| - 1], lines[|lines| - 1];
      PlayerIffCoord(init);
      if !NoCoord(init) {
        var k :| 0 <= k < |init| && IsCoord(init[k]);
        assert lines[k] == init[k];
      }
      if !NoCoord(lines) && !IsCoord(last) {
        var k :| 0 <= k < |lines| && IsCoord(lines[k]);
        assert init[k] == lines[k];
      }
    }
  }

  /** Without a coordinate line nothing is stamped. */
  lemma {:induction false} NoCoordNoStamp(lines: seq<Line>, k: int)
    requires NoCoord(lines)
    ensures LastStamp(lines, k).None?
    decreases |lines|
  {
    if lines != [] {
      var init := lines[..|lines| - 1];
      assert forall i :: 0 <= i < |init| ==> init[i] == lines[i];
      NoCoordNoStamp(init, k);
    }
  }

  /** Only the player's line stamps '@'. */
  lemma {:induction false} AtStampIsPlayer(lines: seq<Line>, j: int, k: int)
    requires IsFirstCoord(lines, j) && LastStamp(lines, k) == Some('@')
    ensures k == StampPos(ScanAll(lines[..j]), lines[j])
    decreases |lines|
  {
    var init, last := lines[..|lines| - 1], lines[|lines| - 1];
    if IsCoord(last) && StampPos(ScanAll(init), last) == k {
      PlayerIffCoord(init);
      assert init == lines[..j];
    } else if j < |init| {
      assert init[..j] == lines[..j] && init[j] == lines[j];
      AtStampIsPlayer(init, j, k);
    } else {
      assert init == lines[..j];
      NoCoordNoStamp(init, k);
    }
  }

  /**
   * The constructor's start is consistent (one '@', at the player's index)
   * when every stamp lands on the board, the grid rows hold no '@', and no
   * coordinate line after the player's stamps the player's cell.
   */
  lemma ParsedConsistent(lines: seq<Line>, j: int)
    requires StampsFit(lines) && IsFirstCoord(lines, j)
    requires forall k :: 0 <= k < |Rows(lines)| ==> Rows(lines)[k] != '@'
    requires forall i :: j < i < |lines| && IsCoord(lines[i]) ==>
      StampPos(ScanAll(lines[..i]), lines[i]) != StampPos(ScanAll(lines[..j]), lines[j])
    ensures Consistent(Built(lines).nCols, InitialBoard(Built(lines)))
  {
    var sc := ScanAll(lines);
    var p := StampPos(ScanAll(lines[..j]), lines[j]);
    PlayerStampHoldsPlayer(lines, j);
    PlayerPlacedAt(lines, j);
    RowsBeforeCoord(lines[..j]);
    if ScanAll(lines[..j]).nCols == 0 {
      EmptyRowsHaveNoWidth(lines[..j]);
    }
    ScanGrows(lines, j);
    assert sc.playerY * sc.nCols + sc.playerX == p;
    BoardIsRowsStamped(lines);
    forall k | 0 <= k < |sc.board| && k != p
      ensures sc.board[k] != '@'
    {
      if LastStamp(lines, k) == Some('@') {
        AtStampIsPlayer(lines, j, k);
      }
    }
  }
}

/**
 * What the three explorers share: the direction table of `solve`, one
 * expansion step exactly as the explorers' loop bodies do it, and the
 * replay of a label path from a start record.
 */
module Search {
  import opened Wrappers
  import opened Boards
  import opened Moves

  /** `dirs` as `solve` builds it: Up, Down, Left, Right as (dx, dy). */
  const Dirs: seq<(int, int)> := [(0, -1), (0, 1), (-1, 0), (1, 0)]

  /** `dirLabels`: the label for a move (first) and for a push (second). */
  const DirLabels: seq<(char, char)> := [('U', 'U'), ('D', 'D'), ('L', 'L'), ('R', 'R')]

  /**
   * One iteration of the explorers' direction loop for direction `i`:
   * push when the adjacent cell holds a box not backed by another box, move
   * when it holds no box, nothing otherwise. Gives the child record (player
   * moved, level + 1) and the label appended to the path. `ExpandFlat`
   * states when it succeeds and which board it gives.
   */
  function Expand(s: Sokoban, b: Board, i: nat): (r: Option<(Board, char)>)
    requires i < 4 && InRange(s.nCols, b)
    ensures r.Some? ==> r.value.0.level == b.level + 1 && |r.value.0.cur| == |b.cur|
    ensures r.Some? ==> r.value.0.x == b.x + Dirs[i].0 && r.value.0.y == b.y + Dirs[i].1
    ensures r.Some? ==> r.value.1 == DirLabels[i].0 && InRange(s.nCols, r.value.0)
  {
    var (dx, dy) := Dirs[i];
    var newX, newY := b.x + dx, b.y + dy;
    var isBox := CharIs(b.cur, newY * s.nCols + newX, 'B');
    if isBox && !CharIs(b.cur, (b.y + 2 * dy) * s.nCols + b.x + 2 * dx, 'B') then
      match Push(s.nCols, b.x, b.y, dx, dy, b.cur)
      case None => None
      case Some(t) => Some((Board(t, newX, newY, b.level + 1), DirLabels[i].1))
    else if !isBox then
      match Move(s.nCols, b.x, b.y, dx, dy, b.cur)
      case None => None
      case Some(t) => Some((Board(t, newX, newY, b.level + 1), DirLabels[i].0))
    else
      None
  }

  /** `move` in flat indices: `p` the player's cell, `d` the flat offset of the step. */
  lemma MoveAt(n: int, x: int, y: int, dx: int, dy: int, cur: string)
    requires 0 <= Index(n, x, y) < |cur|
    ensures var p, d := Index(n, x, y), dy * n + dx;
      Move(n, x, y, dx, dy, cur) == if !CharIs(cur, p + d, '0') then None else Some(cur[p := '0'][p + d := '@'])
  {
    IndexShift(n, x, y, dx, dy, 1);
  }

  /** `push` in flat indices. */
  lemma PushAt(n: int, x: int, y: int, dx: int, dy: int, cur: string)
    requires 0 <= Index(n, x, y) < |cur|
    ensures var p, d := Index(n, x, y), dy * n + dx;
      Push(n, x, y, dx, dy, cur) == if !CharIs(cur, p + 2 * d, '0') then None else Some(cur[p := '0'][p + d := '@'][p + 2 * d := 'B'])
  {
    IndexShift(n, x, y, dx, dy, 1);
    IndexShift(n, x, y, dx, dy, 2);
  }

  /**
   * `Expand` in flat indices, with `p` the player's cell and `d` the
   * direction's offset: it succeeds exactly when cell `p + d` is floor, or
   * holds a box with floor at `p + 2d`. A push leaves '0' at `p`, '@' at
   * `p + d` and 'B' at `p + 2d`; a move leaves '0' at `p` and '@' at `p + d`;
   * the child's player stands at `p + d`.
   */
  lemma ExpandFlat(s: Sokoban, b: Board, i: nat)
    requires i < 4 && InRange(s.nCols, b)
    ensures var p, d := PlayerIndex(s.nCols, b), Dirs[i].1 * s.nCols + Dirs[i].0;
      Expand(s, b, i).Some? <==> CharIs(b.cur, p + d, '0') || (CharIs(b.cur, p + d, 'B') && CharIs(b.cur, p + 2 * d, '0'))
    ensures var p, d := PlayerIndex(s.nCols, b), Dirs[i].1 * s.nCols + Dirs[i].0;
      Expand(s, b, i).Some? ==>
        && PlayerIndex(s.nCols, Expand(s, b, i).value.0) == p + d
        && Expand(s, b, i).value.0.cur == if CharIs(b.cur, p + d, 'B') then b.cur[p := '0'][p + d := '@'][p + 2 * d := 'B']
                                          else b.cur[p := '0'][p + d := '@']
  {
    var (dx, dy) := Dirs[i];
    IndexShift(s.nCols, b.x, b.y, dx, dy, 1);
    IndexShift(s.nCols, b.x, b.y, dx, dy, 2);
    MoveAt(s.nCols, b.x, b.y, dx, dy, b.cur);
    PushAt(s.nCols, b.x, b.y, dx, dy, b.cur);
  }

  /** Records with the same board and the same player index expand to the same child boards. */
  lemma ExpandByIndex(s: Sokoban, a: Board, b: Board, i: nat)
    requires i < 4 && InRange(s.nCols, a) && a.cur == b.cur && PlayerIndex(s.nCols, a) == PlayerIndex(s.nCols, b)
    ensures Expand(s, a, i).Some? == Expand(s, b, i).Some?
    ensures Expand(s, a, i).Some? ==> Expand(s, a, i).value.0.cur == Expand(s, b, i).value.0.cur
  {
    ExpandFlat(s, a, i);
    ExpandFlat(s, b, i);
  }

  /** Expansion keeps '@' unique at the player's index and keeps every character count. */
  lemma ExpandKeepsConsistent(s: Sokoban, b: Board, i: nat)
    requires i < 4 && Consistent(s.nCols, b) && Expand(s, b, i).Some?
    ensures Consistent(s.nCols, Expand(s, b, i).value.0)
    ensures multiset(Expand(s, b, i).value.0.cur) == multiset(b.cur)
  {
    var (dx, dy) := Dirs[i];
    var n := s.nCols;
    var c := Expand(s, b, i).value.0;
    var p, p1, p2 := PlayerIndex(n, b), Index(n, b.x + dx, b.y + dy), Index(n, b.x + 2 * dx, b.y + 2 * dy);
    assert PlayerIndex(n, c) == p1;
    if CharIs(b.cur, p1, 'B') {
      assert Push(n, b.x, b.y, dx, dy, b.cur) == Some(c.cur);
      PushPermutes(n, b.x, b.y, dx, dy, b.cur);
      assert b.cur[p1] == 'B' && b.cur[p2] == '0';
    } else {
      assert Move(n, b.x, b.y, dx, dy, b.cur) == Some(c.cur);
      MovePermutes(n, b.x, b.y, dx, dy, b.cur);
      assert b.cur[p1] == '0';
    }
  }

  /** Expansion with a totality guard, for use where the record may be off the board. */
  function Succ(s: Sokoban, b: Board, i: nat): Option<Board>
  {
    if i < 4 && InRange(s.nCols, b) then
      match Expand(s, b, i)
      case None => None
      case Some(e) => Some(e.0)
    else None
  }

  /** The direction a label stands for. */
  function LabelDir(c: char): (r: Option<nat>)
    ensures r.Some? ==> r.value < 4 && DirLabels[r.value].0 == c && DirLabels[r.value].1 == c
    ensures r.None? <==> forall i :: 0 <= i < 4 ==> DirLabels[i].0 != c
  {
    if c == 'U' then Some(0) else if c == 'D' then Some(1)
    else if c == 'L' then Some(2) else if c == 'R' then Some(3) else None
  }

  /** Replaying `path` from `start` with the explorers' expansion rule. */
  ghost function Replay(s: Sokoban, start: Board, path: seq<char>): Option<Board>
    decreases |path|
  {
    if path == [] then Some(start)
    else
      match Replay(s, start, path[..|path| - 1])
      case None => None
      case Some(b) =>
        match LabelDir(path[|path| - 1])
        case None => None
        case Some(i) => Succ(s, b, i)
  }

  /** One more expansion step extends a replayed path by its label. */
  lemma ReplayStep(s: Sokoban, start: Board, path: seq<char>, b: Board, i: nat)
    requires i < 4 && InRange(s.nCols, b) && Replay(s, start, path) == Some(b)
    requires Expand(s, b, i).Some?
    ensures Replay(s, start, path + [Expand(s, b, i).value.1]) == Some(Expand(s, b, i).value.0)
  {
    var e := Expand(s, b, i).value;
    var p' := path + [e.1];
    assert p'[..|p'| - 1] == path;
    assert LabelDir(e.1) == Some(i);
  }

  /** A replayed record is `|path|` levels below the start and keeps its board length. */
  lemma {:induction false} ReplayLevel(s: Sokoban, start: Board, path: seq<char>)
    requires Replay(s, start, path).Some?
    ensures Replay(s, start, path).value.level == start.level + |path|
    ensures |Replay(s, start, path).value.cur| == |start.cur|
    ensures path != [] ==> InRange(s.nCols, Replay(s, start, path).value)
  {
    if path != [] {
      ReplayLevel(s, start, path[..|path| - 1]);
    }
  }

  /**
   * From a consistent start, every replayed record is consistent and holds
   * the start's characters in the same numbers: as many boxes, one player.
   */
  lemma {:induction false} ReplayConsistent(s: Sokoban, start: Board, path: seq<char>)
    requires Consistent(s.nCols, start) && Replay(s, start, path).Some?
    ensures Consistent(s.nCols, Replay(s, start, path).value)
    ensures multiset(Replay(s, start, path).value.cur) == multiset(start.cur)
  {
    if path != [] {
      var pre := path[..|path| - 1];
      ReplayConsistent(s, start, pre);
      var b := Replay(s, start, pre).value;
      var i := LabelDir(path[|path| - 1]).value;
      ExpandKeepsConsistent(s, b, i);
    }
  }

  /**
   * A '@' of the start record away from its player's cell. No step writes
   * '@' onto such a cell or clears it, so it stays on every replayed board.
   */
  predicate Stale(n: int, start: Board, k: int)
  {
    k != PlayerIndex(n, start) && CharIs(start.cur, k, '@')
  }

  /**
   * Away from its player's cell, `b` holds '@' exactly at the stale cells of
   * `start`, and its player's cell is not one of them.
   */
  predicate AtCells(n: int, start: Board, b: Board)
  {
    && InRange(n, b) && |b.cur| == |start.cur|
    && !Stale(n, start, PlayerIndex(n, b))
    && forall k :: 0 <= k < |b.cur| && k != PlayerIndex(n, b) ==> (b.cur[k] == '@' <==> Stale(n, start, k))
  }

  /** One successful expansion keeps the stale cells and puts '@' on the new player cell. */
  lemma StepAtCells(s: Sokoban, start: Board, b: Board, i: nat)
    requires i < 4 && AtCells(s.nCols, start, b) && Expand(s, b, i).Some?
    ensures var c := Expand(s, b, i).value.0;
      AtCells(s.nCols, start, c) && c.cur[PlayerIndex(s.nCols, c)] == '@'
  {
    var n := s.nCols;
    var c := Expand(s, b, i).value.0;
    var p, d := PlayerIndex(n, b), Dirs[i].1 * n + Dirs[i].0;
    ExpandFlat(s, b, i);
    assert PlayerIndex(n, c) == p + d;
    assert b.cur[p + d] != '@';
    if CharIs(b.cur, p + d, 'B') {
      assert b.cur[p + 2 * d] == '0' && d != 0;
      assert !Stale(n, start, p + 2 * d);
    }
    forall k | 0 <= k < |c.cur| && k != p + d
      ensures c.cur[k] == '@' <==> Stale(n, start, k)
    {
    }
  }

  /** Every record reached by at least one step has the '@' cells `AtCells` describes, plus '@' on its player cell. */
  lemma {:induction false} ReachedAtCells(s: Sokoban, start: Board, path: seq<char>)
    requires path != [] && Replay(s, start, path).Some?
    ensures var r := Replay(s, start, path).value;
      AtCells(s.nCols, start, r) && r.cur[PlayerIndex(s.nCols, r)] == '@'
  {
    var pre := path[..|path| - 1];
    var b := Replay(s, start, pre).value;
    var i := LabelDir(path[|path| - 1]).value;
    assert Succ(s, b, i).Some?;
    if pre != [] {
      ReachedAtCells(s, start, pre);
    }
    StepAtCells(s, start, b, i);
  }

  /**
   * Whatever the start, two records replayed from it with the same board
   * string have the player at the same index: the board string alone
   * decides where the player stands.
   */
  lemma SameBoardSameIndex(s: Sokoban, start: Board, p1: seq<char>, p2: seq<char>)
    requires Replay(s, start, p1).Some? && Replay(s, start, p2).Some?
    requires Replay(s, start, p1).value.cur == Replay(s, start, p2).value.cur
    ensures PlayerIndex(s.nCols, Replay(s, start, p1).value) == PlayerIndex(s.nCols, Replay(s, start, p2).value)
  {
    var a, b := Replay(s, start, p1).value, Replay(s, start, p2).value;
    var n := s.nCols;
    if p1 != [] && p2 != [] {
      ReachedAtCells(s, start, p1);
      ReachedAtCells(s, start, p2);
      assert b.cur[PlayerIndex(n, a)] == '@';
    } else if p1 != [] {
      ReachedAtCells(s, start, p1);
      assert start.cur[PlayerIndex(n, a)] == '@';
    } else if p2 != [] {
      ReachedAtCells(s, start, p2);
      assert start.cur[PlayerIndex(n, b)] == '@';
    }
  }

  /**
   * Two records replayed from the same start with the same board string
   * expand alike: the same directions succeed, with the same child board
   * strings. This justifies keying the visited set on the board string.
   */
  lemma ExpandBySameBoard(s: Sokoban, start: Board, p1: seq<char>, p2: seq<char>, i: nat)
    requires Replay(s, start, p1).Some? && Replay(s, start, p2).Some?
    requires Replay(s, start, p1).value.cur == Replay(s, start, p2).value.cur
    ensures var a, b := Replay(s, start, p1).value, Replay(s, start, p2).value;
      Succ(s, a, i).Some? == Succ(s, b, i).Some? && (Succ(s, a, i).Some? ==> Succ(s, a, i).value.cur == Succ(s, b, i).value.cur)
  {
    SameBoardSameIndex(s, start, p1, p2);
    var a, b := Replay(s, start, p1).value, Replay(s, start, p2).value;
    if i < 4 && InRange(s.nCols, a) {
      ExpandByIndex(s, a, b, i);
    }
  }
}

/**
 * The depth-first explorers: `dfs`/`algDepth` (cut off below level 64)
 * and `dls`/`algIterativeDepth` (cut off below `limit`, the limit raised
 * from 10 to `maxLevel`). One `visited` set is shared by every branch of
 * an invocation: it is threaded through the calls, in and out.
 */
module DepthFirst {
  import opened Wrappers
  import opened Boards
  import opened Goal
  import opened Search

  /** The `{ depth, path }` object an explorer returns on success. */
  datatype Solution = Solution(depth: int, path: seq<char>)

  /**
   * What one invocation leaves behind: its answer, the visited set after
   * it, and (for the proofs) the boards it marked visited, in order.
   */
  datatype Outcome = Outcome(result: Option<Solution>, visited: set<string>, expanded: seq<string>)

  /** `path` from the initial record reaches a board that passes the goal test. */
  ghost predicate Solves(s: Sokoban, path: seq<char>)
  {
    Replay(s, InitialBoard(s), path).Some? && IsSolved(s.destBoard, Replay(s, InitialBoard(s), path).value.cur)
  }

  /**
   * Reference definition of `dls(boardObj, visited, ..., path, limit)`:
   * refuse a visited board or one deeper than `limit`; otherwise mark it
   * visited, answer if it is solved, else try the four directions in order.
   */
  ghost function Explore(s: Sokoban, b: Board, visited: set<string>, path: seq<char>, limit: int): Outcome
    requires Startable(s.nCols, b)
    decreases limit + 1 - b.level, 5
  {
    if b.cur in visited || b.level > limit then Outcome(None, visited, [])
    else
      var v := visited + {b.cur};
      if IsSolved(s.destBoard, b.cur) then Outcome(Some(Solution(b.level, path)), v, [b.cur])
      else
        var o := ExploreDirs(s, b, v, path, limit, 0);
        o.(expanded := [b.cur] + o.expanded)
  }

  /**
   * The direction loop from direction `i` on: the first child whose
   * subtree answers is the answer; the visited set flows from each child
   * to the next.
   */
  ghost function ExploreDirs(s: Sokoban, b: Board, visited: set<string>, path: seq<char>, limit: int, i: nat): Outcome
    requires i <= 4 && InRange(s.nCols, b) && b.level <= limit
    decreases limit + 1 - b.level, 4 - i
  {
    if i == 4 then Outcome(None, visited, [])
    else
      match Expand(s, b, i)
      case None => ExploreDirs(s, b, visited, path, limit, i + 1)
      case Some(step) =>
        var (child, letter) := step;
        var sub := Explore(s, child, visited, path + [letter], limit);
        if sub.result.Some? then sub
        else
          var rest := ExploreDirs(s, b, sub.visited, path, limit, i + 1);
          rest.(expanded := sub.expanded + rest.expanded)
  }

  /** Elements of a sequence of boards, as a set. */
  ghost function Elems(e: seq<string>): set<string>
  {
    set x | x in e
  }

  /** All boards of `e` differ. */
  ghost predicate Distinct(e: seq<string>)
  {
    forall j, k :: 0 <= j < k < |e| ==> e[j] != e[k]
  }

  /**
   * The visited set only grows, by exactly the boards marked during the
   * invocation; each of them was unvisited before and is marked once.
   */
  lemma {:induction false} ExploreMarksOnce(s: Sokoban, b: Board, visited: set<string>, path: seq<char>, limit: int)
    requires Startable(s.nCols, b)
    ensures var o := Explore(s, b, visited, path, limit);
      && o.visited == visited + Elems(o.expanded)
      && Distinct(o.expanded)
      && (forall k :: 0 <= k < |o.expanded| ==> o.expanded[k] !in visited)
    decreases limit + 1 - b.level, 5
  {
    if b.cur !in visited && b.level <= limit && !IsSolved(s.destBoard, b.cur) {
      var v := visited + {b.cur};
      ExploreDirsMarksOnce(s, b, v, path, limit, 0);
      var o := ExploreDirs(s, b, v, path, limit, 0);
      assert Elems([b.cur] + o.expanded) == {b.cur} + Elems(o.expanded);
    } else if b.cur !in visited && b.level <= limit {
      assert Elems([b.cur]) == {b.cur};
    }
  }

  /** Joining two runs of distinct marks, the second avoiding a set that holds the first. */
  lemma DistinctJoin(a: seq<string>, c: seq<string>, v: set<string>)
    requires Distinct(a) && Distinct(c) && Elems(a) <= v && (forall k :: 0 <= k < |c| ==> c[k] !in v)
    ensures Distinct(a + c) && Elems(a + c) == Elems(a) + Elems(c)
  {
    var e := a + c;
    forall j, k | 0 <= j < k < |e| ensures e[j] != e[k] {
      if j < |a| <= k {
        assert e[j] in Elems(a);
        assert e[k] == c[k - |a|];
      }
    }
  }

  lemma {:induction false} ExploreDirsMarksOnce(s: Sokoban, b: Board, visited: set<string>, path: seq<char>, limit: int, i: nat)
    requires i <= 4 && InRange(s.nCols, b) && b.level <= limit
    ensures var o := ExploreDirs(s, b, visited, path, limit, i);
      && o.visited == visited + Elems(o.expanded)
      && Distinct(o.expanded)
      && (forall k :: 0 <= k < |o.expanded| ==> o.expanded[k] !in visited)
    decreases limit + 1 - b.level, 4 - i
  {
    if i < 4 {
      match Expand(s, b, i)
      case None => ExploreDirsMarksOnce(s, b, visited, path, limit, i + 1);
      case Some(step) =>
        var (child, letter) := step;
        ExploreMarksOnce(s, child, visited, path + [letter], limit);
        var sub := Explore(s, child, visited, path + [letter], limit);
        if sub.result.None? {
          ExploreDirsMarksOnce(s, b, sub.visited, path, limit, i + 1);
          var rest := ExploreDirs(s, b, sub.visited, path, limit, i + 1);
          DistinctJoin(sub.expanded, rest.expanded, sub.visited);
        }
    }
  }

  /** Board `x` is reached from `start` by some path, at a level of at most `limit`. */
  ghost predicate ReachedAt(s: Sokoban, start: Board, x: string, limit: int)
  {
    exists p :: Replay(s, start, p).Some? && Replay(s, start, p).value.cur == x && Replay(s, start, p).value.level <= limit
  }

  /** Every board of `e` is reached from `start` at a level of at most `limit`. */
  ghost predicate ReachedWithin(s: Sokoban, start: Board, e: seq<string>, limit: int)
  {
    forall k :: 0 <= k < |e| ==> ReachedAt(s, start, e[k], limit)
  }

  lemma ReachedWithinAppend(s: Sokoban, start: Board, a: seq<string>, c: seq<string>, limit: int)
    requires ReachedWithin(s, start, a, limit) && ReachedWithin(s, start, c, limit)
    ensures ReachedWithin(s, start, a + c, limit)
  {
    forall k | 0 <= k < |a + c|
      ensures ReachedAt(s, start, (a + c)[k], limit)
    {
      if k < |a| {
        assert (a + c)[k] == a[k];
      } else {
        assert (a + c)[k] == c[k - |a|];
      }
    }
  }

  /**
   * Only boards within the depth limit are marked visited: a board refused
   * for being deeper than `limit` (or already visited) leaves the visited
   * set as it was, and every board marked is reached from `start` at a
   * level of at most `limit`.
   */
  lemma {:induction false} ExploreMarksWithin(s: Sokoban, start: Board, b: Board, visited: set<string>, path: seq<char>, limit: int)
    requires Startable(s.nCols, b) && Replay(s, start, path) == Some(b)
    ensures var o := Explore(s, b, visited, path, limit);
      && ReachedWithin(s, start, o.expanded, limit)
      && (b.cur in visited || b.level > limit ==> o.visited == visited && o.expanded == [])
    decreases limit + 1 - b.level, 5
  {
    if b.cur !in visited && b.level <= limit {
      var o := Explore(s, b, visited, path, limit);
      assert ReachedAt(s, start, [b.cur][0], limit) by {
        assert Replay(s, start, path).value.cur == [b.cur][0];
      }
      if !IsSolved(s.destBoard, b.cur) {
        ExploreDirsMarksWithin(s, start, b, visited + {b.cur}, path, limit, 0);
        ReachedWithinAppend(s, start, [b.cur], ExploreDirs(s, b, visited + {b.cur}, path, limit, 0).expanded, limit);
      }
    }
  }

  lemma {:induction false} ExploreDirsMarksWithin(s: Sokoban, start: Board, b: Board, visited: set<string>, path: seq<char>, limit: int, i: nat)
    requires i <= 4 && InRange(s.nCols, b) && b.level <= limit && Replay(s, start, path) == Some(b)
    ensures ReachedWithin(s, start, ExploreDirs(s, b, visited, path, limit, i).expanded, limit)
    decreases limit + 1 - b.level, 4 - i
  {
    if i < 4 {
      match Expand(s, b, i)
      case None => ExploreDirsMarksWithin(s, start, b, visited, path, limit, i + 1);
      case Some(step) =>
        var (child, letter) := step;
        ReplayStep(s, start, path, b, i);
        ExploreMarksWithin(s, start, child, visited, path + [letter], limit);
        var sub := Explore(s, child, visited, path + [letter], limit);
        if sub.result.None? {
          ExploreDirsMarksWithin(s, start, b, sub.visited, path, limit, i + 1);
          ReachedWithinAppend(s, start, sub.expanded, ExploreDirs(s, b, sub.visited, path, limit, i + 1).expanded, limit);
        }
    }
  }

  /**
   * Soundness: an answer has depth equal to its level, at most `limit`;
   * its path extends `path`, and replaying it from `start` reaches a board
   * that passes the goal test at that level.
   */
  lemma {:induction false} ExploreSound(s: Sokoban, start: Board, b: Board, visited: set<string>, path: seq<char>, limit: int)
    requires Startable(s.nCols, b) && Replay(s, start, path) == Some(b)
    ensures var o := Explore(s, b, visited, path, limit);
      o.result.Some? ==>
        && o.result.value.depth <= limit
        && path <= o.result.value.path
        && Replay(s, start, o.result.value.path).Some?
        && Replay(s, start, o.result.value.path).value.level == o.result.value.depth
        && IsSolved(s.destBoard, Replay(s, start, o.result.value.path).value.cur)
    decreases limit + 1 - b.level, 5
  {
    if b.cur !in visited && b.level <= limit && !IsSolved(s.destBoard, b.cur) {
      ExploreDirsSound(s, start, b, visited + {b.cur}, path, limit, 0);
    }
  }

  lemma {:induction false} ExploreDirsSound(s: Sokoban, start: Board, b: Board, visited: set<string>, path: seq<char>, limit: int, i: nat)
    requires i <= 4 && InRange(s.nCols, b) && b.level <= limit && Replay(s, start, path) == Some(b)
    ensures var o := ExploreDirs(s, b, visited, path, limit, i);
      o.result.Some? ==>
        && o.result.value.depth <= limit
        && path <= o.result.value.path
        && Replay(s, start, o.result.value.path).Some?
        && Replay(s, start, o.result.value.path).value.level == o.result.value.depth
        && IsSolved(s.destBoard, Replay(s, start, o.result.value.path).value.cur)
    decreases limit + 1 - b.level, 4 - i
  {
    if i < 4 {
      match Expand(s, b, i)
      case None => ExploreDirsSound(s, start, b, visited, path, limit, i + 1);
      case Some(step) =>
        var (child, letter) := step;
        ReplayStep(s, start, path, b, i);
        ExploreSound(s, start, child, visited, path + [letter], limit);
        var sub := Explore(s, child, visited, path + [letter], limit);
        if sub.result.None? {
          ExploreDirsSound(s, start, b, sub.visited, path, limit, i + 1);
        }
    }
  }

  /**
   * `dls(boardObj, visited, dirs, dirLabels, path, limit)`. The shared
   * `visited` set comes in as `visited` and leaves as `visited'`.
   */
  method Dls(s: Sokoban, boardObj: Board, visited: set<string>, path: seq<char>, limit: int)
    returns (result: Option<Solution>, visited': set<string>)
    requires Startable(s.nCols, boardObj)
    ensures result == Explore(s, boardObj, visited, path, limit).result
    ensures visited' == Explore(s, boardObj, visited, path, limit).visited
    decreases limit + 1 - boardObj.level
  {
    var b := boardObj;
    if b.cur in visited || b.level > limit {
      return None, visited;
    }
    visited' := visited + {b.cur};
    if IsSolved(s.destBoard, b.cur) {
      return Some(Solution(b.level, path)), visited';
    }
    ghost var marked := visited';
    for i := 0 to 4
      invariant ExploreDirs(s, b, visited', path, limit, i).result == ExploreDirs(s, b, marked, path, limit, 0).result
      invariant ExploreDirs(s, b, visited', path, limit, i).visited == ExploreDirs(s, b, marked, path, limit, 0).visited
    {
      match Expand(s, b, i) {
        case None =>
        case Some(step) =>
          var (child, letter) := step;
          var newPath := path + [letter];
          var r;
          r, visited' := Dls(s, child, visited', newPath, limit);
          if r.Some? {
            return r, visited';
          }
      }
    }
    return None, visited';
  }

  /**
   * `dfs(boardObj, visited, dirs, dirLabels, path)`: the same search with
   * the two refusals checked one after the other and the cutoff fixed at 64.
   */
  method Dfs(s: Sokoban, boardObj: Board, visited: set<string>, path: seq<char>)
    returns (result: Option<Solution>, visited': set<string>)
    requires Startable(s.nCols, boardObj)
    ensures result == Explore(s, boardObj, visited, path, 64).result
    ensures visited' == Explore(s, boardObj, visited, path, 64).visited
    decreases 65 - boardObj.level
  {
    var b := boardObj;
    if b.cur in visited {
      return None, visited;
    }
    if b.level > 64 {
      return None, visited;
    }
    visited' := visited + {b.cur};
    if IsSolved(s.destBoard, b.cur) {
      return Some(Solution(b.level, path)), visited';
    }
    ghost var marked := visited';
    for i := 0 to 4
      invariant ExploreDirs(s, b, visited', path, 64, i).result == ExploreDirs(s, b, marked, path, 64, 0).result
      invariant ExploreDirs(s, b, visited', path, 64, i).visited == ExploreDirs(s, b, marked, path, 64, 0).visited
    {
      match Expand(s, b, i) {
        case None =>
        case Some(step) =>
          var (child, letter) := step;
          var newPath := path + [letter];
          var r;
          r, visited' := Dfs(s, child, visited', newPath);
          if r.Some? {
            return r, visited';
          }
      }
    }
    return None, visited';
  }

  /**
   * `algDepth`: depth-first search from the initial record with a fresh
   * visited set. Any answer is a solving path of length `depth` <= 64.
   */
  method AlgDepth(s: Sokoban) returns (result: Option<Solution>)
    requires Startable(s.nCols, InitialBoard(s))
    ensures result == Explore(s, InitialBoard(s), {}, [], 64).result
    ensures result.Some? ==> result.value.depth == |result.value.path| <= 64 && Solves(s, result.value.path)
  {
    var initialBoard := InitialBoard(s);
    var visited: set<string> := {};
    var path: seq<char> := [];
    result, visited := Dfs(s, initialBoard, visited, path);
    ExploreSound(s, initialBoard, initialBoard, {}, [], 64);
    if result.Some? {
      ReplayLevel(s, initialBoard, result.value.path);
    }
  }

  /** One depth-limited attempt of `algIterativeDepth`: fresh set, initial record. */
  ghost function Attempt(s: Sokoban, limit: int): Option<Solution>
    requires Startable(s.nCols, InitialBoard(s))
  {
    Explore(s, InitialBoard(s), {}, [], limit).result
  }

  /** Reference definition of the limit loop: the first attempt from `limit` to `maxLevel` that answers. */
  ghost function Deepening(s: Sokoban, limit: int, maxLevel: int): Option<Solution>
    requires Startable(s.nCols, InitialBoard(s))
    decreases maxLevel + 1 - limit
  {
    if limit > maxLevel then None
    else if Attempt(s, limit).Some? then Attempt(s, limit)
    else Deepening(s, limit + 1, maxLevel)
  }

  /**
   * The deepening loop answers with the attempt of the least limit in
   * [lo, hi] that answers, and gives no answer exactly when no attempt does.
   */
  lemma {:induction false} DeepeningFirst(s: Sokoban, lo: int, hi: int)
    requires Startable(s.nCols, InitialBoard(s))
    ensures Deepening(s, lo, hi).None? <==> forall l :: lo <= l <= hi ==> Attempt(s, l).None?
    ensures Deepening(s, lo, hi).Some? ==>
      exists limit :: lo <= limit <= hi && Attempt(s, limit) == Deepening(s, lo, hi)
        && forall l :: lo <= l < limit ==> Attempt(s, l).None?
    decreases hi + 1 - lo
  {
    if lo <= hi && Attempt(s, lo).None? {
      DeepeningFirst(s, lo + 1, hi);
      if Deepening(s, lo, hi).Some? {
        var limit :| lo + 1 <= limit <= hi && Attempt(s, limit) == Deepening(s, lo + 1, hi)
          && forall l :: lo + 1 <= l < limit ==> Attempt(s, l).None?;
        assert forall l :: lo <= l < limit ==> Attempt(s, l).None?;
      }
    }
  }

  /** Any answer of the deepening loop is a solving path of length `depth` <= `hi`. */
  lemma {:induction false} DeepeningSound(s: Sokoban, lo: int, hi: int)
    requires Startable(s.nCols, InitialBoard(s))
    ensures var r := Deepening(s, lo, hi);
      r.Some? ==> r.value.depth == |r.value.path| <= hi && Solves(s, r.value.path)
    decreases hi + 1 - lo
  {
    if lo <= hi {
      if Attempt(s, lo).Some? {
        var init := InitialBoard(s);
        ExploreSound(s, init, init, {}, [], lo);
        ReplayLevel(s, init, Attempt(s, lo).value.path);
      } else {
        DeepeningSound(s, lo + 1, hi);
      }
    }
  }

  /**
   * `algIterativeDepth(dirs, dirLabels, maxLevel)`: `dls` with limits 10,
   * 11, ..., maxLevel, each from the initial record with a fresh set; the
   * first answer is returned.
   */
  method AlgIterativeDepth(s: Sokoban, maxLevel: int) returns (result: Option<Solution>)
    requires Startable(s.nCols, InitialBoard(s))
    ensures result == Deepening(s, 10, maxLevel)
    ensures result.Some? ==> result.value.depth == |result.value.path| <= maxLevel && Solves(s, result.value.path)
    ensures maxLevel < 10 ==> result.None?
  {
    DeepeningSound(s, 10, maxLevel);
    var limit := 10;
    while limit <= maxLevel
      invariant limit >= 10
      invariant Deepening(s, limit, maxLevel) == Deepening(s, 10, maxLevel)
      decreases maxLevel + 1 - limit
    {
      var initialBoard := InitialBoard(s);
      var visited: set<string> := {};
      var path: seq<char> := [];
      var r;
      r, visited := Dls(s, initialBoard, visited, path, limit);
      assert r == Attempt(s, limit);
      if r.Some? {
        return r;
      }
      limit := limit + 1;
    }
    return None;
  }
}

/**
 * The breadth-first explorer `algAmplitude`: a FIFO queue of records with
 * their paths, a visited set of board strings consulted when a record is
 * dequeued, and the goal test applied right after marking.
 */
module BreadthFirst {
  import opened Wrappers
  import opened Boards
  import opened Goal
  import opened Search
  import opened DepthFirst

  /** A queue element `{ boardObj, path }`. */
  datatype Entry = Entry(boardObj: Board, path: seq<char>)

  /** The entry's path leads from the initial record to the entry's record. */
  ghost predicate Reached(s: Sokoban, e: Entry)
  {
    Replay(s, InitialBoard(s), e.path) == Some(e.boardObj)
  }

  /** Levels along the queue never fall and rise by at most one overall. */
  ghost predicate LevelsOrdered(q: seq<Entry>)
  {
    forall i, j :: 0 <= i <= j < |q| ==> q[i].boardObj.level <= q[j].boardObj.level <= q[i].boardObj.level + 1
  }

  /** Every queued level is `l` or `l + 1`. */
  ghost predicate FrontLevel(q: seq<Entry>, l: int)
  {
    forall k :: 0 <= k < |q| ==> l <= q[k].boardObj.level <= l + 1
  }

  /** Some queued record has board `w` at level `bound` or less. */
  ghost predicate Queued(q: seq<Entry>, w: string, bound: int)
  {
    exists k :: 0 <= k < |q| && q[k].boardObj.cur == w && q[k].boardObj.level <= bound
  }

  /**
   * Every child of a visited board is visited or queued no deeper than one
   * level below it; the directions of `pending` from `from` on are still
   * to be expanded.
   */
  ghost predicate Closed(s: Sokoban, rep: map<string, Board>, q: seq<Entry>, pending: string, from: nat)
  {
    forall w, i: nat :: w in rep && i < 4 && (w == pending ==> i < from) && Succ(s, rep[w], i).Some? ==>
      Succ(s, rep[w], i).value.cur in rep || Queued(q, Succ(s, rep[w], i).value.cur, rep[w].level + 1)
  }

  /** Each visited board was marked at a level no greater than any path reaching it. */
  ghost predicate Shortest(s: Sokoban, rep: map<string, Board>)
  {
    forall p :: Replay(s, InitialBoard(s), p).Some? && Replay(s, InitialBoard(s), p).value.cur in rep ==>
      rep[Replay(s, InitialBoard(s), p).value.cur].level <= |p|
  }

  /** Every queued entry is reached by its path. */
  ghost predicate AllReached(s: Sokoban, q: seq<Entry>)
  {
    forall k :: 0 <= k < |q| ==> Reached(s, q[k])
  }

  /** `rep` maps each visited board to a record with that board, and none is solved. */
  ghost predicate RepMarks(s: Sokoban, rep: map<string, Board>)
  {
    forall w :: w in rep ==> rep[w].cur == w && !IsSolved(s.destBoard, w)
  }

  /** Record `b` is reached from the initial record by some path. */
  ghost predicate Reachable(s: Sokoban, b: Board)
  {
    exists p :: Replay(s, InitialBoard(s), p) == Some(b)
  }

  /** Every record in `rep` is reached from the initial record. */
  ghost predicate RepReached(s: Sokoban, rep: map<string, Board>)
  {
    forall w :: w in rep ==> Reachable(s, rep[w])
  }

  /** The initial board is visited or queued at level 0. */
  ghost predicate InitCovered(s: Sokoban, q: seq<Entry>, rep: map<string, Board>)
  {
    InitialBoard(s).cur in rep || Queued(q, InitialBoard(s).cur, 0)
  }

  /** The layer structure of breadth-first search. */
  ghost predicate Layered(s: Sokoban, q: seq<Entry>, rep: map<string, Board>, pending: string, from: nat)
  {
    RepReached(s, rep) && Closed(s, rep, q, pending, from) && Shortest(s, rep) && InitCovered(s, q, rep)
  }

  /**
   * The loop invariant. `rep` maps each visited board to the record it
   * was marked with.
   */
  ghost predicate Inv(s: Sokoban, q: seq<Entry>, visited: set<string>, rep: map<string, Board>, pending: string, from: nat)
  {
    && AllReached(s, q)
    && LevelsOrdered(q)
    && visited == rep.Keys
    && RepMarks(s, rep)
    && Layered(s, q, rep, pending, from)
  }

  /** The characters a reachable board can hold. */
  ghost function Alphabet(s: Sokoban): set<char>
  {
    (set k | 0 <= k < |s.currBoard| :: s.currBoard[k]) + {'0', '@', 'B'}
  }

  /** All strings of length `n` over `a`. */
  ghost function Words(a: set<char>, n: nat): set<string>
  {
    if n == 0 then {[]} else set w, c | w in Words(a, n - 1) && c in a :: w + [c]
  }

  lemma {:induction false} InWords(a: set<char>, w: string)
    requires forall k :: 0 <= k < |w| ==> w[k] in a
    ensures w in Words(a, |w|)
  {
    if w != [] {
      var w', c := w[..|w| - 1], w[|w| - 1];
      InWords(a, w');
      assert w == w' + [c];
    }
  }

  /** Every reachable board has the initial board's length and characters drawn from `Alphabet`. */
  lemma {:induction false} ReplayInUniverse(s: Sokoban, p: seq<char>)
    requires Replay(s, InitialBoard(s), p).Some?
    ensures var c := Replay(s, InitialBoard(s), p).value.cur;
      |c| == |s.currBoard| && (forall k :: 0 <= k < |c| ==> c[k] in Alphabet(s))
      && c in Words(Alphabet(s), |s.currBoard|)
  {
    var init := InitialBoard(s);
    var c := Replay(s, init, p).value.cur;
    if p == [] {
      assert forall k :: 0 <= k < |c| ==> c[k] in Alphabet(s) by {
        forall k | 0 <= k < |c| ensures c[k] in Alphabet(s) {
          assert c[k] == s.currBoard[k];
        }
      }
    } else {
      var p' := p[..|p| - 1];
      ReplayInUniverse(s, p');
      ReplayLevel(s, init, p);
      var b := Replay(s, init, p').value;
      var i := LabelDir(p[|p| - 1]).value;
      ExpandFlat(s, b, i);
      assert c == Expand(s, b, i).value.0.cur;
    }
    InWords(Alphabet(s), c);
  }

  /** Marking a new board of the universe shrinks the unvisited part. */
  lemma MarkShrinks(universe: set<string>, visited: set<string>, c: string)
    requires visited <= universe && c in universe && c !in visited
    ensures visited + {c} <= universe && |universe - (visited + {c})| < |universe - visited|
  {
    assert universe - (visited + {c}) < universe - visited;
  }

  /** Appending to the queue keeps what was queued. */
  lemma QueuedGrow(q: seq<Entry>, e: Entry, w: string, bound: int)
    requires Queued(q, w, bound)
    ensures Queued(q + [e], w, bound)
  {
    var k :| 0 <= k < |q| && q[k].boardObj.cur == w && q[k].boardObj.level <= bound;
    assert (q + [e])[k] == q[k];
  }

  /** Dequeuing keeps what was queued, unless it was the front record. */
  lemma QueuedPop(q: seq<Entry>, w: string, bound: int)
    requires q != [] && Queued(q, w, bound)
    ensures w == q[0].boardObj.cur || Queued(q[1..], w, bound)
  {
    var k :| 0 <= k < |q| && q[k].boardObj.cur == w && q[k].boardObj.level <= bound;
    if k > 0 {
      assert q[1..][k - 1] == q[k];
    }
  }

  /**
   * A reachable board not yet visited has an entry in the queue no deeper
   * than the path reaching it.
   */
  lemma {:induction false} Frontier(s: Sokoban, q: seq<Entry>, visited: set<string>, rep: map<string, Board>, pending: string, p: seq<char>)
    returns (k: nat)
    requires Inv(s, q, visited, rep, pending, 4)
    requires Replay(s, InitialBoard(s), p).Some? && Replay(s, InitialBoard(s), p).value.cur !in rep
    ensures k < |q| && q[k].boardObj.level <= |p|
    decreases |p|
  {
    var init := InitialBoard(s);
    if p == [] {
      k :| 0 <= k < |q| && q[k].boardObj.cur == init.cur && q[k].boardObj.level <= 0;
    } else {
      var p' := p[..|p| - 1];
      var r' := Replay(s, init, p').value;
      if r'.cur !in rep {
        k := Frontier(s, q, visited, rep, pending, p');
      } else {
        var w := r'.cur;
        var i := LabelDir(p[|p| - 1]).value;
        var r := Replay(s, init, p).value;
        assert Reachable(s, rep[w]);
        var p1 :| Replay(s, init, p1) == Some(rep[w]);
        ExpandBySameBoard(s, init, p1, p', i);
        assert Succ(s, rep[w], i).Some? && Succ(s, rep[w], i).value.cur == r.cur;
        assert rep[w].level <= |p'|;
        k :| 0 <= k < |q| && q[k].boardObj.cur == r.cur && q[k].boardObj.level <= rep[w].level + 1;
      }
    }
  }

  lemma PopLevels(q: seq<Entry>)
    requires q != [] && LevelsOrdered(q)
    ensures LevelsOrdered(q[1..]) && FrontLevel(q[1..], q[0].boardObj.level)
  {
    assert forall k :: 0 <= k < |q| - 1 ==> q[1..][k] == q[k + 1];
  }

  lemma ClosedSkip(s: Sokoban, rep: map<string, Board>, q: seq<Entry>, pending: string)
    requires Closed(s, rep, q, pending, 4) && q != [] && q[0].boardObj.cur in rep
    ensures Closed(s, rep, q[1..], pending, 4)
  {
    forall w, i: nat | w in rep && i < 4 && Succ(s, rep[w], i).Some? && Succ(s, rep[w], i).value.cur !in rep
      ensures Queued(q[1..], Succ(s, rep[w], i).value.cur, rep[w].level + 1)
    {
      QueuedPop(q, Succ(s, rep[w], i).value.cur, rep[w].level + 1);
    }
  }

  lemma ClosedMark(s: Sokoban, rep: map<string, Board>, q: seq<Entry>, pending: string)
    requires Closed(s, rep, q, pending, 4) && q != [] && q[0].boardObj.cur !in rep
    ensures var b := q[0].boardObj; Closed(s, rep[b.cur := b], q[1..], b.cur, 0)
  {
    var b := q[0].boardObj;
    var rep' := rep[b.cur := b];
    forall w, i: nat | w in rep' && i < 4 && (w == b.cur ==> i < 0) && Succ(s, rep'[w], i).Some? && Succ(s, rep'[w], i).value.cur !in rep'
      ensures Queued(q[1..], Succ(s, rep'[w], i).value.cur, rep'[w].level + 1)
    {
      assert w in rep && rep'[w] == rep[w];
      QueuedPop(q, Succ(s, rep[w], i).value.cur, rep[w].level + 1);
    }
  }

  lemma InitPop(s: Sokoban, q: seq<Entry>, rep: map<string, Board>, rep': map<string, Board>)
    requires InitCovered(s, q, rep) && q != [] && rep.Keys + {q[0].boardObj.cur} <= rep'.Keys
    ensures InitCovered(s, q[1..], rep')
  {
    if InitialBoard(s).cur !in rep' {
      QueuedPop(q, InitialBoard(s).cur, 0);
    }
  }

  /** Dequeuing a board already visited keeps the invariant. */
  lemma SkipStep(s: Sokoban, q: seq<Entry>, visited: set<string>, rep: map<string, Board>, pending: string)
    requires Inv(s, q, visited, rep, pending, 4) && q != [] && q[0].boardObj.cur in visited
    ensures Inv(s, q[1..], visited, rep, pending, 4)
  {
    PopReached(s, q);
    PopLevels(q);
    ClosedSkip(s, rep, q, pending);
    InitPop(s, q, rep, rep);
  }

  /** Marking the front board keeps every marked level minimal. */
  lemma MarkShortest(s: Sokoban, q: seq<Entry>, visited: set<string>, rep: map<string, Board>, pending: string)
    requires Inv(s, q, visited, rep, pending, 4)
    requires q != [] && q[0].boardObj.cur !in rep
    ensures var b := q[0].boardObj; Shortest(s, rep[b.cur := b])
  {
    var b := q[0].boardObj;
    var rep' := rep[b.cur := b];
    forall p | Replay(s, InitialBoard(s), p).Some? && Replay(s, InitialBoard(s), p).value.cur in rep'
      ensures rep'[Replay(s, InitialBoard(s), p).value.cur].level <= |p|
    {
      if Replay(s, InitialBoard(s), p).value.cur == b.cur {
        var k := Frontier(s, q, visited, rep, pending, p);
        assert q[0].boardObj.level <= q[k].boardObj.level;
      }
    }
  }

  /** Recording a reached, unsolved record keeps `rep`'s facts. */
  lemma RepAdd(s: Sokoban, rep: map<string, Board>, e: Entry)
    requires RepReached(s, rep) && RepMarks(s, rep) && Reached(s, e) && !IsSolved(s.destBoard, e.boardObj.cur)
    ensures RepReached(s, rep[e.boardObj.cur := e.boardObj]) && RepMarks(s, rep[e.boardObj.cur := e.boardObj])
  {
    assert Reachable(s, e.boardObj);
  }

  /**
   * Marking the front board visited keeps the invariant, with its four
   * directions pending; every queued level is then the front's or one more.
   */
  lemma MarkStep(s: Sokoban, q: seq<Entry>, visited: set<string>, rep: map<string, Board>, pending: string)
    requires Inv(s, q, visited, rep, pending, 4) && q != [] && q[0].boardObj.cur !in visited
    requires !IsSolved(s.destBoard, q[0].boardObj.cur) && Startable(s.nCols, InitialBoard(s))
    ensures var b := q[0].boardObj;
      Inv(s, q[1..], visited + {b.cur}, rep[b.cur := b], b.cur, 0) && FrontLevel(q[1..], b.level)
    ensures InRange(s.nCols, q[0].boardObj) && Reached(s, q[0])
  {
    var b := q[0].boardObj;
    var rep' := rep[b.cur := b];
    ReplayLevel(s, InitialBoard(s), q[0].path);
    assert Reached(s, q[0]);
    if q[0].path == [] {
      assert b == InitialBoard(s) && b.cur != [];
    }
    PopReached(s, q);
    PopLevels(q);
    RepAdd(s, rep, q[0]);
    ClosedMark(s, rep, q, pending);
    InitPop(s, q, rep, rep');
    MarkShortest(s, q, visited, rep, pending);
  }

  lemma PushOrdered(q: seq<Entry>, l: int, x: Entry)
    requires LevelsOrdered(q) && FrontLevel(q, l) && x.boardObj.level == l + 1
    ensures LevelsOrdered(q + [x]) && FrontLevel(q + [x], l)
  {
    assert forall k :: 0 <= k < |q| ==> (q + [x])[k] == q[k];
  }

  lemma ClosedPush(s: Sokoban, rep: map<string, Board>, q: seq<Entry>, b: Board, i: nat, x: Entry)
    requires Closed(s, rep, q, b.cur, i) && i < 4 && b.cur in rep && rep[b.cur] == b && InRange(s.nCols, b)
    requires Expand(s, b, i).Some? && x.boardObj == Expand(s, b, i).value.0
    ensures Closed(s, rep, q + [x], b.cur, i + 1)
  {
    var q' := q + [x];
    assert Queued(q', x.boardObj.cur, b.level + 1) by {
      assert q'[|q|] == x;
    }
    forall w, j: nat | w in rep && j < 4 && (w == b.cur ==> j < i + 1) && Succ(s, rep[w], j).Some? && Succ(s, rep[w], j).value.cur !in rep
      ensures Queued(q', Succ(s, rep[w], j).value.cur, rep[w].level + 1)
    {
      if w != b.cur || j != i {
        QueuedGrow(q, x, Succ(s, rep[w], j).value.cur, rep[w].level + 1);
      }
    }
  }

  lemma ClosedNone(s: Sokoban, rep: map<string, Board>, q: seq<Entry>, b: Board, i: nat)
    requires Closed(s, rep, q, b.cur, i) && i < 4 && b.cur in rep && rep[b.cur] == b && InRange(s.nCols, b)
    requires Expand(s, b, i).None?
    ensures Closed(s, rep, q, b.cur, i + 1)
  {
    assert Succ(s, b, i).None?;
  }

  /**
   * Expanding direction `i` of the front record `b` (appending the child,
   * if any, with its path) keeps the invariant with one direction fewer
   * pending.
   */
  lemma PushStep(s: Sokoban, q: seq<Entry>, visited: set<string>, rep: map<string, Board>, b: Board, path: seq<char>, i: nat)
    requires Inv(s, q, visited, rep, b.cur, i) && i < 4 && b.cur in rep && rep[b.cur] == b
    requires InRange(s.nCols, b) && Reached(s, Entry(b, path)) && FrontLevel(q, b.level)
    ensures var e := Expand(s, b, i);
      var q' := if e.Some? then q + [Entry(e.value.0, path + [e.value.1])] else q;
      Inv(s, q', visited, rep, b.cur, i + 1) && FrontLevel(q', b.level)
  {
    var e := Expand(s, b, i);
    if e.Some? {
      var x := Entry(e.value.0, path + [e.value.1]);
      var q' := q + [x];
      ReplayStep(s, InitialBoard(s), path, b, i);
      PushOrdered(q, b.level, x);
      assert forall k :: 0 <= k < |q| ==> q'[k] == q[k];
      assert AllReached(s, q');
      ClosedPush(s, rep, q, b, i, x);
      if InitialBoard(s).cur !in rep {
        QueuedGrow(q, x, InitialBoard(s).cur, 0);
      }
    } else {
      ClosedNone(s, rep, q, b, i);
    }
  }

  /** The queue entries that expanding `b` from direction `i` on appends, in order. */
  function Children(s: Sokoban, b: Board, path: seq<char>, i: nat): seq<Entry>
    requires i <= 4 && InRange(s.nCols, b)
    decreases 4 - i
  {
    if i == 4 then []
    else
      match Expand(s, b, i)
      case None => Children(s, b, path, i + 1)
      case Some(step) => [Entry(step.0, path + [step.1])] + Children(s, b, path, i + 1)
  }

  /**
   * Appending the children of the front record `b` from direction `i` on
   * completes its expansion in the invariant; `r` is the queue afterwards.
   */
  lemma {:induction false} ChildrenStep(s: Sokoban, q: seq<Entry>, visited: set<string>, rep: map<string, Board>, b: Board, path: seq<char>, i: nat)
    returns (r: seq<Entry>)
    requires i <= 4 && Inv(s, q, visited, rep, b.cur, i) && b.cur in rep && rep[b.cur] == b
    requires InRange(s.nCols, b) && Reached(s, Entry(b, path)) && FrontLevel(q, b.level)
    ensures r == q + Children(s, b, path, i) && Inv(s, r, visited, rep, b.cur, 4)
    decreases 4 - i
  {
    if i == 4 {
      r := q;
      assert q + [] == q;
    } else {
      PushStep(s, q, visited, rep, b, path, i);
      match Expand(s, b, i) {
        case None =>
          r := ChildrenStep(s, q, visited, rep, b, path, i + 1);
        case Some(step) =>
          var x := Entry(step.0, path + [step.1]);
          r := ChildrenStep(s, q + [x], visited, rep, b, path, i + 1);
          AppendFront(q, x, Children(s, b, path, i + 1));
      }
    }
  }

  /** Every entry of `c` is at level `l`. */
  ghost predicate AtLevel(c: seq<Entry>, l: int)
  {
    forall k :: 0 <= k < |c| ==> c[k].boardObj.level == l
  }

  /** Every child is one level below the expanded record. */
  lemma {:induction false} ChildrenLevel(s: Sokoban, b: Board, path: seq<char>, i: nat)
    requires i <= 4 && InRange(s.nCols, b)
    ensures AtLevel(Children(s, b, path, i), b.level + 1)
    decreases 4 - i
  {
    if i < 4 {
      ChildrenLevel(s, b, path, i + 1);
    }
  }

  /**
   * One expansion of the loop keeps the queue's levels non-decreasing from
   * front to back and within one level of each other.
   */
  lemma ExpandKeepsLevelsOrdered(s: Sokoban, q: seq<Entry>)
    requires q != [] && InRange(s.nCols, q[0].boardObj) && LevelsOrdered(q)
    ensures LevelsOrdered(q[1..] + Children(s, q[0].boardObj, q[0].path, 0))
  {
    PopLevels(q);
    ChildrenLevel(s, q[0].boardObj, q[0].path, 0);
    OrderedAppend(q[1..], Children(s, q[0].boardObj, q[0].path, 0), q[0].boardObj.level);
  }

  /** A layered queue with levels in `[l, l + 1]`, then entries at level `l + 1`, is layered. */
  lemma OrderedAppend(r: seq<Entry>, c: seq<Entry>, l: int)
    requires LevelsOrdered(r) && FrontLevel(r, l)
    requires AtLevel(c, l + 1)
    ensures LevelsOrdered(r + c)
  {
    forall i, j | 0 <= i <= j < |r + c|
      ensures (r + c)[i].boardObj.level <= (r + c)[j].boardObj.level <= (r + c)[i].boardObj.level + 1
    {
      if j < |r| {
        assert (r + c)[i] == r[i] && (r + c)[j] == r[j];
      } else if i < |r| {
        assert (r + c)[i] == r[i] && (r + c)[j] == c[j - |r|];
      } else {
        assert (r + c)[i] == c[i - |r|] && (r + c)[j] == c[j - |r|];
      }
    }
  }

  lemma AppendFront(q: seq<Entry>, x: Entry, c: seq<Entry>)
    ensures q + ([x] + c) == (q + [x]) + c
  {
  }

  /** The universe the search stays in. */
  ghost function Universe(s: Sokoban): set<string>
  {
    Words(Alphabet(s), |s.currBoard|)
  }

  lemma {:induction false} ChildrenReached(s: Sokoban, b: Board, path: seq<char>, i: nat)
    requires i <= 4 && InRange(s.nCols, b) && Reached(s, Entry(b, path))
    ensures AllReached(s, Children(s, b, path, i))
    decreases 4 - i
  {
    if i < 4 {
      ChildrenReached(s, b, path, i + 1);
      if Expand(s, b, i).Some? {
        ReplayStep(s, InitialBoard(s), path, b, i);
      }
    }
  }

  lemma AppendReached(s: Sokoban, a: seq<Entry>, c: seq<Entry>)
    requires AllReached(s, a) && AllReached(s, c)
    ensures AllReached(s, a + c)
  {
    assert forall k :: 0 <= k < |a + c| ==> (a + c)[k] == if k < |a| then a[k] else c[k - |a|];
  }

  lemma PopReached(s: Sokoban, q: seq<Entry>)
    requires q != [] && AllReached(s, q)
    ensures AllReached(s, q[1..]) && Reached(s, q[0])
  {
    assert forall k :: 0 <= k < |q| - 1 ==> q[1..][k] == q[k + 1];
  }

  /** What the search needs to go on from the front record after marking it. */
  lemma FrontFacts(s: Sokoban, q: seq<Entry>, visited: set<string>)
    requires Startable(s.nCols, InitialBoard(s)) && AllReached(s, q) && visited <= Universe(s)
    requires q != [] && q[0].boardObj.cur !in visited && !IsSolved(s.destBoard, q[0].boardObj.cur)
    ensures InRange(s.nCols, q[0].boardObj)
    ensures AllReached(s, q[1..] + Children(s, q[0].boardObj, q[0].path, 0))
    ensures visited + {q[0].boardObj.cur} <= Universe(s)
    ensures |Universe(s) - (visited + {q[0].boardObj.cur})| < |Universe(s) - visited|
  {
    var b := q[0].boardObj;
    PopReached(s, q);
    ReplayLevel(s, InitialBoard(s), q[0].path);
    if q[0].path == [] {
      assert b == InitialBoard(s) && b.cur != [];
    }
    ReplayInUniverse(s, q[0].path);
    ChildrenReached(s, b, q[0].path, 0);
    AppendReached(s, q[1..], Children(s, b, q[0].path, 0));
    MarkShrinks(Universe(s), visited, b.cur);
  }

  /**
   * Reference definition of the loop of `algAmplitude` from queue `q` and
   * visited set `visited`: skip a visited front board; otherwise mark it,
   * answer if it is solved, else enqueue its children and go on.
   */
  ghost function Bfs(s: Sokoban, q: seq<Entry>, visited: set<string>): Option<Solution>
    requires Startable(s.nCols, InitialBoard(s)) && AllReached(s, q) && visited <= Universe(s)
    decreases |Universe(s) - visited|, |q|
  {
    if q == [] then None
    else
      var b := q[0].boardObj;
      if b.cur in visited then
        PopReached(s, q);
        Bfs(s, q[1..], visited)
      else if IsSolved(s.destBoard, b.cur) then Some(Solution(b.level, q[0].path))
      else
        FrontFacts(s, q, visited);
        Bfs(s, q[1..] + Children(s, b, q[0].path, 0), visited + {b.cur})
  }

  /** The boards that `Bfs` marks visited, in order. */
  ghost function Marked(s: Sokoban, q: seq<Entry>, visited: set<string>): seq<string>
    requires Startable(s.nCols, InitialBoard(s)) && AllReached(s, q) && visited <= Universe(s)
    decreases |Universe(s) - visited|, |q|
  {
    if q == [] then []
    else
      var b := q[0].boardObj;
      if b.cur in visited then
        PopReached(s, q);
        Marked(s, q[1..], visited)
      else if IsSolved(s.destBoard, b.cur) then [b.cur]
      else
        FrontFacts(s, q, visited);
        [b.cur] + Marked(s, q[1..] + Children(s, b, q[0].path, 0), visited + {b.cur})
  }

  lemma ElemsSnoc(e: seq<string>, x: string)
    ensures Elems(e + [x]) == Elems(e) + {x}
  {
    assert forall y :: y in e + [x] <==> y in e || y == x;
  }

  /** Skipping a visited front board marks nothing and leaves the answer alone. */
  lemma LoopSkip(s: Sokoban, q: seq<Entry>, visited: set<string>, marked: seq<string>, marks: seq<string>)
    requires Startable(s.nCols, InitialBoard(s)) && AllReached(s, q) && visited <= Universe(s)
    requires q != [] && q[0].boardObj.cur in visited && marked + Marked(s, q, visited) == marks
    ensures AllReached(s, q[1..]) && marked + Marked(s, q[1..], visited) == marks
    ensures Bfs(s, q[1..], visited) == Bfs(s, q, visited)
  {
    PopReached(s, q);
  }

  /** A solved front board is the last one marked, and the answer. */
  lemma LoopSolved(s: Sokoban, q: seq<Entry>, visited: set<string>, marked: seq<string>, marks: seq<string>)
    requires Startable(s.nCols, InitialBoard(s)) && AllReached(s, q) && visited <= Universe(s)
    requires q != [] && q[0].boardObj.cur !in visited && IsSolved(s.destBoard, q[0].boardObj.cur)
    requires marked + Marked(s, q, visited) == marks
    ensures marked + [q[0].boardObj.cur] == marks
    ensures Bfs(s, q, visited) == Some(Solution(q[0].boardObj.level, q[0].path))
  {
  }

  /** Expanding an unvisited, unsolved front board marks it, then goes on from the new queue. */
  lemma LoopMark(s: Sokoban, q: seq<Entry>, visited: set<string>, marked: seq<string>, marks: seq<string>)
    requires Startable(s.nCols, InitialBoard(s)) && AllReached(s, q) && visited <= Universe(s)
    requires q != [] && q[0].boardObj.cur !in visited && !IsSolved(s.destBoard, q[0].boardObj.cur)
    requires marked + Marked(s, q, visited) == marks
    ensures InRange(s.nCols, q[0].boardObj) && visited + {q[0].boardObj.cur} <= Universe(s)
    ensures AllReached(s, q[1..] + Children(s, q[0].boardObj, q[0].path, 0))
    ensures Elems(marked + [q[0].boardObj.cur]) == Elems(marked) + {q[0].boardObj.cur}
    ensures (marked + [q[0].boardObj.cur]) + Marked(s, q[1..] + Children(s, q[0].boardObj, q[0].path, 0), visited + {q[0].boardObj.cur}) == marks
    ensures Bfs(s, q[1..] + Children(s, q[0].boardObj, q[0].path, 0), visited + {q[0].boardObj.cur}) == Bfs(s, q, visited)
    ensures |Universe(s) - (visited + {q[0].boardObj.cur})| < |Universe(s) - visited|
  {
    FrontFacts(s, q, visited);
    var b := q[0].boardObj.cur;
    var rest := Marked(s, q[1..] + Children(s, q[0].boardObj, q[0].path, 0), visited + {b});
    assert marked + ([b] + rest) == (marked + [b]) + rest;
    ElemsSnoc(marked, b);
  }

  /**
   * Duplicates may wait in the queue, but `Bfs` marks (and so expands) each
   * board at most once, and never one that was visited before.
   */
  lemma {:induction false} BfsMarksOnce(s: Sokoban, q: seq<Entry>, visited: set<string>)
    requires Startable(s.nCols, InitialBoard(s)) && AllReached(s, q) && visited <= Universe(s)
    ensures var m := Marked(s, q, visited); Distinct(m) && forall k :: 0 <= k < |m| ==> m[k] !in visited
    decreases |Universe(s) - visited|, |q|
  {
    if q != [] {
      var b := q[0].boardObj;
      if b.cur in visited {
        PopReached(s, q);
        BfsMarksOnce(s, q[1..], visited);
      } else if !IsSolved(s.destBoard, b.cur) {
        FrontFacts(s, q, visited);
        var q' := q[1..] + Children(s, b, q[0].path, 0);
        BfsMarksOnce(s, q', visited + {b.cur});
        var m' := Marked(s, q', visited + {b.cur});
        assert Marked(s, q, visited) == [b.cur] + m';
        assert forall k :: 0 < k < |m'| + 1 ==> ([b.cur] + m')[k] == m'[k - 1];
      }
    }
  }

  /**
   * From a state meeting the invariant, an answer of `Bfs` is a shortest
   * solving path, of length `depth`, and no answer means no path solves
   * the puzzle.
   */
  lemma BfsCorrect(s: Sokoban, q: seq<Entry>, visited: set<string>, rep: map<string, Board>, pending: string)
    requires Startable(s.nCols, InitialBoard(s)) && visited <= Universe(s)
    requires Inv(s, q, visited, rep, pending, 4)
    ensures var r := Bfs(s, q, visited);
      && (r.Some? ==> r.value.depth == |r.value.path| && Solves(s, r.value.path))
      && (r.Some? ==> forall p :: Solves(s, p) ==> r.value.depth <= |p|)
      && (r.None? ==> forall p :: !Solves(s, p))
    decreases |Universe(s) - visited|, |q|
  {
    if q == [] {
      Exhausted(s, visited, rep, pending);
    } else {
      var b := q[0].boardObj;
      if b.cur in visited {
        SkipStep(s, q, visited, rep, pending);
        BfsCorrect(s, q[1..], visited, rep, pending);
      } else if IsSolved(s.destBoard, b.cur) {
        SolvedStep(s, q, visited, rep, pending);
      } else {
        MarkStep(s, q, visited, rep, pending);
        FrontFacts(s, q, visited);
        var next := ChildrenStep(s, q[1..], visited + {b.cur}, rep[b.cur := b], b, q[0].path, 0);
        BfsCorrect(s, q[1..] + Children(s, b, q[0].path, 0), visited + {b.cur}, rep[b.cur := b], b.cur);
      }
    }
  }

  /** A solved front board answers with its level and path, and no shorter path solves. */
  lemma SolvedStep(s: Sokoban, q: seq<Entry>, visited: set<string>, rep: map<string, Board>, pending: string)
    requires Inv(s, q, visited, rep, pending, 4) && q != [] && q[0].boardObj.cur !in visited
    requires IsSolved(s.destBoard, q[0].boardObj.cur)
    ensures q[0].boardObj.level == |q[0].path| && Solves(s, q[0].path)
    ensures forall p :: Solves(s, p) ==> q[0].boardObj.level <= |p|
  {
    ReplayLevel(s, InitialBoard(s), q[0].path);
    forall p | Solves(s, p) ensures q[0].boardObj.level <= |p| {
      var k := Frontier(s, q, visited, rep, pending, p);
    }
  }

  /** With the queue empty, no path solves the puzzle. */
  lemma Exhausted(s: Sokoban, visited: set<string>, rep: map<string, Board>, pending: string)
    requires Inv(s, [], visited, rep, pending, 4)
    ensures forall p :: !Solves(s, p)
  {
    forall p | Replay(s, InitialBoard(s), p).Some? ensures !Solves(s, p) {
      if Replay(s, InitialBoard(s), p).value.cur !in rep {
        var k := Frontier(s, [], visited, rep, pending, p);
      }
    }
  }

  /** The loop invariant holds before the first iteration. */
  lemma InitialInv(s: Sokoban)
    requires Startable(s.nCols, InitialBoard(s))
    ensures Inv(s, [Entry(InitialBoard(s), [])], {}, map[], InitialBoard(s).cur, 4)
  {
    var q := [Entry(InitialBoard(s), [])];
    assert Reached(s, q[0]);
    assert Queued(q, InitialBoard(s).cur, 0);
  }

  /** `BfsCorrect` from the queue holding only the initial record. */
  lemma FromStartCorrect(s: Sokoban)
    requires Startable(s.nCols, InitialBoard(s))
    ensures var r := Bfs(s, [Entry(InitialBoard(s), [])], {});
      && (r.Some? ==> r.value.depth == |r.value.path| && Solves(s, r.value.path))
      && (r.Some? ==> forall p :: Solves(s, p) ==> r.value.depth <= |p|)
      && (r.None? ==> forall p :: !Solves(s, p))
  {
    InitialInv(s);
    BfsCorrect(s, [Entry(InitialBoard(s), [])], {}, map[], InitialBoard(s).cur);
  }

  /**
   * The direction loop of `algAmplitude`: append to `queue` the child of
   * each direction that moves or pushes, with its path.
   */
  method EnqueueChildren(s: Sokoban, boardObj: Board, path: seq<char>, queue: seq<Entry>) returns (queue': seq<Entry>)
    requires InRange(s.nCols, boardObj)
    ensures queue' == queue + Children(s, boardObj, path, 0)
  {
    queue' := queue;
    for i := 0 to 4
      invariant queue' + Children(s, boardObj, path, i) == queue + Children(s, boardObj, path, 0)
    {
      match Expand(s, boardObj, i) {
        case None =>
        case Some(step) =>
          var (child, letter) := step;
          var newPath := path + [letter];
          queue' := queue' + [Entry(child, newPath)];
      }
    }
    assert queue' + [] == queue';
  }

  /**
   * `algAmplitude`. It computes `Bfs` from the queue holding the initial
   * record. An answer is a shortest solving path, of length `depth`, and
   * no answer means no path solves the puzzle. `marked` lists, in order,
   * the boards the loop adds to `visited`; they are those of `Marked`.
   */
  method AlgAmplitude(s: Sokoban) returns (result: Option<Solution>, ghost marked: seq<string>)
    requires Startable(s.nCols, InitialBoard(s))
    ensures result.Some? ==> result.value.depth == |result.value.path| && Solves(s, result.value.path)
    ensures result.Some? ==> forall p :: Solves(s, p) ==> result.value.depth <= |p|
    ensures result.None? ==> forall p :: !Solves(s, p)
    ensures result == Bfs(s, [Entry(InitialBoard(s), [])], {})
    ensures marked == Marked(s, [Entry(InitialBoard(s), [])], {})
  {
    var initialBoard := InitialBoard(s);
    var visited: set<string> := {};
    var queue := [Entry(initialBoard, [])];
    ghost var answer := Bfs(s, queue, visited);
    ghost var marks := Marked(s, queue, visited);
    marked := [];
    assert AllReached(s, queue);
    while queue != []
      invariant AllReached(s, queue) && visited <= Universe(s)
      invariant Bfs(s, queue, visited) == answer
      invariant visited == Elems(marked) && marked + Marked(s, queue, visited) == marks
      decreases |Universe(s) - visited|, |queue|
    {
      var entry := queue[0];
      var boardObj, path := entry.boardObj, entry.path;
      if boardObj.cur in visited {
        LoopSkip(s, queue, visited, marked, marks);
        queue := queue[1..];
        continue;
      }
      if IsSolved(s.destBoard, boardObj.cur) {
        LoopSolved(s, queue, visited, marked, marks);
        visited := visited + {boardObj.cur};
        marked := marked + [boardObj.cur];
        FromStartCorrect(s);
        return Some(Solution(boardObj.level, path)), marked;
      }
      LoopMark(s, queue, visited, marked, marks);
      queue := queue[1..];
      visited := visited + {boardObj.cur};
      marked := marked + [boardObj.cur];
      queue := EnqueueChildren(s, boardObj, path, queue);
    }
    assert marked + [] == marked;
    FromStartCorrect(s);
    return None, marked;
  }
}

/** The Gomoku sample bots: the search for a safe black point and the candidate points
    (samples/gomokubot.py, samples/gomokubot.c). */
module Gomoku {

  datatype Cell = Empty | Black | White

  datatype Option<T> = None | Some(value: T)

  datatype Point = Point(x: int, y: int)

  const SIZE: int := 15
  const CELLS: int := 225
  const STRIDE: int := 97

  /** Columns of cells; parsing admits no other shape. */
  type Board = b: seq<seq<Cell>> | |b| == SIZE && (forall x :: 0 <= x < SIZE ==> |b[x]| == SIZE)
    ghost witness seq(SIZE, _ => seq(SIZE, _ => Empty))

  predicate OnBoard(p: Point) {
    0 <= p.x < SIZE && 0 <= p.y < SIZE
  }

  function At(board: Board, p: Point): Cell
    requires OnBoard(p)
  {
    board[p.x][p.y]
  }

  predicate EmptyAt(board: Board, p: Point) {
    OnBoard(p) && At(board, p) == Empty
  }

  // ----- a stride that visits every position once

  lemma ModUnique(a: int, n: int, q: int, r: int)
    requires n > 0 && a == n * q + r && 0 <= r < n
    ensures a % n == r
  {
    var d := q - a / n;
    assert n * d == a % n - r;
    Multiples(n, d);
  }

  lemma Multiples(n: int, d: int)
    requires n > 0
    ensures d >= 1 ==> n * d >= n
    ensures d <= -1 ==> n * d <= -n
  {
  }

  /** The position that a search looks at, with a remainder that is never negative. */
  function Position(n: int, stride: int, index: int): int
    requires n > 0
  {
    (n - 1 - index * stride) % n
  }

  /** A remainder with the sign of the dividend. */
  function Remainder(a: int, n: int): int
    requires n > 0
  {
    if a >= 0 then a % n else -((-a) % n)
  }

  lemma RemainderFixed(a: int, n: int)
    requires n > 0
    ensures Remainder(a, n) < 0 ==> Remainder(a, n) + n == a % n
    ensures Remainder(a, n) >= 0 ==> Remainder(a, n) == a % n
  {
    if a < 0 {
      var q, r := (-a) / n, (-a) % n;
      if r == 0 {
        assert a == n * (-q) + 0;
        ModUnique(a, n, -q, 0);
      } else {
        assert a == n * (-q - 1) + (n - r);
        ModUnique(a, n, -q - 1, n - r);
      }
    }
  }

  /** When the stride has an inverse modulo n, every position is reached. */
  lemma StrideReaches(n: int, stride: int, inverse: int, m: int, p: int) returns (index: int)
    requires n > 0 && stride * inverse == 1 + n * m && 0 <= p < n
    ensures 0 <= index < n && Position(n, stride, index) == p
  {
    var back := n - 1 - p;
    index := (inverse * back) % n;
    var k := (inverse * back) / n;
    assert index == inverse * back - n * k;
    Unwind(n, stride, inverse, m, back, k);
    ModUnique(n - 1 - index * stride, n, k * stride - m * back, p);
  }

  lemma Unwind(n: int, stride: int, inverse: int, m: int, back: int, k: int)
    requires stride * inverse == 1 + n * m
    ensures (inverse * back - n * k) * stride == back - n * (k * stride - m * back)
  {
    Distribute(inverse * back, n * k, stride);
    Regroup(inverse, back, stride);
    Associate(n, k, stride);
    Associate(n, m, back);
    Distribute(k * stride, m * back, n);
    assert (1 + n * m) * back == back + (n * m) * back;
  }

  lemma Distribute(a: int, b: int, c: int)
    ensures (a - b) * c == a * c - b * c
  {
  }

  lemma Associate(a: int, b: int, c: int)
    ensures (a * b) * c == a * (b * c)
  {
  }

  lemma Regroup(a: int, b: int, c: int)
    ensures (a * b) * c == (c * a) * b
  {
    Associate(c, a, b);
  }

  /** ... and none is reached twice. */
  lemma StrideIsInjective(n: int, stride: int, inverse: int, m: int, i: int, j: int)
    requires n > 0 && stride * inverse == 1 + n * m && 0 <= i < n && 0 <= j < n
    requires Position(n, stride, i) == Position(n, stride, j)
    ensures i == j
  {
    var a, b := n - 1 - i * stride, n - 1 - j * stride;
    var t := a / n - b / n;
    var d := j - i;
    assert a - b == d * stride;
    SameRemainder(n, a, b);
    Cancel(n, d, t, stride, inverse, m);
    Multiples(n, t * inverse - m * d);
  }

  lemma SameRemainder(n: int, a: int, b: int)
    requires n > 0 && a % n == b % n
    ensures a - b == n * (a / n - b / n)
  {
  }

  lemma Cancel(n: int, d: int, t: int, stride: int, inverse: int, m: int)
    requires d * stride == n * t && stride * inverse == 1 + n * m
    ensures d == n * (t * inverse - m * d)
  {
    calc {
      n * (t * inverse);
      (n * t) * inverse;
      (d * stride) * inverse;
      d * (stride * inverse);
      d * (1 + n * m);
      d + n * (m * d);
    }
  }

  /** The bots' own numbers: 97 is inverted by 58 modulo 225. */
  lemma EveryCellOnce(p: int)
    requires 0 <= p < CELLS
    ensures exists i :: 0 <= i < CELLS && Position(CELLS, STRIDE, i) == p
    ensures forall i, j | 0 <= i < CELLS && 0 <= j < CELLS ::
              Position(CELLS, STRIDE, i) == p == Position(CELLS, STRIDE, j) ==> i == j
  {
    var i := StrideReaches(CELLS, STRIDE, 58, 25, p);
    forall i, j | 0 <= i < CELLS && 0 <= j < CELLS && Position(CELLS, STRIDE, i) == p && Position(CELLS, STRIDE, j) == p
      ensures i == j
    {
      StrideIsInjective(CELLS, STRIDE, 58, 25, i, j);
    }
  }

  // ----- the conservative test

  /** The four directions of a line. */
  function Direction(d: int): Point
    requires 0 <= d < 4
  {
    if d == 0 then Point(1, 0) else if d == 1 then Point(0, 1) else if d == 2 then Point(1, 1) else Point(1, -1)
  }

  function Along(p: Point, d: int, step: int): Point
    requires 0 <= d < 4
  {
    Point(p.x + step * Direction(d).x, p.y + step * Direction(d).y)
  }

  predicate BlackAt(board: Board, p: Point) {
    OnBoard(p) && At(board, p) == Black
  }

  function Distance(a: int, b: int): int {
    if a < b then b - a else a - b
  }

  /** Two points share a row, a column or a diagonal. */
  predicate InLine(p: Point, q: Point) {
    p.x == q.x || p.y == q.y || Distance(p.x, q.x) == Distance(p.y, q.y)
  }

  lemma AlongIsInLine(p: Point, d: int, step: int)
    requires 0 <= d < 4
    ensures
      var q := Along(p, d, step);
      InLine(p, q) && Distance(0, step) == (if Distance(p.x, q.x) < Distance(p.y, q.y) then Distance(p.y, q.y)
                                            else Distance(p.x, q.x))
  {
  }

  lemma AlongLeaves(p: Point, d: int, step: int)
    requires 0 <= d < 4 && step != 0
    ensures Along(p, d, step) != p
  {
  }

  /** The direction and the step from one point to another in line with it. */
  lemma InLineIsAlong(p: Point, q: Point) returns (d: int, step: int)
    requires InLine(p, q)
    ensures 0 <= d < 4 && q == Along(p, d, step)
  {
    if p.y == q.y {
      d, step := 0, q.x - p.x;
    } else if p.x == q.x {
      d, step := 1, q.y - p.y;
    } else if q.x - p.x == q.y - p.y {
      d, step := 2, q.x - p.x;
    } else {
      d, step := 3, q.x - p.x;
    }
  }

  /** The four directions are the row, the column and the two diagonals of a point: another point
      is on one of them exactly if it is in line, on one only, and as many steps away as
      the coordinates that differ say. */
  lemma DirectionsAreLines(p: Point, q: Point)
    requires p != q
    ensures InLine(p, q) <==> exists d, step :: 0 <= d < 4 && q == Along(p, d, step)
    ensures forall d, e, step, other ::
              0 <= d < 4 && 0 <= e < 4 && q == Along(p, d, step) && q == Along(p, e, other) ==> d == e && step == other
    ensures forall d, step :: 0 <= d < 4 && q == Along(p, d, step) ==>
              Distance(0, step) == (if Distance(p.x, q.x) < Distance(p.y, q.y) then Distance(p.y, q.y)
                                    else Distance(p.x, q.x))
  {
    if InLine(p, q) {
      var d, step := InLineIsAlong(p, q);
    }
    forall d, step | 0 <= d < 4 && q == Along(p, d, step)
      ensures InLine(p, q)
      ensures Distance(0, step) == (if Distance(p.x, q.x) < Distance(p.y, q.y) then Distance(p.y, q.y)
                                    else Distance(p.x, q.x))
    {
      AlongIsInLine(p, d, step);
    }
  }

  /** The point is empty, and no other point with a black stone that is at most four away in
      either coordinate is in line with it. */
  ghost predicate Safe(board: Board, p: Point) {
    && EmptyAt(board, p)
    && forall q :: q != p && Distance(p.x, q.x) <= 4 && Distance(p.y, q.y) <= 4 && InLine(p, q) ==> !BlackAt(board, q)
  }

  /** Looking four steps along the four directions both ways finds all of them. */
  lemma SafeAlong(board: Board, p: Point)
    ensures Safe(board, p) <==> EmptyAt(board, p) && forall d :: 0 <= d < 4 ==> ClearAlong(board, p, d)
  {
    if Safe(board, p) {
      forall d, step | 0 <= d < 4 && -4 <= step <= 4 && step != 0
        ensures !BlackAt(board, Along(p, d, step))
      {
        AlongIsInLine(p, d, step);
      }
    }
    if forall d :: 0 <= d < 4 ==> ClearAlong(board, p, d) {
      forall q | q != p && Distance(p.x, q.x) <= 4 && Distance(p.y, q.y) <= 4 && InLine(p, q)
        ensures !BlackAt(board, q)
      {
        var d, step := InLineIsAlong(p, q);
        AlongIsInLine(p, d, step);
        assert ClearAlong(board, p, d);
      }
    }
  }

  method BlackMoveIsConservativelySafe(board: Board, x: int, y: int) returns (safe: bool)
    ensures safe <==> Safe(board, Point(x, y))
  {
    var p := Point(x, y);
    SafeAlong(board, p);
    if !EmptyAt(board, p) {
      return false;
    }
    for d := 0 to 4
      invariant forall e :: 0 <= e < d ==> ClearAlong(board, p, e)
    {
      safe := LineIsClear(board, p, d);
      if !safe {
        return;
      }
    }
    safe := true;
  }

  /** No black stone within four steps in one direction and back. */
  predicate ClearAlong(board: Board, p: Point, d: int)
    requires 0 <= d < 4
  {
    forall step :: -4 <= step <= 4 && step != 0 ==> !BlackAt(board, Along(p, d, step))
  }

  method LineIsClear(board: Board, p: Point, d: int) returns (clear: bool)
    requires 0 <= d < 4
    ensures clear <==> ClearAlong(board, p, d)
  {
    for step := -4 to 5
      invariant forall k :: -4 <= k < step && k != 0 ==> !BlackAt(board, Along(p, d, k))
    {
      if step != 0 && BlackAt(board, Along(p, d, step)) {
        return false;
      }
    }
    clear := true;
  }

  function PointOf(position: int): Point {
    Point(position / SIZE, position % SIZE)
  }

  /** The index-th point of the search. */
  function Visit(index: int): Point {
    PointOf(Position(CELLS, STRIDE, index))
  }

  /** A number less than the size, taken from a remainder, goes round once if at all. */
  lemma RoundOnce(a: int, n: int, step: int)
    requires 0 <= step < n
    ensures (a - step) % n == if a % n < step then a % n - step + n else a % n - step
  {
    var q, r := a / n, a % n;
    if r < step {
      ModUnique(a - step, n, q - 1, r - step + n);
    } else {
      ModUnique(a - step, n, q, r - step);
    }
  }

  /** The search starts in the last corner and goes back 97 cells at a time, round the board. */
  lemma VisitsInOrder(index: nat)
    ensures Visit(0) == Point(SIZE - 1, SIZE - 1)
    ensures
      var back := CellOf(Visit(index)) - STRIDE;
      CellOf(Visit(index + 1)) == if back < 0 then back + CELLS else back
  {
    RoundOnce(CELLS - 1 - index * STRIDE, CELLS, STRIDE);
    assert CELLS - 1 - (index + 1) * STRIDE == CELLS - 1 - index * STRIDE - STRIDE;
    CellOfPoint(Position(CELLS, STRIDE, index));
    CellOfPoint(Position(CELLS, STRIDE, index + 1));
  }

  function CellOf(p: Point): int {
    p.x * SIZE + p.y
  }

  lemma CellOfPoint(position: int)
    ensures CellOf(PointOf(position)) == position
  {
  }

  /** Every point of the board is visited. */
  lemma EveryPointIsVisited(p: Point) returns (index: int)
    requires OnBoard(p)
    ensures 0 <= index < CELLS && Visit(index) == p
  {
    var position := p.x * SIZE + p.y;
    index := StrideReaches(CELLS, STRIDE, 58, 25, position);
  }

  /** The first safe point in the order of the search. */
  ghost predicate FirstSafe(board: Board, p: Point) {
    exists index :: 0 <= index < CELLS && Visit(index) == p && Safe(board, p)
                    && forall i :: 0 <= i < index ==> !Safe(board, Visit(i))
  }

  /** The search answers with the first safe point, and with none only if the board has none. */
  method SafeBlackMove(board: Board) returns (r: Option<Point>)
    ensures r.Some? ==> FirstSafe(board, r.value)
    ensures r.None? <==> forall p :: OnBoard(p) ==> !Safe(board, p)
  {
    for index := 0 to CELLS
      invariant forall i :: 0 <= i < index ==> !Safe(board, Visit(i))
    {
      var position := (CELLS - 1 - index * STRIDE) % CELLS;
      assert position == Position(CELLS, STRIDE, index);
      var x, y := position / SIZE, position % SIZE;
      var safe := BlackMoveIsConservativelySafe(board, x, y);
      if safe {
        assert Visit(index) == Point(x, y);
        return Some(Point(x, y));
      }
    }
    forall p | OnBoard(p)
      ensures !Safe(board, p)
    {
      var i := EveryPointIsVisited(p);
    }
    r := None;
  }

  /** The C bot's search, with its remainder put right, answers the same. */
  method ChooseSafeBlackMove(board: Board) returns (found: bool, outX: int, outY: int)
    ensures found ==> FirstSafe(board, Point(outX, outY))
    ensures !found <==> forall p :: OnBoard(p) ==> !Safe(board, p)
    ensures !found ==> outX == -99 && outY == -99
  {
    for index := 0 to CELLS
      invariant forall i :: 0 <= i < index ==> !Safe(board, Visit(i))
    {
      var position := Remainder(CELLS - 1 - index * STRIDE, CELLS);
      RemainderFixed(CELLS - 1 - index * STRIDE, CELLS);
      if position < 0 {
        position := position + CELLS;
      }
      assert position == Position(CELLS, STRIDE, index);
      var x, y := position / SIZE, position % SIZE;
      var safe := BlackMoveIsConservativelySafe(board, x, y);
      if safe {
        assert Visit(index) == Point(x, y);
        return true, x, y;
      }
    }
    forall p | OnBoard(p)
      ensures !Safe(board, p)
    {
      var i := EveryPointIsVisited(p);
    }
    found, outX, outY := false, -99, -99;
  }

  /** Both searches have at most one answer. */
  lemma OneFirstSafe(board: Board, p: Point, q: Point)
    requires FirstSafe(board, p) && FirstSafe(board, q)
    ensures p == q
  {
    var i :| 0 <= i < CELLS && Visit(i) == p && Safe(board, p) && forall k :: 0 <= k < i ==> !Safe(board, Visit(k));
    var j :| 0 <= j < CELLS && Visit(j) == q && Safe(board, q) && forall k :: 0 <= k < j ==> !Safe(board, Visit(k));
    assert i < j ==> !Safe(board, Visit(i));
  }
}

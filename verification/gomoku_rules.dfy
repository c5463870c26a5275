/** The referee's classification of a black move (bzplat/backend/games/gomoku/forbidden.py),
    and what it says of the moves that the sample bots call safe. */
module GomokuRules {
  import opened Gomoku

  datatype Kind = ExactFive | Overline | DoubleFour | DoubleThree | Legal

  /** The steps left on the board from a point, one way along a line. */
  function Room(p: Point, d: int, sign: int): nat
    requires 0 <= d < 4 && (sign == 1 || sign == -1)
  {
    if !OnBoard(p) then 0
    else if d == 1 then (if sign == 1 then SIZE - p.y else p.y + 1)
    else (if sign == 1 then SIZE - p.x else p.x + 1)
  }

  /** How many black stones follow each other from a point on. */
  function Chain(black: set<Point>, p: Point, d: int, sign: int): nat
    requires 0 <= d < 4 && (sign == 1 || sign == -1)
    decreases Room(p, d, sign)
  {
    if OnBoard(p) && p in black then 1 + Chain(black, Along(p, d, sign), d, sign) else 0
  }

  /** The unbroken run of black stones through a stone. */
  function RunLength(black: set<Point>, anchor: Point, d: int): nat
    requires 0 <= d < 4
  {
    1 + Chain(black, Along(anchor, d, -1), d, -1) + Chain(black, Along(anchor, d, 1), d, 1)
  }

  /** The run in one of the four directions is exactly five, or longer. */
  predicate FiveRun(black: set<Point>, anchor: Point) {
    exists d :: 0 <= d < 4 && RunLength(black, anchor, d) == 5
  }

  predicate LongRun(black: set<Point>, anchor: Point) {
    exists d :: 0 <= d < 4 && RunLength(black, anchor, d) >= 6
  }

  /** The first point and the points of a segment in which the anchor has an offset. */
  function First(anchor: Point, d: int, offset: int): Point
    requires 0 <= d < 4
  {
    Along(anchor, d, -offset)
  }

  function Segment(start: Point, d: int, length: int): set<Point>
    requires 0 <= d < 4
  {
    set i | 0 <= i < length :: Along(start, d, i)
  }

  predicate Fits(start: Point, d: int, length: int)
    requires 0 <= d < 4
  {
    OnBoard(start) && OnBoard(Along(start, d, length - 1))
  }

  /** The first point of a segment that no stone occupies. */
  function Gap(black: set<Point>, white: set<Point>, start: Point, d: int, length: nat): (r: Option<Point>)
    requires 0 <= d < 4
    ensures r.Some? ==> r.value !in black && r.value !in white
    ensures r.Some? ==> exists i :: 0 <= i < length && r.value == Along(start, d, i)
    decreases length
  {
    if length == 0 then None
    else
      match Gap(black, white, start, d, length - 1)
      case Some(p) => Some(p)
      case None =>
        var p := Along(start, d, length - 1);
        if p in black || p in white then None else Some(p)
  }

  predicate IsFour(black: set<Point>, white: set<Point>, anchor: Point, d: int, offset: int)
    requires 0 <= d < 4
  {
    var start := First(anchor, d, offset);
    && Fits(start, d, 5)
    && var window := Segment(start, d, 5);
    && |window * black| == 4 && |window - black - white| == 1 && anchor in window * black
    && var gap := Gap(black, white, start, d, 5);
    gap.Some? && RunLength(black + {gap.value}, gap.value, d) == 5
  }

  function FourPatterns(black: set<Point>, white: set<Point>, anchor: Point): set<(int, set<Point>)> {
    set d, offset | 0 <= d < 4 && 0 <= offset < 5 && IsFour(black, white, anchor, d, offset)
      :: (d, Segment(First(anchor, d, offset), d, 5) * black)
  }

  /** The unoccupied points of the board. */
  function Free(black: set<Point>, white: set<Point>): set<Point> {
    set x, y | 0 <= x < SIZE && 0 <= y < SIZE && Point(x, y) !in black && Point(x, y) !in white :: Point(x, y)
  }

  lemma LineInside(start: Point, d: int, length: int, i: int)
    requires 0 <= d < 4 && Fits(start, d, length) && 0 <= i < length
    ensures OnBoard(Along(start, d, i))
  {
  }

  /** A three is real if a legal move turns it into a straight four. */
  predicate IsThree(black: set<Point>, white: set<Point>, anchor: Point, d: int, offset: int)
    requires 0 <= d < 4
    decreases Free(black, white), 0
  {
    var start := First(anchor, d, offset);
    && Fits(start, d, 4)
    && var segment := Segment(start, d, 4);
    && |segment * black| == 3 && |segment - black - white| == 1 && anchor in segment * black
    && var gap := Gap(black, white, start, d, 4);
    && gap.Some?
    && var left := Along(start, d, -1);
    && var right := Along(start, d, 4);
    && OnBoard(left) && OnBoard(right)
    && var after := black + {gap.value};
    && left !in after && left !in white && right !in after && right !in white
    && RunLength(after + {left}, left, d) == 5 && RunLength(after + {right}, right, d) == 5
    && var i :| 0 <= i < 4 && gap.value == Along(start, d, i);
    LineInside(start, d, 4, i);
    assert gap.value in Free(black, white) && gap.value !in Free(after, white);
    Classify(after, white, gap.value) == Legal
  }

  function ThreePatterns(black: set<Point>, white: set<Point>, anchor: Point): set<(int, set<Point>)>
    decreases Free(black, white), 1
  {
    set d, offset | 0 <= d < 4 && 0 <= offset < 4 && IsThree(black, white, anchor, d, offset)
      :: (d, Segment(First(anchor, d, offset), d, 4) * black)
  }

  function Classify(black: set<Point>, white: set<Point>, anchor: Point): Kind
    decreases Free(black, white), 2
  {
    if FiveRun(black, anchor) then ExactFive
    else if LongRun(black, anchor) then Overline
    else if |FourPatterns(black, white, anchor)| >= 2 then DoubleFour
    else if |ThreePatterns(black, white, anchor)| >= 2 then DoubleThree
    else Legal
  }

  // ----- what a run is

  predicate StoneAt(black: set<Point>, p: Point, d: int, step: int)
    requires 0 <= d < 4
  {
    OnBoard(Along(p, d, step)) && Along(p, d, step) in black
  }

  /** The black stones next to a point and each other reach from one step to another. */
  ghost predicate Spans(black: set<Point>, p: Point, d: int, low: int, high: int)
    requires 0 <= d < 4
  {
    && low <= 0 <= high
    && (forall k :: low <= k <= high && k != 0 ==> StoneAt(black, p, d, k))
    && !StoneAt(black, p, d, low - 1) && !StoneAt(black, p, d, high + 1)
  }

  /** A stone at the point stands in a row of exactly n, ended on both sides by the edge or by
      a point without a black stone. */
  ghost predicate Row(black: set<Point>, p: Point, d: int, n: int)
    requires 0 <= d < 4
  {
    exists low, high :: high - low + 1 == n && Spans(black, p, d, low, high)
  }

  lemma OneFurther(p: Point, d: int, m: int, sign: int)
    requires 0 <= d < 4 && (sign == 1 || sign == -1)
    ensures Along(Along(p, d, m), d, sign) == Along(p, d, m + sign)
  {
  }

  lemma {:induction false} ChainAhead(black: set<Point>, p: Point, d: int, m: int)
    requires 0 <= d < 4
    ensures
      var n := Chain(black, Along(p, d, m), d, 1);
      (forall k :: m <= k < m + n ==> StoneAt(black, p, d, k)) && !StoneAt(black, p, d, m + n)
    decreases Room(Along(p, d, m), d, 1)
  {
    OneFurther(p, d, m, 1);
    if StoneAt(black, p, d, m) {
      ChainAhead(black, p, d, m + 1);
    }
  }

  lemma {:induction false} ChainBack(black: set<Point>, p: Point, d: int, m: int)
    requires 0 <= d < 4
    ensures
      var n := Chain(black, Along(p, d, m), d, -1);
      (forall k :: m - n < k <= m ==> StoneAt(black, p, d, k)) && !StoneAt(black, p, d, m - n)
    decreases Room(Along(p, d, m), d, -1)
  {
    OneFurther(p, d, m, -1);
    if StoneAt(black, p, d, m) {
      ChainBack(black, p, d, m - 1);
    }
  }

  lemma SpanIsUnique(black: set<Point>, p: Point, d: int, low: int, high: int, low2: int, high2: int)
    requires 0 <= d < 4 && Spans(black, p, d, low, high) && Spans(black, p, d, low2, high2)
    ensures low == low2 && high == high2
  {
  }

  /** The two counts outwards measure the row. */
  lemma RunIsRow(black: set<Point>, p: Point, d: int, n: int)
    requires 0 <= d < 4
    ensures RunLength(black, p, d) == n <==> Row(black, p, d, n)
  {
    var back: int, ahead: int := Chain(black, Along(p, d, -1), d, -1), Chain(black, Along(p, d, 1), d, 1);
    ChainAhead(black, p, d, 1);
    ChainBack(black, p, d, -1);
    assert Spans(black, p, d, -back, ahead);
    if Row(black, p, d, n) {
      var low, high :| high - low + 1 == n && Spans(black, p, d, low, high);
      SpanIsUnique(black, p, d, low, high, -back, ahead);
    }
  }

  // ----- what the patterns are

  /** A board point that no stone occupies. */
  predicate Vacant(black: set<Point>, white: set<Point>, p: Point) {
    OnBoard(p) && p !in black && p !in white
  }

  /** A line of points on the board that is the stones and one vacant point. */
  ghost predicate Completes(black: set<Point>, white: set<Point>, stones: set<Point>, start: Point, d: int,
                            length: int, p: Point)
    requires 0 <= d < 4
  {
    && (forall q :: q in Segment(start, d, length) ==> OnBoard(q)) && Segment(start, d, length) == stones + {p}
    && Vacant(black, white, p)
  }

  /** A segment is on the board if its ends are. */
  lemma FitsIsOnBoard(start: Point, d: int, length: int)
    requires 0 <= d < 4 && length > 0
    ensures Fits(start, d, length) <==> forall q :: q in Segment(start, d, length) ==> OnBoard(q)
  {
    if Fits(start, d, length) {
      forall q | q in Segment(start, d, length)
        ensures OnBoard(q)
      {
        var i :| 0 <= i < length && q == Along(start, d, i);
        LineInside(start, d, length, i);
      }
    }
    assert Along(start, d, 0) in Segment(start, d, length) && Along(start, d, length - 1) in Segment(start, d, length);
  }

  /** A four by its stones: one more stone makes five of them, and exactly five. */
  ghost predicate RealFour(black: set<Point>, white: set<Point>, anchor: Point, d: int, stones: set<Point>) {
    && 0 <= d < 4 && stones <= black && |stones| == 4 && anchor in stones
    && exists start, p :: Completes(black, white, stones, start, d, 5, p) && Row(black + {p}, p, d, 5)
  }

  /** A straight four: four in a row with a vacant point at either end that makes exactly five. */
  ghost predicate StraightFour(black: set<Point>, white: set<Point>, start: Point, d: int)
    requires 0 <= d < 4
  {
    var left, right := Along(start, d, -1), Along(start, d, 4);
    && Vacant(black, white, left) && Vacant(black, white, right)
    && Row(black + {left}, left, d, 5) && Row(black + {right}, right, d, 5)
  }

  /** A three by its stones: one more stone, on a point where Black may legally move without
      winning, makes a straight four of them. */
  ghost predicate RealThree(black: set<Point>, white: set<Point>, anchor: Point, d: int, stones: set<Point>) {
    && 0 <= d < 4 && stones <= black && |stones| == 3 && anchor in stones
    && exists start, p ::
         && Completes(black, white, stones, start, d, 4, p)
         && StraightFour(black + {p}, white, start, d) && Classify(black + {p}, white, p) == Legal
  }

  lemma {:induction false} SegmentSize(start: Point, d: int, length: nat)
    requires 0 <= d < 4
    ensures |Segment(start, d, length)| == length
    decreases length
  {
    if length > 0 {
      SegmentSize(start, d, length - 1);
      var last := Along(start, d, length - 1);
      assert last !in Segment(start, d, length - 1);
      assert Segment(start, d, length) == Segment(start, d, length - 1) + {last};
    }
  }

  /** The gap is found if there is one. */
  lemma {:induction false} GapIsFound(black: set<Point>, white: set<Point>, start: Point, d: int, length: nat)
    requires 0 <= d < 4
    ensures Gap(black, white, start, d, length).None? ==> Segment(start, d, length) <= black + white
    decreases length
  {
    if length > 0 {
      GapIsFound(black, white, start, d, length - 1);
      assert Segment(start, d, length) == Segment(start, d, length - 1) + {Along(start, d, length - 1)};
    }
  }

  /** A segment with all but one point black and the one free is those stones and the gap. */
  lemma GapCompletes(black: set<Point>, white: set<Point>, start: Point, d: int, length: nat)
    requires 0 <= d < 4 && Fits(start, d, length) && length > 0
    requires
      var window := Segment(start, d, length);
      |window * black| == length - 1 && |window - black - white| == 1
    ensures
      var gap := Gap(black, white, start, d, length);
      gap.Some? && Completes(black, white, Segment(start, d, length) * black, start, d, length, gap.value)
  {
    var window := Segment(start, d, length);
    GapIsFound(black, white, start, d, length);
    SegmentSize(start, d, length);
    FitsIsOnBoard(start, d, length);
    var p := Gap(black, white, start, d, length).value;
    var i :| 0 <= i < length && p == Along(start, d, i);
    LineInside(start, d, length, i);
    SameSize(window * black + {p}, window);
  }

  lemma SameSize(a: set<Point>, b: set<Point>)
    requires a <= b && |a| == |b|
    ensures a == b
  {
    assert b == a + (b - a);
  }

  lemma SizeIsPositive(stones: set<Point>, length: nat)
    requires |stones| == length - 1
    ensures length > 0
  {
  }

  /** And the other way round: the only completion of the stones is the gap. */
  lemma CompletionIsGap(black: set<Point>, white: set<Point>, stones: set<Point>, start: Point, d: int,
                        length: nat, p: Point)
    requires 0 <= d < 4 && stones <= black && |stones| == length - 1
    requires Completes(black, white, stones, start, d, length, p)
    ensures
      var window := Segment(start, d, length);
      && Fits(start, d, length) && window * black == stones && |window - black - white| == 1
      && Gap(black, white, start, d, length) == Some(p)
  {
    var window := Segment(start, d, length);
    SizeIsPositive(stones, length);
    FitsIsOnBoard(start, d, length);
    assert window - black - white == {p};
    GapIsFound(black, white, start, d, length);
    assert p in window;
  }

  lemma OffsetOf(anchor: Point, start: Point, d: int, length: int) returns (offset: int)
    requires 0 <= d < 4 && anchor in Segment(start, d, length)
    ensures 0 <= offset < length && First(anchor, d, offset) == start
  {
    offset :| 0 <= offset < length && anchor == Along(start, d, offset);
  }

  function FourStones(black: set<Point>, anchor: Point, d: int, offset: int): set<Point>
    requires 0 <= d < 4
  {
    Segment(First(anchor, d, offset), d, 5) * black
  }

  lemma FourIsReal(black: set<Point>, white: set<Point>, anchor: Point, d: int, offset: int)
    requires 0 <= d < 4 && IsFour(black, white, anchor, d, offset)
    ensures RealFour(black, white, anchor, d, FourStones(black, anchor, d, offset))
  {
    var start := First(anchor, d, offset);
    GapCompletes(black, white, start, d, 5);
    var p := Gap(black, white, start, d, 5).value;
    RunIsRow(black + {p}, p, d, 5);
    assert Completes(black, white, FourStones(black, anchor, d, offset), start, d, 5, p);
  }

  lemma RealIsFour(black: set<Point>, white: set<Point>, anchor: Point, d: int, stones: set<Point>)
    requires RealFour(black, white, anchor, d, stones)
    ensures exists offset :: 0 <= offset < 5 && IsFour(black, white, anchor, d, offset)
                             && stones == FourStones(black, anchor, d, offset)
  {
    var start, p :| Completes(black, white, stones, start, d, 5, p) && Row(black + {p}, p, d, 5);
    CompletionIsGap(black, white, stones, start, d, 5, p);
    RunIsRow(black + {p}, p, d, 5);
    var offset := OffsetOf(anchor, start, d, 5);
    assert IsFour(black, white, anchor, d, offset);
  }

  /** The fours that the search collects are the fours there are, each once. */
  lemma FoursAreReal(black: set<Point>, white: set<Point>, anchor: Point, d: int, stones: set<Point>)
    ensures (d, stones) in FourPatterns(black, white, anchor) <==> RealFour(black, white, anchor, d, stones)
  {
    if RealFour(black, white, anchor, d, stones) {
      RealIsFour(black, white, anchor, d, stones);
    }
    if (d, stones) in FourPatterns(black, white, anchor) {
      var offset :| 0 <= offset < 5 && IsFour(black, white, anchor, d, offset)
                    && stones == Segment(First(anchor, d, offset), d, 5) * black;
      FourIsReal(black, white, anchor, d, offset);
    }
  }

  function ThreeStones(black: set<Point>, anchor: Point, d: int, offset: int): set<Point>
    requires 0 <= d < 4
  {
    Segment(First(anchor, d, offset), d, 4) * black
  }

  lemma EndsAreRows(black: set<Point>, white: set<Point>, start: Point, d: int)
    requires 0 <= d < 4
    ensures
      var left, right := Along(start, d, -1), Along(start, d, 4);
      StraightFour(black, white, start, d) <==>
        Vacant(black, white, left) && Vacant(black, white, right)
        && RunLength(black + {left}, left, d) == 5 && RunLength(black + {right}, right, d) == 5
  {
    RunIsRow(black + {Along(start, d, -1)}, Along(start, d, -1), d, 5);
    RunIsRow(black + {Along(start, d, 4)}, Along(start, d, 4), d, 5);
  }

  lemma ThreeIsReal(black: set<Point>, white: set<Point>, anchor: Point, d: int, offset: int)
    requires 0 <= d < 4 && IsThree(black, white, anchor, d, offset)
    ensures RealThree(black, white, anchor, d, ThreeStones(black, anchor, d, offset))
  {
    var start := First(anchor, d, offset);
    GapCompletes(black, white, start, d, 4);
    var p := Gap(black, white, start, d, 4).value;
    EndsAreRows(black + {p}, white, start, d);
    assert Completes(black, white, ThreeStones(black, anchor, d, offset), start, d, 4, p);
  }

  lemma RealIsThree(black: set<Point>, white: set<Point>, anchor: Point, d: int, stones: set<Point>)
    requires RealThree(black, white, anchor, d, stones)
    ensures exists offset :: 0 <= offset < 4 && IsThree(black, white, anchor, d, offset)
                             && stones == ThreeStones(black, anchor, d, offset)
  {
    var start, p :| Completes(black, white, stones, start, d, 4, p)
                    && StraightFour(black + {p}, white, start, d) && Classify(black + {p}, white, p) == Legal;
    CompletionIsGap(black, white, stones, start, d, 4, p);
    EndsAreRows(black + {p}, white, start, d);
    var offset := OffsetOf(anchor, start, d, 4);
    assert IsThree(black, white, anchor, d, offset);
  }

  /** The threes that the search collects are the real threes there are, each once. */
  lemma ThreesAreReal(black: set<Point>, white: set<Point>, anchor: Point, d: int, stones: set<Point>)
    ensures (d, stones) in ThreePatterns(black, white, anchor) <==> RealThree(black, white, anchor, d, stones)
  {
    if RealThree(black, white, anchor, d, stones) {
      RealIsThree(black, white, anchor, d, stones);
    }
    if (d, stones) in ThreePatterns(black, white, anchor) {
      var offset :| 0 <= offset < 4 && IsThree(black, white, anchor, d, offset)
                    && stones == Segment(First(anchor, d, offset), d, 4) * black;
      ThreeIsReal(black, white, anchor, d, offset);
    }
  }

  // ----- what the classification means

  ghost predicate TwoFours(black: set<Point>, white: set<Point>, anchor: Point) {
    exists d, e, s, t ::
      (d, s) != (e, t) && RealFour(black, white, anchor, d, s) && RealFour(black, white, anchor, e, t)
  }

  ghost predicate TwoThrees(black: set<Point>, white: set<Point>, anchor: Point) {
    exists d, e, s, t ::
      (d, s) != (e, t) && RealThree(black, white, anchor, d, s) && RealThree(black, white, anchor, e, t)
  }

  /** A row of some length through the point, in some direction. */
  ghost predicate Makes(black: set<Point>, p: Point, n: int) {
    exists d :: 0 <= d < 4 && Row(black, p, d, n)
  }

  lemma TwoOf<T>(s: set<T>)
    ensures |s| >= 2 <==> exists a, b :: a != b && a in s && b in s
  {
    if |s| >= 2 {
      var a :| a in s;
      assert |s - {a}| >= 1;
      var b :| b in s - {a};
    }
    if a, b :| a != b && a in s && b in s {
      SubsetCount({a, b}, s);
    }
  }

  lemma SubsetCount<T>(a: set<T>, b: set<T>)
    requires a <= b
    ensures |a| <= |b|
  {
    assert b == a + (b - a);
  }

  lemma DoubleFours(black: set<Point>, white: set<Point>, anchor: Point)
    ensures |FourPatterns(black, white, anchor)| >= 2 <==> TwoFours(black, white, anchor)
  {
    TwoOf(FourPatterns(black, white, anchor));
    forall d, s
      ensures (d, s) in FourPatterns(black, white, anchor) <==> RealFour(black, white, anchor, d, s)
    {
      FoursAreReal(black, white, anchor, d, s);
    }
  }

  lemma DoubleThrees(black: set<Point>, white: set<Point>, anchor: Point)
    ensures |ThreePatterns(black, white, anchor)| >= 2 <==> TwoThrees(black, white, anchor)
  {
    TwoOf(ThreePatterns(black, white, anchor));
    forall d, s
      ensures (d, s) in ThreePatterns(black, white, anchor) <==> RealThree(black, white, anchor, d, s)
    {
      ThreesAreReal(black, white, anchor, d, s);
    }
  }

  /** A row of six or more. */
  ghost predicate MakesMore(black: set<Point>, p: Point) {
    exists n :: n >= 6 && Makes(black, p, n)
  }

  lemma FiveByRun(black: set<Point>, p: Point)
    ensures Makes(black, p, 5) <==> FiveRun(black, p)
  {
    forall d | 0 <= d < 4
      ensures RunLength(black, p, d) == 5 <==> Row(black, p, d, 5)
    {
      RunIsRow(black, p, d, 5);
    }
  }

  lemma MoreByRun(black: set<Point>, p: Point)
    ensures MakesMore(black, p) <==> LongRun(black, p)
  {
    if LongRun(black, p) {
      var d :| 0 <= d < 4 && RunLength(black, p, d) >= 6;
      RunIsRow(black, p, d, RunLength(black, p, d));
      assert Makes(black, p, RunLength(black, p, d));
    }
    if n :| n >= 6 && Makes(black, p, n) {
      var d :| 0 <= d < 4 && Row(black, p, d, n);
      RunIsRow(black, p, d, n);
    }
  }

  lemma Decided(black: set<Point>, white: set<Point>, anchor: Point, five: bool, more: bool, fours: bool, threes: bool)
    requires five == FiveRun(black, anchor) && more == LongRun(black, anchor)
    requires fours <==> |FourPatterns(black, white, anchor)| >= 2
    requires threes <==> |ThreePatterns(black, white, anchor)| >= 2
    ensures Classify(black, white, anchor) ==
            if five then ExactFive else if more then Overline else if fours then DoubleFour
            else if threes then DoubleThree else Legal
  {
  }

  /** The classification by what stands on the board: exactly five before anything else, then
      six or more, then two fours, then two real threes. */
  lemma ClassifyMeans(black: set<Point>, white: set<Point>, anchor: Point)
    ensures
      Classify(black, white, anchor) ==
        if Makes(black, anchor, 5) then ExactFive
        else if MakesMore(black, anchor) then Overline
        else if TwoFours(black, white, anchor) then DoubleFour
        else if TwoThrees(black, white, anchor) then DoubleThree
        else Legal
  {
    FiveByRun(black, anchor);
    MoreByRun(black, anchor);
    DoubleFours(black, white, anchor);
    DoubleThrees(black, white, anchor);
    Decided(black, white, anchor, Makes(black, anchor, 5), MakesMore(black, anchor), TwoFours(black, white, anchor),
            TwoThrees(black, white, anchor));
  }

  // ----- safe moves

  function Stones(board: Board, cell: Cell): set<Point> {
    set x, y | 0 <= x < SIZE && 0 <= y < SIZE && At(board, Point(x, y)) == cell :: Point(x, y)
  }

  /** No other black stone within four steps on a line through the point. */
  ghost predicate Alone(black: set<Point>, p: Point) {
    && OnBoard(p) && p in black
    && forall d, step :: 0 <= d < 4 && -4 <= step <= 4 && step != 0 && OnBoard(Along(p, d, step)) ==>
         Along(p, d, step) !in black
  }

  lemma BlackIsStone(board: Board, q: Point)
    ensures q in Stones(board, Black) <==> BlackAt(board, q)
  {
  }

  lemma SafeIsAlone(board: Board, p: Point)
    requires Safe(board, p)
    ensures Alone(Stones(board, Black) + {p}, p)
  {
    SafeAlong(board, p);
    forall d, step | 0 <= d < 4 && -4 <= step <= 4 && step != 0 && OnBoard(Along(p, d, step))
      ensures Along(p, d, step) !in Stones(board, Black) + {p}
    {
      assert ClearAlong(board, p, d);
      AlongLeaves(p, d, step);
      BlackIsStone(board, Along(p, d, step));
    }
  }

  lemma OffsetSteps(p: Point, d: int, offset: int, i: int)
    requires 0 <= d < 4
    ensures Along(First(p, d, offset), d, i) == Along(p, d, i - offset)
    ensures Along(p, d, 0) == p
  {
  }

  /** Any segment of up to five points through the stone has that stone alone. */
  lemma WindowHasOne(black: set<Point>, p: Point, d: int, length: int, offset: int)
    requires Alone(black, p) && 0 <= d < 4 && 0 <= offset < length <= 5
    requires Fits(First(p, d, offset), d, length)
    ensures Segment(First(p, d, offset), d, length) * black == {p}
  {
    var start := First(p, d, offset);
    var window := Segment(start, d, length);
    OffsetSteps(p, d, offset, offset);
    forall q | q in window && q in black
      ensures q == p
    {
      var i :| 0 <= i < length && q == Along(start, d, i);
      LineInside(start, d, length, i);
      OffsetSteps(p, d, offset, i);
    }
  }

  lemma AloneRunsAreShort(black: set<Point>, p: Point, d: int)
    requires Alone(black, p) && 0 <= d < 4
    ensures RunLength(black, p, d) == 1
  {
    assert !OnBoard(Along(p, d, 1)) || Along(p, d, 1) !in black;
    assert !OnBoard(Along(p, d, -1)) || Along(p, d, -1) !in black;
  }

  /** A stone alone on its lines is no five, no overline, no four and no three: the referee
      calls the move legal. */
  lemma AloneIsLegal(black: set<Point>, white: set<Point>, p: Point)
    requires Alone(black, p)
    ensures FourPatterns(black, white, p) == {} && ThreePatterns(black, white, p) == {}
    ensures Classify(black, white, p) == Legal
  {
    forall d | 0 <= d < 4
      ensures RunLength(black, p, d) == 1
    {
      AloneRunsAreShort(black, p, d);
    }
    forall d, offset | 0 <= d < 4 && 0 <= offset < 5
      ensures !IsFour(black, white, p, d, offset)
    {
      if Fits(First(p, d, offset), d, 5) {
        WindowHasOne(black, p, d, 5, offset);
      }
    }
    forall d, offset | 0 <= d < 4 && 0 <= offset < 4
      ensures !IsThree(black, white, p, d, offset)
    {
      if Fits(First(p, d, offset), d, 4) {
        WindowHasOne(black, p, d, 4, offset);
      }
    }
  }

  /** The move a sample bot picks for Black is never forbidden, nor a win. */
  lemma SafeMoveIsLegal(board: Board, p: Point)
    requires FirstSafe(board, p)
    ensures At(board, p) == Empty
    ensures Classify(Stones(board, Black) + {p}, Stones(board, White), p) == Legal
    ensures forall d, offset :: 0 <= d < 4 && 0 <= offset < 5 && Fits(First(p, d, offset), d, 5) ==>
              Segment(First(p, d, offset), d, 5) * (Stones(board, Black) + {p}) == {p}
  {
    var black := Stones(board, Black) + {p};
    SafeIsAlone(board, p);
    AloneIsLegal(black, Stones(board, White), p);
    forall d, offset | 0 <= d < 4 && 0 <= offset < 5 && Fits(First(p, d, offset), d, 5)
      ensures Segment(First(p, d, offset), d, 5) * black == {p}
    {
      WindowHasOne(black, p, d, 5, offset);
    }
  }
}

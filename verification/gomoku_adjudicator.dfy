/** The referee's search for forbidden moves (bzplat/backend/games/gomoku/forbidden.py): two
    mutually recursive searches that stop at the second pattern and share one memo. */
module GomokuAdjudicator {
  import opened Gomoku
  import opened GomokuRules

  datatype Position = Position(black: set<Point>, white: set<Point>, anchor: Point)

  type Pattern = (int, set<Point>)

  /** The dictionary shared by every hypothetical branch of one adjudication. */
  class Memo {
    var kinds: map<Position, Kind>

    constructor ()
      ensures Valid()
    {
      kinds := map[];
    }

    /** What has been remembered is right. */
    ghost predicate Valid()
      reads this
    {
      forall k :: k in kinds ==> kinds[k] == Classify(k.black, k.white, k.anchor)
    }
  }

  /** `_run_length`: count outwards, one way and then the other. */
  method MeasureRun(black: set<Point>, anchor: Point, d: int) returns (total: int)
    requires 0 <= d < 4
    ensures total == RunLength(black, anchor, d)
  {
    var back := MeasureSide(black, Along(anchor, d, -1), d, -1);
    var ahead := MeasureSide(black, Along(anchor, d, 1), d, 1);
    total := 1 + back + ahead;
  }

  method MeasureSide(black: set<Point>, start: Point, d: int, sign: int) returns (n: nat)
    requires 0 <= d < 4 && (sign == 1 || sign == -1)
    ensures n == Chain(black, start, d, sign)
  {
    n := 0;
    var p := start;
    while OnBoard(p) && p in black
      invariant n + Chain(black, p, d, sign) == Chain(black, start, d, sign)
      decreases Room(p, d, sign)
    {
      n := n + 1;
      p := Along(p, d, sign);
    }
  }

  /** One window of five. */
  method ProbeFour(black: set<Point>, white: set<Point>, anchor: Point, d: int, offset: int) returns (hit: bool)
    requires 0 <= d < 4
    ensures hit <==> IsFour(black, white, anchor, d, offset)
  {
    var start := First(anchor, d, offset);
    if !Fits(start, d, 5) {
      return false;
    }
    var window := Segment(start, d, 5);
    if |window * black| != 4 || |window - black - white| != 1 || anchor !in window * black {
      return false;
    }
    GapIsFound(black, white, start, d, 5);
    var completion := Gap(black, white, start, d, 5).value;
    var run := MeasureRun(black + {completion}, completion, d);
    hit := run == 5;
  }

  /** How far a search over directions and offsets has come. */
  predicate Before(e: int, o: int, d: int, offset: int) {
    e < d || (e == d && o < offset)
  }

  ghost predicate FoursFound(black: set<Point>, white: set<Point>, anchor: Point, d: int, offset: int,
                             found: set<Pattern>)
  {
    && found <= FourPatterns(black, white, anchor)
    && forall e, o :: 0 <= e < 4 && 0 <= o < 5 && Before(e, o, d, offset) && IsFour(black, white, anchor, e, o) ==>
         (e, FourStones(black, anchor, e, o)) in found
  }

  lemma FoursDone(black: set<Point>, white: set<Point>, anchor: Point, d: int, found: set<Pattern>)
    requires FoursFound(black, white, anchor, d, 5, found)
    ensures FoursFound(black, white, anchor, d + 1, 0, found)
    ensures d == 3 ==> found == FourPatterns(black, white, anchor)
  {
  }

  lemma FoursStep(black: set<Point>, white: set<Point>, anchor: Point, d: int, offset: int,
                  found: set<Pattern>, more: set<Pattern>)
    requires 0 <= d < 4 && 0 <= offset < 5 && FoursFound(black, white, anchor, d, offset, found)
    requires more ==
             if IsFour(black, white, anchor, d, offset)
             then found + {(d, FourStones(black, anchor, d, offset))} else found
    ensures FoursFound(black, white, anchor, d, offset + 1, more)
  {
  }

  /** The windows in one direction, up to the second pattern. */
  method ScanFours(black: set<Point>, white: set<Point>, anchor: Point, d: int, start: set<Pattern>)
    returns (found: set<Pattern>)
    requires 0 <= d < 4 && FoursFound(black, white, anchor, d, 0, start) && |start| < 2
    ensures found <= FourPatterns(black, white, anchor)
    ensures |found| < 2 ==> FoursFound(black, white, anchor, d, 5, found)
  {
    found := start;
    for offset := 0 to 5
      invariant FoursFound(black, white, anchor, d, offset, found) && |found| < 2
    {
      var hit := ProbeFour(black, white, anchor, d, offset);
      var more := if hit then found + {(d, FourStones(black, anchor, d, offset))} else found;
      FoursStep(black, white, anchor, d, offset, found, more);
      found := more;
      if |found| >= 2 {
        return;
      }
    }
  }

  /** `_four_patterns`: the search may stop at the second pattern. */
  method FindFours(black: set<Point>, white: set<Point>, anchor: Point) returns (found: set<Pattern>)
    ensures found <= FourPatterns(black, white, anchor)
    ensures |found| < 2 ==> found == FourPatterns(black, white, anchor)
    ensures |found| >= 2 <==> |FourPatterns(black, white, anchor)| >= 2
  {
    found := {};
    for d := 0 to 4
      invariant |found| < 2 && FoursFound(black, white, anchor, d, 0, found)
      invariant d == 4 ==> found == FourPatterns(black, white, anchor)
    {
      found := ScanFours(black, white, anchor, d, found);
      if |found| >= 2 {
        SubsetCount(found, FourPatterns(black, white, anchor));
        return;
      }
      FoursDone(black, white, anchor, d, found);
    }
  }

  /** One segment of four, up to the question whether the continuation is legal. */
  method ProbeThree(black: set<Point>, white: set<Point>, anchor: Point, d: int, offset: int) returns (p: Option<Point>)
    requires 0 <= d < 4
    ensures p.Some? ==> Vacant(black, white, p.value)
    ensures IsThree(black, white, anchor, d, offset) <==>
            p.Some? && Classify(black + {p.value}, white, p.value) == Legal
  {
    var start := First(anchor, d, offset);
    if !Fits(start, d, 4) {
      return None;
    }
    var segment := Segment(start, d, 4);
    if |segment * black| != 3 || |segment - black - white| != 1 || anchor !in segment * black {
      return None;
    }
    GapCompletes(black, white, start, d, 4);
    var continuation := Gap(black, white, start, d, 4).value;
    var left, right := Along(start, d, -1), Along(start, d, 4);
    if !OnBoard(left) || !OnBoard(right) {
      return None;
    }
    var after := black + {continuation};
    if left in after || left in white || right in after || right in white {
      return None;
    }
    var run := MeasureRun(after + {left}, left, d);
    if run != 5 {
      return None;
    }
    run := MeasureRun(after + {right}, right, d);
    if run != 5 {
      return None;
    }
    return Some(continuation);
  }

  ghost predicate ThreesFound(black: set<Point>, white: set<Point>, anchor: Point, d: int, offset: int,
                              found: set<Pattern>)
  {
    && found <= ThreePatterns(black, white, anchor)
    && forall e, o :: 0 <= e < 4 && 0 <= o < 4 && Before(e, o, d, offset) && IsThree(black, white, anchor, e, o) ==>
         (e, ThreeStones(black, anchor, e, o)) in found
  }

  lemma ThreesDone(black: set<Point>, white: set<Point>, anchor: Point, d: int, found: set<Pattern>)
    requires ThreesFound(black, white, anchor, d, 4, found)
    ensures ThreesFound(black, white, anchor, d + 1, 0, found)
    ensures d == 3 ==> found == ThreePatterns(black, white, anchor)
  {
  }

  lemma ThreesStep(black: set<Point>, white: set<Point>, anchor: Point, d: int, offset: int,
                   found: set<Pattern>, more: set<Pattern>)
    requires 0 <= d < 4 && 0 <= offset < 4 && ThreesFound(black, white, anchor, d, offset, found)
    requires more ==
             if IsThree(black, white, anchor, d, offset)
             then found + {(d, ThreeStones(black, anchor, d, offset))} else found
    ensures ThreesFound(black, white, anchor, d, offset + 1, more)
  {
  }

  lemma FewerFree(black: set<Point>, white: set<Point>, p: Point)
    requires Vacant(black, white, p)
    ensures Free(black + {p}, white) < Free(black, white)
  {
    assert p in Free(black, white) && p !in Free(black + {p}, white);
  }

  /** The segments in one direction, up to the second pattern. */
  method ScanThrees(black: set<Point>, white: set<Point>, anchor: Point, d: int, start: set<Pattern>, memo: Memo)
    returns (found: set<Pattern>)
    requires 0 <= d < 4 && ThreesFound(black, white, anchor, d, 0, start) && |start| < 2 && memo.Valid()
    modifies memo
    ensures memo.Valid() && found <= ThreePatterns(black, white, anchor)
    ensures |found| < 2 ==> ThreesFound(black, white, anchor, d, 4, found)
    decreases Free(black, white), 1
  {
    found := start;
    for offset := 0 to 4
      invariant memo.Valid() && ThreesFound(black, white, anchor, d, offset, found) && |found| < 2
    {
      var hit := TryThree(black, white, anchor, d, offset, memo);
      var more := if hit then found + {(d, ThreeStones(black, anchor, d, offset))} else found;
      ThreesStep(black, white, anchor, d, offset, found, more);
      found := more;
      if |found| >= 2 {
        return;
      }
    }
  }

  /** `_real_three_patterns`: likewise, with the memo for the continuations. */
  method FindThrees(black: set<Point>, white: set<Point>, anchor: Point, memo: Memo) returns (found: set<Pattern>)
    requires memo.Valid()
    modifies memo
    ensures memo.Valid()
    ensures found <= ThreePatterns(black, white, anchor)
    ensures |found| < 2 ==> found == ThreePatterns(black, white, anchor)
    ensures |found| >= 2 <==> |ThreePatterns(black, white, anchor)| >= 2
    decreases Free(black, white), 2
  {
    found := {};
    for d := 0 to 4
      invariant memo.Valid() && |found| < 2 && ThreesFound(black, white, anchor, d, 0, found)
      invariant d == 4 ==> found == ThreePatterns(black, white, anchor)
    {
      found := ScanThrees(black, white, anchor, d, found, memo);
      if |found| >= 2 {
        SubsetCount(found, ThreePatterns(black, white, anchor));
        return;
      }
      ThreesDone(black, white, anchor, d, found);
    }
  }

  /** One segment of four with the continuation classified. */
  method TryThree(black: set<Point>, white: set<Point>, anchor: Point, d: int, offset: int, memo: Memo)
    returns (hit: bool)
    requires 0 <= d < 4 && memo.Valid()
    modifies memo
    ensures memo.Valid() && (hit <==> IsThree(black, white, anchor, d, offset))
    decreases Free(black, white), 0
  {
    var p := ProbeThree(black, white, anchor, d, offset);
    if p.None? {
      return false;
    }
    FewerFree(black, white, p.value);
    var kind := ClassifyMemo(black + {p.value}, white, p.value, memo);
    hit := kind == Legal;
  }

  method AnyRuns(black: set<Point>, anchor: Point) returns (five: bool, more: bool)
    ensures five <==> FiveRun(black, anchor)
    ensures more <==> LongRun(black, anchor)
  {
    five, more := false, false;
    for d := 0 to 4
      invariant five <==> exists e :: 0 <= e < d && RunLength(black, anchor, e) == 5
      invariant more <==> exists e :: 0 <= e < d && RunLength(black, anchor, e) >= 6
    {
      var run := MeasureRun(black, anchor, d);
      five, more := five || run == 5, more || run >= 6;
    }
  }

  /** A classification from scratch: each search is started only if those before it fail. */
  method ClassifyFresh(black: set<Point>, white: set<Point>, anchor: Point, memo: Memo) returns (kind: Kind)
    requires memo.Valid()
    modifies memo
    ensures memo.Valid() && kind == Classify(black, white, anchor)
    decreases Free(black, white), 3
  {
    var five, more := AnyRuns(black, anchor);
    if five {
      return ExactFive;
    }
    if more {
      return Overline;
    }
    var fours := FindFours(black, white, anchor);
    if |fours| >= 2 {
      return DoubleFour;
    }
    var threes := FindThrees(black, white, anchor, memo);
    kind := if |threes| >= 2 then DoubleThree else Legal;
  }

  /** `_classify`: the answer is the classification, whatever the memo already holds. */
  method ClassifyMemo(black: set<Point>, white: set<Point>, anchor: Point, memo: Memo) returns (kind: Kind)
    requires memo.Valid()
    modifies memo
    ensures memo.Valid() && kind == Classify(black, white, anchor)
    ensures Position(black, white, anchor) in memo.kinds
    decreases Free(black, white), 4
  {
    var key := Position(black, white, anchor);
    if key in memo.kinds {
      return memo.kinds[key];
    }
    kind := ClassifyFresh(black, white, anchor, memo);
    memo.kinds := memo.kinds[key := kind];
  }

  /** `classify_black_move`: an error exactly if there is no black stone at the point, and
      otherwise what stands on the board. */
  method ClassifyBlackMove(board: Board, x: int, y: int) returns (r: Option<Kind>)
    ensures r.None? <==> !BlackAt(board, Point(x, y))
    ensures r.Some? ==> r.value == Classify(Stones(board, Black), Stones(board, White), Point(x, y))
  {
    var anchor := Point(x, y);
    if !OnBoard(anchor) || At(board, anchor) != Black {
      return None;
    }
    var memo := new Memo();
    var kind := ClassifyMemo(Stones(board, Black), Stones(board, White), anchor, memo);
    return Some(kind);
  }
}

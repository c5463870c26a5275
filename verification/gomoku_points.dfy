/** How the Gomoku sample bots list points (samples/gomokubot.py, samples/gomokubot.c): the
    Python list and the C counter are two enumerations of one sequence. */
module GomokuPoints {
  import opened Gomoku

  const CANDIDATE_PLAN: seq<Point> := [Point(0, 0), Point(14, 14), Point(0, 14), Point(14, 0), Point(1, 13)]
  const WHITE_PLAN: seq<Point> := [Point(2, 2), Point(2, 3), Point(2, 4), Point(2, 5), Point(2, 6)]
  const BLACK5_CANDIDATE_COUNT: nat := 2

  predicate Unrepeated(s: seq<Point>) {
    forall i, j :: 0 <= i < j < |s| ==> s[i] != s[j]
  }

  /** The empty points among some, in their order, leaving out others. */
  function Pick(board: Board, s: seq<Point>, others: seq<Point>): seq<Point> {
    if |s| == 0 then []
    else
      var p := s[|s| - 1];
      Pick(board, s[..|s| - 1], others) + (if EmptyAt(board, p) && p !in others then [p] else [])
  }

  /** The board's points column by column. */
  function Rows(n: nat): (s: seq<Point>)
    ensures |s| == n && forall k :: 0 <= k < n ==> s[k] == PointOf(k)
  {
    seq(n, k requires 0 <= k < n => PointOf(k))
  }

  /** The empty preferred points in order, then the other empty points in row order. */
  function Listing(board: Board, plan: seq<Point>): seq<Point> {
    Pick(board, plan, []) + Pick(board, Rows(CELLS), plan)
  }

  lemma {:induction false} PickMember(board: Board, s: seq<Point>, others: seq<Point>, p: Point)
    ensures p in Pick(board, s, others) <==> p in s && EmptyAt(board, p) && p !in others
    decreases |s|
  {
    if |s| > 0 {
      var init := s[..|s| - 1];
      PickMember(board, init, others, p);
      assert s == init + [s[|s| - 1]];
    }
  }

  lemma {:induction false} PickUnrepeated(board: Board, s: seq<Point>, others: seq<Point>)
    requires Unrepeated(s)
    ensures Unrepeated(Pick(board, s, others))
    decreases |s|
  {
    if |s| > 0 {
      var init := s[..|s| - 1];
      PickUnrepeated(board, init, others);
      PickMember(board, init, others, s[|s| - 1]);
    }
  }

  lemma RowsHaveAll(p: Point)
    ensures OnBoard(p) <==> p in Rows(CELLS)
  {
    if OnBoard(p) {
      assert Rows(CELLS)[p.x * SIZE + p.y] == p;
    }
  }

  lemma RowsUnrepeated()
    ensures Unrepeated(Rows(CELLS))
  {
  }

  /** The listing has every empty point of the board, once. */
  lemma ListingIsComplete(board: Board, plan: seq<Point>, p: Point)
    requires Unrepeated(plan)
    ensures p in Listing(board, plan) <==> EmptyAt(board, p)
    ensures Unrepeated(Listing(board, plan))
  {
    var a, b := Pick(board, plan, []), Pick(board, Rows(CELLS), plan);
    PickMember(board, plan, [], p);
    PickMember(board, Rows(CELLS), plan, p);
    RowsHaveAll(p);
    PickUnrepeated(board, plan, []);
    RowsUnrepeated();
    PickUnrepeated(board, Rows(CELLS), plan);
    forall i, j | 0 <= i < |a| && 0 <= j < |b|
      ensures a[i] != b[j]
    {
      PickMember(board, plan, [], a[i]);
      PickMember(board, Rows(CELLS), plan, b[j]);
      assert a[i] in a && b[j] in b;
    }
  }

  // ----- the Python enumeration: plan, then empty points, skipping what was seen

  /** The empty points of a sequence at their first occurrence. */
  function Fresh(board: Board, s: seq<Point>): seq<Point> {
    if |s| == 0 then []
    else
      var init := Fresh(board, s[..|s| - 1]);
      var p := s[|s| - 1];
      if EmptyAt(board, p) && p !in init then init + [p] else init
  }

  lemma {:induction false} FreshOfUnrepeated(board: Board, s: seq<Point>)
    requires Unrepeated(s)
    ensures Fresh(board, s) == Pick(board, s, [])
    decreases |s|
  {
    if |s| > 0 {
      var init := s[..|s| - 1];
      FreshOfUnrepeated(board, init);
      PickMember(board, init, [], s[|s| - 1]);
    }
  }

  /** After an unrepeated plan, what is fresh among unrepeated points is what the plan lacks. */
  lemma {:induction false} FreshAfterPlan(board: Board, plan: seq<Point>, s: seq<Point>)
    requires Unrepeated(plan) && Unrepeated(s)
    ensures Fresh(board, plan + s) == Pick(board, plan, []) + Pick(board, s, plan)
    decreases |s|
  {
    if |s| == 0 {
      assert plan + s == plan;
      FreshOfUnrepeated(board, plan);
    } else {
      var init, p := s[..|s| - 1], s[|s| - 1];
      assert (plan + s)[..|plan + s| - 1] == plan + init;
      FreshAfterPlan(board, plan, init);
      PickMember(board, plan, [], p);
      PickMember(board, init, plan, p);
      var a, b := Pick(board, plan, []), Pick(board, init, plan);
      if EmptyAt(board, p) && p !in plan {
        assert p !in a + b;
        assert (a + b) + [p] == a + (b + [p]);
      } else {
        assert b + [] == b;
      }
    }
  }

  /** The points that the bot's generator of empty points yields. */
  function AllEmpty(board: Board): seq<Point> {
    Pick(board, Rows(CELLS), [])
  }

  lemma PickAppend(board: Board, s: seq<Point>, p: Point, others: seq<Point>)
    ensures Pick(board, s + [p], others) ==
            Pick(board, s, others) + (if EmptyAt(board, p) && p !in others then [p] else [])
  {
    assert (s + [p])[..|s + [p]| - 1] == s;
  }

  lemma {:induction false} PickTwice(board: Board, s: seq<Point>, plan: seq<Point>)
    ensures Pick(board, Pick(board, s, []), plan) == Pick(board, s, plan)
    decreases |s|
  {
    if |s| > 0 {
      var init, p := s[..|s| - 1], s[|s| - 1];
      PickTwice(board, init, plan);
      var once := Pick(board, init, []);
      if EmptyAt(board, p) {
        PickAppend(board, once, p, plan);
        assert Pick(board, s, []) == once + [p];
      } else {
        assert Pick(board, s, []) == once;
        assert Pick(board, s, plan) == Pick(board, init, plan);
      }
    }
  }

  lemma FreshIsListing(board: Board, plan: seq<Point>)
    requires Unrepeated(plan)
    ensures Fresh(board, plan + AllEmpty(board)) == Listing(board, plan)
  {
    RowsUnrepeated();
    PickUnrepeated(board, Rows(CELLS), []);
    FreshAfterPlan(board, plan, AllEmpty(board));
    PickTwice(board, Rows(CELLS), plan);
  }

  lemma {:induction false} FreshPrefix(board: Board, s: seq<Point>, i: nat)
    requires i <= |s|
    ensures Fresh(board, s[..i]) <= Fresh(board, s)
    decreases |s|
  {
    if i < |s| {
      FreshPrefix(board, s[..|s| - 1], i);
      assert s[..|s| - 1][..i] == s[..i];
    } else {
      assert s[..i] == s;
    }
  }

  lemma PlansUnrepeated()
    ensures Unrepeated(CANDIDATE_PLAN) && Unrepeated(WHITE_PLAN)
  {
  }

  /** The loop: fresh points of a sequence, until there are enough. */
  method CollectFresh(board: Board, source: seq<Point>, count: nat) returns (points: seq<Point>)
    requires count > 0
    ensures points <= Fresh(board, source)
    ensures |points| == count || (|points| < count && points == Fresh(board, source))
  {
    points := [];
    var reserved: set<Point> := {};
    for i := 0 to |source|
      invariant points == Fresh(board, source[..i])
      invariant forall p :: p in reserved <==> p in points
      invariant |points| < count
    {
      var point := source[i];
      assert source[..i + 1][..i] == source[..i];
      if point !in reserved && EmptyAt(board, point) {
        reserved := reserved + {point};
        points := points + [point];
        if |points| == count {
          FreshPrefix(board, source, i + 1);
          return;
        }
      }
    }
    assert source[..|source|] == source;
  }

  /** The first two points of the listing; an error exactly if there are not two empty points. */
  method CandidatePoints(board: Board) returns (r: Option<seq<Point>>)
    ensures r.Some? ==> |Listing(board, CANDIDATE_PLAN)| >= 2 && r.value == Listing(board, CANDIDATE_PLAN)[..2]
    ensures r.Some? ==> r.value[0] != r.value[1] && EmptyAt(board, r.value[0]) && EmptyAt(board, r.value[1])
    ensures r.Some? ==> At(board, r.value[0]) == At(board, r.value[1]) == Empty
    ensures r.None? <==> |Listing(board, CANDIDATE_PLAN)| < BLACK5_CANDIDATE_COUNT
    ensures r.None? <==> forall p, q :: EmptyAt(board, p) && EmptyAt(board, q) ==> p == q
  {
    var points := CollectFresh(board, CANDIDATE_PLAN + AllEmpty(board), BLACK5_CANDIDATE_COUNT);
    FreshPlan(board);
    r := if |points| == BLACK5_CANDIDATE_COUNT then Some(points) else None;
  }

  lemma FreshPlan(board: Board)
    ensures Fresh(board, CANDIDATE_PLAN + AllEmpty(board)) == Listing(board, CANDIDATE_PLAN)
    ensures Unrepeated(Listing(board, CANDIDATE_PLAN))
    ensures forall i :: 0 <= i < |Listing(board, CANDIDATE_PLAN)| ==> EmptyAt(board, Listing(board, CANDIDATE_PLAN)[i])
    ensures |Listing(board, CANDIDATE_PLAN)| < 2 <==> forall p, q :: EmptyAt(board, p) && EmptyAt(board, q) ==> p == q
  {
    PlansUnrepeated();
    FreshIsListing(board, CANDIDATE_PLAN);
    ListingHasTwo(board, CANDIDATE_PLAN);
  }

  /** The listing is as long as there are empty points: here, up to two. */
  lemma ListingHasTwo(board: Board, plan: seq<Point>)
    requires Unrepeated(plan)
    ensures Unrepeated(Listing(board, plan))
    ensures forall i :: 0 <= i < |Listing(board, plan)| ==> EmptyAt(board, Listing(board, plan)[i])
    ensures |Listing(board, plan)| < 2 <==> forall p, q :: EmptyAt(board, p) && EmptyAt(board, q) ==> p == q
    ensures |Listing(board, plan)| == 0 <==> forall p :: !EmptyAt(board, p)
  {
    var l := Listing(board, plan);
    forall p
      ensures p in l <==> EmptyAt(board, p)
    {
      ListingIsComplete(board, plan, p);
    }
    ListingIsComplete(board, plan, Point(0, 0));
    assert |l| >= 2 ==> l[0] in l && l[1] in l && l[0] != l[1];
    assert |l| >= 1 ==> l[0] in l;
  }

  /** Skipping repeats does not change which empty point comes first. */
  lemma {:induction false} FreshHead(board: Board, s: seq<Point>)
    ensures |Fresh(board, s)| > 0 <==> |Pick(board, s, [])| > 0
    ensures |Fresh(board, s)| > 0 ==> Fresh(board, s)[0] == Pick(board, s, [])[0]
    decreases |s|
  {
    if |s| > 0 {
      FreshHead(board, s[..|s| - 1]);
    }
  }

  lemma {:induction false} PickSplit(board: Board, s: seq<Point>, t: seq<Point>)
    ensures Pick(board, s + t, []) == Pick(board, s, []) + Pick(board, t, [])
    decreases |t|
  {
    if |t| == 0 {
      assert s + t == s;
    } else {
      PickSplit(board, s, t[..|t| - 1]);
      assert s + t == (s + t[..|t| - 1]) + [t[|t| - 1]];
      PickAppend(board, s + t[..|t| - 1], t[|t| - 1], []);
    }
  }

  /** Leaving out points that are not empty leaves out nothing. */
  lemma {:induction false} PickLeavesOut(board: Board, s: seq<Point>, others: seq<Point>)
    requires forall p :: p in others ==> !EmptyAt(board, p)
    ensures Pick(board, s, others) == Pick(board, s, [])
    decreases |s|
  {
    if |s| > 0 {
      PickLeavesOut(board, s[..|s| - 1], others);
    }
  }

  /** Whatever the preferred points, repeated or not: the first fresh point is the first of the
      listing. */
  lemma FirstIsHead(board: Board, preferred: seq<Point>)
    ensures
      var unseen, listing := Fresh(board, preferred + AllEmpty(board)), Listing(board, preferred);
      && (|unseen| > 0 <==> |listing| > 0) && (|unseen| > 0 ==> unseen[0] == listing[0])
      && (|listing| == 0 <==> forall p :: !EmptyAt(board, p))
  {
    var picked := Pick(board, preferred, []);
    FreshHead(board, preferred + AllEmpty(board));
    PickSplit(board, preferred, AllEmpty(board));
    PickTwice(board, Rows(CELLS), []);
    forall p
      ensures p in picked <==> p in preferred && EmptyAt(board, p)
      ensures p in AllEmpty(board) <==> EmptyAt(board, p)
    {
      PickMember(board, preferred, [], p);
      PickMember(board, Rows(CELLS), [], p);
      RowsHaveAll(p);
    }
    if |picked| == 0 {
      PickLeavesOut(board, Rows(CELLS), preferred);
      assert forall p :: EmptyAt(board, p) ==> p in AllEmpty(board);
      assert |AllEmpty(board)| > 0 ==> AllEmpty(board)[0] in AllEmpty(board);
    } else {
      assert picked[0] in picked;
    }
  }

  lemma FullBoard(board: Board)
    ensures (forall p :: !EmptyAt(board, p)) <==> forall p :: OnBoard(p) ==> At(board, p) != Empty
  {
    if forall p :: !EmptyAt(board, p) {
      forall p | OnBoard(p)
        ensures At(board, p) != Empty
      {
        assert !EmptyAt(board, p);
      }
    }
  }

  /** The loop: the first empty point of a sequence, looking at none twice. */
  method FirstFresh(board: Board, source: seq<Point>) returns (r: Option<Point>)
    ensures r.None? <==> |Fresh(board, source)| == 0
    ensures r.Some? ==> |Fresh(board, source)| > 0 && r.value == Fresh(board, source)[0]
  {
    var seen: set<Point> := {};
    for i := 0 to |source|
      invariant Fresh(board, source[..i]) == []
      invariant forall p :: p in seen ==> !EmptyAt(board, p)
    {
      var p := source[i];
      assert source[..i + 1][..i] == source[..i];
      if p !in seen {
        seen := seen + {p};
        if EmptyAt(board, p) {
          FreshPrefix(board, source, i + 1);
          return Some(p);
        }
      }
    }
    assert source[..|source|] == source;
    r := None;
  }

  /** The first point of the listing, if the board has an empty one. */
  method FirstEmpty(board: Board, preferred: seq<Point>) returns (r: Option<Point>)
    ensures r.None? <==> forall p :: !EmptyAt(board, p)
    ensures r.Some? ==> |Listing(board, preferred)| > 0 && r.value == Listing(board, preferred)[0]
    ensures r.None? <==> forall p :: OnBoard(p) ==> At(board, p) != Empty
  {
    FirstIsHead(board, preferred);
    FullBoard(board);
    r := FirstFresh(board, preferred + AllEmpty(board));
  }

  // ----- the C enumeration: a counter over the plan, then over the rows

  lemma {:induction false} PickStep(board: Board, s: seq<Point>, others: seq<Point>, i: nat)
    requires i < |s|
    ensures Pick(board, s[..i + 1], others) ==
            Pick(board, s[..i], others) + (if EmptyAt(board, s[i]) && s[i] !in others then [s[i]] else [])
  {
    assert s[..i + 1][..i] == s[..i];
  }

  lemma {:induction false} PickPrefix(board: Board, s: seq<Point>, others: seq<Point>, i: nat)
    requires i <= |s|
    ensures Pick(board, s[..i], others) <= Pick(board, s, others)
    decreases |s|
  {
    if i < |s| {
      PickPrefix(board, s[..|s| - 1], others, i);
      assert s[..|s| - 1][..i] == s[..i];
    } else {
      assert s[..i] == s;
    }
  }

  lemma {:induction false} PickAllEmpty(board: Board, s: seq<Point>)
    requires forall i :: 0 <= i < |s| ==> EmptyAt(board, s[i])
    ensures Pick(board, s, []) == s
    decreases |s|
  {
    if |s| > 0 {
      PickAllEmpty(board, s[..|s| - 1]);
      assert s == s[..|s| - 1] + [s[|s| - 1]];
    }
  }

  /** On an empty board the candidates are corners, opposite ones first, and White's move is on
      the third line. */
  lemma EmptyBoardListing(board: Board)
    requires forall p :: OnBoard(p) ==> EmptyAt(board, p)
    ensures [Point(0, 0), Point(14, 14), Point(0, 14), Point(14, 0), Point(1, 13)] <= Listing(board, CANDIDATE_PLAN)
    ensures [Point(2, 2), Point(2, 3), Point(2, 4), Point(2, 5), Point(2, 6)] <= Listing(board, WHITE_PLAN)
  {
    PickAllEmpty(board, CANDIDATE_PLAN);
    PickAllEmpty(board, WHITE_PLAN);
  }

  /** How much of the listing comes before a position of the rows. */
  ghost function Passed(board: Board, plan: seq<Point>, n: nat): nat {
    |Pick(board, plan, [])| + |Pick(board, Rows(n), plan)|
  }

  ghost predicate Listed(board: Board, plan: seq<Point>, p: Point) {
    EmptyAt(board, p) && p !in plan
  }

  /** A listed point stands in the listing where the count has come to. */
  lemma PassedStep(board: Board, plan: seq<Point>, n: nat)
    requires n < CELLS
    ensures Passed(board, plan, n + 1) == Passed(board, plan, n) + (if Listed(board, plan, PointOf(n)) then 1 else 0)
    ensures Listed(board, plan, PointOf(n)) ==>
              Passed(board, plan, n) < |Listing(board, plan)|
              && Listing(board, plan)[Passed(board, plan, n)] == PointOf(n)
  {
    var rows := Rows(CELLS);
    assert rows[..n + 1] == Rows(n + 1) && rows[..n] == Rows(n);
    PickStep(board, rows, plan, n);
    PickPrefix(board, rows, plan, n + 1);
  }

  /** The same at a row of a column. */
  lemma PassedRow(board: Board, plan: seq<Point>, x: int, y: int)
    requires 0 <= x < SIZE && 0 <= y < SIZE
    ensures
      var n, p := x * SIZE + y, Point(x, y);
      && Passed(board, plan, n + 1) == Passed(board, plan, n) + (if Listed(board, plan, p) then 1 else 0)
      && (Listed(board, plan, p) ==>
            Passed(board, plan, n) < |Listing(board, plan)| && Listing(board, plan)[Passed(board, plan, n)] == p)
  {
    PassedStep(board, plan, x * SIZE + y);
    assert PointOf(x * SIZE + y) == Point(x, y);
  }

  lemma PassedAll(board: Board, plan: seq<Point>)
    ensures Passed(board, plan, 0) == |Pick(board, plan, [])|
    ensures Passed(board, plan, CELLS) == |Listing(board, plan)|
  {
  }

  method AlreadyPreferred(plan: seq<Point>, x: int, y: int) returns (already: bool)
    ensures already <==> Point(x, y) in plan
  {
    already := false;
    for i := 0 to |plan|
      invariant already <==> Point(x, y) in plan[..i]
    {
      if plan[i] == Point(x, y) {
        already := true;
      }
    }
  }

  /** The point with a given number in the listing, if it has so many. */
  method ChooseCandidate(board: Board, index: int) returns (found: bool, outX: int, outY: int)
    ensures found <==> 0 <= index < |Listing(board, CANDIDATE_PLAN)|
    ensures found ==> Point(outX, outY) == Listing(board, CANDIDATE_PLAN)[index]
    ensures !found ==> outX == -99 && outY == -99
  {
    var plan := CANDIDATE_PLAN;
    var wanted := index;
    for i := 0 to |plan|
      invariant wanted == index - |Pick(board, plan[..i], [])|
      invariant !(0 <= index < |Pick(board, plan[..i], [])|)
    {
      PickStep(board, plan, [], i);
      PickPrefix(board, plan, [], i + 1);
      if EmptyAt(board, plan[i]) {
        if wanted == 0 {
          return true, plan[i].x, plan[i].y;
        }
        wanted := wanted - 1;
      }
    }
    assert plan[..|plan|] == plan;
    found, outX, outY := SearchRows(board, plan, index, wanted);
  }

  /** One point: it counts if it is empty and the plan does not have it, and is found if it is
      the wanted one. */
  method Probe(board: Board, plan: seq<Point>, x: int, y: int, wanted: int) returns (hit: bool, left: int)
    ensures hit <==> Listed(board, plan, Point(x, y)) && wanted == 0
    ensures !hit ==> left == wanted - (if Listed(board, plan, Point(x, y)) then 1 else 0)
  {
    left := wanted;
    hit := false;
    if EmptyAt(board, Point(x, y)) {
      var already := AlreadyPreferred(plan, x, y);
      if !already {
        hit := wanted == 0;
        left := wanted - 1;
      }
    }
  }

  /** One column: the search has passed what comes before it, and passes all of it unless it
      finds the point. */
  method SearchColumn(board: Board, plan: seq<Point>, index: int, x: int, start: int)
    returns (found: bool, wanted: int, y: int)
    requires 0 <= x < SIZE && start == index - Passed(board, plan, x * SIZE)
    requires !(0 <= index < Passed(board, plan, x * SIZE))
    ensures !found ==> wanted == index - Passed(board, plan, x * SIZE + SIZE)
    ensures !found ==> !(0 <= index < Passed(board, plan, x * SIZE + SIZE))
    ensures found ==> 0 <= index < |Listing(board, plan)| && Point(x, y) == Listing(board, plan)[index]
    ensures found ==> Passed(board, plan, x * SIZE) <= index
  {
    wanted := start;
    for row := 0 to SIZE
      invariant wanted == index - Passed(board, plan, x * SIZE + row)
      invariant !(0 <= index < Passed(board, plan, x * SIZE + row))
      invariant Passed(board, plan, x * SIZE) <= Passed(board, plan, x * SIZE + row)
    {
      PassedRow(board, plan, x, row);
      found, wanted := Probe(board, plan, x, row, wanted);
      if found {
        return found, wanted, row;
      }
    }
    found, y := false, -99;
  }

  /** The second loop, over the rows. */
  method SearchRows(board: Board, plan: seq<Point>, index: int, start: int)
    returns (found: bool, outX: int, outY: int)
    requires start == index - Passed(board, plan, 0) && !(0 <= index < Passed(board, plan, 0))
    ensures found <==> Passed(board, plan, 0) <= index < |Listing(board, plan)|
    ensures found ==> Point(outX, outY) == Listing(board, plan)[index]
    ensures !found ==> outX == -99 && outY == -99
  {
    var wanted := start;
    PassedAll(board, plan);
    for x := 0 to SIZE
      invariant wanted == index - Passed(board, plan, x * SIZE)
      invariant !(0 <= index < Passed(board, plan, x * SIZE))
      invariant Passed(board, plan, 0) <= Passed(board, plan, x * SIZE)
    {
      found, wanted, outY := SearchColumn(board, plan, index, x, wanted);
      if found {
        outX := x;
        return;
      }
      PassedGrows(board, plan, x * SIZE, x * SIZE + SIZE);
    }
    found, outX, outY := false, -99, -99;
  }

  lemma {:induction false} PassedGrows(board: Board, plan: seq<Point>, m: nat, n: nat)
    requires m <= n <= CELLS
    ensures Passed(board, plan, m) <= Passed(board, plan, n)
    decreases n
  {
    if m < n {
      PassedGrows(board, plan, m, n - 1);
      PassedStep(board, plan, n - 1);
    }
  }

  /** The C bot's white move is the Python bot's: the first point of the white plan's listing. */
  method ChooseWhiteMove(board: Board) returns (found: bool, outX: int, outY: int)
    ensures found <==> |Listing(board, WHITE_PLAN)| > 0
    ensures found ==> Point(outX, outY) == Listing(board, WHITE_PLAN)[0]
    ensures !found ==> outX == -99 && outY == -99
  {
    var plan := WHITE_PLAN;
    PassedAll(board, plan);
    for y := 2 to 7
      invariant |Pick(board, plan[..y - 2], [])| == 0
    {
      PickStep(board, plan, [], y - 2);
      PickPrefix(board, plan, [], y - 1);
      assert plan[y - 2] == Point(2, y);
      if EmptyAt(board, Point(2, y)) {
        return true, 2, y;
      }
    }
    assert plan[..5] == plan;
    found, outX, outY := TakeInRows(board, plan);
  }

  /** The first empty point in row order, when the plan has none. */
  method TakeInRows(board: Board, plan: seq<Point>) returns (found: bool, outX: int, outY: int)
    requires |Pick(board, plan, [])| == 0
    ensures found <==> |Listing(board, plan)| > 0
    ensures found ==> Point(outX, outY) == Listing(board, plan)[0]
    ensures !found ==> outX == -99 && outY == -99
  {
    PassedAll(board, plan);
    for x := 0 to SIZE
      invariant Passed(board, plan, x * SIZE) == 0
    {
      for y := 0 to SIZE
        invariant Passed(board, plan, x * SIZE + y) == 0
      {
        PassedRow(board, plan, x, y);
        if EmptyAt(board, Point(x, y)) {
          PickMember(board, plan, [], Point(x, y));
          return true, x, y;
        }
      }
    }
    found, outX, outY := false, -99, -99;
  }
}

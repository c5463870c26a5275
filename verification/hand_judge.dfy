/** The referee's own ranking of five cards (bzplat/backend/games/holdem/holdem_judge.py),
    and where the sample bot's ranking departs from it. */
module HandJudge {
  import opened HandRank

  predicate AllOneSuit(cards: seq<Card>)
    requires |cards| == 5
  {
    forall i :: 0 <= i < 5 ==> Suit(cards[i]) == Suit(cards[0])
  }

  /** The five ranks from the highest down. */
  function Sorted5(cards: seq<Card>): (r: seq<int>)
    requires |cards| == 5
    ensures |r| == 5
  {
    Sorted(cards);
    SeqLength(Sort(Numbers(cards)));
    Seq(Sort(Numbers(cards)))
  }

  lemma {:induction false} SeqLength(l: List<int>)
    ensures |Seq(l)| == Length(l)
    decreases l
  {
    if l.Cons? {
      SeqLength(l.tail);
    }
  }

  const WHEEL: seq<int> := [14, 5, 4, 3, 2]

  predicate Strict(r: seq<int>)
    requires |r| == 5
  {
    r[0] > r[1] > r[2] > r[3] > r[4]
  }

  /** The height of a straight; the wheel counts as five high. */
  function StraightHigh(r: seq<int>): Option<int>
    requires |r| == 5
  {
    if !Strict(r) then None
    else if r == WHEEL then Some(5)
    else if r[0] - r[4] == 4 then Some(r[0])
    else None
  }

  predicate Quads(r: seq<int>)
    requires |r| == 5
  {
    r[0] == r[1] == r[2] == r[3] || r[1] == r[2] == r[3] == r[4]
  }

  predicate FullHouse(r: seq<int>)
    requires |r| == 5
  {
    (r[0] == r[1] == r[2] && r[3] == r[4]) || (r[2] == r[3] == r[4] && r[0] == r[1])
  }

  predicate Trips(r: seq<int>)
    requires |r| == 5
  {
    r[0] == r[1] == r[2] || r[1] == r[2] == r[3] || r[2] == r[3] == r[4]
  }

  predicate TwoPair(r: seq<int>)
    requires |r| == 5
  {
    (r[0] == r[1] && r[2] == r[3]) || (r[0] == r[1] && r[3] == r[4]) || (r[1] == r[2] && r[3] == r[4])
  }

  predicate OnePair(r: seq<int>)
    requires |r| == 5
  {
    r[0] == r[1] || r[1] == r[2] || r[2] == r[3] || r[3] == r[4]
  }

  /** The value of the referee's HandType, 1 for a high card to 9 for a straight flush. */
  function HandType(r: seq<int>, isFlush: bool): int
    requires |r| == 5
  {
    if isFlush && StraightHigh(r).Some? then 9
    else if Quads(r) then 8
    else if FullHouse(r) then 7
    else if isFlush then 6
    else if StraightHigh(r).Some? then 5
    else if Trips(r) then 4
    else if TwoPair(r) then 3
    else if OnePair(r) then 2
    else 1
  }

  /** The ranks the referee compares, in turn, among hands of one type. */
  function Single(r: seq<int>): int
    requires |r| == 5
  {
    if r[0] == r[1] && r[2] == r[3] then r[4] else if r[0] == r[1] && r[3] == r[4] then r[2] else r[0]
  }

  function Pair(r: seq<int>): (int, seq<int>)
    requires |r| == 5
  {
    if r[0] == r[1] then (r[0], r[2..])
    else if r[1] == r[2] then (r[1], r[..1] + r[3..])
    else if r[2] == r[3] then (r[2], r[..2] + r[4..])
    else (r[3], r[..3])
  }

  function Rest(r: seq<int>): seq<int>
    requires |r| == 5
  {
    (if r[0] != r[2] then [r[0]] else []) + (if r[1] != r[2] then [r[1]] else [])
    + (if r[3] != r[2] then [r[3]] else []) + (if r[4] != r[2] then [r[4]] else [])
  }

  /** The first difference of two rank lists. */
  function FirstDifference(s: seq<int>, t: seq<int>): int
    requires |s| == |t|
  {
    if |s| == 0 then 0
    else if s[0] != t[0] then s[0] - t[0]
    else FirstDifference(s[1..], t[1..])
  }

  /** The referee's comparison of two hands of one type: the sign says which wins. */
  function Compare(r: seq<int>, s: seq<int>, handType: int): int
    requires |r| == 5 && |s| == 5
    requires handType in {5, 9} ==> StraightHigh(r).Some? && StraightHigh(s).Some?
    requires handType == 4 ==> |Rest(r)| == |Rest(s)| == 2
  {
    if handType in {5, 9} then StraightHigh(r).value - StraightHigh(s).value
    else if handType == 8 then
      if r[1] != s[1] then r[1] - s[1]
      else (if r[0] == r[1] then r[4] else r[0]) - (if s[0] == s[1] then s[4] else s[0])
    else if handType == 7 then
      if r[2] != s[2] then r[2] - s[2]
      else (if r[0] == r[2] then r[4] else r[0]) - (if s[0] == s[2] then s[4] else s[0])
    else if handType == 6 then FirstDifference(r, s)
    else if handType == 4 then
      if r[2] != s[2] then r[2] - s[2] else FirstDifference(Rest(r), Rest(s))
    else if handType == 3 then
      if r[1] != s[1] then r[1] - s[1]
      else if r[3] != s[3] then r[3] - s[3]
      else Single(r) - Single(s)
    else if handType == 2 then
      if Pair(r).0 != Pair(s).0 then Pair(r).0 - Pair(s).0 else FirstDifference(Pair(r).1, Pair(s).1)
    else FirstDifference(r, s)
  }

  // ----- the referee's answer as a score of the bot's form

  /** What the comparison amounts to: a list compared from the left. */
  function Key(r: seq<int>, handType: int): seq<int>
    requires |r| == 5
    requires handType in {5, 9} ==> StraightHigh(r).Some?
  {
    if handType in {5, 9} then [StraightHigh(r).value]
    else if handType == 8 then [r[1], if r[0] == r[1] then r[4] else r[0]]
    else if handType == 7 then [r[2], if r[0] == r[2] then r[4] else r[0]]
    else if handType == 4 then [r[2]] + Rest(r)
    else if handType == 3 then [r[1], r[3], Single(r)]
    else if handType == 2 then [Pair(r).0] + Pair(r).1
    else r
  }

  function Points(cards: seq<Card>): seq<int>
    requires |cards| == 5
  {
    var r := Sorted5(cards);
    var handType := HandType(r, AllOneSuit(cards));
    [handType - 1] + Key(r, handType)
  }

  lemma CompareIsByKey(r: seq<int>, s: seq<int>, handType: int)
    requires |r| == 5 && |s| == 5
    requires handType in {5, 9} ==> StraightHigh(r).Some? && StraightHigh(s).Some?
    requires handType == 4 ==> |Rest(r)| == |Rest(s)| == 2
    ensures |Key(r, handType)| == |Key(s, handType)|
    ensures Compare(r, s, handType) == FirstDifference(Key(r, handType), Key(s, handType))
  {
    var k, l := Key(r, handType), Key(s, handType);
    FirstDifferenceHead(k, l);
    if handType in {3, 7, 8} {
      FirstDifferenceHead(k[1..], l[1..]);
      if handType == 3 {
        FirstDifferenceHead(k[1..][1..], l[1..][1..]);
      }
    } else if handType == 4 {
      assert k[1..] == Rest(r) && l[1..] == Rest(s);
    } else if handType == 2 {
      assert k[1..] == Pair(r).1 && l[1..] == Pair(s).1;
    }
  }

  lemma FirstDifferenceHead(k: seq<int>, l: seq<int>)
    requires |k| == |l| > 0
    ensures FirstDifference(k, l) == if k[0] != l[0] then k[0] - l[0] else FirstDifference(k[1..], l[1..])
    ensures |k| == 1 ==> FirstDifference(k[1..], l[1..]) == 0
  {
  }

  /** Tuples are ordered by their first difference. */
  lemma {:induction false} OrderIsFirstDifference(k: seq<int>, l: seq<int>)
    requires |k| == |l|
    ensures AtMost(k, l) <==> FirstDifference(k, l) <= 0
    ensures k == l <==> FirstDifference(k, l) == 0
    decreases |k|
  {
    if |k| > 0 {
      OrderIsFirstDifference(k[1..], l[1..]);
      assert k == [k[0]] + k[1..] && l == [l[0]] + l[1..];
    }
  }

  // ----- the referee's points are the bot's score

  ghost predicate Shape(cards: seq<Card>, r: seq<int>) {
    && |r| == 5 && r[0] >= r[1] >= r[2] >= r[3] >= r[4]
    && forall x :: Count(cards, x) == Among(r, x)
  }

  function Among(r: seq<int>, x: int): int
    requires |r| == 5
  {
    (if r[0] == x then 1 else 0) + (if r[1] == x then 1 else 0) + (if r[2] == x then 1 else 0)
    + (if r[3] == x then 1 else 0) + (if r[4] == x then 1 else 0)
  }

  lemma Sorted5Shape(cards: seq<Card>)
    requires |cards| == 5
    ensures Shape(cards, Sorted5(cards))
  {
    var l := Sort(Numbers(cards));
    Sorted(cards);
    var a, b, c, d, e := FiveRanks(l);
    assert Seq(Cons(d, Cons(e, Nil))) == [d] + Seq(Cons(e, Nil)) == [d, e];
    assert Seq(Cons(c, Cons(d, Cons(e, Nil)))) == [c] + [d, e];
    assert Seq(l) == [a] + ([b] + ([c] + [d, e]));
    forall x
      ensures Count(cards, x) == Among(Sorted5(cards), x)
    {
      OccursFive(a, b, c, d, e, x);
    }
  }

  lemma KindShape(cards: seq<Card>, r: seq<int>)
    requires Shape(cards, r)
    ensures Kind(cards, 4) <==> Quads(r)
    ensures Kind(cards, 3) <==> Trips(r)
    ensures Kind(cards, 2) <==> OnePair(r)
  {
    assert Count(cards, r[1]) == Among(r, r[1]);
    assert Count(cards, r[2]) == Among(r, r[2]);
    assert Count(cards, r[3]) == Among(r, r[3]);
  }

  lemma KindsShape(cards: seq<Card>, r: seq<int>)
    requires Shape(cards, r) && !Quads(r)
    ensures Kinds(cards, 3, 2) <==> FullHouse(r)
    ensures Kinds(cards, 2, 2) && !Trips(r) <==> TwoPair(r) && !Trips(r)
  {
    assert Count(cards, r[0]) == Among(r, r[0]);
    assert Count(cards, r[1]) == Among(r, r[1]);
    assert Count(cards, r[3]) == Among(r, r[3]);
    assert Count(cards, r[4]) == Among(r, r[4]);
  }

  lemma StraightShape(cards: seq<Card>, r: seq<int>)
    requires Shape(cards, r)
    ensures IsStraight(cards) <==> Strict(r) && r[0] - r[4] == 4
    ensures IsStraight(cards) ==> Run(cards, r[0])
  {
    if Strict(r) && r[0] - r[4] == 4 {
      assert Run(cards, r[0]) by {
        RunShape(cards, r, r[0]);
      }
    }
    if high :| Run(cards, high) {
      RunShape(cards, r, high);
    }
  }

  lemma RunShape(cards: seq<Card>, r: seq<int>, high: int)
    requires Shape(cards, r)
    ensures Run(cards, high) <==> r == [high, high - 1, high - 2, high - 3, high - 4]
  {
    assert Count(cards, high) == Among(r, high);
    assert Count(cards, high - 1) == Among(r, high - 1);
    assert Count(cards, high - 2) == Among(r, high - 2);
    assert Count(cards, high - 3) == Among(r, high - 3);
    assert Count(cards, high - 4) == Among(r, high - 4);
  }

  /** The hands in which the two rankings can differ: the ace under a five. */
  ghost predicate Wheel(cards: seq<Card>)
    requires |cards| == 5
  {
    Sorted5(cards) == WHEEL
  }

  lemma TypeIsClass(cards: seq<Card>)
    requires |cards| == 5 && Distinct(cards)
    ensures HandType(Sorted5(cards), AllOneSuit(cards)) == Class(cards) + 1 <==> !Wheel(cards)
  {
    var r := Sorted5(cards);
    Sorted5Shape(cards);
    StraightShape(cards, r);
    KindShape(cards, r);
    if !Quads(r) {
      KindsShape(cards, r);
    }
    assert AllOneSuit(cards) <==> OneSuit(cards);
  }

  lemma FewRank(cards: seq<Card>, r: seq<int>, key: seq<int>)
    requires Shape(cards, r) && 2 <= |key| <= 3
    requires forall x :: x in r <==> x in key
    requires Outranks(cards, key[0], key[1])
    requires |key| == 3 ==> Outranks(cards, key[1], key[2])
    ensures Ranking(cards, key)
  {
    forall x
      ensures x in key <==> Count(cards, x) > 0
    {
      assert Count(cards, x) == Among(r, x);
      assert x in r <==> Among(r, x) > 0;
    }
  }

  lemma QuadsRank(cards: seq<Card>, r: seq<int>)
    requires Shape(cards, r) && Quads(r) && r[0] != r[4]
    ensures Ranking(cards, Key(r, 8))
  {
    var key := Key(r, 8);
    assert Count(cards, key[0]) == Among(r, key[0]);
    assert Count(cards, key[1]) == Among(r, key[1]);
    FewRank(cards, r, key);
  }

  lemma FullHouseRank(cards: seq<Card>, r: seq<int>)
    requires Shape(cards, r) && FullHouse(r) && r[0] != r[4]
    ensures Ranking(cards, Key(r, 7))
  {
    var key := Key(r, 7);
    assert Count(cards, key[0]) == Among(r, key[0]);
    assert Count(cards, key[1]) == Among(r, key[1]);
    FewRank(cards, r, key);
  }

  lemma TripsRank(cards: seq<Card>, r: seq<int>)
    requires Shape(cards, r) && Trips(r) && !Quads(r) && !FullHouse(r)
    ensures |Rest(r)| == 2 && Ranking(cards, Key(r, 4))
  {
    var key := Key(r, 4);
    assert Count(cards, key[0]) == Among(r, key[0]);
    assert Count(cards, key[1]) == Among(r, key[1]);
    assert Count(cards, key[2]) == Among(r, key[2]);
    FewRank(cards, r, key);
  }

  lemma TwoPairRank(cards: seq<Card>, r: seq<int>)
    requires Shape(cards, r) && TwoPair(r) && !Trips(r)
    ensures Ranking(cards, Key(r, 3))
  {
    var key := Key(r, 3);
    assert Count(cards, key[0]) == Among(r, key[0]);
    assert Count(cards, key[1]) == Among(r, key[1]);
    assert Count(cards, key[2]) == Among(r, key[2]);
    FewRank(cards, r, key);
  }

  lemma OnePairRank(cards: seq<Card>, r: seq<int>)
    requires Shape(cards, r) && OnePair(r) && !TwoPair(r) && !Trips(r)
    ensures Ranking(cards, Key(r, 2))
  {
    var key := Key(r, 2);
    assert Count(cards, key[0]) == Among(r, key[0]);
    assert Count(cards, key[1]) == Among(r, key[1]);
    assert Count(cards, key[2]) == Among(r, key[2]);
    assert Count(cards, key[3]) == Among(r, key[3]);
    forall x
      ensures x in key <==> Count(cards, x) > 0
    {
      assert Count(cards, x) == Among(r, x);
      assert x in r <==> Among(r, x) > 0;
    }
  }

  lemma StrictRank(cards: seq<Card>, r: seq<int>)
    requires Shape(cards, r) && !OnePair(r)
    ensures Ranking(cards, r)
  {
    forall x
      ensures x in r <==> Count(cards, x) > 0
    {
      assert Count(cards, x) == Among(r, x);
    }
    forall i, j | 0 <= i < j < 5
      ensures Outranks(cards, r[i], r[j])
    {
      assert Count(cards, r[i]) == Among(r, r[i]);
      assert Count(cards, r[j]) == Among(r, r[j]);
    }
  }

  lemma KeyRanks(cards: seq<Card>, r: seq<int>, handType: int)
    requires |cards| == 5 && Distinct(cards) && Shape(cards, r)
    requires handType == HandType(r, OneSuit(cards)) && handType !in {5, 9}
    ensures Ranking(cards, Key(r, handType))
  {
    CountBounds(cards, r[0]);
    assert Count(cards, r[0]) == Among(r, r[0]);
    if handType == 8 {
      QuadsRank(cards, r);
    } else if handType == 7 {
      FullHouseRank(cards, r);
    } else if handType == 4 {
      TripsRank(cards, r);
    } else if handType == 3 {
      TwoPairRank(cards, r);
    } else if handType == 2 {
      OnePairRank(cards, r);
    } else {
      NoPairInOneSuit(cards, r);
      StrictRank(cards, r);
    }
  }

  lemma NoPairInOneSuit(cards: seq<Card>, r: seq<int>)
    requires |cards| == 5 && Distinct(cards) && Shape(cards, r)
    ensures OneSuit(cards) ==> !OnePair(r)
  {
    CountBounds(cards, r[1]);
    CountBounds(cards, r[3]);
    assert Count(cards, r[1]) == Among(r, r[1]);
    assert Count(cards, r[3]) == Among(r, r[3]);
  }

  /** Unless the hand is a wheel, the referee's points are the bot's score. */
  lemma PointsAreScore(cards: seq<Card>)
    requires |cards| == 5 && Distinct(cards)
    ensures Points(cards) == Evaluate(cards) <==> !Wheel(cards)
  {
    var r := Sorted5(cards);
    var handType := HandType(r, AllOneSuit(cards));
    TypeIsClass(cards);
    ScoreMeansClass(cards);
    if !Wheel(cards) {
      Sorted5Shape(cards);
      StraightShape(cards, r);
      if handType !in {5, 9} {
        KeyRanks(cards, r, handType);
      }
      assert Points(cards)[1..] == Key(r, handType);
      ScoreIsWhatIsSaid(cards, Points(cards));
    }
  }

  // ----- the verdict on two hands

  /** The referee's comparison of two hands, first by type. */
  function Verdict(s: seq<Card>, t: seq<Card>): int
    requires |s| == 5 && |t| == 5 && Distinct(s) && Distinct(t)
  {
    var p, q := Sorted5(s), Sorted5(t);
    var m, n := HandType(p, AllOneSuit(s)), HandType(q, AllOneSuit(t));
    RestOfTrips(s);
    RestOfTrips(t);
    if m != n then m - n else Compare(p, q, m)
  }

  lemma RestOfTrips(cards: seq<Card>)
    requires |cards| == 5 && Distinct(cards)
    ensures HandType(Sorted5(cards), AllOneSuit(cards)) == 4 ==> |Rest(Sorted5(cards))| == 2
  {
    var r := Sorted5(cards);
    Sorted5Shape(cards);
    if HandType(r, AllOneSuit(cards)) == 4 {
      TripsRank(cards, r);
    }
  }

  /** The verdict is the order of the points. */
  lemma VerdictIsByPoints(s: seq<Card>, t: seq<Card>)
    requires |s| == 5 && |t| == 5 && Distinct(s) && Distinct(t)
    ensures Verdict(s, t) <= 0 <==> AtMost(Points(s), Points(t))
    ensures Verdict(s, t) == 0 <==> Points(s) == Points(t)
  {
    var p, q := Sorted5(s), Sorted5(t);
    var m, n := HandType(p, AllOneSuit(s)), HandType(q, AllOneSuit(t));
    RestOfTrips(s);
    RestOfTrips(t);
    assert Points(s)[1..] == Key(p, m) && Points(t)[1..] == Key(q, n);
    if m == n {
      CompareIsByKey(p, q, m);
      OrderIsFirstDifference(Key(p, m), Key(q, m));
    }
  }

  /** The bot orders two hands as the referee does, given their scores. */
  ghost predicate Agree(s: seq<Card>, t: seq<Card>, p: seq<int>, q: seq<int>)
    requires |s| == 5 && |t| == 5 && Distinct(s) && Distinct(t)
  {
    (Verdict(s, t) <= 0 <==> AtMost(p, q)) && (Verdict(s, t) == 0 <==> p == q)
  }

  /** The same in terms of the points. */
  ghost predicate SameOrder(m: seq<int>, n: seq<int>, p: seq<int>, q: seq<int>) {
    (AtMost(m, n) <==> AtMost(p, q)) && (m == n <==> p == q)
  }

  lemma AgreeIsSameOrder(s: seq<Card>, t: seq<Card>, p: seq<int>, q: seq<int>)
    requires |s| == 5 && |t| == 5 && Distinct(s) && Distinct(t)
    ensures Agree(s, t, p, q) <==> SameOrder(Points(s), Points(t), p, q)
    ensures Agree(s, t, p, q) <==> Agree(t, s, q, p)
  {
    VerdictIsByPoints(s, t);
    VerdictIsByPoints(t, s);
    AtMostTotal(p, q);
    AtMostTotal(Points(s), Points(t));
  }

  lemma Heads(s: seq<int>, t: seq<int>)
    requires |s| > 0 && |t| > 0 && s[0] != t[0]
    ensures AtMost(s, t) <==> s[0] < t[0]
    ensures s != t
  {
  }

  lemma Seconds(s: seq<int>, t: seq<int>)
    requires |s| > 1 && |t| > 1 && s[0] == t[0] && s[1] != t[1]
    ensures AtMost(s, t) <==> s[1] < t[1]
    ensures s != t
  {
    Heads(s[1..], t[1..]);
  }

  // ----- wheels

  lemma {:induction false} RankRange(cards: seq<Card>, x: int)
    requires Count(cards, x) > 0
    ensures 2 <= x <= 14
    decreases |cards|
  {
    if Number(cards[0]) != x {
      RankRange(cards[1..], x);
    }
  }

  /** The score the bot gives to a wheel, and the points it has. */
  function WheelScore(oneSuit: bool): seq<int> {
    [if oneSuit then 5 else 0, 14, 5, 4, 3, 2]
  }

  function WheelPoints(oneSuit: bool): seq<int> {
    [if oneSuit then 8 else 4, 5]
  }

  lemma WheelIsHigh(s: seq<Card>)
    requires |s| == 5 && Distinct(s) && Wheel(s)
    ensures Points(s) == WheelPoints(OneSuit(s)) && Evaluate(s) == WheelScore(OneSuit(s))
  {
    var r := Sorted5(s);
    assert AllOneSuit(s) <==> OneSuit(s);
    Sorted5Shape(s);
    StraightShape(s, r);
    KindShape(s, r);
    KindsShape(s, r);
    StrictRank(s, r);
    assert WheelScore(OneSuit(s))[1..] == r;
    ScoreIsWhatIsSaid(s, WheelScore(OneSuit(s)));
  }

  /** A hand without pairs that is no wheel is below it exactly if it has no ace. */
  lemma HighCards(r: seq<int>)
    requires |r| == 5 && Strict(r) && r[0] <= 14 && r[4] >= 2 && r != WHEEL
    ensures AtMost(r, WHEEL) <==> r[0] != 14
  {
    if r[0] == 14 {
      Heads(r[1..], WHEEL[1..]);
    } else {
      Heads(r, WHEEL);
    }
  }

  /** What the points of a hand other than a wheel look like. */
  lemma OtherPoints(t: seq<Card>)
    requires |t| == 5 && Distinct(t) && !Wheel(t)
    ensures Evaluate(t) == Points(t) && |Points(t)| >= 2 && Points(t)[0] == Class(t)
    ensures Class(t) in {4, 8} ==> Points(t)[1] >= 6
    ensures Class(t) in {0, 5} ==>
              var r := Points(t)[1..];
              |r| == 5 && Strict(r) && r[0] <= 14 && r[4] >= 2 && r != WHEEL && (r[0] == 14 <==> Count(t, 14) > 0)
  {
    var r := Sorted5(t);
    PointsAreScore(t);
    TypeIsClass(t);
    Sorted5Shape(t);
    assert AllOneSuit(t) <==> OneSuit(t);
    NoPairInOneSuit(t, r);
    assert Points(t)[1..] == Key(r, Class(t) + 1);
    assert Count(t, r[0]) == Among(r, r[0]) && Count(t, r[4]) == Among(r, r[4]) && Count(t, 14) == Among(r, 14);
    RankRange(t, r[0]);
    RankRange(t, r[4]);
  }

  /** The hands that the bot compares rightly with a wheel, of one suit or of several. */
  ghost predicate RightWithWheel(oneSuit: bool, t: seq<Card>)
    requires |t| == 5
  {
    if oneSuit then Class(t) == 8 || Class(t) < 5 || (Class(t) == 5 && Count(t, 14) == 0)
    else Class(t) >= 4 || (Class(t) == 0 && Count(t, 14) == 0)
  }

  lemma WheelAgainst(oneSuit: bool, t: seq<Card>)
    requires |t| == 5 && Distinct(t) && !Wheel(t)
    ensures Points(t) != WheelPoints(oneSuit) && Points(t) != WheelScore(oneSuit)
    ensures AtMost(Points(t), WheelPoints(oneSuit)) <==>
            Class(t) < WheelPoints(oneSuit)[0]
    ensures AtMost(Points(t), WheelScore(oneSuit)) <==>
            Class(t) < WheelScore(oneSuit)[0] || (Class(t) == WheelScore(oneSuit)[0] && Count(t, 14) == 0)
  {
    var points, score := WheelPoints(oneSuit), WheelScore(oneSuit);
    OtherPoints(t);
    if Class(t) == points[0] {
      Seconds(Points(t), points);
    } else {
      Heads(Points(t), points);
    }
    if Class(t) == score[0] {
      HighCards(Points(t)[1..]);
      assert score[1..] == WHEEL;
    } else {
      Heads(Points(t), score);
    }
  }

  lemma WheelVerdict(s: seq<Card>, t: seq<Card>)
    requires |s| == 5 && |t| == 5 && Distinct(s) && Distinct(t) && Wheel(s) && !Wheel(t)
    ensures Agree(s, t, Evaluate(s), Evaluate(t)) <==> RightWithWheel(OneSuit(s), t)
  {
    AgreeIsSameOrder(s, t, Evaluate(s), Evaluate(t));
    WheelIsHigh(s);
    OtherPoints(t);
    WheelAgainst(OneSuit(s), t);
    AtMostTotal(Points(s), Points(t));
    AtMostTotal(Evaluate(s), Evaluate(t));
  }

  lemma TwoWheels(s: seq<Card>, t: seq<Card>)
    requires |s| == 5 && |t| == 5 && Distinct(s) && Distinct(t) && Wheel(s) && Wheel(t)
    ensures Agree(s, t, Evaluate(s), Evaluate(t))
  {
    AgreeIsSameOrder(s, t, Evaluate(s), Evaluate(t));
    WheelIsHigh(s);
    WheelIsHigh(t);
    AtMostTotal(Points(s), Points(s));
    AtMostTotal(Evaluate(s), Evaluate(s));
  }

  /** The bot orders two hands as the referee does exactly when both or neither are wheels,
      or the one that is no wheel is compared rightly with the other. */
  lemma SameVerdict(s: seq<Card>, t: seq<Card>)
    requires |s| == 5 && |t| == 5 && Distinct(s) && Distinct(t)
    ensures
      Agree(s, t, Evaluate(s), Evaluate(t)) <==>
        (Wheel(s) <==> Wheel(t))
        || (Wheel(s) && RightWithWheel(OneSuit(s), t))
        || (Wheel(t) && RightWithWheel(OneSuit(t), s))
  {
    AgreeIsSameOrder(s, t, Evaluate(s), Evaluate(t));
    if Wheel(s) && Wheel(t) {
      TwoWheels(s, t);
    } else if Wheel(s) {
      WheelVerdict(s, t);
    } else if Wheel(t) {
      WheelVerdict(t, s);
    } else {
      OtherPoints(s);
      OtherPoints(t);
    }
  }

  /** A wheel of mixed suits beats any pairs or triplet, and the bot thinks the opposite. */
  lemma WheelIsMisjudged(s: seq<Card>, t: seq<Card>)
    requires |s| == 5 && |t| == 5 && Distinct(s) && Distinct(t)
    requires Wheel(s) && !OneSuit(s) && Class(t) in {1, 2, 3}
    ensures Verdict(s, t) > 0 && AtMost(Evaluate(s), Evaluate(t)) && Evaluate(s) != Evaluate(t)
  {
    WheelIsHigh(s);
    ScoreMeansClass(t);
    if Wheel(t) {
      WheelIsHigh(t);
    } else {
      OtherPoints(t);
    }
    VerdictIsByPoints(s, t);
  }

  // ----- the best five of more cards

  ghost predicate BestByPoints(cards: seq<Card>, hand: seq<Card>) {
    && Hand(hand, cards, 5)
    && forall other: seq<Card> :: Hand(other, cards, 5) ==> AtMost(Points(other), Points(hand))
  }

  lemma PointsIgnoreOrder(s: seq<Card>, t: seq<Card>)
    requires |s| == 5 && multiset(s) == multiset(t)
    ensures |t| == 5 && Points(s) == Points(t)
  {
    SortIgnoresOrder(s, t);
    SameSuits(s, t);
    SuitsOne(s);
    SuitsOne(t);
    assert AllOneSuit(s) <==> OneSuit(s);
    assert AllOneSuit(t) <==> OneSuit(t);
  }

  lemma {:induction false} OnceEach(cards: seq<Card>, c: Card)
    requires Distinct(cards)
    ensures multiset(cards)[c] <= 1
    decreases |cards|
  {
    if |cards| > 0 {
      assert cards == [cards[0]] + cards[1..];
      OnceEach(cards[1..], c);
      assert cards[0] !in cards[1..];
    }
  }

  /** A hand of distinct cards is of distinct cards. */
  lemma DistinctHand(hand: seq<Card>, cards: seq<Card>, n: nat)
    requires Hand(hand, cards, n) && Distinct(cards)
    ensures Distinct(hand)
  {
    forall i, j | 0 <= i < j < |hand|
      ensures hand[i] != hand[j]
    {
      OnceEach(cards, hand[i]);
      assert hand == hand[..i] + [hand[i]] + hand[i + 1..];
      assert hand[j] == hand[i + 1..][j - i - 1];
      assert hand[j] in hand[i + 1..];
    }
  }

  ghost predicate Ahead(hands: seq<seq<Card>>, hand: seq<Card>)
    requires |hand| == 5 && AllFive(hands)
  {
    forall k :: 0 <= k < |hands| ==> AtMost(Points(hands[k]), Points(hand))
  }

  lemma AheadStep(hands: seq<seq<Card>>, best: seq<Card>, hand: seq<Card>)
    requires AllFive(hands) && |best| == 5 && |hand| == 5 && Distinct(best) && Distinct(hand)
    requires Ahead(hands, best)
    ensures Verdict(best, hand) < 0 ==> Ahead(hands + [hand], hand)
    ensures Verdict(best, hand) >= 0 ==> Ahead(hands + [hand], best)
  {
    var more := hands + [hand];
    VerdictIsByPoints(best, hand);
    AtMostTotal(Points(best), Points(hand));
    AtMostTotal(Points(hand), Points(hand));
    forall k | 0 <= k < |more|
      ensures AtMost(Points(more[k]), Points(if Verdict(best, hand) < 0 then hand else best))
    {
      if k < |hands| && Verdict(best, hand) < 0 {
        AtMostTransitive(Points(hands[k]), Points(best), Points(hand));
      }
    }
  }

  lemma AheadOfAll(cards: seq<Card>, hands: seq<seq<Card>>, best: seq<Card>)
    requires AllFive(hands) && Hand(best, cards, 5) && Ahead(hands, best)
    requires Complete(hands, cards)
    ensures BestByPoints(cards, best)
  {
    forall other: seq<Card> | Hand(other, cards, 5)
      ensures AtMost(Points(other), Points(best))
    {
      var k :| 0 <= k < |hands| && multiset(hands[k]) == multiset(other);
      PointsIgnoreOrder(other, hands[k]);
    }
  }

  lemma SearchStep(cards: seq<Card>, hands: seq<seq<Card>>, best: seq<Card>, k: nat)
    requires AllFive(hands) && AllHands(hands, cards, 5) && Distinct(cards) && k < |hands|
    requires Hand(best, cards, 5) && Ahead(hands[..k], best)
    ensures Hand(hands[k], cards, 5) && Distinct(best) && Distinct(hands[k])
    ensures Ahead(hands[..k + 1], if Verdict(best, hands[k]) < 0 then hands[k] else best)
  {
    DistinctHand(hands[k], cards, 5);
    DistinctHand(best, cards, 5);
    AheadStep(hands[..k], best, hands[k]);
    assert hands[..k + 1] == hands[..k] + [hands[k]];
  }

  /** The loop of the referee's search. */
  method FindHighest(cards: seq<Card>, hands: seq<seq<Card>>) returns (best: seq<Card>)
    requires AllFive(hands) && AllHands(hands, cards, 5) && |hands| > 0 && Distinct(cards)
    ensures Hand(best, cards, 5) && Ahead(hands, best)
  {
    best := hands[0];
    assert Hand(best, cards, 5);
    for k := 0 to |hands|
      invariant Hand(best, cards, 5) && Ahead(hands[..k], best)
    {
      var hand := hands[k];
      SearchStep(cards, hands, best, k);
      if Verdict(best, hand) < 0 {
        best := hand;
      }
    }
    assert hands[..|hands|] == hands;
  }

  /** The referee's search finds a best five; fewer than five cards stay as they are. */
  method FindMaxHandType(cards: seq<Card>) returns (handType: int, best: seq<Card>)
    requires Distinct(cards)
    ensures |cards| < 5 ==> handType == 1 && best == cards
    ensures |cards| >= 5 ==> BestByPoints(cards, best) && handType == HandType(Sorted5(best), AllOneSuit(best))
  {
    if |cards| < 5 {
      return 1, cards;
    }
    ChoicesOfFive(cards);
    best := FindHighest(cards, Choices(cards, 5));
    AheadOfAll(cards, Choices(cards, 5), best);
    handType := HandType(Sorted5(best), AllOneSuit(best));
  }

  /** A wheel's score is below its points, so a search by score undervalues it. */
  lemma ScoreBelowPoints(s: seq<Card>)
    requires |s| == 5 && Distinct(s)
    ensures AtMost(Evaluate(s), Points(s))
    ensures Wheel(s) ==> Evaluate(s) != Points(s)
  {
    if Wheel(s) {
      WheelIsHigh(s);
      Heads(Evaluate(s), Points(s));
    } else {
      OtherPoints(s);
      AtMostTotal(Points(s), Points(s));
    }
  }

  /** The bot's best score is the referee's best points, unless the best hand is a wheel. */
  lemma BestScore(cards: seq<Card>, hand: seq<Card>, score: seq<int>)
    requires Distinct(cards) && BestByPoints(cards, hand) && Best(cards, score)
    ensures Distinct(hand) && AtMost(Evaluate(hand), score) && AtMost(score, Points(hand))
    ensures score == Points(hand) <==> !Wheel(hand)
  {
    var other :| Hand(other, cards, 5) && Evaluate(other) == score;
    DistinctHand(hand, cards, 5);
    DistinctHand(other, cards, 5);
    ScoreBelowPoints(other);
    AtMostTransitive(score, Points(other), Points(hand));
    if Wheel(hand) {
      if score == Points(hand) {
        AtMostTotal(score, Points(other));
        OtherPointsDiffer(other, hand);
      }
    } else {
      OtherPoints(hand);
      AtMostTotal(score, Points(hand));
    }
  }

  /** No score is the points of a wheel. */
  lemma OtherPointsDiffer(t: seq<Card>, wheel: seq<Card>)
    requires |t| == 5 && Distinct(t) && |wheel| == 5 && Distinct(wheel) && Wheel(wheel)
    ensures Evaluate(t) != Points(wheel)
  {
    WheelIsHigh(wheel);
    if Wheel(t) {
      WheelIsHigh(t);
    } else {
      OtherPoints(t);
      WheelAgainst(OneSuit(wheel), t);
    }
  }

  // ----- the best hands compared

  /** Five of the cards that are no wheel. */
  ghost predicate OtherHand(hand: seq<Card>, cards: seq<Card>) {
    Hand(hand, cards, 5) && Distinct(hand) && !Wheel(hand)
  }

  /** A hand that the referee has below the best wheel of the cards and the bot above it. */
  ghost predicate Overrated(hand: seq<Card>, cards: seq<Card>, oneSuit: bool) {
    OtherHand(hand, cards) && !RightWithWheel(oneSuit, hand)
  }

  /** Besides its wheels, some hand of the cards beats a given one. */
  ghost predicate HasBetter(cards: seq<Card>, than: seq<Card>)
    requires |than| == 5 && Distinct(than)
  {
    exists hand :: OtherHand(hand, cards) && Verdict(hand, than) > 0
  }

  /** No overrated hand of some cards beats all the overrated hands of others. */
  ghost predicate Matched(s: seq<Card>, t: seq<Card>, oneSuit: bool) {
    forall hand :: Overrated(hand, s, oneSuit) ==>
      exists other :: Overrated(other, t, oneSuit) && Verdict(hand, other) <= 0
  }

  lemma ShowdownByScore(s: seq<Card>, t: seq<Card>, a: seq<Card>, b: seq<Card>, p: seq<int>, q: seq<int>)
    requires Distinct(s) && Distinct(t) && Distinct(a) && Distinct(b)
    requires BestByPoints(s, a) && BestByPoints(t, b) && Best(s, p) && Best(t, q)
    requires Wheel(a) && !Wheel(b)
    ensures Agree(a, b, p, q) <==> AtMost(Points(a), q) || !AtMost(p, q)
  {
    AgreeIsSameOrder(a, b, p, q);
    BestScore(s, a, p);
    BestScore(t, b, q);
    OtherPoints(b);
    OtherPointsDiffer(b, a);
    AtMostTotal(p, q);
    if AtMost(Points(a), q) {
      AtMostTransitive(p, Points(a), q);
      AtMostTotal(p, Points(a));
    }
  }

  /** Below the wheel by the referee, a hand is misplaced exactly if its score is above the wheel's. */
  lemma MisplacedIsAbove(oneSuit: bool, hand: seq<Card>)
    requires |hand| == 5 && Distinct(hand) && !Wheel(hand) && AtMost(Points(hand), WheelPoints(oneSuit))
    ensures RightWithWheel(oneSuit, hand) <==> AtMost(Points(hand), WheelScore(oneSuit))
  {
    WheelAgainst(oneSuit, hand);
  }

  /** When the best hand is a wheel, the best score is the wheel's or that of an overrated hand. */
  lemma TopScore(cards: seq<Card>, wheel: seq<Card>, score: seq<int>)
    requires Distinct(cards) && BestByPoints(cards, wheel) && Best(cards, score)
    requires Distinct(wheel) && Wheel(wheel)
    ensures AtMost(WheelScore(OneSuit(wheel)), score)
    ensures score == WheelScore(OneSuit(wheel))
            || exists hand :: Overrated(hand, cards, OneSuit(wheel)) && Points(hand) == score
  {
    var low := WheelScore(OneSuit(wheel));
    WheelIsHigh(wheel);
    BestScore(cards, wheel, score);
    var hand :| Hand(hand, cards, 5) && Evaluate(hand) == score;
    DistinctHand(hand, cards, 5);
    if Wheel(hand) {
      WheelIsHigh(hand);
      OneWheelKind(wheel, hand, score);
    } else if score != low {
      OtherPoints(hand);
      AtMostTotal(low, score);
      MisplacedIsAbove(OneSuit(wheel), hand);
    }
  }

  lemma OneWheelKind(wheel: seq<Card>, hand: seq<Card>, score: seq<int>)
    requires |wheel| == 5 && |hand| == 5 && score == WheelScore(OneSuit(hand))
    requires AtMost(WheelPoints(OneSuit(hand)), WheelPoints(OneSuit(wheel)))
    requires AtMost(WheelScore(OneSuit(wheel)), score)
    ensures score == WheelScore(OneSuit(wheel))
  {
    if OneSuit(wheel) != OneSuit(hand) {
      Heads(WheelPoints(OneSuit(hand)), WheelPoints(OneSuit(wheel)));
      Heads(WheelScore(OneSuit(wheel)), score);
    }
  }

  /** An overrated hand's score lies between the wheel's and the best. */
  lemma OverratedScore(cards: seq<Card>, wheel: seq<Card>, score: seq<int>, hand: seq<Card>)
    requires Distinct(cards) && BestByPoints(cards, wheel) && Best(cards, score)
    requires Distinct(wheel) && Wheel(wheel) && OtherHand(hand, cards)
    ensures AtMost(Points(hand), score)
    ensures Overrated(hand, cards, OneSuit(wheel)) <==> !AtMost(Points(hand), WheelScore(OneSuit(wheel)))
  {
    WheelIsHigh(wheel);
    OtherPoints(hand);
    MisplacedIsAbove(OneSuit(wheel), hand);
  }

  /** One best hand is a wheel. */
  lemma ShowdownOfWheel(s: seq<Card>, t: seq<Card>, a: seq<Card>, b: seq<Card>, p: seq<int>, q: seq<int>)
    requires Distinct(s) && Distinct(t) && Distinct(a) && Distinct(b)
    requires BestByPoints(s, a) && BestByPoints(t, b) && Best(s, p) && Best(t, q)
    requires Wheel(a) && !Wheel(b)
    ensures Agree(a, b, p, q) <==> RightWithWheel(OneSuit(a), b) || HasBetter(s, b)
  {
    ShowdownByScore(s, t, a, b, p, q);
    BestScore(t, b, q);
    WheelIsHigh(a);
    OtherPointsDiffer(b, a);
    OtherPoints(b);
    AtMostTotal(Points(a), q);
    if AtMost(Points(a), q) {
      AboveIsRight(OneSuit(a), b);
    } else {
      LeadingWheel(s, a, b, p);
    }
  }

  lemma AboveIsRight(oneSuit: bool, hand: seq<Card>)
    requires |hand| == 5 && Distinct(hand) && !Wheel(hand) && !AtMost(Points(hand), WheelPoints(oneSuit))
    ensures RightWithWheel(oneSuit, hand)
  {
    WheelAgainst(oneSuit, hand);
  }

  /** The wheel is ahead by the referee. */
  lemma LeadingWheel(s: seq<Card>, a: seq<Card>, b: seq<Card>, p: seq<int>)
    requires Distinct(s) && Distinct(a) && |b| == 5 && Distinct(b) && !Wheel(b)
    requires BestByPoints(s, a) && Best(s, p) && Wheel(a) && AtMost(Points(b), WheelPoints(OneSuit(a)))
    ensures !AtMost(p, Points(b)) <==> RightWithWheel(OneSuit(a), b) || HasBetter(s, b)
  {
    var low := WheelScore(OneSuit(a));
    MisplacedIsAbove(OneSuit(a), b);
    if AtMost(Points(b), low) {
      TopScore(s, a, p);
      WheelAgainst(OneSuit(a), b);
      AheadOfLow(p, Points(b), low);
    } else {
      BetterIsHigher(s, a, b, p);
    }
  }

  lemma AheadOfLow(p: seq<int>, q: seq<int>, low: seq<int>)
    requires AtMost(q, low) && AtMost(low, p) && q != low
    ensures !AtMost(p, q)
  {
    if AtMost(p, q) {
      AtMostTransitive(low, p, q);
      AtMostTotal(low, q);
    }
  }

  /** Against a hand that the bot has above the wheel, only a better hand scores more. */
  lemma BetterIsHigher(s: seq<Card>, a: seq<Card>, b: seq<Card>, p: seq<int>)
    requires Distinct(s) && Distinct(a) && |b| == 5 && Distinct(b)
    requires BestByPoints(s, a) && Best(s, p) && Wheel(a) && !AtMost(Points(b), WheelScore(OneSuit(a)))
    ensures HasBetter(s, b) <==> !AtMost(p, Points(b))
  {
    if HasBetter(s, b) {
      var hand :| OtherHand(hand, s) && Verdict(hand, b) > 0;
      VerdictIsByPoints(hand, b);
      OverratedScore(s, a, p, hand);
      if AtMost(p, Points(b)) {
        AtMostTransitive(Points(hand), p, Points(b));
      }
    }
    if !AtMost(p, Points(b)) {
      TopScore(s, a, p);
      AtMostTotal(WheelScore(OneSuit(a)), Points(b));
      var hand :| Overrated(hand, s, OneSuit(a)) && Points(hand) == p;
      VerdictIsByPoints(hand, b);
    }
  }

  lemma MatchedScores(s: seq<Card>, t: seq<Card>, a: seq<Card>, b: seq<Card>, p: seq<int>, q: seq<int>)
    requires Distinct(s) && Distinct(t) && Distinct(a) && Distinct(b)
    requires BestByPoints(s, a) && BestByPoints(t, b) && Best(s, p) && Best(t, q)
    requires Wheel(a) && Wheel(b) && OneSuit(a) == OneSuit(b) && Matched(s, t, OneSuit(a))
    ensures AtMost(p, q)
  {
    TopScore(s, a, p);
    TopScore(t, b, q);
    if p != WheelScore(OneSuit(a)) {
      var hand :| Overrated(hand, s, OneSuit(a)) && Points(hand) == p;
      var other :| Overrated(other, t, OneSuit(a)) && Verdict(hand, other) <= 0;
      VerdictIsByPoints(hand, other);
      OverratedScore(t, b, q, other);
      AtMostTransitive(p, Points(other), q);
    }
  }

  lemma ScoresMatched(s: seq<Card>, t: seq<Card>, a: seq<Card>, b: seq<Card>, p: seq<int>, q: seq<int>)
    requires Distinct(s) && Distinct(t) && Distinct(a) && Distinct(b)
    requires BestByPoints(s, a) && BestByPoints(t, b) && Best(s, p) && Best(t, q)
    requires Wheel(a) && Wheel(b) && OneSuit(a) == OneSuit(b) && AtMost(p, q)
    ensures Matched(s, t, OneSuit(a))
  {
    forall hand | Overrated(hand, s, OneSuit(a))
      ensures exists other :: Overrated(other, t, OneSuit(a)) && Verdict(hand, other) <= 0
    {
      OverratedScore(s, a, p, hand);
      AtMostTransitive(Points(hand), p, q);
      TopScore(t, b, q);
      var other :| Overrated(other, t, OneSuit(a)) && Points(other) == q;
      VerdictIsByPoints(hand, other);
    }
  }

  /** With wheels of one kind on both sides the overrated hands decide the scores. */
  lemma MatchedIsAtMost(s: seq<Card>, t: seq<Card>, a: seq<Card>, b: seq<Card>, p: seq<int>, q: seq<int>)
    requires Distinct(s) && Distinct(t) && Distinct(a) && Distinct(b)
    requires BestByPoints(s, a) && BestByPoints(t, b) && Best(s, p) && Best(t, q)
    requires Wheel(a) && Wheel(b) && OneSuit(a) == OneSuit(b)
    ensures Matched(s, t, OneSuit(a)) <==> AtMost(p, q)
  {
    if AtMost(p, q) {
      ScoresMatched(s, t, a, b, p, q);
    } else if Matched(s, t, OneSuit(a)) {
      MatchedScores(s, t, a, b, p, q);
    }
  }

  /** Both best hands are wheels. */
  lemma ShowdownOfWheels(s: seq<Card>, t: seq<Card>, a: seq<Card>, b: seq<Card>, p: seq<int>, q: seq<int>)
    requires Distinct(s) && Distinct(t) && Distinct(a) && Distinct(b)
    requires BestByPoints(s, a) && BestByPoints(t, b) && Best(s, p) && Best(t, q)
    requires Wheel(a) && Wheel(b) && (OneSuit(a) ==> OneSuit(b))
    ensures Agree(a, b, p, q) <==>
            OneSuit(a) != OneSuit(b) || (Matched(s, t, OneSuit(a)) && Matched(t, s, OneSuit(a)))
  {
    AgreeIsSameOrder(a, b, p, q);
    BestScore(s, a, p);
    BestScore(t, b, q);
    WheelIsHigh(a);
    WheelIsHigh(b);
    AtMostTotal(p, q);
    AtMostTotal(Points(a), Points(a));
    if OneSuit(a) != OneSuit(b) {
      Heads(Points(a), Points(b));
      Heads(Points(a), Evaluate(b));
      AtMostTransitive(p, Points(a), Evaluate(b));
      AtMostTransitive(p, Evaluate(b), q);
    } else {
      MatchedIsAtMost(s, t, a, b, p, q);
      MatchedIsAtMost(t, s, b, a, q, p);
      AtMostTotal(p, p);
    }
  }

  /** Any cards against any others, such as seven against seven: with a and b the referee's
      best hands and p and q the bot's best scores, the bot's comparison is the referee's
      exactly if neither best hand is a wheel; or one is, and the bot places the other rightly
      against it or has a better hand besides the wheel; or both are, and are not of one kind
      or neither side has an overrated hand better than all of the other's. */
  lemma SameShowdown(s: seq<Card>, t: seq<Card>, a: seq<Card>, b: seq<Card>, p: seq<int>, q: seq<int>)
    requires Distinct(s) && Distinct(t)
    requires BestByPoints(s, a) && BestByPoints(t, b) && Best(s, p) && Best(t, q)
    ensures Distinct(a) && Distinct(b)
    ensures
      Agree(a, b, p, q) <==>
        if Wheel(a) && Wheel(b) then
          OneSuit(a) != OneSuit(b) || (Matched(s, t, OneSuit(a)) && Matched(t, s, OneSuit(a)))
        else if Wheel(a) then RightWithWheel(OneSuit(a), b) || HasBetter(s, b)
        else if Wheel(b) then RightWithWheel(OneSuit(b), a) || HasBetter(t, a)
        else true
  {
    DistinctHand(a, s, 5);
    DistinctHand(b, t, 5);
    AgreeIsSameOrder(a, b, p, q);
    if Wheel(a) && Wheel(b) {
      if OneSuit(a) {
        ShowdownOfWheels(t, s, b, a, q, p);
      } else {
        ShowdownOfWheels(s, t, a, b, p, q);
      }
    } else if Wheel(a) {
      ShowdownOfWheel(s, t, a, b, p, q);
    } else if Wheel(b) {
      ShowdownOfWheel(t, s, b, a, q, p);
    } else {
      BestScore(s, a, p);
      BestScore(t, b, q);
    }
  }
}

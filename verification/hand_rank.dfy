/** The sample bot's hand evaluator (samples/holdem_bot6.py). */
module HandRank {

  datatype List<T> = Nil | Cons(head: T, tail: List<T>)

  type Card = c: int | 0 <= c < 52

  function Suit(c: Card): int {
    c % 4
  }

  function Number(c: Card): int {
    c / 4 + 2
  }

  function Length<T>(l: List<T>): nat {
    match l
    case Nil => 0
    case Cons(_, t) => 1 + Length(t)
  }

  /** Insertion into a descending list. */
  function Insert(x: int, l: List<int>): List<int> {
    if l.Nil? || x >= l.head then Cons(x, l) else Cons(l.head, Insert(x, l.tail))
  }

  function Sort(l: List<int>): List<int> {
    match l
    case Nil => Nil
    case Cons(x, t) => Insert(x, Sort(t))
  }

  function Numbers(cards: seq<Card>): List<int> {
    if |cards| == 0 then Nil else Cons(Number(cards[0]), Numbers(cards[1..]))
  }

  function Suits(cards: seq<Card>): set<int> {
    set c | c in cards :: Suit(c)
  }

  /** One entry of the rank counts. */
  datatype Group = Group(count: int, rank: int)

  /** Count one more rank, in order of first appearance. */
  function Bump(groups: List<Group>, rank: int): List<Group> {
    match groups
    case Nil => Cons(Group(1, rank), Nil)
    case Cons(g, t) => if g.rank == rank then Cons(Group(g.count + 1, rank), t) else Cons(g, Bump(t, rank))
  }

  function Tally(groups: List<Group>, ranks: List<int>): List<Group>
    decreases ranks
  {
    match ranks
    case Nil => groups
    case Cons(r, t) => Tally(Bump(groups, r), t)
  }

  predicate Above(g: Group, h: Group) {
    g.count > h.count || (g.count == h.count && g.rank >= h.rank)
  }

  function InsertGroup(g: Group, l: List<Group>): List<Group> {
    if l.Nil? || Above(g, l.head) then Cons(g, l) else Cons(l.head, InsertGroup(g, l.tail))
  }

  /** The groups in descending order of count, then of rank. */
  function SortGroups(l: List<Group>): List<Group> {
    match l
    case Nil => Nil
    case Cons(g, t) => InsertGroup(g, SortGroups(t))
  }

  function Groups(ranks: List<int>): List<Group> {
    SortGroups(Tally(Nil, ranks))
  }

  /** The distinct ranks of a descending list. */
  function Unique(ranks: List<int>): List<int> {
    match ranks
    case Nil => Nil
    case Cons(r, t) => if t.Cons? && t.head == r then Unique(t) else Cons(r, Unique(t))
  }

  /** The ranks other than one or two given ones, still descending. */
  function Without(ranks: List<int>, x: int, y: int): List<int> {
    match ranks
    case Nil => Nil
    case Cons(r, t) => if r == x || r == y then Without(t, x, y) else Cons(r, Without(t, x, y))
  }

  function At<T>(l: List<T>, i: nat): T
    requires i < Length(l)
  {
    if i == 0 then l.head else At(l.tail, i - 1)
  }

  function Largest(l: List<int>): int
    requires l.Cons?
  {
    if l.tail.Nil? || l.head >= Largest(l.tail) then l.head else Largest(l.tail)
  }

  function Seq(l: List<int>): seq<int> {
    match l
    case Nil => []
    case Cons(x, t) => [x] + Seq(t)
  }

  // ----- what the groups are

  function Occurs(ranks: List<int>, x: int): nat {
    match ranks
    case Nil => 0
    case Cons(r, t) => Occurs(t, x) + (if r == x then 1 else 0)
  }

  /** The count recorded for a rank, 0 if there is none. */
  function Lookup(groups: List<Group>, x: int): int {
    match groups
    case Nil => 0
    case Cons(g, t) => if g.rank == x then g.count else Lookup(t, x)
  }

  /** Every rank has one group, with a positive count. */
  ghost predicate Proper(groups: List<Group>) {
    match groups
    case Nil => true
    case Cons(g, t) => g.count > 0 && Lookup(t, g.rank) == 0 && Proper(t)
  }

  ghost predicate Ordered(groups: List<Group>) {
    groups.Cons? && groups.tail.Cons? ==> Above(groups.head, groups.tail.head) && Ordered(groups.tail)
  }

  lemma {:induction false} BumpSpec(groups: List<Group>, r: int, x: int)
    requires Proper(groups)
    ensures Proper(Bump(groups, r))
    ensures Lookup(Bump(groups, r), x) == Lookup(groups, x) + (if r == x then 1 else 0)
    decreases groups
  {
    if groups.Cons? {
      BumpSpec(groups.tail, r, x);
      BumpSpec(groups.tail, r, groups.head.rank);
      LookupPositive(groups.tail, x);
    }
  }

  lemma {:induction false} LookupPositive(groups: List<Group>, x: int)
    requires Proper(groups)
    ensures Lookup(groups, x) >= 0
    decreases groups
  {
    if groups.Cons? {
      LookupPositive(groups.tail, x);
    }
  }

  lemma {:induction false} TallySpec(groups: List<Group>, ranks: List<int>, x: int)
    requires Proper(groups)
    ensures Proper(Tally(groups, ranks))
    ensures Lookup(Tally(groups, ranks), x) == Lookup(groups, x) + Occurs(ranks, x)
    decreases ranks
  {
    if ranks.Cons? {
      BumpSpec(groups, ranks.head, x);
      TallySpec(Bump(groups, ranks.head), ranks.tail, x);
    }
  }

  lemma {:induction false} InsertGroupSpec(g: Group, l: List<Group>, x: int)
    requires Proper(Cons(g, l)) && Ordered(l)
    ensures Proper(InsertGroup(g, l)) && Ordered(InsertGroup(g, l))
    ensures Lookup(InsertGroup(g, l), x) == Lookup(Cons(g, l), x)
    ensures InsertGroup(g, l).Cons? && (InsertGroup(g, l).head == g || (l.Cons? && InsertGroup(g, l).head == l.head))
    decreases l
  {
    if l.Cons? && !Above(g, l.head) {
      InsertGroupSpec(g, l.tail, x);
      InsertGroupSpec(g, l.tail, l.head.rank);
    }
  }

  lemma {:induction false} SortGroupsSpec(l: List<Group>, x: int)
    requires Proper(l)
    ensures Proper(SortGroups(l)) && Ordered(SortGroups(l)) && Lookup(SortGroups(l), x) == Lookup(l, x)
    decreases l
  {
    if l.Cons? {
      SortGroupsSpec(l.tail, x);
      SortGroupsSpec(l.tail, l.head.rank);
      InsertGroupSpec(l.head, SortGroups(l.tail), x);
    }
  }

  lemma {:induction false} HeadIsHighest(groups: List<Group>, x: int)
    requires Ordered(groups) && Proper(groups) && Lookup(groups, x) > 0
    ensures groups.Cons? && Above(groups.head, Group(Lookup(groups, x), x))
    decreases groups
  {
    if groups.head.rank != x {
      HeadIsHighest(groups.tail, x);
    }
  }

  /** The number of ranks counted. */
  function Total(groups: List<Group>): int {
    match groups
    case Nil => 0
    case Cons(g, t) => g.count + Total(t)
  }

  lemma {:induction false} BumpTotal(groups: List<Group>, r: int)
    ensures Total(Bump(groups, r)) == Total(groups) + 1
    decreases groups
  {
    if groups.Cons? {
      BumpTotal(groups.tail, r);
    }
  }

  lemma {:induction false} TallyTotal(groups: List<Group>, ranks: List<int>)
    ensures Total(Tally(groups, ranks)) == Total(groups) + Length(ranks)
    decreases ranks
  {
    if ranks.Cons? {
      BumpTotal(groups, ranks.head);
      TallyTotal(Bump(groups, ranks.head), ranks.tail);
    }
  }

  lemma {:induction false} InsertGroupTotal(g: Group, l: List<Group>)
    ensures Total(InsertGroup(g, l)) == g.count + Total(l)
    decreases l
  {
    if l.Cons? {
      InsertGroupTotal(g, l.tail);
    }
  }

  lemma {:induction false} SortGroupsTotal(l: List<Group>)
    ensures Total(SortGroups(l)) == Total(l)
    decreases l
  {
    if l.Cons? {
      SortGroupsTotal(l.tail);
      InsertGroupTotal(l.head, SortGroups(l.tail));
    }
  }

  /** What sorting the counts promises. */
  ghost predicate Describes(groups: List<Group>, ranks: List<int>) {
    && Proper(groups) && Ordered(groups) && Total(groups) == Length(ranks)
    && forall x :: Lookup(groups, x) == Occurs(ranks, x)
  }

  lemma GroupsDescribe(ranks: List<int>)
    ensures Describes(Groups(ranks), ranks)
  {
    TallyTotal(Nil, ranks);
    SortGroupsTotal(Tally(Nil, ranks));
    TallySpec(Nil, ranks, 0);
    SortGroupsSpec(Tally(Nil, ranks), 0);
    forall x
      ensures Lookup(Groups(ranks), x) == Occurs(ranks, x)
    {
      TallySpec(Nil, ranks, x);
      SortGroupsSpec(Tally(Nil, ranks), x);
    }
  }

  // ----- sorted lists

  predicate Down(l: List<int>) {
    l.Cons? && l.tail.Cons? ==> l.head >= l.tail.head && Down(l.tail)
  }

  lemma {:induction false} InsertSorts(x: int, l: List<int>, y: int)
    requires Down(l)
    ensures Down(Insert(x, l)) && Insert(x, l).Cons?
    ensures Insert(x, l).head == x || (l.Cons? && Insert(x, l).head == l.head)
    ensures Occurs(Insert(x, l), y) == Occurs(Cons(x, l), y)
    ensures Length(Insert(x, l)) == 1 + Length(l)
    decreases l
  {
    if l.Cons? {
      InsertSorts(x, l.tail, y);
    }
  }

  lemma {:induction false} SortSorts(l: List<int>, y: int)
    ensures Down(Sort(l)) && Length(Sort(l)) == Length(l)
    ensures Occurs(Sort(l), y) == Occurs(l, y)
    decreases l
  {
    if l.Cons? {
      SortSorts(l.tail, y);
      InsertSorts(l.head, Sort(l.tail), y);
    }
  }

  lemma {:induction false} HeadIsLargest(l: List<int>, x: int)
    requires Down(l) && Occurs(l, x) > 0
    ensures l.head >= x
    decreases l
  {
    if l.head != x {
      HeadIsLargest(l.tail, x);
    }
  }

  ghost predicate SameCounts(l: List<int>, m: List<int>) {
    forall x :: Occurs(l, x) == Occurs(m, x)
  }

  lemma SameHeads(l: List<int>, m: List<int>)
    requires Down(l) && Down(m) && SameCounts(l, m)
    ensures l.Cons? <==> m.Cons?
    ensures l.Cons? && m.Cons? ==> l.head == m.head && SameCounts(l.tail, m.tail)
  {
    if l.Cons? {
      assert Occurs(l, l.head) == Occurs(m, l.head);
    }
    if m.Cons? {
      assert Occurs(l, m.head) == Occurs(m, m.head);
    }
    if l.Cons? && m.Cons? {
      HeadIsLargest(m, l.head);
      HeadIsLargest(l, m.head);
      forall x
        ensures Occurs(l.tail, x) == Occurs(m.tail, x)
      {
        assert Occurs(l, x) == Occurs(m, x);
      }
    }
  }

  /** A descending list is determined by its counts. */
  lemma {:induction false} SortedUnique(l: List<int>, m: List<int>)
    requires Down(l) && Down(m) && SameCounts(l, m)
    ensures l == m
    decreases l
  {
    SameHeads(l, m);
    if l.Cons? {
      SortedUnique(l.tail, m.tail);
    }
  }

  lemma {:induction false} WithoutSpec(l: List<int>, x: int, y: int, z: int)
    ensures Occurs(Without(l, x, y), z) == if z == x || z == y then 0 else Occurs(l, z)
    ensures Length(Without(l, x, y)) == Length(l) - Occurs(l, x) - (if x == y then 0 else Occurs(l, y))
    ensures Down(l) ==> Down(Without(l, x, y))
    ensures Down(l) && l.Cons? && Without(l, x, y).Cons? ==> l.head >= Without(l, x, y).head
    decreases l
  {
    if l.Cons? {
      WithoutSpec(l.tail, x, y, z);
    }
  }

  lemma {:induction false} SortOfSorted(l: List<int>)
    requires Down(l)
    ensures Sort(l) == l
  {
    forall x
      ensures Occurs(Sort(l), x) == Occurs(l, x) && Down(Sort(l))
    {
      SortSorts(l, x);
    }
    assert Down(Sort(l)) by {
      SortSorts(l, 0);
    }
    SortedUnique(Sort(l), l);
  }

  // ----- the score

  /** The first two groups differ, and account for what they say. */
  lemma FirstTwo(g: List<Group>, ranks: List<int>)
    requires Describes(g, ranks) && ranks.Cons?
    ensures g.Cons? && 0 < g.head.count == Occurs(ranks, g.head.rank)
    ensures g.tail.Nil? ==> g.head.count == Length(ranks)
    ensures g.tail.Cons? ==> g.tail.head.rank != g.head.rank && 0 < g.tail.head.count <= g.head.count
                             && g.tail.head.count == Occurs(ranks, g.tail.head.rank)
  {
    assert Lookup(g, ranks.head) == Occurs(ranks, ranks.head);
    assert Lookup(g, g.head.rank) == Occurs(ranks, g.head.rank);
    assert Total(g) == g.head.count + Total(g.tail);
    if g.tail.Cons? {
      assert Proper(g.tail);
      assert Lookup(g.tail, g.tail.head.rank) == g.tail.head.count;
      assert Lookup(g, g.tail.head.rank) == Occurs(ranks, g.tail.head.rank);
    }
  }

  /** Everything `Score` asks of the lists it takes apart. */
  lemma ScoreDefined(ranks: List<int>)
    requires Length(ranks) == 5
    ensures
      var g := Groups(ranks);
      && g.Cons?
      && (g.head.count < 5 ==> g.tail.Cons? && Without(ranks, g.head.rank, g.head.rank).Cons?)
      && (g.head.count == 2 && g.tail.head.count == 2 ==>
            && Without(ranks, g.head.rank, g.tail.head.rank).Cons?
            && Without(ranks, g.tail.head.rank, g.head.rank).Cons?)
  {
    var g := Groups(ranks);
    GroupsDescribe(ranks);
    FirstTwo(g, ranks);
    WithoutSpec(ranks, g.head.rank, g.head.rank, 0);
    if g.tail.Cons? {
      WithoutSpec(ranks, g.head.rank, g.tail.head.rank, 0);
      WithoutSpec(ranks, g.tail.head.rank, g.head.rank, 0);
    }
  }

  function Score(ranks: List<int>, isFlush: bool): seq<int>
    requires Length(ranks) == 5
  {
    var groups := Groups(ranks);
    var unique := Unique(ranks);
    var isStraight := Length(unique) == 5 && At(unique, 0) - At(unique, 4) == 4;
    ScoreDefined(ranks);
    if isFlush && isStraight then [8, At(unique, 0)]
    else if groups.head.count == 4 then
      [7, groups.head.rank, Largest(Without(ranks, groups.head.rank, groups.head.rank))]
    else if groups.head.count == 3 && groups.tail.head.count == 2 then [6, groups.head.rank, groups.tail.head.rank]
    else if isFlush then [5] + Seq(ranks)
    else if isStraight then [4, At(unique, 0)]
    else if groups.head.count == 3 then
      [3, groups.head.rank] + Seq(Sort(Without(ranks, groups.head.rank, groups.head.rank)))
    else if groups.head.count == 2 && groups.tail.head.count == 2 then
      var high := if groups.head.rank >= groups.tail.head.rank then groups.head.rank else groups.tail.head.rank;
      var low := if groups.head.rank >= groups.tail.head.rank then groups.tail.head.rank else groups.head.rank;
      [2, high, low, Largest(Without(ranks, high, low))]
    else if groups.head.count == 2 then
      [1, groups.head.rank] + Seq(Sort(Without(ranks, groups.head.rank, groups.head.rank)))
    else [0] + Seq(ranks)
  }

  lemma {:induction false} NumbersSpec(cards: seq<Card>)
    ensures Length(Numbers(cards)) == |cards|
    decreases |cards|
  {
    if |cards| > 0 {
      NumbersSpec(cards[1..]);
    }
  }

  /** What the sample bot makes of five cards: the tuple it compares. No index is out of
      range and no maximum is of nothing, whatever the five cards. */
  function Evaluate(cards: seq<Card>): seq<int>
    requires |cards| == 5
  {
    var ranks := Sort(Numbers(cards));
    NumbersSpec(cards);
    SortSorts(Numbers(cards), 0);
    Score(ranks, |Suits(cards)| == 1)
  }

  // ----- the tie-break: ranks in order of count, then of height

  function Ranks(groups: List<Group>): List<int> {
    match groups
    case Nil => Nil
    case Cons(g, t) => Cons(g.rank, Ranks(t))
  }

  lemma {:induction false} TotalBounds(groups: List<Group>)
    requires Proper(groups)
    ensures Total(groups) >= 0
    ensures Total(groups) == 0 <==> groups.Nil?
    decreases groups
  {
    if groups.Cons? {
      TotalBounds(groups.tail);
    }
  }

  lemma Tails(g: List<Group>)
    requires Proper(g) && Ordered(g) && g.Cons?
    ensures Proper(g.tail) && Ordered(g.tail) && Lookup(g.tail, g.head.rank) == 0
    ensures Total(g) == g.head.count + Total(g.tail)
    ensures g.tail.Cons? ==> 0 < g.tail.head.count <= g.head.count
  {
  }

  /** Groups of one are the ranks in descending order. */
  lemma {:induction false} Singles(groups: List<Group>, x: int)
    requires Proper(groups) && Ordered(groups) && (groups.Cons? ==> groups.head.count <= 1)
    ensures Down(Ranks(groups)) && Occurs(Ranks(groups), x) == Lookup(groups, x)
    decreases groups
  {
    if groups.Cons? {
      Singles(groups.tail, x);
    }
  }

  /** The ranks left over, when all single, are read off the groups left over. */
  lemma SinglesAreRanks(groups: List<Group>, l: List<int>)
    requires Proper(groups) && Ordered(groups) && (groups.Cons? ==> groups.head.count <= 1)
    requires Down(l) && forall x :: Occurs(l, x) == Lookup(groups, x)
    ensures l == Ranks(groups)
  {
    Singles(groups, 0);
    forall x
      ensures Occurs(l, x) == Occurs(Ranks(groups), x)
    {
      Singles(groups, x);
    }
    SortedUnique(l, Ranks(groups));
  }

  /** The ranks other than the first group's. */
  lemma RestOfRanks(g: List<Group>, ranks: List<int>)
    requires Describes(g, ranks) && Down(ranks) && g.Cons?
    requires g.tail.Cons? ==> g.tail.head.count <= 1
    ensures Without(ranks, g.head.rank, g.head.rank) == Ranks(g.tail)
    ensures Sort(Ranks(g.tail)) == Ranks(g.tail)
  {
    var l := Without(ranks, g.head.rank, g.head.rank);
    WithoutSpec(ranks, g.head.rank, g.head.rank, 0);
    forall x
      ensures Occurs(l, x) == Lookup(g.tail, x)
    {
      WithoutSpec(ranks, g.head.rank, g.head.rank, x);
      assert Lookup(g, x) == Occurs(ranks, x);
    }
    SinglesAreRanks(g.tail, l);
    SortOfSorted(l);
  }

  lemma RestOfTwoPair(g: List<Group>, ranks: List<int>)
    requires Describes(g, ranks) && Down(ranks) && Length(ranks) == 5
    requires g.Cons? && g.head.count == 2 && g.tail.Cons? && g.tail.head.count == 2
    ensures Without(ranks, g.head.rank, g.tail.head.rank) == Ranks(g.tail.tail)
    ensures g.tail.tail.Cons? && g.tail.tail.tail.Nil?
    ensures g.head.rank > g.tail.head.rank
  {
    var l := Without(ranks, g.head.rank, g.tail.head.rank);
    Tails(g);
    Tails(g.tail);
    TotalBounds(g.tail.tail);
    Tails(g.tail.tail);
    TotalBounds(g.tail.tail.tail);
    WithoutSpec(ranks, g.head.rank, g.tail.head.rank, 0);
    FirstTwo(g, ranks);
    forall x
      ensures Occurs(l, x) == Lookup(g.tail.tail, x)
    {
      WithoutSpec(ranks, g.head.rank, g.tail.head.rank, x);
      assert Lookup(g, x) == Occurs(ranks, x);
      assert x != g.head.rank ==> Lookup(g, x) == Lookup(g.tail, x);
    }
    SinglesAreRanks(g.tail.tail, l);
  }

  predicate Straight(ranks: List<int>) {
    Length(Unique(ranks)) == 5 && At(Unique(ranks), 0) - At(Unique(ranks), 4) == 4
  }

  /** The category by the sizes of the two largest groups. */
  function Category(first: int, second: int, isFlush: bool, isStraight: bool): int {
    if isFlush && isStraight then 8
    else if first == 4 then 7
    else if first == 3 && second == 2 then 6
    else if isFlush then 5
    else if isStraight then 4
    else if first == 3 then 3
    else if first == 2 && second == 2 then 2
    else if first == 2 then 1
    else 0
  }

  /** A group of three, four or two leaves single ranks behind, or one more group. */
  lemma SmallRest(g: List<Group>, ranks: List<int>)
    requires Describes(g, ranks) && Length(ranks) == 5 && g.Cons? && g.head.count <= 4
    ensures g.tail.Cons?
    ensures g.head.count == 4 ==> g.tail.head.count == 1 && g.tail.tail.Nil?
    ensures g.head.count == 3 ==> g.tail.head.count <= 2
    ensures g.head.count == 3 && g.tail.head.count == 2 ==> g.tail.tail.Nil?
  {
    FirstTwo(g, ranks);
    Tails(g);
    Tails(g.tail);
    TotalBounds(g.tail.tail);
  }

  lemma ScoreIsCategoryAndRanks(ranks: List<int>, isFlush: bool, g: List<Group>)
    requires Length(ranks) == 5 && Down(ranks) && g == Groups(ranks)
    requires g.Cons? && g.head.count <= (if isFlush then 1 else 4)
    ensures g.tail.Cons?
    ensures
      var category := Category(g.head.count, g.tail.head.count, isFlush, Straight(ranks));
      Score(ranks, isFlush) ==
        [category] + (if category == 8 || category == 4 then [At(Unique(ranks), 0)] else Seq(Ranks(g)))
  {
    GroupsDescribe(ranks);
    SmallRest(g, ranks);
    FirstTwo(g, ranks);
    if g.head.count == 1 {
      SinglesAreRanks(g, ranks);
    } else if g.head.count == 2 && g.tail.head.count == 2 {
      RestOfTwoPair(g, ranks);
      ThreeRanks(g);
    } else if g.head.count == 4 || (g.head.count == 3 && g.tail.head.count == 2) {
      if g.head.count == 4 {
        RestOfRanks(g, ranks);
      }
      TwoRanks(g);
    } else {
      RestOfRanks(g, ranks);
      RestIsRanked(g, 3);
      RestIsRanked(g, 1);
    }
  }

  /** The first group's rank and then the others, with a category in front. */
  lemma RestIsRanked(g: List<Group>, category: int)
    requires g.Cons?
    ensures [category, g.head.rank] + Seq(Ranks(g.tail)) == [category] + Seq(Ranks(g))
  {
    var rest := Seq(Ranks(g.tail));
    assert Seq(Ranks(g)) == [g.head.rank] + rest;
    assert [category, g.head.rank] + rest == [category] + ([g.head.rank] + rest);
  }

  lemma TwoRanks(g: List<Group>)
    requires g.Cons? && g.tail.Cons? && g.tail.tail.Nil?
    ensures Seq(Ranks(g)) == [g.head.rank, g.tail.head.rank]
    ensures Largest(Ranks(g.tail)) == g.tail.head.rank
    ensures forall category: int :: [category] + Seq(Ranks(g)) == [category, g.head.rank, g.tail.head.rank]
  {
    assert Seq(Ranks(g.tail)) == [g.tail.head.rank] + Seq(Ranks(g.tail.tail)) == [g.tail.head.rank];
    assert Seq(Ranks(g)) == [g.head.rank] + Seq(Ranks(g.tail));
  }

  lemma ThreeRanks(g: List<Group>)
    requires g.Cons? && g.tail.Cons? && g.tail.tail.Cons? && g.tail.tail.tail.Nil?
    ensures Largest(Ranks(g.tail.tail)) == g.tail.tail.head.rank
    ensures [2] + Seq(Ranks(g)) == [2, g.head.rank, g.tail.head.rank, g.tail.tail.head.rank]
  {
    TwoRanks(g.tail);
    assert Seq(Ranks(g)) == [g.head.rank] + Seq(Ranks(g.tail));
    assert Ranks(g.tail.tail) == Cons(g.tail.tail.head.rank, Nil);
  }

  // ----- what the score means

  /** How many of the cards have a rank. */
  function Count(cards: seq<Card>, x: int): nat {
    Occurs(Numbers(cards), x)
  }

  ghost predicate Distinct(cards: seq<Card>) {
    forall i, j :: 0 <= i < j < |cards| ==> cards[i] != cards[j]
  }

  ghost predicate OneSuit(cards: seq<Card>) {
    forall i, j :: 0 <= i < |cards| && 0 <= j < |cards| ==> Suit(cards[i]) == Suit(cards[j])
  }

  ghost predicate RunOf(ranks: List<int>, high: int) {
    && Occurs(ranks, high) > 0 && Occurs(ranks, high - 1) > 0 && Occurs(ranks, high - 2) > 0
    && Occurs(ranks, high - 3) > 0 && Occurs(ranks, high - 4) > 0
  }

  /** Five ranks in a row, down from a highest one. */
  ghost predicate Run(cards: seq<Card>, high: int) {
    RunOf(Numbers(cards), high)
  }

  ghost predicate IsStraight(cards: seq<Card>) {
    exists high :: Run(cards, high)
  }

  /** Some rank occurs n times. */
  ghost predicate Kind(cards: seq<Card>, n: int) {
    exists x :: Count(cards, x) >= n
  }

  /** One rank occurs n times and another m times. */
  ghost predicate Kinds(cards: seq<Card>, n: int, m: int) {
    exists x, y :: x != y && Count(cards, x) >= n && Count(cards, y) >= m
  }

  /** The highest of the nine classes that a hand belongs to. */
  ghost function Class(cards: seq<Card>): int {
    if OneSuit(cards) && IsStraight(cards) then 8
    else if Kind(cards, 4) then 7
    else if Kinds(cards, 3, 2) then 6
    else if OneSuit(cards) then 5
    else if IsStraight(cards) then 4
    else if Kind(cards, 3) then 3
    else if Kinds(cards, 2, 2) then 2
    else if Kind(cards, 2) then 1
    else 0
  }

  lemma OccursOne(y: int, x: int)
    ensures Occurs(Cons(y, Nil), x) == if y == x then 1 else 0
  {
    assert Occurs(Nil, x) == 0;
  }

  lemma CountFive(cards: seq<Card>, x: int)
    requires |cards| == 5
    ensures Count(cards, x) ==
            (if Number(cards[0]) == x then 1 else 0) + (if Number(cards[1]) == x then 1 else 0)
            + (if Number(cards[2]) == x then 1 else 0) + (if Number(cards[3]) == x then 1 else 0)
            + (if Number(cards[4]) == x then 1 else 0)
  {
    var t := cards[1..];
    var u := t[1..];
    var v := u[1..];
    var w := v[1..];
    assert Numbers(w) == Cons(Number(cards[4]), Nil);
    OccursOne(Number(cards[4]), x);
    assert Count(w, x) == if Number(cards[4]) == x then 1 else 0;
    assert Count(v, x) == (if Number(cards[3]) == x then 1 else 0) + Count(w, x);
    assert Count(u, x) == (if Number(cards[2]) == x then 1 else 0) + Count(v, x);
    assert Count(t, x) == (if Number(cards[1]) == x then 1 else 0) + Count(u, x);
  }

  /** There are four suits, and in one suit no rank twice. */
  lemma CountBounds(cards: seq<Card>, x: int)
    requires |cards| == 5 && Distinct(cards)
    ensures Count(cards, x) <= 4
    ensures OneSuit(cards) ==> Count(cards, x) <= 1
  {
    CountFive(cards, x);
  }

  lemma SuitsOne(cards: seq<Card>)
    requires |cards| > 0
    ensures |Suits(cards)| == 1 <==> OneSuit(cards)
  {
    var s := Suits(cards);
    var first := Suit(cards[0]);
    assert cards[0] in cards;
    if OneSuit(cards) {
      assert s == {first};
    }
    if |s| == 1 {
      forall i | 0 <= i < |cards|
        ensures Suit(cards[i]) == first
      {
        assert cards[i] in cards;
        SingletonSet(s, first, Suit(cards[i]));
      }
    }
  }

  lemma SingletonSet(s: set<int>, x: int, y: int)
    requires |s| == 1 && x in s && y in s
    ensures x == y
  {
    assert |s - {x}| == 0;
    assert y !in s - {x};
  }

  lemma KindsFromGroups(g: List<Group>, cards: seq<Card>, n: int, m: int)
    requires Proper(g) && Ordered(g) && g.Cons? && g.tail.Cons? && forall x :: Lookup(g, x) == Count(cards, x)
    requires n >= m >= 1
    ensures Kind(cards, n) <==> g.head.count >= n
    ensures Kinds(cards, n, m) <==> g.head.count >= n && g.tail.head.count >= m
  {
    Tails(g);
    assert Lookup(g, g.head.rank) == Count(cards, g.head.rank) == g.head.count;
    assert Lookup(g.tail, g.tail.head.rank) == g.tail.head.count;
    assert Lookup(g, g.tail.head.rank) == Count(cards, g.tail.head.rank) == g.tail.head.count;
    forall x | Count(cards, x) >= m
      ensures g.head.count >= Count(cards, x)
      ensures x != g.head.rank ==> g.tail.head.count >= Count(cards, x)
    {
      assert Lookup(g, x) == Count(cards, x);
      HeadIsHighest(g, x);
      if x != g.head.rank {
        HeadIsHighest(g.tail, x);
      }
    }
  }

  lemma {:induction false} UniqueSpec(l: List<int>)
    requires Down(l)
    ensures Length(Unique(l)) <= Length(l)
    ensures Length(Unique(l)) == Length(l) ==> Unique(l) == l
    ensures Length(Unique(l)) < Length(l) ==> exists x :: Occurs(l, x) >= 2
    decreases l
  {
    if l.Cons? {
      UniqueSpec(l.tail);
      if l.tail.Cons? && l.tail.head == l.head {
        assert Occurs(l, l.head) >= 2;
      } else if Length(Unique(l.tail)) < Length(l.tail) {
        var x :| Occurs(l.tail, x) >= 2;
        assert Occurs(l, x) >= 2;
      }
    }
  }

  lemma OccursFive(a: int, b: int, c: int, d: int, e: int, x: int)
    ensures Occurs(Cons(a, Cons(b, Cons(c, Cons(d, Cons(e, Nil))))), x) ==
            (if a == x then 1 else 0) + (if b == x then 1 else 0) + (if c == x then 1 else 0)
            + (if d == x then 1 else 0) + (if e == x then 1 else 0)
  {
    assert Occurs(Cons(e, Nil), x) == if e == x then 1 else 0;
    assert Occurs(Cons(d, Cons(e, Nil)), x) == (if d == x then 1 else 0) + Occurs(Cons(e, Nil), x);
    assert Occurs(Cons(c, Cons(d, Cons(e, Nil))), x) == (if c == x then 1 else 0) + Occurs(Cons(d, Cons(e, Nil)), x);
  }

  /** Five descending ranks, by name. */
  lemma FiveRanks(l: List<int>) returns (a: int, b: int, c: int, d: int, e: int)
    requires Length(l) == 5 && Down(l)
    ensures l == Cons(a, Cons(b, Cons(c, Cons(d, Cons(e, Nil)))))
    ensures a >= b >= c >= d >= e
    ensures At(l, 0) == a && At(l, 4) == e
  {
    assert Length(l.tail) == 4 && Down(l.tail);
    assert Length(l.tail.tail) == 3 && Down(l.tail.tail);
    assert Length(l.tail.tail.tail) == 2 && Down(l.tail.tail.tail);
    assert Length(l.tail.tail.tail.tail) == 1 && Length(l.tail.tail.tail.tail.tail) == 0;
    a, b, c, d, e := l.head, l.tail.head, l.tail.tail.head, l.tail.tail.tail.head, l.tail.tail.tail.tail.head;
    assert At(l.tail.tail.tail, 1) == e;
    assert At(l.tail.tail, 2) == e;
    assert At(l.tail, 3) == e;
  }

  /** The bot's straight test is five ranks in a row. */
  lemma StraightIsRun(ranks: List<int>, high: int)
    requires Length(ranks) == 5 && Down(ranks)
    ensures Straight(ranks) && high == At(Unique(ranks), 0) <==> RunOf(ranks, high)
  {
    var a, b, c, d, e := FiveRanks(ranks);
    UniqueSpec(ranks);
    OccursFive(a, b, c, d, e, high);
    OccursFive(a, b, c, d, e, high - 1);
    OccursFive(a, b, c, d, e, high - 2);
    OccursFive(a, b, c, d, e, high - 3);
    OccursFive(a, b, c, d, e, high - 4);
    if Length(Unique(ranks)) < 5 {
      var x :| Occurs(ranks, x) >= 2;
      OccursFive(a, b, c, d, e, x);
    } else if RunOf(ranks, high) {
      assert a == high && e == high - 4;
    } else if Straight(ranks) {
      forall x
        ensures Occurs(ranks, x) <= 1
      {
        SinglesOnly(ranks, x);
      }
    }
  }

  lemma {:induction false} SinglesOnly(l: List<int>, x: int)
    requires Down(l) && Unique(l) == l
    ensures Occurs(l, x) <= 1
    decreases l
  {
    if l.Cons? {
      UniqueSpec(l.tail);
      SinglesOnly(l.tail, x);
      if l.head == x && Occurs(l.tail, x) > 0 {
        HeadIsLargest(l.tail, x);
      }
    }
  }

  /** The first of two ranks in the tie-break order. */
  ghost predicate Outranks(cards: seq<Card>, x: int, y: int) {
    Count(cards, x) > Count(cards, y) || (Count(cards, x) == Count(cards, y) && x > y)
  }

  ghost predicate InOrder(cards: seq<Card>, t: seq<int>) {
    forall i, j :: 0 <= i < j < |t| ==> Outranks(cards, t[i], t[j])
  }

  /** Every rank held, once, in order of count and then of height. */
  ghost predicate Ranking(cards: seq<Card>, t: seq<int>) {
    && (forall x :: x in t <==> Count(cards, x) > 0)
    && InOrder(cards, t)
  }

  lemma {:induction false} LaterGroups(g: List<Group>, x: int)
    requires Proper(g) && Ordered(g)
    ensures x in Seq(Ranks(g)) <==> Lookup(g, x) > 0
    ensures Lookup(g, x) > 0 ==> g.head.rank == x || g.head.count > Lookup(g, x)
                                 || (g.head.count == Lookup(g, x) && g.head.rank > x)
    decreases g
  {
    if g.Cons? {
      Tails(g);
      LaterGroups(g.tail, x);
      LookupPositive(g.tail, x);
      assert Seq(Ranks(g)) == [g.head.rank] + Seq(Ranks(g.tail));
    }
  }

  lemma {:induction false} RanksInOrder(g: List<Group>, cards: seq<Card>)
    requires Proper(g) && Ordered(g)
    requires forall x :: Lookup(g, x) > 0 ==> Lookup(g, x) == Count(cards, x)
    ensures InOrder(cards, Seq(Ranks(g)))
    decreases g
  {
    if g.Cons? {
      Tails(g);
      var t := Seq(Ranks(g.tail));
      RanksInOrder(g.tail, cards);
      assert Seq(Ranks(g)) == [g.head.rank] + t;
      assert Lookup(g, g.head.rank) == Count(cards, g.head.rank);
      forall j | 0 <= j < |t|
        ensures Outranks(cards, g.head.rank, t[j])
      {
        assert t[j] in t;
        LaterGroups(g.tail, t[j]);
        LaterGroups(g, t[j]);
        assert Lookup(g, t[j]) == Count(cards, t[j]);
      }
      var all := Seq(Ranks(g));
      forall i, j | 0 <= i < j < |all|
        ensures Outranks(cards, all[i], all[j])
      {
        assert all[j] == t[j - 1];
        if i > 0 {
          assert all[i] == t[i - 1];
          assert Outranks(cards, t[i - 1], t[j - 1]);
        } else {
          assert all[i] == g.head.rank;
        }
      }
    }
  }

  /** The sorted ranks and their groups count what the cards hold. */
  lemma Sorted(cards: seq<Card>)
    requires |cards| == 5
    ensures
      var ranks := Sort(Numbers(cards));
      && Length(ranks) == 5 && Down(ranks) && Describes(Groups(ranks), ranks)
      && (forall x :: Occurs(ranks, x) == Count(cards, x))
      && (forall x :: Lookup(Groups(ranks), x) == Count(cards, x))
  {
    var ranks := Sort(Numbers(cards));
    NumbersSpec(cards);
    SortSorts(Numbers(cards), 0);
    GroupsDescribe(ranks);
    forall x
      ensures Occurs(ranks, x) == Count(cards, x) == Lookup(Groups(ranks), x)
    {
      SortSorts(Numbers(cards), x);
    }
  }

  lemma StraightAgrees(cards: seq<Card>, ranks: List<int>)
    requires Length(ranks) == 5 && Down(ranks) && forall x :: Occurs(ranks, x) == Count(cards, x)
    ensures Straight(ranks) <==> IsStraight(cards)
    ensures Straight(ranks) ==> Run(cards, At(Unique(ranks), 0))
  {
    if Straight(ranks) {
      StraightIsRun(ranks, At(Unique(ranks), 0));
      assert Run(cards, At(Unique(ranks), 0));
    }
    if IsStraight(cards) {
      var high :| Run(cards, high);
      assert RunOf(ranks, high);
      StraightIsRun(ranks, high);
    }
  }

  lemma CategoryIsClass(cards: seq<Card>, g: List<Group>, isFlush: bool, isStraight: bool)
    requires Proper(g) && Ordered(g) && g.Cons? && g.tail.Cons? && forall x :: Lookup(g, x) == Count(cards, x)
    requires g.head.count <= 4 && (g.head.count == 3 ==> g.tail.head.count <= 2)
    requires isFlush <==> OneSuit(cards)
    requires isStraight <==> IsStraight(cards)
    ensures Category(g.head.count, g.tail.head.count, isFlush, isStraight) == Class(cards)
  {
    Tails(g);
    KindsFromGroups(g, cards, 4, 1);
    KindsFromGroups(g, cards, 3, 2);
    KindsFromGroups(g, cards, 2, 2);
    KindsFromGroups(g, cards, 3, 1);
  }

  lemma GroupsRank(g: List<Group>, cards: seq<Card>)
    requires Proper(g) && Ordered(g) && forall x :: Lookup(g, x) == Count(cards, x)
    ensures Ranking(cards, Seq(Ranks(g)))
  {
    RanksInOrder(g, cards);
    forall x
      ensures x in Seq(Ranks(g)) <==> Count(cards, x) > 0
    {
      LaterGroups(g, x);
      assert Lookup(g, x) == Count(cards, x);
    }
  }

  /** What the score of five cards says. */
  ghost predicate Says(cards: seq<Card>, score: seq<int>) {
    && |score| > 0 && score[0] == Class(cards)
    && (Class(cards) in {4, 8} ==> |score| == 2 && Run(cards, score[1]))
    && (Class(cards) !in {4, 8} ==> Ranking(cards, score[1..]))
  }

  /** The score of five distinct cards is their highest class, then the straight's top card
      or else the ranks in order of count and height. */
  lemma ScoreMeansClass(cards: seq<Card>)
    requires |cards| == 5 && Distinct(cards)
    ensures Says(cards, Evaluate(cards))
  {
    var ranks := Sort(Numbers(cards));
    var g := Groups(ranks);
    var isFlush := |Suits(cards)| == 1;
    Sorted(cards);
    FirstTwo(g, ranks);
    SuitsOne(cards);
    CountBounds(cards, g.head.rank);
    SmallRest(g, ranks);
    ScoreIsCategoryAndRanks(ranks, isFlush, g);
    StraightAgrees(cards, ranks);
    CategoryIsClass(cards, g, isFlush, Straight(ranks));
    GroupsRank(g, cards);
  }

  lemma {:induction false} OneOrder(cards: seq<Card>, s: seq<int>, t: seq<int>)
    requires InOrder(cards, s) && InOrder(cards, t) && forall x :: x in s <==> x in t
    ensures s == t
    decreases |s|
  {
    assert |s| > 0 ==> s[0] in s;
    assert |t| > 0 ==> t[0] in t;
    if |s| > 0 {
      SameFirst(cards, s, t);
      forall x
        ensures x in s[1..] <==> x in t[1..]
      {
        Later(cards, s, x);
        Later(cards, t, x);
      }
      OneOrder(cards, s[1..], t[1..]);
    }
  }

  lemma Later(cards: seq<Card>, s: seq<int>, x: int)
    requires InOrder(cards, s) && |s| > 0
    ensures x in s[1..] <==> x in s && x != s[0]
  {
    if x in s[1..] {
      var i :| 0 <= i < |s[1..]| && s[1..][i] == x;
      assert Outranks(cards, s[0], s[i + 1]);
    }
  }

  lemma SameFirst(cards: seq<Card>, s: seq<int>, t: seq<int>)
    requires InOrder(cards, s) && InOrder(cards, t) && (forall x :: x in s <==> x in t) && |s| > 0 && |t| > 0
    ensures s[0] == t[0]
  {
    assert s[0] in s && t[0] in t;
    var i :| 0 <= i < |t| && t[i] == s[0];
    var j :| 0 <= j < |s| && s[j] == t[0];
    assert i > 0 ==> Outranks(cards, t[0], s[0]);
  }

  /** Nothing else can be said: the class and the tie-break fix the score. */
  lemma ScoreIsWhatIsSaid(cards: seq<Card>, score: seq<int>)
    requires |cards| == 5 && Distinct(cards)
    ensures score == Evaluate(cards) <==> Says(cards, score)
  {
    ScoreMeansClass(cards);
    if Says(cards, score) {
      var ours := Evaluate(cards);
      if Class(cards) in {4, 8} {
        var ranks := Sort(Numbers(cards));
        Sorted(cards);
        StraightIsRun(ranks, score[1]);
        StraightIsRun(ranks, ours[1]);
      } else {
        OneOrder(cards, score[1..], ours[1..]);
        assert score == [score[0]] + score[1..];
        assert ours == [ours[0]] + ours[1..];
      }
    }
  }

  // ----- order does not matter

  lemma {:induction false} CountOfSplit(a: seq<Card>, b: seq<Card>, x: int)
    ensures Count(a + b, x) == Count(a, x) + Count(b, x)
    decreases |a|
  {
    if |a| == 0 {
      assert a + b == b;
    } else {
      assert (a + b)[1..] == a[1..] + b;
      CountOfSplit(a[1..], b, x);
    }
  }

  function Dropped(s: seq<Card>, i: nat): seq<Card>
    requires i < |s|
  {
    s[..i] + s[i + 1..]
  }

  lemma DroppedSpec(s: seq<Card>, i: nat, x: int)
    requires i < |s|
    ensures multiset(Dropped(s, i)) == multiset(s) - multiset{s[i]}
    ensures Count(s, x) == Count([s[i]], x) + Count(Dropped(s, i), x)
  {
    assert s == s[..i] + ([s[i]] + s[i + 1..]);
    CountOfSplit(s[..i], s[i + 1..], x);
    CountOfSplit(s[..i], [s[i]] + s[i + 1..], x);
    CountOfSplit([s[i]], s[i + 1..], x);
  }

  lemma {:induction false} CountOfSame(s: seq<Card>, t: seq<Card>, x: int)
    requires multiset(s) == multiset(t)
    ensures Count(s, x) == Count(t, x)
    decreases |s|
  {
    if |s| == 0 {
      assert |multiset(t)| == 0;
    } else {
      assert s[0] in multiset(t);
      var i :| 0 <= i < |t| && t[i] == s[0];
      DroppedSpec(s, 0, x);
      DroppedSpec(t, i, x);
      CountOfSame(Dropped(s, 0), Dropped(t, i), x);
    }
  }

  lemma SameSuits(s: seq<Card>, t: seq<Card>)
    requires multiset(s) == multiset(t)
    ensures Suits(s) == Suits(t)
  {
    forall c: Card
      ensures c in s <==> c in t
    {
      assert c in s <==> c in multiset(s);
    }
  }

  lemma SortIgnoresOrder(s: seq<Card>, t: seq<Card>)
    requires |s| == 5 && multiset(s) == multiset(t)
    ensures |t| == 5 && Sort(Numbers(s)) == Sort(Numbers(t))
  {
    assert |multiset(t)| == |t|;
    Sorted(s);
    Sorted(t);
    var a := Sort(Numbers(s));
    var b := Sort(Numbers(t));
    forall x
      ensures Occurs(a, x) == Occurs(b, x)
    {
      CountOfSame(s, t, x);
    }
    SortedUnique(a, b);
  }

  /** The score does not depend on the order of the five cards. */
  lemma ScoreIgnoresOrder(s: seq<Card>, t: seq<Card>)
    requires |s| == 5 && multiset(s) == multiset(t)
    ensures |t| == 5 && Evaluate(s) == Evaluate(t)
  {
    SortIgnoresOrder(s, t);
    SameSuits(s, t);
  }

  // ----- comparing scores

  /** Tuples are compared from the left; a proper prefix is smaller. */
  predicate AtMost(s: seq<int>, t: seq<int>) {
    |s| == 0 || (|t| > 0 && (s[0] < t[0] || (s[0] == t[0] && AtMost(s[1..], t[1..]))))
  }

  lemma {:induction false} AtMostTotal(s: seq<int>, t: seq<int>)
    ensures AtMost(s, t) || AtMost(t, s)
    ensures AtMost(s, t) && AtMost(t, s) ==> s == t
    decreases |s|
  {
    if |s| > 0 && |t| > 0 {
      AtMostTotal(s[1..], t[1..]);
      assert s == [s[0]] + s[1..] && t == [t[0]] + t[1..];
    }
  }

  lemma {:induction false} AtMostTransitive(s: seq<int>, t: seq<int>, u: seq<int>)
    requires AtMost(s, t) && AtMost(t, u)
    ensures AtMost(s, u)
    decreases |s|
  {
    if |s| > 0 && s[0] == t[0] == u[0] {
      AtMostTransitive(s[1..], t[1..], u[1..]);
    }
  }

  // ----- the best of the five-card hands

  function Prefixed(c: Card, hands: seq<seq<Card>>): (r: seq<seq<Card>>)
    ensures |r| == |hands| && forall k :: 0 <= k < |hands| ==> r[k] == [c] + hands[k]
  {
    seq(|hands|, k requires 0 <= k < |hands| => [c] + hands[k])
  }

  /** All choices of n cards, in the order of itertools.combinations. */
  function Choices(cards: seq<Card>, n: nat): seq<seq<Card>>
    decreases |cards|
  {
    if n == 0 then [[]]
    else if |cards| == 0 then []
    else Prefixed(cards[0], Choices(cards[1..], n - 1)) + Choices(cards[1..], n)
  }

  /** A hand of n of these cards, in any order. */
  ghost predicate Hand(hand: seq<Card>, cards: seq<Card>, n: nat) {
    |hand| == n && multiset(hand) <= multiset(cards)
  }

  lemma {:induction false} ChoicesAreHands(cards: seq<Card>, n: nat, k: nat)
    requires k < |Choices(cards, n)|
    ensures Hand(Choices(cards, n)[k], cards, n)
    decreases |cards|
  {
    if n > 0 {
      var first := Choices(cards[1..], n - 1);
      assert cards == [cards[0]] + cards[1..];
      if k < |first| {
        ChoicesAreHands(cards[1..], n - 1, k);
      } else {
        ChoicesAreHands(cards[1..], n, k - |first|);
      }
    }
  }

  lemma ChoicesSplit(cards: seq<Card>, n: nat, k: nat)
    requires n > 0 && |cards| > 0
    ensures
      var with := Choices(cards[1..], n - 1);
      var without := Choices(cards[1..], n);
      && |Choices(cards, n)| == |with| + |without|
      && (k < |with| ==> Choices(cards, n)[k] == [cards[0]] + with[k])
      && (k < |without| ==> Choices(cards, n)[|with| + k] == without[k])
  {
  }

  /** Some choice has the cards of a hand. */
  ghost predicate Chosen(hand: seq<Card>, hands: seq<seq<Card>>) {
    exists k :: 0 <= k < |hands| && multiset(hands[k]) == multiset(hand)
  }

  lemma {:induction false} EveryHandIsChosen(hand: seq<Card>, cards: seq<Card>, n: nat)
    requires Hand(hand, cards, n)
    ensures Chosen(hand, Choices(cards, n))
    decreases |cards|
  {
    if n == 0 {
      assert multiset(Choices(cards, n)[0]) == multiset(hand);
    } else {
      HandNeedsCards(hand, cards, n);
      if i :| 0 <= i < |hand| && hand[i] == cards[0] {
        DroppedHand(hand, cards, n, i);
        EveryHandIsChosen(Dropped(hand, i), cards[1..], n - 1);
        ChosenWith(hand, cards, n, i);
      } else {
        HandWithoutFirst(hand, cards, n);
        EveryHandIsChosen(hand, cards[1..], n);
        ChosenWithout(hand, cards, n);
      }
    }
  }

  lemma ChosenWith(hand: seq<Card>, cards: seq<Card>, n: nat, i: nat)
    requires n > 0 && |cards| > 0 && i < |hand| && hand[i] == cards[0]
    requires Chosen(Dropped(hand, i), Choices(cards[1..], n - 1))
    ensures Chosen(hand, Choices(cards, n))
  {
    var with := Choices(cards[1..], n - 1);
    var k :| 0 <= k < |with| && multiset(with[k]) == multiset(Dropped(hand, i));
    ChoicesSplit(cards, n, k);
    PutBack(hand, i, with[k]);
    assert multiset(Choices(cards, n)[k]) == multiset(hand);
  }

  lemma ChosenWithout(hand: seq<Card>, cards: seq<Card>, n: nat)
    requires n > 0 && |cards| > 0 && Chosen(hand, Choices(cards[1..], n))
    ensures Chosen(hand, Choices(cards, n))
  {
    var without := Choices(cards[1..], n);
    var k :| 0 <= k < |without| && multiset(without[k]) == multiset(hand);
    ChoicesSplit(cards, n, k);
    assert multiset(Choices(cards, n)[|Choices(cards[1..], n - 1)| + k]) == multiset(hand);
  }

  lemma HandNeedsCards(hand: seq<Card>, cards: seq<Card>, n: nat)
    requires Hand(hand, cards, n)
    ensures |cards| >= n
  {
    var rest := multiset(cards) - multiset(hand);
    assert multiset(cards) == multiset(hand) + rest;
    assert |multiset(cards)| == |cards| && |multiset(hand)| == |hand|;
  }

  lemma DroppedHand(hand: seq<Card>, cards: seq<Card>, n: nat, i: nat)
    requires Hand(hand, cards, n) && |cards| > 0 && i < |hand| && hand[i] == cards[0]
    ensures Hand(Dropped(hand, i), cards[1..], n - 1)
  {
    assert Dropped(cards, 0) == cards[1..];
    DroppedSpec(cards, 0, 0);
    DroppedSpec(hand, i, 0);
  }

  lemma HandWithoutFirst(hand: seq<Card>, cards: seq<Card>, n: nat)
    requires Hand(hand, cards, n) && |cards| > 0 && cards[0] !in hand
    ensures Hand(hand, cards[1..], n)
  {
    assert Dropped(cards, 0) == cards[1..];
    DroppedSpec(cards, 0, 0);
    assert cards[0] !in multiset(hand);
  }

  lemma PutBack(hand: seq<Card>, i: nat, rest: seq<Card>)
    requires i < |hand| && multiset(rest) == multiset(Dropped(hand, i))
    ensures multiset([hand[i]] + rest) == multiset(hand)
  {
    DroppedSpec(hand, i, 0);
    assert hand[i] in multiset(hand);
  }

  /** A score is the best: some five of the cards have it and no five have more. */
  ghost predicate Best(cards: seq<Card>, score: seq<int>) {
    && (exists hand :: Hand(hand, cards, 5) && Evaluate(hand) == score)
    && (forall hand: seq<Card> :: Hand(hand, cards, 5) ==> AtMost(Evaluate(hand), score))
  }

  ghost predicate AllHands(hands: seq<seq<Card>>, cards: seq<Card>, n: nat) {
    forall k :: 0 <= k < |hands| ==> Hand(hands[k], cards, n)
  }

  predicate AllFive(hands: seq<seq<Card>>) {
    forall k :: 0 <= k < |hands| ==> |hands[k]| == 5
  }

  /** The best score among some hands. */
  ghost predicate Leads(hands: seq<seq<Card>>, score: seq<int>)
    requires AllFive(hands)
  {
    && (exists k :: 0 <= k < |hands| && Evaluate(hands[k]) == score)
    && (forall k :: 0 <= k < |hands| ==> AtMost(Evaluate(hands[k]), score))
  }

  lemma LeadsStep(hands: seq<seq<Card>>, hand: seq<Card>, score: seq<int>)
    requires AllFive(hands) && |hand| == 5 && Leads(hands, score)
    ensures AtMost(Evaluate(hand), score) ==> Leads(hands + [hand], score)
    ensures !AtMost(Evaluate(hand), score) ==> Leads(hands + [hand], Evaluate(hand))
  {
    var more := hands + [hand];
    var at :| 0 <= at < |hands| && Evaluate(hands[at]) == score;
    assert more[at] == hands[at] && more[|hands|] == hand;
    AtMostTotal(Evaluate(hand), Evaluate(hand));
    AtMostTotal(Evaluate(hand), score);
    if !AtMost(Evaluate(hand), score) {
      forall k | 0 <= k < |more|
        ensures AtMost(Evaluate(more[k]), Evaluate(hand))
      {
        if k < |hands| {
          AtMostTransitive(Evaluate(hands[k]), score, Evaluate(hand));
        }
      }
    }
  }

  lemma LeadsFirst(hand: seq<Card>)
    requires |hand| == 5
    ensures Leads([hand], Evaluate(hand))
  {
    assert Evaluate([hand][0]) == Evaluate(hand);
    AtMostTotal(Evaluate(hand), Evaluate(hand));
  }

  lemma AllChoices(cards: seq<Card>, n: nat)
    ensures AllHands(Choices(cards, n), cards, n)
    ensures |Choices(cards, n)| > 0 <==> |cards| >= n
  {
    var hands := Choices(cards, n);
    forall k | 0 <= k < |hands|
      ensures Hand(hands[k], cards, n)
    {
      ChoicesAreHands(cards, n, k);
    }
    if |hands| > 0 {
      HandNeedsCards(hands[0], cards, n);
    }
    if |cards| >= n {
      assert cards == cards[..n] + cards[n..];
      EveryHandIsChosen(cards[..n], cards, n);
    }
  }

  /** Every five of the cards are among some hands, in some order. */
  ghost predicate Complete(hands: seq<seq<Card>>, cards: seq<Card>) {
    forall hand: seq<Card> :: Hand(hand, cards, 5) ==> Chosen(hand, hands)
  }

  lemma LeadsAll(cards: seq<Card>, hands: seq<seq<Card>>, score: seq<int>)
    requires AllHands(hands, cards, 5)
    requires Complete(hands, cards) && Leads(hands, score)
    ensures Best(cards, score)
  {
    var at :| 0 <= at < |hands| && Evaluate(hands[at]) == score;
    assert Hand(hands[at], cards, 5);
    forall hand: seq<Card> | Hand(hand, cards, 5)
      ensures AtMost(Evaluate(hand), score)
    {
      var k :| 0 <= k < |hands| && multiset(hands[k]) == multiset(hand);
      ScoreIgnoresOrder(hand, hands[k]);
    }
  }

  lemma ChoicesOfFive(cards: seq<Card>)
    ensures AllFive(Choices(cards, 5)) && AllHands(Choices(cards, 5), cards, 5)
    ensures |Choices(cards, 5)| > 0 <==> |cards| >= 5
    ensures Complete(Choices(cards, 5), cards)
  {
    AllChoices(cards, 5);
    forall hand: seq<Card> | Hand(hand, cards, 5)
      ensures Chosen(hand, Choices(cards, 5))
    {
      EveryHandIsChosen(hand, cards, 5);
    }
  }

  lemma BestOfFive(cards: seq<Card>)
    requires |cards| == 5
    ensures Best(cards, Evaluate(cards))
  {
    assert Hand(cards, cards, 5);
    forall hand: seq<Card> | Hand(hand, cards, 5)
      ensures AtMost(Evaluate(hand), Evaluate(cards))
    {
      var rest := multiset(cards) - multiset(hand);
      assert multiset(cards) == multiset(hand) + rest;
      assert |rest| == 0;
      ScoreIgnoresOrder(hand, cards);
      AtMostTotal(Evaluate(cards), Evaluate(cards));
    }
  }

  datatype Option<T> = None | Some(value: T)

  /** The loop's running maximum. */
  method Highest(hands: seq<seq<Card>>) returns (best: Option<seq<int>>)
    requires AllFive(hands)
    ensures best.None? <==> |hands| == 0
    ensures best.Some? ==> Leads(hands, best.value)
  {
    best := None;
    for k := 0 to |hands|
      invariant best.None? <==> k == 0
      invariant best.Some? ==> Leads(hands[..k], best.value)
    {
      var score := Evaluate(hands[k]);
      assert hands[..k + 1] == hands[..k] + [hands[k]];
      if best.None? {
        LeadsFirst(hands[k]);
        best := Some(score);
      } else {
        LeadsStep(hands[..k], hands[k], best.value);
        if !AtMost(score, best.value) {
          best := Some(score);
        }
      }
    }
    assert hands[..|hands|] == hands;
  }

  /** The bot's result is the best score of all fives, and there is none of fewer than five cards. */
  method EvaluateBest(cards: seq<Card>) returns (best: Option<seq<int>>)
    ensures best.None? <==> |cards| < 5
    ensures best.Some? ==> Best(cards, best.value)
  {
    if |cards| == 5 {
      BestOfFive(cards);
      return Some(Evaluate(cards));
    }
    ChoicesOfFive(cards);
    best := Highest(Choices(cards, 5));
    if best.Some? {
      LeadsAll(cards, Choices(cards, 5), best.value);
    }
  }

  /** There is one best score, it is the same in any order, and another card never lowers it. */
  lemma BestIsMonotone(cards: seq<Card>, more: seq<Card>, score: seq<int>, other: seq<int>)
    requires multiset(cards) <= multiset(more)
    requires Best(cards, score) && Best(more, other)
    ensures AtMost(score, other)
    ensures multiset(cards) == multiset(more) ==> score == other
  {
    var hand :| Hand(hand, cards, 5) && Evaluate(hand) == score;
    assert Hand(hand, more, 5);
    if multiset(cards) == multiset(more) {
      var best :| Hand(best, more, 5) && Evaluate(best) == other;
      assert Hand(best, cards, 5);
      AtMostTotal(score, other);
    }
  }
}

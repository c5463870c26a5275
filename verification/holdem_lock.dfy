/** "Fold to the end and still win": the bot's lock against every continuation of the
    match (samples/holdem_bot6.py, bzplat/backend/games/holdem/engine.py). */
module HoldemLock {
  import opened HoldemTypes
  import opened HoldemReferee
  import opened HoldemReplay
  import opened HoldemAgreement
  import opened HoldemSeating

  const LOCK_WIN_MARGIN: int := 1500

  datatype Option<T> = None | Some(value: T)

  // ----- what folding costs, by the referee's own rules

  /** A hand in which one seat folds whenever it is to act and the other plays any
      integers, refused ones being folded by the engine. */
  function FolderPlays(t: Table, folder: Seat, bets: seq<int>): Outcome
    decreases |bets|
  {
    if t.toAct == folder then Act(t, FOLD)
    else if |bets| == 0 then Continue(t)
    else
      match Act(t, bets[0])
      case Continue(u) => FolderPlays(u, folder, bets[1..])
      case Rejected => Act(t, FOLD)
      case o => o
  }

  /** What a seat wins or loses in a hand that ended by a fold. */
  function Gain(o: Outcome, i: Seat): int
    requires o.FoldedTo?
  {
    FinalChips(o.next, [o.winner]).Of(i) - STARTING_STACK
  }

  /** The blind a seat posts in a hand dealt by `dealer`. */
  function Blind(dealer: Seat, i: Seat): int {
    if i == dealer then SMALL_BLIND else BIG_BLIND
  }

  /** The opponent opens, and the folder folds at its first turn. */
  lemma FoldsSecond(t: Table, folder: Seat, bets: seq<int>)
    requires t == Deal(Other(folder)) && |bets| > 0 && Act(t, bets[0]).Continue?
    ensures FolderPlays(t, folder, bets).FoldedTo? && FolderPlays(t, folder, bets).winner == t.dealer
    ensures Gain(FolderPlays(t, folder, bets), folder) == -BIG_BLIND
  {
    FirstActionPasses(t.dealer, bets[0]);
    var u := Act(t, bets[0]).next;
    FoldNow(u);
    assert FolderPlays(u, folder, bets[1..]) == Act(u, FOLD);
  }

  /** Folding a whole hand loses the blind, unless the opponent folds first. */
  lemma FoldedHand(dealer: Seat, folder: Seat, bets: seq<int>)
    requires |bets| > 0
    ensures FolderPlays(Deal(dealer), folder, bets).FoldedTo?
    ensures
      var gain := Gain(FolderPlays(Deal(dealer), folder, bets), folder);
      gain == -Blind(dealer, folder) || (folder != dealer && gain == SMALL_BLIND)
    ensures bets[0] == 0 ==> Gain(FolderPlays(Deal(dealer), folder, bets), folder) == -Blind(dealer, folder)
  {
    var t := Deal(dealer);
    DealIsLive(dealer);
    FoldNow(t);
    if folder != dealer {
      LiveStep(t, bets[0]);
      if Act(t, bets[0]).Continue? {
        FoldsSecond(t, folder, bets);
      }
    }
  }

  /** The dealer's first action leaves the big blind as it was and to act. */
  lemma FirstActionPasses(dealer: Seat, bet: int)
    requires Act(Deal(dealer), bet).Continue?
    ensures
      var u := Act(Deal(dealer), bet).next;
      Live(u) && u.toAct == Other(dealer) && u.contrib.Of(Other(dealer)) == BIG_BLIND
      && u.contrib.Of(dealer) >= BIG_BLIND
  {
    DealIsLive(dealer);
    ActionShape(Deal(dealer), bet);
  }

  /** The folder's result over a run of hands whose dealers alternate. */
  function FoldOut(dealer: Seat, folder: Seat, plays: seq<seq<int>>): int
    requires forall k :: 0 <= k < |plays| ==> |plays[k]| > 0
    decreases |plays|
  {
    if |plays| == 0 then 0
    else
      FoldedHand(dealer, folder, plays[0]);
      Gain(FolderPlays(Deal(dealer), folder, plays[0]), folder) + FoldOut(Other(dealer), folder, plays[1..])
  }

  function ForcedBlinds(dealer: Seat, i: Seat, hands: nat): int
    decreases hands
  {
    if hands == 0 then 0 else Blind(dealer, i) + ForcedBlinds(Other(dealer), i, hands - 1)
  }

  lemma {:induction false} FoldOutBound(dealer: Seat, folder: Seat, plays: seq<seq<int>>)
    requires forall k :: 0 <= k < |plays| ==> |plays[k]| > 0
    ensures FoldOut(dealer, folder, plays) >= -ForcedBlinds(dealer, folder, |plays|)
    ensures (forall k :: 0 <= k < |plays| ==> plays[k] == [0]) ==>
              FoldOut(dealer, folder, plays) == -ForcedBlinds(dealer, folder, |plays|)
    decreases |plays|
  {
    if |plays| > 0 {
      FoldedHand(dealer, folder, plays[0]);
      FoldOutBound(Other(dealer), folder, plays[1..]);
    }
  }

  /** Folding through `hands` more hands leaves a seat above zero whatever the opponent does. */
  ghost predicate Guaranteed(total: int, dealer: Seat, folder: Seat, hands: nat) {
    forall plays: seq<seq<int>> ::
      |plays| == hands && (forall k :: 0 <= k < |plays| ==> |plays[k]| > 0) ==>
        total + FoldOut(dealer, folder, plays) > 0
  }

  lemma GuaranteedIff(total: int, dealer: Seat, folder: Seat, hands: nat)
    ensures Guaranteed(total, dealer, folder, hands) <==> total > ForcedBlinds(dealer, folder, hands)
  {
    var worst: seq<seq<int>> := seq(hands, _ => [0]);
    FoldOutBound(dealer, folder, worst);
    forall plays: seq<seq<int>> | |plays| == hands && forall k :: 0 <= k < |plays| ==> |plays[k]| > 0
      ensures FoldOut(dealer, folder, plays) >= -ForcedBlinds(dealer, folder, hands)
    {
      FoldOutBound(dealer, folder, plays);
    }
  }

  /** Folding now costs a seat exactly what it has put in, and the opponent wins that. */
  lemma FoldNow(t: Table)
    requires Live(t)
    ensures Act(t, FOLD).FoldedTo?
    ensures Gain(Act(t, FOLD), t.toAct) == -t.contrib.Of(t.toAct)
    ensures Gain(Act(t, FOLD), Other(t.toAct)) == t.contrib.Of(t.toAct)
  {
    LiveStep(t, FOLD);
  }

  // ----- the bot's estimate

  /** The blind the bot expects a seat to post in a hand announced with `dealer`. */
  function BotBlind(dealer: Seat, i: Seat): int {
    if i == BotSmallBlind(dealer) then SMALL_BLIND else BIG_BLIND
  }

  function BotBlinds(dealer: Seat, i: Seat, hands: nat): int
    decreases hands
  {
    if hands == 0 then 0 else BotBlind(dealer, i) + BotBlinds(Other(dealer), i, hands - 1)
  }

  function LossBound(dealer: Seat, s: State, i: Seat, remaining: Option<int>): Option<int> {
    if remaining.None? || remaining.value <= 0 then None
    else Some(s.committed.Of(i) + BotBlinds(Other(dealer), i, remaining.value - 1))
  }

  lemma {:induction false} BotBlindsSplit(dealer: Seat, i: Seat, hands: nat)
    ensures BotBlinds(dealer, i, hands + 1)
         == BotBlinds(dealer, i, hands) + BotBlind((dealer + hands) % 2, i)
    decreases hands
  {
    if hands > 0 {
      BotBlindsSplit(Other(dealer), i, hands - 1);
    }
  }

  /** `forced_fold_loss_bound`, one future hand after another. */
  method ForcedFoldLossBound(dealer: Seat, s: State, i: Seat, remaining: Option<int>) returns (bound: Option<int>)
    ensures bound == LossBound(dealer, s, i, remaining)
  {
    if remaining.None? || remaining.value <= 0 {
      return None;
    }
    var loss := s.committed.Of(i);
    for offset := 1 to remaining.value
      invariant loss == s.committed.Of(i) + BotBlinds(Other(dealer), i, offset - 1)
    {
      var futureDealer := (dealer + offset) % 2;
      var futureSb, futureBb := (futureDealer + 1) % 2, (futureDealer + 2) % 2;
      BotBlindsSplit(Other(dealer), i, offset - 1);
      if i == futureSb {
        loss := loss + SMALL_BLIND;
      } else if i == futureBb {
        loss := loss + BIG_BLIND;
      }
    }
    return Some(loss);
  }

  function ShouldLockWin(totals: seq<int>, dealer: Seat, s: State, me: Seat, remaining: Option<int>): bool {
    if |totals| <= me then false
    else
      match LossBound(dealer, s, me, remaining)
      case None => totals[me] >= LOCK_WIN_MARGIN
      case Some(bound) => totals[me] > bound
  }

  function FoldGivesOpponentLock(totals: seq<int>, dealer: Seat, s: State, me: Seat, remaining: Option<int>): bool {
    var you := Other(me);
    if |totals| <= you || remaining.None? || remaining.value <= 1 then false
    else
      var after := totals[you] + s.committed.Of(me);
      match LossBound(dealer, s, you, remaining)
      case None => after >= LOCK_WIN_MARGIN
      case Some(bound) => after > Max(0, bound - s.committed.Of(you))
  }

  // ----- how far the announcements are off

  /** A decision the referee can present: some run of a hand. */
  ghost predicate Decision(t: Table, button: Seat, bets: seq<int>) {
    Play(Deal(button), bets) == Continue(t)
  }

  /** What the bot rebuilds when it is told who the dealer is. On the platform that is the
      seat that posts the small blind; the bot assumes the other one does. */
  function Rebuilt(t: Table, announced: Seat): State {
    Observe(Replay(BotSmallBlind(announced), t.history), t.toAct, PublicCards(t.street))
  }

  /** Over a run of hands the two seatings differ by one blind step, or not at all. */
  lemma {:induction false} SeatingGap(dealer: Seat, i: Seat, hands: nat)
    ensures BotBlinds(dealer, i, hands) - ForcedBlinds(dealer, i, hands)
         == if hands % 2 == 0 then 0 else if i == dealer then SMALL_BLIND else -SMALL_BLIND
    ensures BotBlinds(dealer, i, hands) == ForcedBlinds(Other(dealer), i, hands) >= 0
    decreases hands
  {
    if hands > 0 {
      SeatingGap(Other(dealer), i, hands - 1);
    }
  }

  /** What the bot expects in blinds beyond what is to come, if told the small blind is the dealer. */
  function BlindGap(t: Table, i: Seat, remaining: int): int {
    if remaining % 2 == 1 then 0 else if i == t.dealer then -SMALL_BLIND else SMALL_BLIND
  }

  /** What the bot takes a seat's chips in the pot for beyond what they are. */
  function CommittedGap(t: Table, announced: Seat, i: Seat): int {
    if announced == t.dealer then Offset(t, i) else 0
  }

  lemma RebuiltRight(t: Table, bets: seq<int>, s: State)
    requires Decision(t, t.dealer, bets) && s == Observe(Replay(t.dealer, t.history), t.toAct, PublicCards(t.street))
    ensures Live(t) && s.committed == t.contrib
  {
    ReplayIsFaithful(t.dealer, bets);
  }

  lemma RebuiltWrong(t: Table, bets: seq<int>, s: State)
    requires Decision(t, t.dealer, bets) && s == Rebuilt(t, t.dealer)
    ensures OffsetsShown(t, s)
  {
    OffsetsAreExact(t.dealer, bets, t);
  }

  lemma ShownAt(t: Table, s: State, i: Seat)
    requires OffsetsShown(t, s)
    ensures s.committed.Of(i) == t.contrib.Of(i) + Offset(t, i)
  {
  }

  lemma RebuiltCommitted(t: Table, announced: Seat, bets: seq<int>, i: Seat)
    requires Decision(t, t.dealer, bets)
    ensures Live(t) && Rebuilt(t, announced).committed.Of(i) == t.contrib.Of(i) + CommittedGap(t, announced, i)
  {
    RebuiltRight(t, bets, Observe(Replay(t.dealer, t.history), t.toAct, PublicCards(t.street)));
    if announced == t.dealer {
      RebuiltWrong(t, bets, Rebuilt(t, announced));
      ShownAt(t, Rebuilt(t, announced), i);
    } else {
      assert BotSmallBlind(announced) == t.dealer;
    }
  }

  /** How far the bot's bound lies above the true cost of folding to the end. */
  function LockMargin(t: Table, announced: Seat, remaining: int): int {
    CommittedGap(t, announced, t.toAct) + (if announced == t.dealer then BlindGap(t, t.toAct, remaining) else 0)
  }

  /** The same for the opponent's cost, less what the bot takes its own fold to give away. */
  function OpponentMargin(t: Table, announced: Seat, remaining: int): int {
    (if announced == t.dealer then BlindGap(t, Other(t.toAct), remaining) else 0)
    - CommittedGap(t, announced, t.toAct)
  }

  /** Folding to the end is a guaranteed win for the seat to act. */
  ghost predicate CanFold(t: Table, total: int, remaining: int)
    requires Act(t, FOLD).FoldedTo? && remaining >= 1
  {
    Guaranteed(total + Gain(Act(t, FOLD), t.toAct), Other(t.dealer), t.toAct, remaining - 1)
  }

  /** After a fold now, folding to the end is a guaranteed win for the other seat. */
  ghost predicate OpponentCanFold(t: Table, total: int, remaining: int)
    requires Act(t, FOLD).FoldedTo? && remaining >= 1
  {
    Guaranteed(total + Gain(Act(t, FOLD), Other(t.toAct)), Other(t.dealer), Other(t.toAct), remaining - 1)
  }

  lemma ShiftedBound(t: Table, announced: Seat, i: Seat, remaining: int)
    requires remaining >= 1
    ensures BotBlinds(Other(announced), i, remaining - 1)
         == ForcedBlinds(Other(t.dealer), i, remaining - 1)
            + if announced == t.dealer then BlindGap(t, i, remaining) else 0
    ensures ForcedBlinds(Other(t.dealer), i, remaining - 1) >= 0 && BotBlinds(Other(announced), i, remaining - 1) >= 0
  {
    SeatingGap(Other(announced), i, remaining - 1);
    SeatingGap(announced, i, remaining - 1);
  }

  lemma CanFoldIff(t: Table, total: int, remaining: int)
    requires Live(t) && remaining >= 1
    ensures Act(t, FOLD).FoldedTo?
    ensures CanFold(t, total, remaining)
       <==> total > t.contrib.Of(t.toAct) + ForcedBlinds(Other(t.dealer), t.toAct, remaining - 1)
    ensures OpponentCanFold(t, total, remaining)
       <==> total + t.contrib.Of(t.toAct) > ForcedBlinds(Other(t.dealer), Other(t.toAct), remaining - 1)
  {
    FoldNow(t);
    GuaranteedIff(total + Gain(Act(t, FOLD), t.toAct), Other(t.dealer), t.toAct, remaining - 1);
    GuaranteedIff(total + Gain(Act(t, FOLD), Other(t.toAct)), Other(t.dealer), Other(t.toAct), remaining - 1);
  }

  lemma LockShiftedAt(t: Table, announced: Seat, s: State, totals: seq<int>, remaining: int)
    requires Live(t) && |totals| == 2 && remaining >= 1
    requires s.committed.Of(t.toAct) == t.contrib.Of(t.toAct) + CommittedGap(t, announced, t.toAct)
    ensures ShouldLockWin(totals, announced, s, t.toAct, Some(remaining))
       <==> totals[t.toAct] - LockMargin(t, announced, remaining)
            > t.contrib.Of(t.toAct) + ForcedBlinds(Other(t.dealer), t.toAct, remaining - 1)
    ensures remaining > 1 ==>
              (FoldGivesOpponentLock(totals, announced, s, t.toAct, Some(remaining))
               <==> totals[Other(t.toAct)] - OpponentMargin(t, announced, remaining) + t.contrib.Of(t.toAct)
                    > ForcedBlinds(Other(t.dealer), Other(t.toAct), remaining - 1))
  {
    ShiftedBound(t, announced, t.toAct, remaining);
    ShiftedBound(t, announced, Other(t.toAct), remaining);
  }

  /** The lock is announced exactly when folding to the end would be a guaranteed win on a
      total lower by the margin: for every opponent, every hand and every action in it. */
  lemma LockIsShifted(t: Table, announced: Seat, bets: seq<int>, totals: seq<int>, remaining: int)
    requires Decision(t, t.dealer, bets) && |totals| == 2 && remaining >= 1
    ensures Live(t) && Act(t, FOLD).FoldedTo?
    ensures ShouldLockWin(totals, announced, Rebuilt(t, announced), t.toAct, Some(remaining))
       <==> CanFold(t, totals[t.toAct] - LockMargin(t, announced, remaining), remaining)
  {
    RebuiltCommitted(t, announced, bets, t.toAct);
    LockShiftedAt(t, announced, Rebuilt(t, announced), totals, remaining);
    CanFoldIff(t, totals[t.toAct] - LockMargin(t, announced, remaining), remaining);
  }

  /** Likewise for the lock that folding is said to give the opponent. */
  lemma OpponentLockIsShifted(t: Table, announced: Seat, bets: seq<int>, totals: seq<int>, remaining: int)
    requires Decision(t, t.dealer, bets) && |totals| == 2 && remaining > 1
    ensures Live(t) && Act(t, FOLD).FoldedTo?
    ensures FoldGivesOpponentLock(totals, announced, Rebuilt(t, announced), t.toAct, Some(remaining))
       <==> OpponentCanFold(t, totals[Other(t.toAct)] - OpponentMargin(t, announced, remaining), remaining)
  {
    RebuiltCommitted(t, announced, bets, t.toAct);
    LockShiftedAt(t, announced, Rebuilt(t, announced), totals, remaining);
    CanFoldIff(t, totals[Other(t.toAct)] - OpponentMargin(t, announced, remaining), remaining);
  }

  // ----- when every announcement can be trusted

  /** The totals of a match in which one seat is ahead by `lead`. */
  function Totals(i: Seat, lead: int): seq<int> {
    if i == 0 then [lead, -lead] else [-lead, lead]
  }

  ghost predicate Locks(t: Table, announced: Seat, remaining: int, lead: int) {
    ShouldLockWin(Totals(t.toAct, lead), announced, Rebuilt(t, announced), t.toAct, Some(remaining))
  }

  ghost predicate OpponentLocks(t: Table, announced: Seat, remaining: int, lead: int) {
    FoldGivesOpponentLock(Totals(Other(t.toAct), lead), announced, Rebuilt(t, announced), t.toAct, Some(remaining))
  }

  /** The lock is announced exactly on the leads on which folding to the end is a guaranteed
      win if and only if the margin is 0, and only on such leads if and only if it is not
      negative. The margin is 0 whenever the bot is told the big blind is the dealer. */
  lemma LockIsExact(t: Table, announced: Seat, bets: seq<int>, remaining: int)
    requires Decision(t, t.dealer, bets) && remaining >= 1
    ensures Live(t) && Act(t, FOLD).FoldedTo?
    ensures (forall lead: int :: Locks(t, announced, remaining, lead) <==> CanFold(t, lead, remaining))
       <==> LockMargin(t, announced, remaining) == 0
    ensures (forall lead: int :: Locks(t, announced, remaining, lead) ==> CanFold(t, lead, remaining))
       <==> LockMargin(t, announced, remaining) >= 0
    ensures announced != t.dealer ==> LockMargin(t, announced, remaining) == 0
  {
    var cost := t.contrib.Of(t.toAct) + ForcedBlinds(Other(t.dealer), t.toAct, remaining - 1);
    var margin := LockMargin(t, announced, remaining);
    RebuiltCommitted(t, announced, bets, t.toAct);
    FoldNow(t);
    forall lead: int
      ensures Locks(t, announced, remaining, lead) <==> lead - margin > cost
      ensures CanFold(t, lead, remaining) <==> lead > cost
    {
      LockShiftedAt(t, announced, Rebuilt(t, announced), Totals(t.toAct, lead), remaining);
      CanFoldIff(t, lead, remaining);
    }
    assert Locks(t, announced, remaining, cost) <==> margin < 0;
    assert CanFold(t, cost + margin, remaining) <==> margin > 0;
    assert !Locks(t, announced, remaining, cost + margin) && !CanFold(t, cost, remaining);
  }

  /** The lock that folding is said to give the opponent: exact and trustworthy on the same
      terms, with the opponent's margin. */
  lemma OpponentLockIsExact(t: Table, announced: Seat, bets: seq<int>, remaining: int)
    requires Decision(t, t.dealer, bets) && remaining > 1
    ensures Live(t) && Act(t, FOLD).FoldedTo?
    ensures (forall lead: int :: OpponentLocks(t, announced, remaining, lead) <==> OpponentCanFold(t, lead, remaining))
       <==> OpponentMargin(t, announced, remaining) == 0
    ensures (forall lead: int :: OpponentLocks(t, announced, remaining, lead) ==> OpponentCanFold(t, lead, remaining))
       <==> OpponentMargin(t, announced, remaining) >= 0
    ensures announced != t.dealer ==> OpponentMargin(t, announced, remaining) == 0
  {
    var cost := ForcedBlinds(Other(t.dealer), Other(t.toAct), remaining - 1) - t.contrib.Of(t.toAct);
    var margin := OpponentMargin(t, announced, remaining);
    RebuiltCommitted(t, announced, bets, t.toAct);
    FoldNow(t);
    forall lead: int
      ensures OpponentLocks(t, announced, remaining, lead) <==> lead - margin > cost
      ensures OpponentCanFold(t, lead, remaining) <==> lead > cost
    {
      LockShiftedAt(t, announced, Rebuilt(t, announced), Totals(Other(t.toAct), lead), remaining);
      CanFoldIff(t, lead, remaining);
    }
    assert OpponentLocks(t, announced, remaining, cost) <==> margin < 0;
    assert OpponentCanFold(t, cost + margin, remaining) <==> margin > 0;
    assert !OpponentLocks(t, announced, remaining, cost + margin) && !OpponentCanFold(t, cost, remaining);
  }

  /** Totals that lack the seat in question are no lead: no lock is announced on them. */
  lemma MissingTotalsNoLock(t: Table, announced: Seat, totals: seq<int>, i: Seat, remaining: Option<int>)
    requires |totals| <= i
    ensures !ShouldLockWin(totals, announced, Rebuilt(t, announced), i, remaining)
    ensures !FoldGivesOpponentLock(totals, announced, Rebuilt(t, announced), Other(i), remaining)
  {
  }

  /** In the last hand of a match the opponent is never said to get the lock, although a fold
      gives it the match whenever it then stands above zero; nor if the hands left are unknown. */
  lemma LastHandIsNoLock(t: Table, announced: Seat, totals: seq<int>, remaining: Option<int>)
    requires Live(t) && |totals| == 2
    ensures remaining.None? || remaining.value <= 1 ==>
              !FoldGivesOpponentLock(totals, announced, Rebuilt(t, announced), t.toAct, remaining)
    ensures Act(t, FOLD).FoldedTo?
    ensures OpponentCanFold(t, totals[Other(t.toAct)], 1) <==> totals[Other(t.toAct)] + t.contrib.Of(t.toAct) > 0
  {
    CanFoldIff(t, totals[Other(t.toAct)], 1);
  }

  /** Without the number of hands left the bot locks on a lead of 1500: that is a guaranteed win
      of every such lead if and only if folding the hands there are costs less. */
  lemma UnknownHandsLock(t: Table, announced: Seat, unknown: Option<int>, hands: int)
    requires Live(t) && (unknown.None? || unknown.value <= 0) && hands >= 1
    ensures Act(t, FOLD).FoldedTo?
    ensures (forall lead: int ::
               ShouldLockWin(Totals(t.toAct, lead), announced, Rebuilt(t, announced), t.toAct, unknown) ==>
                 CanFold(t, lead, hands))
       <==> t.contrib.Of(t.toAct) + ForcedBlinds(Other(t.dealer), t.toAct, hands - 1) < 1500
  {
    FoldNow(t);
    forall lead: int
      ensures ShouldLockWin(Totals(t.toAct, lead), announced, Rebuilt(t, announced), t.toAct, unknown) <==> lead >= 1500
      ensures CanFold(t, lead, hands) <==>
              lead > t.contrib.Of(t.toAct) + ForcedBlinds(Other(t.dealer), t.toAct, hands - 1)
    {
      CanFoldIff(t, lead, hands);
    }
    assert ShouldLockWin(Totals(t.toAct, 1500), announced, Rebuilt(t, announced), t.toAct, unknown);
  }

  // ----- announcements that fail on the platform

  /** A last hand in which the bot announces the lock, folds, and finishes behind: it is
      the big blind, 60 ahead, and believes it has only posted 50. */
  lemma LockCanLose(t: Table, bets: seq<int>)
    requires t == Deal(0) && bets == [150]
    ensures
      var o := Play(t, bets);
      && o.Continue? && o.next.toAct == 1 && ShouldLockWin([-60, 60], 0, Rebuilt(o.next, 0), 1, Some(1))
      && Act(o.next, FOLD).FoldedTo? && 60 + Gain(Act(o.next, FOLD), 1) == -40
  {
    RaiseOpens(t, bets[0]);
    OneAction(t, bets);
    FoldNow(Act(t, bets[0]).next);
    OwnView(Act(t, bets[0]).next.history, []);
  }

  /** A first decision with two hands to come: the dealer believes that folding gives
      its opponent, 100 ahead, the lock, and the opponent cannot fold to the end. */
  lemma OpponentLockCanFail(t: Table, bets: seq<int>)
    requires t == Deal(0) && bets == []
    ensures Act(t, FOLD).FoldedTo?
    ensures FoldGivesOpponentLock([-100, 100], 0, Rebuilt(t, 0), 0, Some(3)) && !OpponentCanFold(t, 100, 3)
  {
    DealIsLive(0);
    OpponentLockIsShifted(t, 0, bets, [-100, 100], 3);
    CanFoldIff(t, 100, 3);
    CanFoldIff(t, 150, 3);
    assert ForcedBlinds(1, 1, 2) == 50 + ForcedBlinds(0, 1, 1);
  }
}

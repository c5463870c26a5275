/** The betting state machine of one hand, as the platform's referee runs it
    (bzplat/backend/games/holdem/holdem_judge.py). */
module HoldemReferee {
  import opened HoldemTypes

  const FOLD: int := -1
  const ALLIN: int := -2
  const RIVER: int := 3

  /** `bets` holds the chips put in on the current street, or the marker ALLIN
      for a seat that can no longer act; `allinBets` then holds the street total. */
  datatype Table = Table(
    dealer: Seat,
    chips: Both<int>,
    pot: int,
    street: int,
    toAct: Seat,
    roundBet: int,
    roundRaise: int,
    actionLeft: int,
    bets: Both<int>,
    contrib: Both<int>,
    allinBets: Both<int>,
    history: seq<Record>)
  {
    function StreetBet(i: Seat): int {
      if bets.Of(i) == ALLIN then allinBets.Of(i) else bets.Of(i)
    }

    function ToCall(i: Seat): int {
      Max(0, roundBet - StreetBet(i))
    }

    predicate CanAct(i: Seat) {
      bets.Of(i) >= 0
    }
  }

  /** What one action leads to. `Rejected` is the ValueError of the source and
      `Stuck` its endless search for a seat that can act. */
  datatype Outcome =
    | Rejected
    | Stuck
    | Continue(next: Table)
    | FoldedTo(next: Table, winner: Seat)
    | Showdown(next: Table)

  /** The table after the cards are dealt and both blinds are posted. */
  function Deal(dealer: Seat): Table {
    var blinds := Both(0, 0).With(dealer, SMALL_BLIND).With(Other(dealer), BIG_BLIND);
    Table(dealer,
          Both(STARTING_STACK - blinds.first, STARTING_STACK - blinds.second),
          SMALL_BLIND + BIG_BLIND, 0, dealer, BIG_BLIND, BIG_BLIND, 2,
          blinds, blinds, Both(0, 0), [])
  }

  /** The seat that acts next, skipping a seat that is all-in. */
  function NextSeat(t: Table, i: Seat): Seat
    requires t.CanAct(0) || t.CanAct(1)
  {
    if t.CanAct(Other(i)) then Other(i) else i
  }

  function Actionable(t: Table): int {
    (if t.CanAct(0) then 1 else 0) + (if t.CanAct(1) then 1 else 0)
  }

  /** Close the street: deal the next one, or run the board out when at most one
      seat can still act. */
  function NextRound(t: Table): Outcome
    decreases RIVER - t.street
  {
    if t.street >= RIVER then
      Showdown(t)
    else
      var u := t.(street := t.street + 1, toAct := t.dealer, roundBet := 0,
                  roundRaise := BIG_BLIND / 2, actionLeft := Actionable(t),
                  bets := Both(if t.bets.first < 0 then t.bets.first else 0,
                               if t.bets.second < 0 then t.bets.second else 0));
      if u.actionLeft > 1 then Continue(u.(toAct := NextSeat(u, u.dealer)))
      else NextRound(u)
  }

  predicate Matched(t: Table, i: Seat) {
    t.bets.Of(i) == FOLD || t.bets.Of(i) == ALLIN || t.StreetBet(i) >= t.roundBet
  }

  /** The table with an accepted action in its history. */
  function Logged(t: Table, bet: int, kind: Kind): Table {
    t.(actionLeft := t.actionLeft - 1,
       history := t.history + [Record(t.street, t.toAct, bet, kind)])
  }

  /** Close the street once everyone has acted and matched; else hand the turn on. */
  function Advance(t: Table): Outcome {
    if t.actionLeft <= 0 && Matched(t, 0) && Matched(t, 1) then NextRound(t)
    else if t.CanAct(0) || t.CanAct(1) then Continue(t.(toAct := NextSeat(t, t.toAct)))
    else Stuck
  }

  /** The chips a bet moves, before the turn passes on. */
  datatype Placement = Illegal | Placed(table: Table, kind: Kind)

  function Place(t: Table, bet: int): Placement {
    var me := t.toAct;
    var chips := t.chips.Of(me);
    if !t.CanAct(Other(me)) && (bet > 0 || (bet == ALLIN && chips > t.ToCall(me))) then
      Illegal
    else if bet == FOLD then
      Placed(t.(bets := t.bets.With(me, FOLD)), Fold)
    else if bet == ALLIN then
      var total := t.StreetBet(me) + chips;
      var u := t.(pot := t.pot + chips, chips := t.chips.With(me, 0), bets := t.bets.With(me, ALLIN),
                  contrib := t.contrib.With(me, t.contrib.Of(me) + chips),
                  allinBets := t.allinBets.With(me, total));
      Placed(if total > t.roundBet then u.(roundRaise := total, roundBet := total) else u, AllIn)
    else if t.roundBet >= 0 && bet == 0 then
      var inc := t.ToCall(me);
      if chips < inc then Illegal
      else
        var u := t.(pot := t.pot + inc, chips := t.chips.With(me, chips - inc),
                    contrib := t.contrib.With(me, t.contrib.Of(me) + inc));
        Placed(if u.chips.Of(me) == 0
               then u.(bets := t.bets.With(me, ALLIN), allinBets := t.allinBets.With(me, t.roundBet))
               else u.(bets := t.bets.With(me, t.roundBet)),
               if inc == 0 then Check else Call)
    else if t.roundBet >= 0 && bet + t.StreetBet(me) >= 2 * t.roundRaise then
      if chips < bet then Illegal
      else
        var total := t.bets.Of(me) + bet;
        Placed(t.(bets := t.bets.With(me, total), roundRaise := total, roundBet := Max(t.roundBet, total),
                  pot := t.pot + bet, chips := t.chips.With(me, chips - bet),
                  contrib := t.contrib.With(me, t.contrib.Of(me) + bet)), Raise)
    else
      Illegal
  }

  /** One `player_action` call for the seat to act. */
  function Act(t: Table, bet: int): Outcome {
    match Place(t, bet)
    case Illegal => Rejected
    case Placed(u, kind) =>
      if kind == Fold then
        FoldedTo(u.(history := t.history + [Record(t.street, t.toAct, FOLD, Fold)]), Other(t.toAct))
      else
        Advance(Logged(u, bet, kind))
  }

  /** Chips are neither created nor lost while a hand is played. */
  ghost predicate Accounts(t: Table) {
    && t.chips.first >= 0 && t.chips.first + t.contrib.first == STARTING_STACK
    && t.chips.second >= 0 && t.chips.second + t.contrib.second == STARTING_STACK
    && t.contrib.first >= 0 && t.contrib.second >= 0
    && t.pot == t.contrib.first + t.contrib.second
  }

  /** A seat that cannot act has all its chips in. */
  ghost predicate InPlay(t: Table, i: Seat) {
    t.CanAct(i) || (t.bets.Of(i) == ALLIN && t.chips.Of(i) == 0)
  }

  /** What holds of every table at which some seat is to act. */
  ghost predicate Live(t: Table) {
    var me, you := t.toAct, Other(t.toAct);
    && 0 <= t.street <= RIVER
    && Accounts(t)
    && t.CanAct(me) && t.chips.Of(me) > 0
    && InPlay(t, you)
    && 0 <= t.StreetBet(me) <= t.StreetBet(you) == t.roundBet
    && t.contrib.Of(me) - t.StreetBet(me) == t.contrib.Of(you) - t.StreetBet(you) >= 0
    && t.roundRaise > 0 && (t.roundRaise == t.roundBet || (t.roundBet == 0 && t.roundRaise == BIG_BLIND / 2))
    && (t.CanAct(you) ==> t.roundRaise >= BIG_BLIND / 2)
    && t.actionLeft <= 2
    && (t.chips.Of(you) == 0 ==> t.actionLeft <= 1)
    && (t.street == 0 ==> t.roundBet > 0)
  }

  lemma DealIsLive(dealer: Seat)
    ensures Live(Deal(dealer))
  {
  }

  /** A closed street leads to the next one while both seats can act, and straight
      to the river otherwise. */
  lemma {:induction false} ClosedStreet(t: Table)
    requires 0 <= t.street <= RIVER
    requires InPlay(t, 0) && InPlay(t, 1)
    ensures NextRound(t).Continue? || NextRound(t).Showdown?
    ensures NextRound(t).Continue? <==> t.street < RIVER && t.CanAct(0) && t.CanAct(1)
    ensures NextRound(t).Continue? ==>
              NextRound(t).next == t.(street := t.street + 1, toAct := Other(t.dealer), roundBet := 0,
                                      roundRaise := BIG_BLIND / 2, actionLeft := 2, bets := Both(0, 0))
    ensures NextRound(t).Showdown? ==>
              var u := NextRound(t).next;
              u.street == RIVER && u.chips == t.chips && u.contrib == t.contrib && u.pot == t.pot
              && u.history == t.history && u.dealer == t.dealer
    decreases RIVER - t.street
  {
    if t.street < RIVER && !(t.CanAct(0) && t.CanAct(1)) {
      ClosedStreet(t.(street := t.street + 1, toAct := t.dealer, roundBet := 0,
                      roundRaise := BIG_BLIND / 2, actionLeft := Actionable(t),
                      bets := Both(if t.bets.first < 0 then t.bets.first else 0,
                                   if t.bets.second < 0 then t.bets.second else 0)));
    }
  }

  /** The state after an action has been logged: the acting seat has matched or raised. */
  ghost predicate Acted(t: Table) {
    var me, you := t.toAct, Other(t.toAct);
    && 0 <= t.street <= RIVER
    && Accounts(t)
    && InPlay(t, me) && InPlay(t, you)
    && 0 <= t.StreetBet(you) <= t.StreetBet(me) == t.roundBet
    && t.contrib.Of(me) - t.StreetBet(me) == t.contrib.Of(you) - t.StreetBet(you) >= 0
    && t.roundRaise > 0 && (t.roundRaise == t.roundBet || (t.roundBet == 0 && t.roundRaise == BIG_BLIND / 2))
    && (t.CanAct(me) ==> t.roundRaise >= BIG_BLIND / 2)
    && t.actionLeft <= 1
    && (t.chips.Of(you) == 0 ==> t.actionLeft <= 0 && !t.CanAct(me))
    && (t.street == 0 ==> t.roundBet > 0)
  }

  /** The seat still facing a bet, or still owed its turn, has chips to answer with. */
  lemma TurnPasses(t: Table)
    requires Acted(t)
    requires t.actionLeft > 0 || !Matched(t, 0) || !Matched(t, 1)
    ensures t.CanAct(Other(t.toAct)) && Live(t.(toAct := Other(t.toAct)))
  {
    if t.toAct == 0 {
    } else {
    }
  }

  /** With both seats matched the contributions are level, so a new street that
      both can play starts with chips on both sides. */
  lemma StreetOpens(t: Table)
    requires Acted(t) && Matched(t, 0) && Matched(t, 1)
    ensures t.contrib.first == t.contrib.second
    ensures t.street < RIVER && t.CanAct(0) && t.CanAct(1) ==>
              Live(t.(street := t.street + 1, toAct := Other(t.dealer), roundBet := 0,
                      roundRaise := BIG_BLIND / 2, actionLeft := 2, bets := Both(0, 0)))
  {
    if t.toAct == 0 {
    } else {
    }
  }

  lemma AdvanceStep(t: Table)
    requires Acted(t)
    ensures
      match Advance(t)
      case Continue(u) => Live(u)
      case Showdown(u) => Accounts(u) && u.street == RIVER && u.contrib.first == u.contrib.second
      case _ => false
  {
    if t.actionLeft <= 0 && Matched(t, 0) && Matched(t, 1) {
      ClosedStreet(t);
      StreetOpens(t);
    } else {
      TurnPasses(t);
    }
  }

  lemma PlaceAllIn(t: Table)
    requires Live(t) && Place(t, ALLIN).Placed?
    ensures Acted(Logged(Place(t, ALLIN).table, ALLIN, AllIn))
  {
    if t.toAct == 0 {
    } else {
    }
  }

  lemma PlaceCall(t: Table)
    requires Live(t) && Place(t, 0).Placed?
    ensures Acted(Logged(Place(t, 0).table, 0, Place(t, 0).kind))
  {
    if t.toAct == 0 {
    } else {
    }
  }

  lemma PlaceRaise(t: Table, bet: int)
    requires Live(t) && bet != FOLD && bet != ALLIN && bet != 0 && Place(t, bet).Placed?
    ensures bet > 0
    ensures Acted(Logged(Place(t, bet).table, bet, Raise))
  {
    if t.toAct == 0 {
    } else {
    }
  }

  lemma PlaceStep(t: Table, bet: int)
    requires Live(t) && Place(t, bet).Placed?
    ensures Place(t, bet).kind == Fold <==> bet == FOLD
    ensures bet == FOLD ==> Place(t, bet).table == t.(bets := t.bets.With(t.toAct, FOLD))
    ensures bet != FOLD ==> Acted(Logged(Place(t, bet).table, bet, Place(t, bet).kind))
  {
    if bet == ALLIN {
      PlaceAllIn(t);
    } else if bet == 0 {
      PlaceCall(t);
    } else if bet != FOLD {
      PlaceRaise(t, bet);
    }
  }

  /** One action at a live table: the search for the next seat always succeeds, the
      table stays live or the hand ends with its accounts intact, a fold never costs
      more than the opponent has put in, and a showdown is reached on the river only. */
  lemma LiveStep(t: Table, bet: int)
    requires Live(t)
    ensures
      match Act(t, bet)
      case Rejected => bet != FOLD
      case Stuck => false
      case Continue(u) => Live(u)
      case FoldedTo(u, w) => bet == FOLD && w == Other(t.toAct) && Accounts(u) && u.contrib == t.contrib
                             && u.contrib.Of(t.toAct) <= u.contrib.Of(w)
      case Showdown(u) => Accounts(u) && u.street == RIVER && u.contrib.first == u.contrib.second
  {
    if Place(t, bet).Placed? {
      PlaceStep(t, bet);
      if bet != FOLD {
        AdvanceStep(Logged(Place(t, bet).table, bet, Place(t, bet).kind));
      }
    }
  }

  /** Chips after the hand: the unmatched excess goes back, the matched pot is split
      and an odd chip goes to the small blind if it is among the winners. */
  function FinalChips(t: Table, winners: seq<Seat>): Both<int>
    requires winners == [0] || winners == [1] || winners == [0, 1]
  {
    var low, high := Min(t.contrib.first, t.contrib.second), Max(t.contrib.first, t.contrib.second);
    var refunded :=
      if high == low then t.chips
      else if t.contrib.first == high then t.chips.With(0, t.chips.first + high - low)
      else t.chips.With(1, t.chips.second + high - low);
    var share := 2 * low / |winners|;
    var odd := 2 * low - share * |winners|;
    var lucky := if t.dealer in winners then t.dealer else winners[0];
    var paid := Both(refunded.first + (if 0 in winners then share else 0),
                     refunded.second + (if 1 in winners then share else 0));
    if odd != 0 then paid.With(lucky, paid.Of(lucky) + odd) else paid
  }

  /** Settlement conserves chips; a sole loser is down exactly the smaller contribution. */
  lemma SettlementConserves(t: Table, winners: seq<Seat>)
    requires Accounts(t)
    requires winners == [0] || winners == [1] || winners == [0, 1]
    ensures FinalChips(t, winners).first + FinalChips(t, winners).second == 2 * STARTING_STACK
    ensures FinalChips(t, winners).first >= 0 && FinalChips(t, winners).second >= 0
    ensures |winners| == 1 ==>
              FinalChips(t, winners).Of(Other(winners[0]))
              == STARTING_STACK - Min(t.contrib.first, t.contrib.second)
    ensures |winners| == 2 ==> FinalChips(t, winners) == Both(STARTING_STACK, STARTING_STACK)
  {
    var low := Min(t.contrib.first, t.contrib.second);
    ShareOf(2 * low, |winners|);
    assert 0 in winners <==> winners != [1];
    assert 1 in winners <==> winners != [0];
  }

  /** The share of one winner, and of two of an even pot. */
  lemma ShareOf(pot: int, n: int)
    requires n == 1 || n == 2
    ensures n == 1 ==> pot / n == pot
    ensures n == 2 ==> pot / n == pot / 2
    ensures n == 1 ==> pot - pot / n * n == 0
    ensures n == 2 ==> pot - pot / n * n == pot % 2
  {
  }

  /** The engine drives the referee with any integers, folding for a seat whose
      action is refused, until the hand ends or the actions run out. */
  function Play(t: Table, bets: seq<int>): Outcome
    decreases |bets|
  {
    if |bets| == 0 then Continue(t)
    else
      match Act(t, bets[0])
      case Continue(u) => Play(u, bets[1..])
      case Rejected => Act(t, FOLD)
      case o => o
  }

  /** Over every run of a hand: no refusal and no endless search reaches the engine,
      accounts balance throughout, and a showdown compares equal contributions. */
  lemma {:induction false} EveryRun(t: Table, bets: seq<int>)
    requires Live(t)
    ensures
      match Play(t, bets)
      case Rejected => false
      case Stuck => false
      case Continue(u) => Live(u)
      case FoldedTo(u, w) => Accounts(u) && u.contrib.Of(Other(w)) <= u.contrib.Of(w)
      case Showdown(u) => Accounts(u) && u.street == RIVER && u.contrib.first == u.contrib.second
    decreases |bets|
  {
    if |bets| > 0 {
      LiveStep(t, bets[0]);
      match Act(t, bets[0])
      case Continue(u) => EveryRun(u, bets[1..]);
      case Rejected => LiveStep(t, FOLD);
      case _ =>
    }
  }

  /** How many more raises a street has room for: each one at least doubles the last. */
  function Doublings(x: int): nat
    requires x > 0
    decreases STARTING_STACK - x
  {
    if x > STARTING_STACK then 0 else 1 + Doublings(2 * x)
  }

  lemma {:induction false} DoublingsShrink(x: int, y: int)
    requires 0 < x <= y
    ensures Doublings(y) <= Doublings(x)
    ensures 2 * x <= y && x <= STARTING_STACK ==> Doublings(y) < Doublings(x)
    decreases STARTING_STACK - x
  {
    if x <= STARTING_STACK {
      if y <= STARTING_STACK {
        DoublingsShrink(2 * x, 2 * y);
      }
      if 2 * x <= y {
        DoublingsShrink(2 * x, y);
      }
    }
  }

  lemma DoublingsBounds(x: int)
    requires x > 0
    ensures Doublings(1) == 15 && Doublings(BIG_BLIND / 2) == 9 && Doublings(x) <= 15
  {
    DoublingsShrink(1, x);
    assert Doublings(12800) == 1 && Doublings(16384) == 1;
    assert Doublings(3200) == 3 && Doublings(4096) == 3;
    assert Doublings(800) == 5 && Doublings(1024) == 5;
    assert Doublings(200) == 7 && Doublings(256) == 7;
    assert Doublings(64) == 9 && Doublings(16) == 11 && Doublings(4) == 13;
  }

  /** What is left of a street: raises, unspent turns, and a reserve for an opponent
      that can still be put all-in by fewer chips than the last raise. */
  ghost function StreetBudget(t: Table, next: Seat): int
    requires t.roundRaise > 0
  {
    Doublings(t.roundRaise) + Max(t.actionLeft, 0) + (if t.CanAct(Other(next)) then 8 else 0)
  }

  /** An upper bound on the actions a live table can still see. */
  ghost function Budget(t: Table): int
    requires t.roundRaise > 0
  {
    20 * (RIVER - t.street) + StreetBudget(t, t.toAct)
  }

  ghost predicate Closes(t: Table) {
    t.actionLeft <= 0 && Matched(t, 0) && Matched(t, 1)
  }

  ghost predicate Spends(t: Table, u: Table) {
    u.street == t.street && u.roundRaise > 0 && t.roundRaise > 0
    && (Closes(u) || StreetBudget(u, Other(t.toAct)) < StreetBudget(t, t.toAct))
  }

  lemma AllInSpends(t: Table)
    requires Live(t) && Place(t, ALLIN).Placed?
    ensures Spends(t, Logged(Place(t, ALLIN).table, ALLIN, AllIn))
  {
    PlaceAllIn(t);
    var u := Place(t, ALLIN).table;
    DoublingsBounds(u.roundRaise);
    if t.roundRaise <= u.roundRaise {
      DoublingsShrink(t.roundRaise, u.roundRaise);
    }
    if t.toAct == 0 {
    } else {
    }
  }

  lemma CallSpends(t: Table)
    requires Live(t) && Place(t, 0).Placed?
    ensures Spends(t, Logged(Place(t, 0).table, 0, Place(t, 0).kind))
  {
    PlaceCall(t);
    if t.toAct == 0 {
    } else {
    }
  }

  lemma RaiseSpends(t: Table, bet: int)
    requires Live(t) && bet != FOLD && bet != ALLIN && bet != 0 && Place(t, bet).Placed?
    ensures Spends(t, Logged(Place(t, bet).table, bet, Raise))
  {
    PlaceRaise(t, bet);
    DoublingsShrink(t.roundRaise, Place(t, bet).table.roundRaise);
    if t.toAct == 0 {
    } else {
    }
  }

  lemma AdvanceBudget(t: Table, u: Table)
    requires Live(t) && Acted(u) && Spends(t, u) && u.toAct == t.toAct
    ensures Advance(u).Continue? ==> Live(Advance(u).next) && 0 <= Budget(Advance(u).next) < Budget(t)
  {
    AdvanceStep(u);
    if Closes(u) {
      ClosedStreet(u);
      DoublingsBounds(BIG_BLIND / 2);
    } else {
      TurnPasses(u);
    }
  }

  lemma BudgetFalls(t: Table, bet: int)
    requires Live(t) && Act(t, bet).Continue?
    ensures Live(Act(t, bet).next) && 0 <= Budget(Act(t, bet).next) < Budget(t)
  {
    PlaceStep(t, bet);
    if bet == ALLIN {
      AllInSpends(t);
    } else if bet == 0 {
      CallSpends(t);
    } else {
      RaiseSpends(t, bet);
    }
    AdvanceBudget(t, Logged(Place(t, bet).table, bet, Place(t, bet).kind));
  }

  lemma {:induction false} RunIsShort(t: Table, bets: seq<int>)
    requires Live(t)
    ensures Play(t, bets).Continue? ==> |bets| <= Budget(t)
    decreases |bets|
  {
    if |bets| > 0 && Act(t, bets[0]).Continue? {
      BudgetFalls(t, bets[0]);
      RunIsShort(Act(t, bets[0]).next, bets[1..]);
    } else {
      LiveStep(t, FOLD);
    }
  }

  /** The engine's 200-action safety cap on a hand can never be what ends it. */
  lemma CapNeverReached(dealer: Seat, bets: seq<int>)
    requires |bets| > 78
    ensures !Play(Deal(dealer), bets).Continue?
  {
    DealIsLive(dealer);
    RunIsShort(Deal(dealer), bets);
    assert Doublings(12800) == 1 && Doublings(800) == 5 && Doublings(100) == 8;
  }
}

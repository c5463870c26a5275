/** The sample bot's replay with its own seat for the small blind (samples/holdem_bot6.py),
    on the platform, where the announced dealer is the small blind
    (bzplat/backend/games/holdem/engine.py). */
module HoldemSeating {
  import opened HoldemTypes
  import opened HoldemReferee
  import opened HoldemReplay
  import opened HoldemAgreement

  // ----- how far the bot's chips are off

  /** The dealer opened the hand with a call. */
  predicate Limped(history: seq<Record>) {
    |history| > 0 && history[0].kind == Call
  }

  /** The last raise before the flop was the big blind's. */
  predicate BlindLeads(history: seq<Record>, dealer: Seat) {
    |history| > 0 &&
    var r := history[|history| - 1];
    if r.round == 0 && r.kind == Raise then r.player != dealer else BlindLeads(history[..|history| - 1], dealer)
  }

  /** What the bot adds to the contribution of a seat with chips enough. */
  function Lean(t: Table, i: Seat): int {
    if (if t.street == 0 then i != t.dealer else BlindLeads(t.history, t.dealer)) then -50
    else if Limped(t.history) then 0
    else 50
  }

  /** A contribution as the bot has it: no seat has more than the starting stack. */
  function Leaning(lean: int, contrib: int): int {
    Min(STARTING_STACK, contrib + lean)
  }

  /** What the bot takes a seat's contribution for. */
  function Held(t: Table, i: Seat): int {
    if t.bets.Of(i) == ALLIN then STARTING_STACK else Leaning(Lean(t, i), t.contrib.Of(i))
  }

  /** The bot's seating makes no difference: the dealer has called first, and either the big
      blind is all-in before the flop, or it did not make the last raise before the flop. */
  predicate Level(t: Table) {
    Limped(t.history)
    && if t.street == 0 then t.bets.Of(Other(t.dealer)) == ALLIN else !BlindLeads(t.history, t.dealer)
  }

  // ----- the ledger that the bot's seating leads to

  /** What the dealer has put in on earlier streets. */
  function Before(t: Table): int {
    t.contrib.Of(t.dealer) - t.StreetBet(t.dealer)
  }

  /** The same as the bot has it. */
  function Base(t: Table): int {
    if t.street == 0 then 0 else Leaning(Lean(t, t.dealer), Before(t))
  }

  /** A ledger's seat, given the contribution the bot takes it for. */
  ghost predicate SeatHolds(l: Ledger, i: Seat, held: int, base: int, allin: bool) {
    && l.alive.Of(i) && (l.allin.Of(i) <==> allin)
    && l.committed.Of(i) == held && l.stacks.Of(i) == STARTING_STACK - held
    && l.contrib.Of(i) == held - base
  }

  ghost predicate OwnSeat(t: Table, l: Ledger, i: Seat) {
    SeatHolds(l, i, Held(t, i), Base(t), t.bets.Of(i) == ALLIN)
  }

  ghost predicate Own(t: Table, l: Ledger) {
    && l.round == t.street && OwnSeat(t, l, 0) && OwnSeat(t, l, 1)
    && l.roundBet == Max(l.contrib.first, l.contrib.second)
  }

  /** How raises build on each other on a street, while both seats can act. */
  ghost predicate Ladder(t: Table) {
    var mine, last := t.StreetBet(t.toAct), LastRaise(t.history, t.street);
    t.CanAct(Other(t.toAct)) ==>
      if last == 0 then
        t.roundBet == (if t.street == 0 then BIG_BLIND else 0) && t.roundRaise == Max(t.roundBet, BIG_BLIND / 2)
        && (t.street == 0 ==> mine >= 50)
      else
        && t.actionLeft <= 1
        && 0 < last <= t.roundBet == t.roundRaise && t.roundBet >= 2 * mine
        && (if t.street == 0 then mine >= 100 && t.roundBet - last >= 50
            else t.roundBet >= 100 && mine >= 2 * (t.roundBet - last) && (mine == 0 || mine >= 100))
  }

  /** Where a hand stands before the flop. */
  ghost predicate Early(t: Table) {
    && (|t.history| == 0 ==> t == Deal(t.dealer))
    && (t.street == 0 ==> Before(t) == 0)
    && (|t.history| > 0 && t.street == 0 ==>
          && t.actionLeft <= 1
          && (t.CanAct(Other(t.toAct)) ==> (BlindLeads(t.history, t.dealer) <==> t.toAct == t.dealer))
          && (LastRaise(t.history, 0) == 0 && t.CanAct(Other(t.toAct)) ==>
                Limped(t.history) && |t.history| == 1 && t.toAct != t.dealer))
  }

  lemma Appended(history: seq<Record>, r: Record, dealer: Seat)
    ensures |history| > 0 ==> Limped(history + [r]) == Limped(history)
    ensures |history| == 0 ==> Limped(history + [r]) == (r.kind == Call)
    ensures BlindLeads(history + [r], dealer) ==
            if r.round == 0 && r.kind == Raise then r.player != dealer else BlindLeads(history, dealer)
  {
    assert (history + [r])[..|history|] == history;
  }

  // ----- one action: the referee's table and the bot's ledger

  /** The table an action leaves, before the turn passes on. */
  function Placed(t: Table, bet: int): Table
    requires Place(t, bet).Placed?
  {
    Logged(Place(t, bet).table, bet, Place(t, bet).kind)
  }

  /** Nothing but a dealer's opening call changes how the bot leans. */
  lemma LeanKept(t: Table, u: Table, r: Record, i: Seat)
    requires u.dealer == t.dealer && u.street == t.street && u.history == t.history + [r] && r.round == t.street
    requires |t.history| > 0 || r.kind != Call
    ensures Lean(u, i) == Lean(t, i)
  {
    Appended(t.history, r, t.dealer);
  }

  /** What a raise moves at the table. */
  lemma RaiseMoves(t: Table, bet: int)
    requires Live(t) && bet != FOLD && bet != ALLIN && bet != 0 && Place(t, bet).Placed?
    ensures
      var u, me := Placed(t, bet), t.toAct;
      && 0 < bet <= t.chips.Of(me) && t.CanAct(Other(me)) && Place(t, bet).kind == Raise
      && u.dealer == t.dealer && u.street == t.street && u.toAct == me
      && u.history == t.history + [Record(t.street, me, bet, Raise)]
      && u.bets == t.bets.With(me, t.bets.Of(me) + bet) && u.contrib == t.contrib.With(me, t.contrib.Of(me) + bet)
      && u.roundRaise == u.roundBet == t.bets.Of(me) + bet >= 2 * t.roundRaise
  {
    PlaceRaise(t, bet);
  }

  /** What going all-in moves at the table. */
  lemma AllInMoves(t: Table)
    requires Live(t) && Place(t, ALLIN).Placed?
    ensures
      var u, me := Placed(t, ALLIN), t.toAct;
      && Place(t, ALLIN).kind == AllIn
      && u.dealer == t.dealer && u.street == t.street && u.toAct == me
      && u.history == t.history + [Record(t.street, me, ALLIN, AllIn)]
      && u.bets == t.bets.With(me, ALLIN) && u.contrib == t.contrib.With(me, STARTING_STACK)
      && u.allinBets == t.allinBets.With(me, t.StreetBet(me) + t.chips.Of(me))
  {
  }

  /** What a call with chips left over moves at the table. */
  lemma CallMoves(t: Table)
    requires Live(t) && Place(t, 0).Placed? && Place(t, 0).table.chips.Of(t.toAct) > 0
    ensures
      var u, me := Placed(t, 0), t.toAct;
      && Place(t, 0).kind == (if t.StreetBet(me) == t.roundBet then Check else Call)
      && u.dealer == t.dealer && u.street == t.street && u.toAct == me
      && u.history == t.history + [Record(t.street, me, 0, Place(t, 0).kind)]
      && u.bets == t.bets.With(me, t.roundBet) && u.contrib == t.contrib.With(me, t.contrib.Of(Other(me)))
      && u.allinBets == t.allinBets && u.roundBet == t.roundBet && u.roundRaise == t.roundRaise
      && u.actionLeft == t.actionLeft - 1 && t.contrib.Of(Other(me)) < STARTING_STACK
  {
    if t.toAct == 0 {
    } else {
    }
  }

  /** What a record of an acting seat does to the ledger's two seats. */
  lemma LedgerMoves(l: Ledger, r: Record, held: int, other: int, base: int, out: bool)
    requires SeatHolds(l, r.player, held, base, false) && SeatHolds(l, Other(r.player), other, base, out)
    requires held <= STARTING_STACK && r.kind != Fold && l.roundBet == Max(l.contrib.first, l.contrib.second)
    ensures
      var m := ApplyAction(l, r);
      var paid :=
        match r.kind
        case AllIn => STARTING_STACK - held
        case Raise => Max(0, Min(r.action, STARTING_STACK - held))
        case _ => Min(Max(0, other - held), STARTING_STACK - held);
      && SeatHolds(m, r.player, held + paid, base, r.kind == AllIn)
      && SeatHolds(m, Other(r.player), other, base, out)
      && m.round == l.round && m.roundBet == Max(m.contrib.first, m.contrib.second)
  {
    if r.player == 0 {
    } else {
    }
  }

  /** What every action but the opening call leaves alone: the opponent's seat, the
      earlier streets and how the bot leans. */
  ghost predicate Moved(t: Table, u: Table, r: Record) {
    && r.round == t.street && r.player == t.toAct && r.kind != Fold
    && u.dealer == t.dealer && u.street == t.street && u.history == t.history + [r]
    && u.bets.Of(Other(t.toAct)) == t.bets.Of(Other(t.toAct))
    && u.contrib.Of(Other(t.toAct)) == t.contrib.Of(Other(t.toAct))
    && (u.bets.Of(t.toAct) == ALLIN <==> r.kind == AllIn)
    && Before(u) == Before(t)
  }

  lemma MovedKeeps(t: Table, u: Table, r: Record)
    requires Moved(t, u, r) && (|t.history| > 0 || r.kind != Call)
    ensures Base(u) == Base(t) && Held(u, Other(t.toAct)) == Held(t, Other(t.toAct))
    ensures Lean(u, t.toAct) == Lean(t, t.toAct)
  {
    LeanKept(t, u, r, t.toAct);
    LeanKept(t, u, r, Other(t.toAct));
    LeanKept(t, u, r, t.dealer);
  }

  /** Both seats of the new ledger show the new table, if the acting seat is paid right. */
  lemma OwnMoved(t: Table, u: Table, l: Ledger, r: Record)
    requires CanPay(t, l) && Moved(t, u, r) && (|t.history| > 0 || r.kind != Call)
    requires
      var held := Held(t, t.toAct);
      Held(u, t.toAct) ==
        match r.kind
        case AllIn => STARTING_STACK
        case Raise => held + Max(0, Min(r.action, STARTING_STACK - held))
        case _ => held + Min(Max(0, Held(t, Other(t.toAct)) - held), STARTING_STACK - held)
    ensures Own(u, ApplyAction(l, r))
  {
    MovedKeeps(t, u, r);
    LedgerMoves(l, r, Held(t, t.toAct), Held(t, Other(t.toAct)), Base(t), t.bets.Of(Other(t.toAct)) == ALLIN);
    if t.toAct == 0 {
    } else {
    }
  }

  ghost predicate CanPay(t: Table, l: Ledger) {
    Own(t, l) && t.CanAct(t.toAct) && Held(t, t.toAct) <= STARTING_STACK
  }

  lemma RaiseIsMove(t: Table, bet: int)
    requires Live(t) && bet != FOLD && bet != ALLIN && bet != 0 && Place(t, bet).Placed?
    ensures
      var u, r := Placed(t, bet), Published(t, bet);
      Moved(t, u, r) && r.kind == Raise && r.action == bet && t.CanAct(t.toAct)
      && u.contrib.Of(t.toAct) == t.contrib.Of(t.toAct) + bet && 0 < bet <= STARTING_STACK - t.contrib.Of(t.toAct)
  {
    RaiseMoves(t, bet);
  }

  lemma OwnRaised(t: Table, u: Table, l: Ledger, r: Record)
    requires CanPay(t, l) && Moved(t, u, r) && r.kind == Raise
    requires u.contrib.Of(t.toAct) == t.contrib.Of(t.toAct) + r.action
    requires 0 < r.action <= STARTING_STACK - t.contrib.Of(t.toAct)
    ensures Own(u, ApplyAction(l, r))
  {
    MovedKeeps(t, u, r);
    OwnMoved(t, u, l, r);
  }

  lemma OwnRaise(t: Table, l: Ledger, bet: int)
    requires Live(t) && Own(t, l) && bet != FOLD && bet != ALLIN && bet != 0 && Place(t, bet).Placed?
    ensures Own(Placed(t, bet), ApplyAction(l, Published(t, bet)))
  {
    RaiseIsMove(t, bet);
    OwnRaised(t, Placed(t, bet), l, Published(t, bet));
  }

  lemma OwnAllIn(t: Table, l: Ledger)
    requires Live(t) && Own(t, l) && Place(t, ALLIN).Placed?
    ensures Own(Placed(t, ALLIN), ApplyAction(l, Published(t, ALLIN)))
  {
    AllInMoves(t);
    OwnMoved(t, Placed(t, ALLIN), l, Published(t, ALLIN));
  }

  lemma CallIsMove(t: Table)
    requires Live(t) && Place(t, 0).Placed? && Place(t, 0).table.chips.Of(t.toAct) > 0
    ensures
      var u, r := Placed(t, 0), Published(t, 0);
      Moved(t, u, r) && r.kind == (if t.StreetBet(t.toAct) == t.roundBet then Check else Call) && t.CanAct(t.toAct)
      && u.contrib.Of(t.toAct) == t.contrib.Of(Other(t.toAct)) < STARTING_STACK
      && u.contrib.Of(t.toAct) >= t.contrib.Of(t.toAct)
  {
    CallMoves(t);
  }

  /** A call after the flop: both seats are off alike. */
  lemma OwnCalled(t: Table, u: Table, l: Ledger, r: Record)
    requires CanPay(t, l) && Moved(t, u, r) && (r.kind == Check || r.kind == Call)
    requires t.street > 0 && |t.history| > 0 && t.CanAct(Other(t.toAct))
    requires u.contrib.Of(t.toAct) == t.contrib.Of(Other(t.toAct)) >= t.contrib.Of(t.toAct)
    ensures Own(u, ApplyAction(l, r))
  {
    MovedKeeps(t, u, r);
    OwnMoved(t, u, l, r);
  }

  /** The dealer opens with a call, which in the bot's replay costs nothing. */
  lemma OwnLimp(t: Table, l: Ledger)
    requires t == Deal(t.dealer) && Own(t, l)
    ensures Place(t, 0).Placed? && Own(Placed(t, 0), ApplyAction(l, Published(t, 0)))
  {
    DealIsLive(t.dealer);
    CallMoves(t);
    LedgerMoves(l, Published(t, 0), 100, 50, 0, false);
    if t.dealer == 0 {
    } else {
    }
  }

  // ----- one action: the turn passes, or a street opens

  /** A street that both seats can play, opened with level contributions. */
  ghost predicate Opened(v: Table, u: Table) {
    && u.street == v.street + 1 && u.dealer == v.dealer && u.history == v.history && u.bets == Both(0, 0)
    && u.contrib == v.contrib && u.contrib.first == u.contrib.second
  }

  /** Both seats enter the street with the same chips in the bot's ledger. */
  lemma OwnOpened(u: Table, m: Ledger, held: int)
    requires u.bets == Both(0, 0) && u.contrib.first == u.contrib.second && u.street > 0 && m.round != u.street
    requires held == Leaning(Lean(u, u.dealer), u.contrib.first)
    requires m.committed == Both(held, held) && m.stacks == Both(STARTING_STACK - held, STARTING_STACK - held)
    requires m.alive == Both(true, true) && m.allin == Both(false, false)
    ensures Own(u, EnterRound(m, u.street))
  {
  }

  lemma OwnNextStreet(v: Table, u: Table, m: Ledger)
    requires Own(v, m) && Opened(v, u) && v.street > 0 && v.CanAct(0) && v.CanAct(1)
    ensures Own(u, EnterRound(m, u.street))
  {
    OwnOpened(u, m, Leaning(Lean(u, u.dealer), u.contrib.first));
  }

  /** The call that ends the betting before the flop: whoever raised last decides how
      far the bot is off from here on. */
  lemma CallHeld(t: Table, u: Table, r: Record)
    requires Live(t) && Ladder(t) && Early(t) && t.street == 0 && |t.history| > 0 && t.CanAct(Other(t.toAct))
    requires u.street > 0 && u.dealer == t.dealer && u.history == t.history + [r] && r.round == 0 && r.kind != Raise
    ensures
      var held, other := Held(t, t.toAct), Held(t, Other(t.toAct));
      held <= other == Leaning(Lean(u, u.dealer), t.contrib.Of(Other(t.toAct))) <= STARTING_STACK
  {
    Appended(t.history, r, t.dealer);
  }

  lemma OwnFlop(t: Table, u: Table, l: Ledger, r: Record)
    requires Live(t) && Own(t, l) && Ladder(t) && Early(t) && t.street == 0 && |t.history| > 0
    requires t.CanAct(Other(t.toAct)) && (r.kind == Call || r.kind == Check) && r.player == t.toAct && r.round == 0
    requires u.street > 0 && u.dealer == t.dealer && u.history == t.history + [r] && u.bets == Both(0, 0)
    requires u.contrib.first == u.contrib.second == t.contrib.Of(Other(t.toAct))
    ensures Own(u, EnterRound(ApplyAction(l, r), u.street))
  {
    var held, other := Held(t, t.toAct), Held(t, Other(t.toAct));
    CallHeld(t, u, r);
    LedgerMoves(l, r, held, other, 0, false);
    if t.toAct == 0 {
      OwnOpened(u, ApplyAction(l, r), other);
    } else {
      OwnOpened(u, ApplyAction(l, r), other);
    }
  }

  /** What both calls and closed streets have in common. */
  lemma CallOpens(t: Table)
    requires Live(t) && Act(t, 0).Continue?
    ensures
      var v, u := Placed(t, 0), Act(t, 0).next;
      && Place(t, 0).table.chips.Of(t.toAct) > 0 && t.CanAct(Other(t.toAct))
      && u.history == v.history && u.contrib == v.contrib && u.dealer == v.dealer && v.street == t.street
      && (if Closes(v) then Opened(v, u) && v.CanAct(0) && v.CanAct(1) && u.roundBet == 0 && u.roundRaise == 50
          else u == v.(toAct := Other(t.toAct)))
  {
    ActionShape(t, 0);
    ExactCallEnds(t);
    CallMoves(t);
    AdvanceShows(Placed(t, 0));
    if t.toAct == 0 {
    } else {
    }
  }

  lemma CallCloses(t: Table)
    requires Live(t) && Act(t, 0).Continue?
    ensures Closes(Placed(t, 0)) <==> t.actionLeft <= 1
  {
    CallOpens(t);
    CallMoves(t);
    if t.toAct == 0 {
    } else {
    }
  }

  /** After a raise or an all-in that leaves the hand open, it is the opponent's turn. */
  lemma BetPasses(t: Table, bet: int)
    requires Live(t) && bet != 0 && Act(t, bet).Continue?
    ensures bet != FOLD && Act(t, bet).next == Placed(t, bet).(toAct := Other(t.toAct))
  {
    ActionShape(t, bet);
    AdvanceShows(Placed(t, bet));
    if bet == ALLIN {
      AllInMoves(t);
    } else {
      RaiseMoves(t, bet);
    }
  }

  lemma OwnCallStep(t: Table, m: Ledger)
    requires Live(t) && Own(t, m) && Ladder(t) && Early(t) && Act(t, 0).Continue?
    ensures Own(Act(t, 0).next, EnterRound(ApplyAction(m, Published(t, 0)), Act(t, 0).next.street))
  {
    CallOpens(t);
    CallIsMove(t);
    CallCloses(t);
    if |t.history| == 0 && t.street == 0 {
      OwnLimp(t, m);
    } else if t.street == 0 {
      CallMoves(t);
      OwnFlop(t, Act(t, 0).next, m, Published(t, 0));
    } else {
      OwnCalled(t, Placed(t, 0), m, Published(t, 0));
      OwnCalledOn(t, ApplyAction(m, Published(t, 0)));
    }
  }

  lemma OwnCalledOn(t: Table, m: Ledger)
    requires Live(t) && Act(t, 0).Continue? && Own(Placed(t, 0), m) && t.street > 0
    ensures Own(Act(t, 0).next, EnterRound(m, Act(t, 0).next.street))
  {
    CallOpens(t);
    if Closes(Placed(t, 0)) {
      OwnNextStreet(Placed(t, 0), Act(t, 0).next, m);
    } else {
      OwnTurn(Placed(t, 0), Act(t, 0).next, m);
    }
  }

  lemma OwnTurn(v: Table, u: Table, m: Ledger)
    requires Own(v, m) && u == v.(toAct := u.toAct)
    ensures Own(u, EnterRound(m, u.street))
  {
    assert Lean(u, 0) == Lean(v, 0) && Lean(u, 1) == Lean(v, 1);
  }

  lemma OwnBetStep(t: Table, m: Ledger, bet: int)
    requires Live(t) && Own(t, m) && bet != 0 && Act(t, bet).Continue?
    ensures Own(Act(t, bet).next, EnterRound(ApplyAction(m, Published(t, bet)), Act(t, bet).next.street))
  {
    BetPasses(t, bet);
    if bet == ALLIN {
      OwnAllIn(t, m);
    } else {
      OwnRaise(t, m, bet);
    }
    OwnTurn(Placed(t, bet), Act(t, bet).next, ApplyAction(m, Published(t, bet)));
  }

  lemma OwnStep(t: Table, l: Ledger, bet: int)
    requires Live(t) && Own(t, EnterRound(l, t.street)) && Ladder(t) && Early(t) && Act(t, bet).Continue?
    ensures Own(Act(t, bet).next, EnterRound(ApplyRecord(l, Published(t, bet)), Act(t, bet).next.street))
  {
    if bet == 0 {
      OwnCallStep(t, EnterRound(l, t.street));
    } else {
      OwnBetStep(t, EnterRound(l, t.street), bet);
    }
  }

  // ----- the bets of a street

  lemma LadderRaise(t: Table, bet: int)
    requires Live(t) && Ladder(t) && Act(t, bet).Continue? && bet != 0 && bet != ALLIN
    ensures Ladder(Act(t, bet).next)
  {
    BetPasses(t, bet);
    RaiseMoves(t, bet);
    LastRaiseAppend(t.history, Published(t, bet));
  }

  lemma LadderCall(t: Table)
    requires Live(t) && Ladder(t) && Act(t, 0).Continue?
    ensures Ladder(Act(t, 0).next)
  {
    CallOpens(t);
    CallCloses(t);
    CallMoves(t);
    LastRaiseAppend(t.history, Published(t, 0));
  }

  lemma LadderStep(t: Table, bet: int)
    requires Live(t) && Ladder(t) && Act(t, bet).Continue?
    ensures Ladder(Act(t, bet).next)
  {
    if bet == 0 {
      LadderCall(t);
    } else if bet == ALLIN {
      BetPasses(t, bet);
      AllInMoves(t);
    } else {
      LadderRaise(t, bet);
    }
  }

  lemma EarlyRaise(t: Table, bet: int)
    requires Live(t) && Early(t) && Act(t, bet).Continue? && bet != 0 && bet != ALLIN
    ensures Early(Act(t, bet).next)
  {
    BetPasses(t, bet);
    RaiseMoves(t, bet);
    PlaceRaise(t, bet);
    LastRaiseAppend(t.history, Published(t, bet));
    Appended(t.history, Published(t, bet), t.dealer);
  }

  lemma EarlyCall(t: Table)
    requires Live(t) && Early(t) && Act(t, 0).Continue?
    ensures Early(Act(t, 0).next)
  {
    CallOpens(t);
    CallCloses(t);
    CallMoves(t);
    LastRaiseAppend(t.history, Published(t, 0));
    Appended(t.history, Published(t, 0), t.dealer);
  }

  lemma EarlyStep(t: Table, bet: int)
    requires Live(t) && Early(t) && Act(t, bet).Continue?
    ensures Early(Act(t, bet).next)
  {
    if bet == 0 {
      EarlyCall(t);
    } else if bet == ALLIN {
      BetPasses(t, bet);
      AllInMoves(t);
      PlaceAllIn(t);
    } else {
      EarlyRaise(t, bet);
    }
  }

  // ----- the smallest raise, with the bot's own chips

  /** The bot tracks the size of the last raise, cut to the chips it took the raiser to have. */
  ghost predicate OwnSteps(t: Table, l: Ledger) {
    var last, you := LastRaise(t.history, t.street), Other(t.toAct);
    t.CanAct(you) ==>
      && l.raiseStep <= t.roundRaise
      && (last == 0 ==> l.raiseStep == if t.street == 0 then BIG_BLIND else SMALL_BLIND)
      && (last > 0 ==>
            Min(last, STARTING_STACK - Max(Lean(t, you), 0) - (t.contrib.Of(you) - last)) <= l.raiseStep <= last)
      && (last > 0 && t.street > 0 && t.contrib.Of(you) + Lean(t, you) > STARTING_STACK ==> l.raiseStep < last)
  }

  lemma OwnRaiseStep(t: Table, m: Ledger, r: Record)
    requires Live(t) && Own(t, m) && r.player == t.toAct && r.kind == Raise && r.action > 0
    ensures ApplyAction(m, r).raiseStep ==
            Max(m.raiseStep, Min(r.action, STARTING_STACK - Leaning(Lean(t, t.toAct), t.contrib.Of(t.toAct))))
  {
    if t.toAct == 0 {
    } else {
    }
  }

  lemma OwnStepsRaised(t: Table, u: Table, r: Record, m: Ledger, step: int)
    requires Moved(t, u, r) && u.toAct == Other(t.toAct) && r.kind == Raise && r.action > 0
    requires step <= r.action <= u.roundRaise && m.raiseStep <= r.action
    requires t.street > 0 ==> step < r.action
    requires u.contrib.Of(t.toAct) == t.contrib.Of(t.toAct) + r.action
    requires m.raiseStep == Max(step, Min(r.action, STARTING_STACK - Leaning(Lean(t, t.toAct), t.contrib.Of(t.toAct))))
    ensures OwnSteps(u, m)
  {
    LastRaiseAppend(t.history, r);
    LeanKept(t, u, r, t.toAct);
  }

  /** A raise at least doubles the bet, so it is never below the step before it. */
  lemma RaiseOutgrows(t: Table, bet: int)
    requires Live(t) && bet != 0 && bet != ALLIN && Act(t, bet).Continue?
    ensures t.roundRaise <= bet <= Placed(t, bet).roundRaise && t.CanAct(Other(t.toAct))
    ensures Ladder(t) && t.street > 0 ==> t.roundRaise < bet
  {
    BetPasses(t, bet);
    RaiseMoves(t, bet);
  }

  lemma OwnStepsRaise(t: Table, m: Ledger, bet: int)
    requires Live(t) && Own(t, m) && OwnSteps(t, m) && Ladder(t)
    requires bet != 0 && bet != ALLIN && Act(t, bet).Continue?
    ensures OwnSteps(Placed(t, bet).(toAct := Other(t.toAct)), ApplyAction(m, Published(t, bet)))
  {
    RaiseOutgrows(t, bet);
    BetPasses(t, bet);
    RaiseIsMove(t, bet);
    OwnRaiseStep(t, m, Published(t, bet));
    OwnStepsRaised(t, Placed(t, bet).(toAct := Other(t.toAct)), Published(t, bet), ApplyAction(m, Published(t, bet)),
                   m.raiseStep);
  }

  /** A check that leaves the street open leaves the step. */
  lemma OwnStepsQuiet(t: Table, u: Table, m: Ledger, n: Ledger, r: Record)
    requires OwnSteps(t, m) && Ladder(t) && t.actionLeft > 1 && t.CanAct(Other(t.toAct))
    requires u.history == t.history + [r] && r.round == u.street == t.street && r.kind != Raise
    requires u.roundRaise == t.roundRaise && n.raiseStep == m.raiseStep
    ensures OwnSteps(u, n)
  {
    LastRaiseAppend(t.history, r);
  }

  lemma OwnStepsFresh(u: Table, m: Ledger)
    requires |u.history| > 0 && u.history[|u.history| - 1].round != u.street && m.round != u.street
    requires u.roundRaise == SMALL_BLIND && u.street > 0
    ensures OwnSteps(u, EnterRound(m, u.street))
  {
  }

  lemma QuietStep(m: Ledger, r: Record)
    requires r.kind == Call || r.kind == Check
    ensures ApplyAction(m, r).raiseStep == m.raiseStep && ApplyAction(m, r).round == m.round
  {
  }

  lemma OwnStepsCall(t: Table, m: Ledger)
    requires Live(t) && m.round == t.street && OwnSteps(t, m) && Ladder(t) && Act(t, 0).Continue?
    ensures OwnSteps(Act(t, 0).next, EnterRound(ApplyAction(m, Published(t, 0)), Act(t, 0).next.street))
  {
    CallOpens(t);
    CallCloses(t);
    CallMoves(t);
    QuietStep(m, Published(t, 0));
    if Closes(Placed(t, 0)) {
      OwnStepsFresh(Act(t, 0).next, ApplyAction(m, Published(t, 0)));
    } else {
      OwnStepsQuiet(t, Act(t, 0).next, m, ApplyAction(m, Published(t, 0)), Published(t, 0));
    }
  }

  lemma OwnStepsBet(t: Table, m: Ledger, bet: int)
    requires Live(t) && Own(t, m) && OwnSteps(t, m) && Ladder(t) && bet != 0 && Act(t, bet).Continue?
    ensures OwnSteps(Act(t, bet).next, EnterRound(ApplyAction(m, Published(t, bet)), Act(t, bet).next.street))
  {
    BetPasses(t, bet);
    if bet == ALLIN {
      AllInMoves(t);
    } else {
      RaiseMoves(t, bet);
      OwnStepsRaise(t, m, bet);
    }
  }

  lemma OwnStepsStep(t: Table, l: Ledger, bet: int)
    requires Live(t) && Own(t, EnterRound(l, t.street)) && OwnSteps(t, EnterRound(l, t.street)) && Ladder(t)
    requires Act(t, bet).Continue?
    ensures OwnSteps(Act(t, bet).next, EnterRound(ApplyRecord(l, Published(t, bet)), Act(t, bet).next.street))
  {
    if bet == 0 {
      OwnStepsCall(t, EnterRound(l, t.street));
    } else {
      OwnStepsBet(t, EnterRound(l, t.street), bet);
    }
  }

  // ----- whole hands

  /** What the bot's own replay has to do with the referee's table. */
  ghost predicate Seated(t: Table) {
    && Live(t) && Ladder(t) && Early(t)
    && Own(t, EnterRound(Replay(BotSmallBlind(t.dealer), t.history), t.street))
    && OwnSteps(t, EnterRound(Replay(BotSmallBlind(t.dealer), t.history), t.street))
  }

  /** The blinds as the bot posts them. */
  lemma OwnDeal(dealer: Seat)
    ensures Seated(Deal(dealer))
  {
  }

  lemma SeatedStep(t: Table, bet: int)
    requires Seated(t) && Act(t, bet).Continue?
    ensures Seated(Act(t, bet).next)
  {
    ActionShape(t, bet);
    OwnStep(t, Replay(BotSmallBlind(t.dealer), t.history), bet);
    OwnStepsStep(t, Replay(BotSmallBlind(t.dealer), t.history), bet);
    LadderStep(t, bet);
    EarlyStep(t, bet);
    ReplayAppend(BotSmallBlind(t.dealer), t.history, Published(t, bet));
  }

  lemma {:induction false} SeatedRun(t: Table, bets: seq<int>)
    requires Seated(t) && Play(t, bets).Continue?
    ensures Seated(Play(t, bets).next) && Play(t, bets).next.dealer == t.dealer
    decreases |bets|
  {
    if |bets| > 0 {
      PlayStep(t, bets);
      SeatedStep(t, bets[0]);
      SeatedRun(Act(t, bets[0]).next, bets[1..]);
    }
  }

  lemma SeatedPlay(dealer: Seat, bets: seq<int>)
    requires Play(Deal(dealer), bets).Continue?
    ensures Seated(Play(Deal(dealer), bets).next) && Play(Deal(dealer), bets).next.dealer == dealer
  {
    OwnDeal(dealer);
    DealIsLive(dealer);
    SeatedRun(Deal(dealer), bets);
  }

  /** The chips by which the bot is off at a seat: the side that raised last before the
      flop and the dealer's first action decide it for the whole hand. */
  function Offset(t: Table, i: Seat): int {
    if t.bets.Of(i) == ALLIN then 0
    else if Lean(t, i) < 0 then -50
    else Min(Lean(t, i), t.chips.Of(i))
  }

  lemma OffsetIsHeld(t: Table, i: Seat)
    requires Live(t)
    ensures Held(t, i) == t.contrib.Of(i) + Offset(t, i)
  {
    if t.toAct == 0 {
    } else {
    }
  }

  /** What the bot decides on, while it can act. */
  lemma Observed(ledger: Ledger, l: Ledger, me: Seat, street: int, s: State)
    requires l == EnterRound(ledger, street) && 0 <= street <= RIVER && s == Observe(ledger, me, PublicCards(street))
    requires l.alive == Both(true, true) && !l.allin.Of(me) && l.contrib.Of(me) >= 0
    ensures s.round == street && s.committed == l.committed && s.stacks == l.stacks
    ensures s.opponentAllin <==> l.allin.Of(Other(me))
    ensures s.toCall == Max(0, l.roundBet - l.contrib.Of(me))
    ensures s.minRaise == Max(0, 2 * l.raiseStep - l.contrib.Of(me))
  {
  }

  lemma OwnActs(t: Table, l: Ledger)
    requires Live(t) && Own(t, l)
    ensures l.alive == Both(true, true) && !l.allin.Of(t.toAct)
    ensures l.allin.Of(Other(t.toAct)) <==> !t.CanAct(Other(t.toAct))
  {
    if t.toAct == 0 {
    } else {
    }
  }

  lemma OwnOffsets(t: Table, l: Ledger)
    requires Live(t) && Own(t, l)
    ensures l.committed == Both(t.contrib.first + Offset(t, 0), t.contrib.second + Offset(t, 1))
    ensures l.stacks == Both(t.chips.first - Offset(t, 0), t.chips.second - Offset(t, 1))
  {
    OffsetIsHeld(t, 0);
    OffsetIsHeld(t, 1);
  }

  lemma SeatedObserved(t: Table, l: Ledger, s: State)
    requires Seated(t) && l == EnterRound(Replay(BotSmallBlind(t.dealer), t.history), t.street)
    requires s == Observe(Replay(BotSmallBlind(t.dealer), t.history), t.toAct, PublicCards(t.street))
    ensures s.committed == l.committed && s.stacks == l.stacks
    ensures s.opponentAllin <==> !t.CanAct(Other(t.toAct))
    ensures s.toCall == Max(0, l.roundBet - l.contrib.Of(t.toAct))
    ensures s.minRaise == Max(0, 2 * l.raiseStep - l.contrib.Of(t.toAct))
  {
    var ledger := Replay(BotSmallBlind(t.dealer), t.history);
    ReplayBalances(BotSmallBlind(t.dealer), t.history, t.street);
    OwnActs(t, l);
    Observed(ledger, l, t.toAct, t.street, s);
  }

  lemma LevelIff(t: Table, l: Ledger)
    requires Live(t) && Early(t) && Own(t, l)
    ensures Agrees(t, l) <==> Level(t)
  {
    OffsetIsHeld(t, 0);
    OffsetIsHeld(t, 1);
    if Level(t) {
    } else {
    }
  }

  lemma LevelIsNoOffset(t: Table)
    requires Live(t)
    ensures Level(t) <==> Offset(t, 0) == 0 && Offset(t, 1) == 0
  {
    if Level(t) {
    } else {
    }
  }

  /** The bot's chips on the platform. */
  ghost predicate OffsetsShown(t: Table, s: State) {
    && s.committed == Both(t.contrib.first + Offset(t, 0), t.contrib.second + Offset(t, 1))
    && s.stacks == Both(t.chips.first - Offset(t, 0), t.chips.second - Offset(t, 1))
  }

  lemma SeatedOffsets(t: Table, l: Ledger, s: State)
    requires Live(t) && Own(t, l) && s.committed == l.committed && s.stacks == l.stacks
    ensures OffsetsShown(t, s)
  {
    OwnOffsets(t, l);
  }

  lemma SeatedIsExact(t: Table, s: State)
    requires Seated(t) && s == Observe(Replay(BotSmallBlind(t.dealer), t.history), t.toAct, PublicCards(t.street))
    ensures OffsetsShown(t, s)
    ensures Replays(t, BotSmallBlind(t.dealer)) <==> Level(t)
  {
    var l := EnterRound(Replay(BotSmallBlind(t.dealer), t.history), t.street);
    SeatedObserved(t, l, s);
    SeatedOffsets(t, l, s);
    LevelIff(t, l);
  }

  /** Over every run on the platform, with the bot's own seat for the small blind: each
      seat's chips are off by the offset. */
  lemma OffsetsAreExact(dealer: Seat, bets: seq<int>, t: Table)
    requires Play(Deal(dealer), bets) == Continue(t)
    ensures OffsetsShown(t, Observe(Replay(BotSmallBlind(dealer), t.history), t.toAct, PublicCards(t.street)))
    ensures Level(t) <==> Offset(t, 0) == 0 && Offset(t, 1) == 0
  {
    SeatedPlay(dealer, bets);
    SeatedIsExact(t, Observe(Replay(BotSmallBlind(dealer), t.history), t.toAct, PublicCards(t.street)));
    LevelIsNoOffset(t);
  }

  /** Over every run and for either seat taken as the small blind: the bot's reconstruction
      from the published history is the referee's own state exactly if that seat is the
      dealer or the table is level. */
  lemma SeatingIsExact(dealer: Seat, bets: seq<int>, t: Table, sb: Seat)
    requires Play(Deal(dealer), bets) == Continue(t)
    ensures Replays(t, sb) <==> sb == dealer || Level(t)
    ensures Faithful(t, Observe(Replay(sb, t.history), t.toAct, PublicCards(t.street))) <==> sb == dealer || Level(t)
  {
    ReplayIsFaithful(dealer, bets);
    if sb != dealer {
      assert sb == BotSmallBlind(dealer);
      SeatedPlay(dealer, bets);
      SeatedIsExact(t, Observe(Replay(sb, t.history), t.toAct, PublicCards(t.street)));
      OffsetsAreExact(dealer, bets, t);
      if Level(t) {
        ReplaysAreFaithful(t, sb);
      }
    }
  }

  // ----- when the bot's raises are legal

  /** Before the flop: at the first decision the bot takes a raise that is too small for
      legal, at a limped one it does not, and after a raise it always does. */
  lemma LeastEarly(t: Table, l: Ledger, s: State)
    requires Live(t) && Ladder(t) && Early(t) && Own(t, l) && OwnSteps(t, l) && t.CanAct(Other(t.toAct))
    requires s.toCall == Max(0, l.roundBet - l.contrib.Of(t.toAct))
    requires s.minRaise == Max(0, 2 * l.raiseStep - l.contrib.Of(t.toAct))
    requires t.street == 0
    ensures 2 * t.roundRaise - t.StreetBet(t.toAct) <= LeastSanitized(s)
       <==> LastRaise(t.history, 0) == 0 && |t.history| > 0
    ensures LastRaise(t.history, 0) != t.roundBet
    ensures |t.history| == 0 ==> LastRaise(t.history, 0) == 0
  {
    if t.toAct == 0 {
    } else {
    }
  }

  /** The chips on a later street: either the raiser was taken to have enough, and the step
      is its raise, or the other seat has no chips left for a larger one. */
  lemma LeastByChips(before: int, lean: int, mine: int, bet: int, last: int, step: int)
    requires -50 <= lean <= 50 && 0 <= before && before + bet <= STARTING_STACK
    requires 0 < last <= bet && bet >= 100 && bet >= 2 * mine && mine >= 2 * (bet - last) && (mine == 0 || mine >= 100)
    requires Min(last, STARTING_STACK - Max(lean, 0) - (before + bet - last)) <= step <= last
    ensures
      var own := Leaning(lean, before + mine) - Leaning(lean, before);
      var call := Max(0, Leaning(lean, before + bet) - Leaning(lean, before + mine));
      var least, chips := Max(Max(0, 2 * step - own), call + 1), STARTING_STACK - before - mine;
      chips <= least || 2 * bet - mine <= least <==> chips <= least || last == bet
  {
  }

  lemma LateParts(t: Table, l: Ledger)
    requires Live(t) && Own(t, l) && t.CanAct(Other(t.toAct)) && t.street > 0
    ensures
      var me, lean, mine := t.toAct, Lean(t, t.toAct), t.StreetBet(t.toAct);
      && Lean(t, Other(me)) == lean && -50 <= lean <= 50
      && Before(t) + mine == t.contrib.Of(me) && Before(t) + t.roundBet == t.contrib.Of(Other(me))
      && l.contrib.Of(me) == Leaning(lean, Before(t) + mine) - Leaning(lean, Before(t))
      && l.roundBet == Leaning(lean, Before(t) + t.roundBet) - Leaning(lean, Before(t))
      && t.chips.Of(me) == STARTING_STACK - Before(t) - mine && Before(t) >= 0
  {
    if t.toAct == 0 {
    } else {
    }
  }

  lemma LeastRaised(t: Table, l: Ledger, s: State, last: int)
    requires Live(t) && Ladder(t) && Own(t, l) && OwnSteps(t, l) && t.CanAct(Other(t.toAct)) && t.street > 0
    requires s.toCall == Max(0, l.roundBet - l.contrib.Of(t.toAct))
    requires s.minRaise == Max(0, 2 * l.raiseStep - l.contrib.Of(t.toAct))
    requires last == LastRaise(t.history, t.street) != 0
    ensures
      var chips, least := t.chips.Of(t.toAct), LeastSanitized(s);
      chips <= least || 2 * t.roundRaise - t.StreetBet(t.toAct) <= least <==> chips <= least || last == t.roundBet
  {
    LateParts(t, l);
    LeastByChips(Before(t), Lean(t, t.toAct), t.StreetBet(t.toAct), t.roundBet, last, l.raiseStep);
  }

  lemma LeastUnraised(t: Table, l: Ledger, s: State)
    requires Live(t) && Ladder(t) && Own(t, l) && OwnSteps(t, l) && t.CanAct(Other(t.toAct)) && t.street > 0
    requires s.minRaise == Max(0, 2 * l.raiseStep - l.contrib.Of(t.toAct))
    requires LastRaise(t.history, t.street) == 0
    ensures 2 * t.roundRaise - t.StreetBet(t.toAct) <= LeastSanitized(s)
  {
    LateParts(t, l);
  }

  lemma LeastLate(t: Table, l: Ledger, s: State)
    requires Live(t) && Ladder(t) && Own(t, l) && OwnSteps(t, l) && t.CanAct(Other(t.toAct)) && t.street > 0
    requires s.toCall == Max(0, l.roundBet - l.contrib.Of(t.toAct))
    requires s.minRaise == Max(0, 2 * l.raiseStep - l.contrib.Of(t.toAct))
    ensures
      var last, chips, least := LastRaise(t.history, t.street), t.chips.Of(t.toAct), LeastSanitized(s);
      chips <= least || 2 * t.roundRaise - t.StreetBet(t.toAct) <= least
      <==> chips <= least || last == 0 || last == t.roundBet
  {
    if LastRaise(t.history, t.street) == 0 {
      LeastUnraised(t, l, s);
    } else {
      LeastRaised(t, l, s, LastRaise(t.history, t.street));
    }
  }

  /** At a table and the bot's own ledger of it. */
  lemma LegalOwn(t: Table, l: Ledger, s: State)
    requires Live(t) && Ladder(t) && Early(t) && Own(t, l) && OwnSteps(t, l)
    requires s.opponentAllin <==> !t.CanAct(Other(t.toAct))
    requires s.toCall == Max(0, l.roundBet - l.contrib.Of(t.toAct))
    requires s.minRaise == Max(0, 2 * l.raiseStep - l.contrib.Of(t.toAct))
    ensures
      var last := LastRaise(t.history, t.street);
      SanitizedAreLegal(t, s)
      <==> !t.CanAct(Other(t.toAct)) || t.chips.Of(t.toAct) <= LeastSanitized(s)
           || ((last == 0 || last == t.roundBet) && |t.history| > 0)
  {
    LegalIffLeast(t, s);
    if t.CanAct(Other(t.toAct)) {
      if t.street == 0 {
        LeastEarly(t, l, s);
      } else {
        LeastLate(t, l, s);
      }
    }
  }

  lemma LegalSeated(t: Table, s: State)
    requires Seated(t) && s == Observe(Replay(BotSmallBlind(t.dealer), t.history), t.toAct, PublicCards(t.street))
    ensures
      var last := LastRaise(t.history, t.street);
      SanitizedAreLegal(t, s)
      <==> !t.CanAct(Other(t.toAct)) || t.chips.Of(t.toAct) <= LeastSanitized(s)
           || ((last == 0 || last == t.roundBet) && |t.history| > 0)
  {
    var l := EnterRound(Replay(BotSmallBlind(t.dealer), t.history), t.street);
    SeatedObserved(t, l, s);
    LegalOwn(t, l, s);
  }

  lemma LegalDealer(dealer: Seat, bets: seq<int>, t: Table, s: State)
    requires Play(Deal(dealer), bets) == Continue(t)
    requires s == Observe(Replay(dealer, t.history), t.toAct, PublicCards(t.street))
    ensures
      var last := LastRaise(t.history, t.street);
      SanitizedAreLegal(t, s)
      <==> !t.CanAct(Other(t.toAct)) || t.chips.Of(t.toAct) <= LeastSanitized(s) || last == 0 || last == t.roundBet
  {
    DealIsLive(dealer);
    EveryRun(Deal(dealer), bets);
    RunReplays(Deal(dealer), bets, dealer);
    RunSteps(Deal(dealer), bets, dealer);
    LegalWithDealer(t, s, dealer);
  }

  lemma LegalBot(dealer: Seat, bets: seq<int>, t: Table, s: State)
    requires Play(Deal(dealer), bets) == Continue(t)
    requires s == Observe(Replay(BotSmallBlind(dealer), t.history), t.toAct, PublicCards(t.street))
    ensures
      var last := LastRaise(t.history, t.street);
      SanitizedAreLegal(t, s)
      <==> !t.CanAct(Other(t.toAct)) || t.chips.Of(t.toAct) <= LeastSanitized(s)
           || ((last == 0 || last == t.roundBet) && |t.history| > 0)
  {
    SeatedPlay(dealer, bets);
    LegalSeated(t, s);
  }

  /** For either seat taken as the small blind, and over every run: the bot's sanitized
      raises are all legal exactly when the opponent is all-in, or the bot has too few chips
      to make a raise of the size it believes in, or the street's last raise was made from
      nothing and it is not the first decision of a hand with the wrong seat. */
  lemma SanitizedRaisesAreLegal(dealer: Seat, bets: seq<int>, t: Table, sb: Seat)
    requires Play(Deal(dealer), bets) == Continue(t)
    ensures
      var s := Observe(Replay(sb, t.history), t.toAct, PublicCards(t.street));
      var last := LastRaise(t.history, t.street);
      SanitizedAreLegal(t, s)
      <==> !t.CanAct(Other(t.toAct)) || t.chips.Of(t.toAct) <= LeastSanitized(s)
           || ((last == 0 || last == t.roundBet) && (sb == dealer || |t.history| > 0))
  {
    var s := Observe(Replay(sb, t.history), t.toAct, PublicCards(t.street));
    if sb == dealer {
      LegalDealer(dealer, bets, t, s);
    } else {
      assert sb == BotSmallBlind(dealer);
      LegalBot(dealer, bets, t, s);
    }
  }

  /** The first decision: the dealer may raise by 150 or more, and the bot sends 100. */
  lemma FirstRaiseRefused(t: Table)
    requires t == Deal(t.dealer)
    ensures
      var s := Observe(Replay(BotSmallBlind(t.dealer), t.history), t.toAct, PublicCards(t.street));
      Sanitize(100, s, t.chips.Of(t.toAct)) == 100 && Act(t, 100).Rejected?
  {
    DealIsLive(t.dealer);
    LegalRaises(t, 100);
  }

  /** What the bot makes of an opening raise of 150 by the dealer, seat 0. */
  lemma OwnView(history: seq<Record>, none: seq<Record>)
    requires none == [] && history == none + [Record(0, 0, 150, Raise)]
    ensures
      var s := Observe(Replay(BotSmallBlind(0), history), 1, 0);
      s.minRaise == 250 && s.toCall == 200 && !s.opponentAllin && s.committed.Of(1) == 50
  {
    ReplayAppend(BotSmallBlind(0), none, Record(0, 0, 150, Raise));
  }

  /** A run in which the bot's smallest sanitized raise is refused, which the engine turns
      into a fold: the dealer raises by 150, and the bot answers with 250. */
  lemma SanitizedRaiseRefused(t: Table, bets: seq<int>)
    requires t == Deal(0) && bets == [150]
    ensures
      var o := Play(t, bets);
      o.Continue? && o.next.toAct == 1
      && (var s := Observe(Replay(BotSmallBlind(0), o.next.history), 1, PublicCards(o.next.street));
          Sanitize(250, s, o.next.chips.Of(1)) == 250 && Act(o.next, 250).Rejected?)
  {
    RaiseOpens(t, bets[0]);
    OneAction(t, bets);
    LegalRaises(Act(t, bets[0]).next, 250);
    OwnView(Act(t, bets[0]).next.history, []);
  }

  // ----- when the bot's smallest raise is the referee's

  lemma SmallestEarly(t: Table, l: Ledger)
    requires Live(t) && Ladder(t) && Early(t) && Own(t, l) && OwnSteps(t, l) && t.CanAct(Other(t.toAct))
    requires t.street == 0
    ensures Max(0, 2 * l.raiseStep - l.contrib.Of(t.toAct)) != 2 * t.roundRaise - t.StreetBet(t.toAct)
  {
    if t.toAct == 0 {
    } else {
    }
  }

  lemma SmallestByChips(before: int, lean: int, mine: int, bet: int, last: int, step: int)
    requires -50 <= lean <= 50 && 0 <= before && before + bet <= STARTING_STACK
    requires 0 < last <= bet && bet >= 100 && bet >= 2 * mine && (mine == 0 || mine >= 100)
    requires Min(last, STARTING_STACK - Max(lean, 0) - (before + bet - last)) <= step <= last
    requires before + bet + lean > STARTING_STACK ==> step < last
    ensures
      var own := Leaning(lean, before + mine) - Leaning(lean, before);
      Max(0, 2 * step - own) == 2 * bet - mine <==> last == bet && before + bet + lean <= STARTING_STACK
  {
  }

  lemma SmallestLate(t: Table, l: Ledger, last: int)
    requires Live(t) && Ladder(t) && Own(t, l) && OwnSteps(t, l) && t.CanAct(Other(t.toAct)) && t.street > 0
    requires last == LastRaise(t.history, t.street)
    ensures Max(0, 2 * l.raiseStep - l.contrib.Of(t.toAct)) == 2 * t.roundRaise - t.StreetBet(t.toAct)
       <==> last == 0
            || (last == t.roundBet && t.contrib.Of(Other(t.toAct)) + Lean(t, Other(t.toAct)) <= STARTING_STACK)
  {
    LateParts(t, l);
    if last > 0 {
      SmallestByChips(Before(t), Lean(t, t.toAct), t.StreetBet(t.toAct), t.roundBet, last, l.raiseStep);
    }
  }

  lemma SmallestOwn(t: Table, s: State)
    requires Seated(t) && s == Observe(Replay(BotSmallBlind(t.dealer), t.history), t.toAct, PublicCards(t.street))
    requires t.CanAct(Other(t.toAct))
    ensures
      var last, you := LastRaise(t.history, t.street), Other(t.toAct);
      s.minRaise == 2 * t.roundRaise - t.StreetBet(t.toAct)
      <==> t.street > 0 && (last == 0 || (last == t.roundBet && t.contrib.Of(you) + Lean(t, you) <= STARTING_STACK))
  {
    var l := EnterRound(Replay(BotSmallBlind(t.dealer), t.history), t.street);
    SeatedObserved(t, l, s);
    if t.street == 0 {
      SmallestEarly(t, l);
    } else {
      SmallestLate(t, l, LastRaise(t.history, t.street));
    }
  }

  lemma SmallestHere(t: Table, dealer: Seat, s: State)
    requires Live(t) && Replays(t, dealer) && Steps(t, EnterRound(Replay(dealer, t.history), t.street))
    requires s == Observe(Replay(dealer, t.history), t.toAct, PublicCards(t.street)) && t.CanAct(Other(t.toAct))
    ensures
      var last := LastRaise(t.history, t.street);
      s.minRaise == 2 * t.roundRaise - t.StreetBet(t.toAct) <==> last == 0 || last == t.roundBet
  {
    var step := EnterRound(Replay(dealer, t.history), t.street).raiseStep;
    ObservedHere(t, dealer, step);
    LeastHere(t, s, step);
  }

  lemma SmallestDealer(dealer: Seat, bets: seq<int>, t: Table, s: State)
    requires Play(Deal(dealer), bets) == Continue(t) && t.CanAct(Other(t.toAct))
    requires s == Observe(Replay(dealer, t.history), t.toAct, PublicCards(t.street))
    ensures
      var last := LastRaise(t.history, t.street);
      s.minRaise == 2 * t.roundRaise - t.StreetBet(t.toAct) <==> last == 0 || last == t.roundBet
  {
    DealIsLive(dealer);
    EveryRun(Deal(dealer), bets);
    RunReplays(Deal(dealer), bets, dealer);
    RunSteps(Deal(dealer), bets, dealer);
    SmallestHere(t, dealer, s);
  }

  lemma SmallestBot(dealer: Seat, bets: seq<int>, t: Table, s: State)
    requires Play(Deal(dealer), bets) == Continue(t) && t.CanAct(Other(t.toAct))
    requires s == Observe(Replay(BotSmallBlind(dealer), t.history), t.toAct, PublicCards(t.street))
    ensures
      var last, you := LastRaise(t.history, t.street), Other(t.toAct);
      s.minRaise == 2 * t.roundRaise - t.StreetBet(t.toAct)
      <==> t.street > 0 && (last == 0 || (last == t.roundBet && t.contrib.Of(you) + Lean(t, you) <= STARTING_STACK))
  {
    SeatedPlay(dealer, bets);
    SmallestOwn(t, s);
  }

  /** For either seat taken as the small blind, and over every run: where a raise is possible,
      the bot's smallest raise is the referee's exactly if the street's last raise was made
      from nothing and, with the wrong seat, the flop is dealt and the raiser's chips do not
      cut what the bot adds to its contribution. */
  lemma SmallestRaiseIsExact(dealer: Seat, bets: seq<int>, t: Table, sb: Seat)
    requires Play(Deal(dealer), bets) == Continue(t)
    ensures
      var s := Observe(Replay(sb, t.history), t.toAct, PublicCards(t.street));
      var last, you := LastRaise(t.history, t.street), Other(t.toAct);
      t.CanAct(you) ==>
        (s.minRaise == 2 * t.roundRaise - t.StreetBet(t.toAct)
         <==> (last == 0 || last == t.roundBet)
              && (sb == dealer
                  || (t.street > 0 && (last == 0 || t.contrib.Of(you) + Lean(t, you) <= STARTING_STACK))))
  {
    var s := Observe(Replay(sb, t.history), t.toAct, PublicCards(t.street));
    if t.CanAct(Other(t.toAct)) {
      if sb == dealer {
        SmallestDealer(dealer, bets, t, s);
      } else {
        assert sb == BotSmallBlind(dealer);
        SmallestBot(dealer, bets, t, s);
      }
    }
  }
}

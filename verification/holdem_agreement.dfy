/** The bot's replay against the referee that wrote the history. */
module HoldemAgreement {
  import opened HoldemTypes
  import opened HoldemReferee
  import opened HoldemReplay

  /** The replayed ledger shows a seat exactly as the referee holds it. */
  ghost predicate SeatAgrees(t: Table, l: Ledger, i: Seat) {
    && l.stacks.Of(i) == t.chips.Of(i)
    && l.committed.Of(i) == t.contrib.Of(i)
    && l.contrib.Of(i) == t.StreetBet(i)
    && l.alive.Of(i)
    && (l.allin.Of(i) <==> t.bets.Of(i) == ALLIN)
  }

  ghost predicate Agrees(t: Table, l: Ledger) {
    l.round == t.street && l.roundBet == t.roundBet && SeatAgrees(t, l, 0) && SeatAgrees(t, l, 1)
  }

  /** What `Advance` does to the parts the history shows. */
  lemma AdvanceShows(t: Table)
    requires Acted(t) && Advance(t).Continue?
    ensures
      var u := Advance(t).next;
      u.history == t.history && u.chips == t.chips && u.contrib == t.contrib && u.dealer == t.dealer
      && if Closes(t) then u.street == t.street + 1 && u.roundBet == 0 && u.bets == Both(0, 0)
                           && u.roundRaise == BIG_BLIND / 2 && t.CanAct(0) && t.CanAct(1)
         else u == t.(toAct := Other(t.toAct))
  {
    if Closes(t) {
      ClosedStreet(t);
    } else {
      TurnPasses(t);
    }
  }

  lemma AdvanceAgrees(t: Table, l: Ledger)
    requires Acted(t) && Advance(t).Continue? && Agrees(t, l)
    ensures Agrees(Advance(t).next, EnterRound(l, Advance(t).next.street))
  {
    AdvanceShows(t);
  }

  /** Chips and street bets move the same way on both sides of one action. */
  lemma RaiseAgrees(t: Table, l: Ledger, bet: int)
    requires Live(t) && Agrees(t, l) && bet != FOLD && bet != ALLIN && bet != 0 && Place(t, bet).Placed?
    ensures Place(t, bet).kind == Raise
    ensures Agrees(Place(t, bet).table, ApplyAction(l, Record(t.street, t.toAct, bet, Raise)))
  {
    PlaceRaise(t, bet);
    if t.toAct == 0 {
    } else {
    }
  }

  lemma AllInAgrees(t: Table, l: Ledger)
    requires Live(t) && Agrees(t, l) && Place(t, ALLIN).Placed?
    ensures Agrees(Place(t, ALLIN).table, ApplyAction(l, Record(t.street, t.toAct, ALLIN, AllIn)))
  {
    if t.toAct == 0 {
    } else {
    }
  }

  /** A call that empties the stack is all-in for the referee but not for the replay;
      `ExactCallEnds` shows it never leaves a decision open. */
  lemma CallAgrees(t: Table, l: Ledger)
    requires Live(t) && Agrees(t, l) && Place(t, 0).Placed? && Place(t, 0).table.chips.Of(t.toAct) > 0
    ensures Agrees(Place(t, 0).table, ApplyAction(l, Record(t.street, t.toAct, 0, Place(t, 0).kind)))
  {
    if t.toAct == 0 {
    } else {
    }
  }

  lemma ExactCallEnds(t: Table)
    requires Live(t) && Act(t, 0).Continue?
    ensures Place(t, 0).table.chips.Of(t.toAct) > 0
  {
    PlaceCall(t);
    AdvanceShows(Logged(Place(t, 0).table, 0, Place(t, 0).kind));
    if t.toAct == 0 {
    } else {
    }
  }

  lemma PlacedAgrees(t: Table, l: Ledger, bet: int)
    requires Live(t) && Agrees(t, l) && Act(t, bet).Continue?
    ensures
      var u := Place(t, bet);
      Agrees(u.table, ApplyAction(l, Record(t.street, t.toAct, bet, u.kind)))
  {
    if bet == ALLIN {
      AllInAgrees(t, l);
    } else if bet == 0 {
      ExactCallEnds(t);
      CallAgrees(t, l);
    } else {
      RaiseAgrees(t, l, bet);
    }
  }

  /** The record an accepted action publishes. */
  function Published(t: Table, bet: int): Record
    requires Place(t, bet).Placed?
  {
    Record(t.street, t.toAct, bet, Place(t, bet).kind)
  }

  lemma PlaceKeeps(t: Table, bet: int)
    requires Place(t, bet).Placed?
    ensures
      var u := Place(t, bet).table;
      u.dealer == t.dealer && u.street == t.street && u.toAct == t.toAct && u.history == t.history
  {
  }

  lemma TurnShape(v: Table)
    requires Acted(v) && Advance(v).Continue?
    ensures
      var u := Advance(v).next;
      && Live(u) && u.history == v.history && u.dealer == v.dealer
      && (!Closes(v) ==> u == v.(toAct := Other(v.toAct)))
      && (Closes(v) ==> u.street == v.street + 1 && u.roundBet == 0 && u.bets == Both(0, 0)
                        && u.roundRaise == BIG_BLIND / 2)
  {
    AdvanceStep(v);
    AdvanceShows(v);
  }

  /** The table an action leaves behind: one more record, and either the turn passes
      or a fresh street begins. */
  lemma ActionShape(t: Table, bet: int)
    requires Live(t) && Act(t, bet).Continue?
    ensures
      var v, u := Logged(Place(t, bet).table, bet, Place(t, bet).kind), Act(t, bet).next;
      && Live(u) && Acted(v) && bet != FOLD && Act(t, bet) == Advance(v)
      && u.history == t.history + [Published(t, bet)] && u.dealer == t.dealer && v.street == t.street
      && v.toAct == t.toAct && (!Closes(v) ==> u == v.(toAct := Other(t.toAct)))
      && (Closes(v) ==> u.street == t.street + 1 && u.roundBet == 0 && u.bets == Both(0, 0)
                        && u.roundRaise == BIG_BLIND / 2)
  {
    PlaceKeeps(t, bet);
    PlaceStep(t, bet);
    TurnShape(Logged(Place(t, bet).table, bet, Place(t, bet).kind));
  }

  lemma ActionAgrees(t: Table, l: Ledger, bet: int)
    requires Live(t) && Agrees(t, EnterRound(l, t.street)) && Act(t, bet).Continue?
    ensures Agrees(Act(t, bet).next, EnterRound(ApplyRecord(l, Published(t, bet)), Act(t, bet).next.street))
  {
    var m := EnterRound(l, t.street);
    ActionShape(t, bet);
    PlacedAgrees(t, m, bet);
    AdvanceAgrees(Logged(Place(t, bet).table, bet, Place(t, bet).kind), ApplyAction(m, Published(t, bet)));
  }

  lemma ReplayAppend(sb: Seat, history: seq<Record>, r: Record)
    ensures Replay(sb, history + [r]) == ApplyRecord(Replay(sb, history), r)
  {
    assert (history + [r])[..|history|] == history;
  }

  /** A run that is still open after its first action continued from it. */
  lemma PlayStep(t: Table, bets: seq<int>)
    requires Live(t) && |bets| > 0 && Play(t, bets).Continue?
    ensures Act(t, bets[0]).Continue? && Live(Act(t, bets[0]).next)
    ensures Play(t, bets) == Play(Act(t, bets[0]).next, bets[1..])
    ensures Act(t, bets[0]).next.history == t.history + [Published(t, bets[0])]
    ensures Act(t, bets[0]).next.dealer == t.dealer
  {
    LiveStep(t, FOLD);
    ActionShape(t, bets[0]);
  }

  ghost predicate Replays(t: Table, sb: Seat) {
    Agrees(t, EnterRound(Replay(sb, t.history), t.street))
  }

  lemma {:induction false} RunReplays(t: Table, bets: seq<int>, sb: Seat)
    requires Live(t) && Replays(t, sb) && Play(t, bets).Continue?
    ensures Replays(Play(t, bets).next, sb)
    decreases |bets|
  {
    if |bets| > 0 {
      PlayStep(t, bets);
      ActionAgrees(t, Replay(sb, t.history), bets[0]);
      ReplayAppend(sb, t.history, Published(t, bets[0]));
      RunReplays(Act(t, bets[0]).next, bets[1..], sb);
    }
  }

  function PublicCards(street: int): nat {
    if street <= 0 then 0 else if street == 1 then 3 else if street == 2 then 4 else 5
  }

  /** What the bot decides on is the referee's own state. */
  ghost predicate Faithful(t: Table, s: State) {
    && s.round == t.street && s.roundBet == t.roundBet && s.stacks == t.chips
    && s.committed == t.contrib && s.pot == t.pot
    && s.toCall == t.ToCall(t.toAct) && s.myRoundBet == t.StreetBet(t.toAct)
    && (s.opponentAllin <==> !t.CanAct(Other(t.toAct)))
    && s.allinCall == Min(t.ToCall(t.toAct), t.chips.Of(t.toAct))
  }

  lemma ReplaysAreFaithful(t: Table, sb: Seat)
    requires Live(t) && Replays(t, sb)
    ensures Faithful(t, Observe(Replay(sb, t.history), t.toAct, PublicCards(t.street)))
  {
    if t.toAct == 0 {
    } else {
    }
  }

  /** Over every run of the referee, the reconstruction from the published history is the
      referee's own state, if the small blind is taken to be the dealer. */
  lemma ReplayIsFaithful(dealer: Seat, bets: seq<int>)
    requires Play(Deal(dealer), bets).Continue?
    ensures
      var t := Play(Deal(dealer), bets).next;
      Live(t) && Replays(t, dealer) && Faithful(t, Observe(Replay(dealer, t.history), t.toAct, PublicCards(t.street)))
  {
    DealIsLive(dealer);
    EveryRun(Deal(dealer), bets);
    RunReplays(Deal(dealer), bets, dealer);
    ReplaysAreFaithful(Play(Deal(dealer), bets).next, dealer);
  }

  /** The bot itself takes the other seat for the small blind, so its reconstruction is
      already wrong before the first action: the dealer believes it may check. */
  lemma BotSeatDisagrees(dealer: Seat, sb: Seat)
    ensures Replays(Deal(dealer), sb) <==> sb == dealer
    ensures BotSmallBlind(dealer) != dealer
    ensures Deal(dealer).ToCall(dealer) == 50
            && Observe(Replay(BotSmallBlind(dealer), []), dealer, 0).toCall == 0
  {
  }

  // ----- the smallest raise

  /** The last raise on a street, 0 if there was none. */
  function LastRaise(history: seq<Record>, street: int): int {
    if |history| == 0 || history[|history| - 1].round != street then 0
    else if history[|history| - 1].kind == Raise then history[|history| - 1].action
    else LastRaise(history[..|history| - 1], street)
  }

  /** The bot tracks the size of the last raise, the referee the bet it was raised to:
      they are one number exactly when the last raise was made from nothing. */
  ghost predicate Steps(t: Table, l: Ledger) {
    var last := LastRaise(t.history, t.street);
    t.CanAct(Other(t.toAct)) ==>
      && l.raiseStep <= t.roundRaise && 0 <= last <= t.roundBet
      && (l.raiseStep == t.roundRaise <==> last == 0 || last == t.roundBet)
  }

  lemma RaiseSteps(t: Table, u: Table, m: Ledger, step: int, r: Record)
    requires u.history == t.history + [r] && r.round == u.street == t.street && r.kind == Raise
    requires 0 < r.action <= u.roundRaise == u.roundBet
    requires step <= r.action && m.raiseStep == Max(step, r.action)
    ensures Steps(u, m)
  {
    LastRaiseAppend(t.history, r);
  }

  /** A raise at least doubles the bet, and the replay pays it in full. */
  lemma RaiseGrows(t: Table, l: Ledger, bet: int)
    requires Live(t) && Agrees(t, l) && bet != FOLD && bet != ALLIN && bet != 0 && Place(t, bet).Placed?
    ensures
      var u, r := Place(t, bet).table, Published(t, bet);
      r.kind == Raise && t.CanAct(Other(t.toAct)) && t.roundRaise <= bet <= u.roundRaise == u.roundBet
      && ApplyAction(l, r).raiseStep == Max(l.raiseStep, bet)
  {
    PlaceRaise(t, bet);
    if t.toAct == 0 {
    } else {
    }
  }

  lemma QuietSteps(t: Table, u: Table, l: Ledger, m: Ledger, r: Record)
    requires Steps(t, l) && u.history == t.history + [r] && r.round == u.street == t.street && r.kind != Raise
    requires u.CanAct(Other(u.toAct)) ==>
      t.CanAct(Other(t.toAct)) && m.raiseStep == l.raiseStep && u.roundRaise == t.roundRaise && u.roundBet == t.roundBet
    ensures Steps(u, m)
  {
    LastRaiseAppend(t.history, r);
  }

  /** A call or check leaves the bets as they are; an all-in leaves nobody to raise. */
  lemma QuietKeeps(t: Table, l: Ledger, bet: int)
    requires Live(t) && (bet == 0 || bet == ALLIN) && Act(t, bet).Continue?
    ensures
      var m, u := ApplyAction(l, Published(t, bet)), Place(t, bet).table;
      Published(t, bet).kind != Raise
      && (u.CanAct(t.toAct) && !Closes(Logged(u, bet, Place(t, bet).kind)) ==>
            t.CanAct(Other(t.toAct)) && m.raiseStep == l.raiseStep
            && u.roundRaise == t.roundRaise && u.roundBet == t.roundBet)
  {
    if t.toAct == 0 {
    } else {
    }
  }

  lemma FreshSteps(t: Table, l: Ledger)
    requires |t.history| > 0 && t.history[|t.history| - 1].round != t.street && l.round != t.street
    requires t.roundBet == 0 && t.roundRaise == BIG_BLIND / 2
    ensures Steps(t, EnterRound(l, t.street))
  {
  }

  lemma LastRaiseAppend(history: seq<Record>, r: Record)
    ensures LastRaise(history + [r], r.round) == if r.kind == Raise then r.action else LastRaise(history, r.round)
  {
    assert (history + [r])[..|history|] == history;
  }

  lemma OpenSteps(t: Table, l: Ledger, bet: int)
    requires Live(t) && Agrees(t, l) && Steps(t, l) && Act(t, bet).Continue?
    requires !Closes(Logged(Place(t, bet).table, bet, Place(t, bet).kind))
    ensures Steps(Act(t, bet).next, ApplyAction(l, Published(t, bet)))
  {
    ActionShape(t, bet);
    if bet != ALLIN && bet != 0 {
      RaiseGrows(t, l, bet);
      RaiseSteps(t, Act(t, bet).next, ApplyAction(l, Published(t, bet)), l.raiseStep, Published(t, bet));
    } else {
      QuietKeeps(t, l, bet);
      QuietSteps(t, Act(t, bet).next, l, ApplyAction(l, Published(t, bet)), Published(t, bet));
    }
  }

  lemma SameRound(l: Ledger, r: Record)
    ensures ApplyAction(l, r).round == l.round
  {
  }

  lemma ActionSteps(t: Table, l: Ledger, bet: int)
    requires Live(t) && Act(t, bet).Continue?
    requires Agrees(t, EnterRound(l, t.street)) && Steps(t, EnterRound(l, t.street))
    ensures Steps(Act(t, bet).next, EnterRound(ApplyRecord(l, Published(t, bet)), Act(t, bet).next.street))
  {
    ActionShape(t, bet);
    SameRound(EnterRound(l, t.street), Published(t, bet));
    if Closes(Logged(Place(t, bet).table, bet, Place(t, bet).kind)) {
      FreshSteps(Act(t, bet).next, ApplyRecord(l, Published(t, bet)));
    } else {
      OpenSteps(t, EnterRound(l, t.street), bet);
    }
  }

  lemma {:induction false} RunSteps(t: Table, bets: seq<int>, sb: Seat)
    requires Live(t) && Replays(t, sb) && Play(t, bets).Continue?
    requires Steps(t, EnterRound(Replay(sb, t.history), t.street))
    ensures
      var u := Play(t, bets).next;
      Steps(u, EnterRound(Replay(sb, u.history), u.street))
    decreases |bets|
  {
    if |bets| > 0 {
      PlayStep(t, bets);
      ActionAgrees(t, Replay(sb, t.history), bets[0]);
      ActionSteps(t, Replay(sb, t.history), bets[0]);
      ReplayAppend(sb, t.history, Published(t, bets[0]));
      RunSteps(Act(t, bets[0]).next, bets[1..], sb);
    }
  }

  /** The referee takes a raise exactly from its smallest raise up to all the chips. */
  lemma LegalRaises(t: Table, bet: int)
    requires Live(t) && bet > 0
    ensures !Act(t, bet).Rejected?
       <==> t.CanAct(Other(t.toAct)) && 2 * t.roundRaise - t.StreetBet(t.toAct) <= bet <= t.chips.Of(t.toAct)
  {
    LiveStep(t, bet);
    if Place(t, bet).Placed? {
      PlaceStep(t, bet);
      AdvanceStep(Logged(Place(t, bet).table, bet, Place(t, bet).kind));
    }
  }

  lemma PlaceAlways(t: Table, bet: int)
    requires Live(t) && bet in {-2, -1, 0}
    ensures Place(t, bet).Placed?
  {
    if t.toAct == 0 {
    } else {
    }
  }

  /** What the referee takes, of all integers: a fold, a check or call and an all-in always, and a
      raise exactly from its smallest raise up to all the chips while the opponent can act. */
  lemma LegalActions(t: Table, bet: int)
    requires Live(t)
    ensures !Act(t, bet).Rejected? <==>
              bet == -1 || bet == 0 || bet == -2
              || (bet > 0 && t.CanAct(Other(t.toAct))
                  && 2 * t.roundRaise - t.StreetBet(t.toAct) <= bet <= t.chips.Of(t.toAct))
  {
    LiveStep(t, bet);
    if bet > 0 {
      LegalRaises(t, bet);
    } else if bet >= -2 {
      PlaceAlways(t, bet);
      PlaceStep(t, bet);
      if bet != FOLD {
        AdvanceStep(Logged(Place(t, bet).table, bet, Place(t, bet).kind));
      }
    } else if Place(t, bet).Placed? {
      PlaceRaise(t, bet);
    }
  }

  /** Every raise that `sanitize_action` lets through is one the referee takes. */
  ghost predicate SanitizedAreLegal(t: Table, s: State) {
    forall action :: action > 0 && Sanitize(action, s, t.chips.Of(t.toAct)) == action ==> !Act(t, action).Rejected?
  }

  /** The smallest raise that survives `sanitize_action`. */
  function LeastSanitized(s: State): int {
    Max(s.minRaise, s.toCall + 1)
  }

  /** Of actions the bot means, a sanitized one that is no raise is always taken: at every table
      with someone to act, a fold, a check or call, or an all-in. */
  lemma SanitizedNonRaisesAreLegal(t: Table, s: State, action: int, myChips: int)
    requires Live(t) && action >= -2 && Sanitize(action, s, myChips) <= 0
    ensures !Act(t, Sanitize(action, s, myChips)).Rejected?
  {
    LegalActions(t, Sanitize(action, s, myChips));
  }

  /** It is enough to look at the smallest raise on either side. */
  lemma LegalIffLeast(t: Table, s: State)
    requires Live(t) && (s.opponentAllin <==> !t.CanAct(Other(t.toAct))) && s.toCall >= 0
    ensures SanitizedAreLegal(t, s) <==>
            !t.CanAct(Other(t.toAct)) || t.chips.Of(t.toAct) <= LeastSanitized(s)
            || 2 * t.roundRaise - t.StreetBet(t.toAct) <= LeastSanitized(s)
  {
    var chips, least := t.chips.Of(t.toAct), LeastSanitized(s);
    forall action | action > 0 && Sanitize(action, s, chips) == action
      ensures !Act(t, action).Rejected? <==> 2 * t.roundRaise - t.StreetBet(t.toAct) <= action
    {
      LegalRaises(t, action);
    }
    if t.CanAct(Other(t.toAct)) && least < chips {
      assert Sanitize(least, s, chips) == least;
    }
  }

  lemma ObservedHere(t: Table, dealer: Seat, step: int)
    requires Live(t) && Replays(t, dealer) && step == EnterRound(Replay(dealer, t.history), t.street).raiseStep
    ensures
      var s := Observe(Replay(dealer, t.history), t.toAct, PublicCards(t.street));
      && (s.opponentAllin <==> !t.CanAct(Other(t.toAct))) && s.toCall == t.ToCall(t.toAct)
      && s.minRaise == Max(0, 2 * step - t.StreetBet(t.toAct))
  {
    if t.toAct == 0 {
    } else {
    }
  }

  lemma LeastHere(t: Table, s: State, step: int)
    requires Live(t) && t.CanAct(Other(t.toAct)) && step <= t.roundRaise
    requires s.toCall == t.ToCall(t.toAct) && s.minRaise == Max(0, 2 * step - t.StreetBet(t.toAct))
    ensures 2 * t.roundRaise - t.StreetBet(t.toAct) <= LeastSanitized(s) <==> step == t.roundRaise
  {
    if t.toAct == 0 {
    } else {
    }
  }

  /** With the dealer for the small blind, the bot's sanitized raises are all legal exactly
      when the street's last raise was made from nothing, or the bot has too few chips to
      make a raise of the size it believes in. */
  lemma LegalWithDealer(t: Table, s: State, dealer: Seat)
    requires Live(t) && Replays(t, dealer) && Steps(t, EnterRound(Replay(dealer, t.history), t.street))
    requires s == Observe(Replay(dealer, t.history), t.toAct, PublicCards(t.street))
    ensures
      var last := LastRaise(t.history, t.street);
      SanitizedAreLegal(t, s)
      <==> !t.CanAct(Other(t.toAct)) || t.chips.Of(t.toAct) <= LeastSanitized(s) || last == 0 || last == t.roundBet
  {
    var step := EnterRound(Replay(dealer, t.history), t.street).raiseStep;
    ObservedHere(t, dealer, step);
    LegalIffLeast(t, s);
    if t.CanAct(Other(t.toAct)) {
      LeastHere(t, s, step);
    }
  }

  /** A run of one action. */
  lemma OneAction(t: Table, bets: seq<int>)
    requires |bets| == 1 && Act(t, bets[0]).Continue?
    ensures Play(t, bets) == Act(t, bets[0])
  {
    var u := Act(t, bets[0]).next;
    assert Play(u, bets[1..]) == Continue(u);
  }

  /** The first table as the dealer, seat 0, finds it, and as an opening raise of 150 leaves it. */
  const FIRST: Table :=
    Table(0, Both(19950, 19900), 150, 0, 0, 100, 100, 2, Both(50, 100), Both(50, 100), Both(0, 0), [])

  const RAISED: Table :=
    Table(0, Both(19800, 19900), 300, 0, 0, 200, 200, 2, Both(200, 100), Both(200, 100), Both(0, 0), [])

  lemma FirstPlaced(bet: int)
    requires bet == 150
    ensures Deal(0) == FIRST && Place(FIRST, bet) == Placed(RAISED, Raise)
  {
  }

  lemma FirstPassed(v: Table, bet: int)
    requires v == Logged(RAISED, bet, Raise)
    ensures Advance(v) == Continue(v.(toAct := 1))
  {
    assert v.actionLeft == 1 && v.CanAct(1);
  }

  /** The dealer, seat 0, opens with a raise of 150. */
  lemma RaiseOpens(t: Table, bet: int)
    requires t == Deal(0) && bet == 150
    ensures Act(t, bet).Continue? && Live(Act(t, bet).next)
    ensures Act(t, bet).next == RAISED.(toAct := 1, actionLeft := 1, history := [Record(0, 0, 150, Raise)])
  {
    FirstPlaced(bet);
    FirstPassed(Logged(RAISED, bet, Raise), bet);
  }
}

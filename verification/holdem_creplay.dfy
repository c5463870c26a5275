/** The C sample bots rebuild the current street only (samples/holdem_bots/poker_util.h). */
module HoldemCReplay {
  import opened HoldemTypes
  import opened HoldemReferee
  import opened HoldemReplay
  import opened HoldemAgreement

  /** The loop state of `holdem_state`, from parsed records on. */
  datatype Street = Street(bets: Both<int>, currentBet: int, lastRaiseTo: int, facingAllin: bool)

  /** The fields of `HoldemState` a bot decides on. */
  datatype CState = CState(streetBet: int, currentBet: int, toCall: int, minRaiseTo: int, minRaiseDelta: int,
                           facingAllin: bool, canRaise: bool)

  function Opening(sb: Seat, round: int): Street {
    if round == 0
    then Street(Both(0, 0).With(sb, SMALL_BLIND).With(Other(sb), BIG_BLIND), BIG_BLIND, BIG_BLIND, false)
    else Street(Both(0, 0), 0, BIG_BLIND / 2, false)
  }

  function Bet(c: Street, round: int, r: Record): Street {
    if r.round != round then c
    else
      match r.kind
      case Raise =>
        var total := c.bets.Of(r.player) + r.action;
        c.(bets := c.bets.With(r.player, total), currentBet := Max(c.currentBet, total), lastRaiseTo := total)
      case Call => c.(bets := c.bets.With(r.player, c.currentBet))
      case AllIn => c.(facingAllin := true)
      case _ => c
  }

  function StreetReplay(sb: Seat, round: int, history: seq<Record>): Street {
    if |history| == 0 then Opening(sb, round)
    else Bet(StreetReplay(sb, round, history[..|history| - 1]), round, history[|history| - 1])
  }

  function Decide(c: Street, me: Seat, chips: int): CState {
    var streetBet := c.bets.Of(me);
    var toCall := if c.currentBet > streetBet then c.currentBet - streetBet else 0;
    var minRaiseTo := Max(2 * c.lastRaiseTo, BIG_BLIND);
    CState(streetBet, c.currentBet, toCall, minRaiseTo, minRaiseTo - streetBet, c.facingAllin,
           !c.facingAllin && chips > toCall && streetBet + chips > c.currentBet
           && minRaiseTo <= streetBet + chips && minRaiseTo - streetBet > 0)
  }

  lemma StreetStep(sb: Seat, round: int, history: seq<Record>, k: nat)
    requires k < |history|
    ensures StreetReplay(sb, round, history[..k + 1]) == Bet(StreetReplay(sb, round, history[..k]), round, history[k])
  {
    assert history[..k + 1][..k] == history[..k];
  }

  /** The loop of `holdem_state`, over its two-element bets array. */
  method ReplayStreet(dealer: Seat, round: int, history: seq<Record>) returns (c: Street)
    ensures c == StreetReplay(dealer, round, history)
  {
    var bets := new int[2](_ => 0);
    var currentBet, lastRaiseTo, facingAllin := 0, BIG_BLIND / 2, false;
    if round == 0 {
      bets[if dealer == 1 then 1 else 0] := SMALL_BLIND;
      bets[if dealer == 1 then 0 else 1] := BIG_BLIND;
      currentBet, lastRaiseTo := BIG_BLIND, BIG_BLIND;
    }
    for k := 0 to |history|
      invariant StreetReplay(dealer, round, history[..k])
             == Street(Both(bets[0], bets[1]), currentBet, lastRaiseTo, facingAllin)
    {
      var r := history[k];
      StreetStep(dealer, round, history, k);
      if r.round == round {
        if r.kind == Raise {
          bets[r.player] := bets[r.player] + r.action;
          if bets[r.player] > currentBet {
            currentBet := bets[r.player];
          }
          lastRaiseTo := bets[r.player];
        } else if r.kind == Call {
          bets[r.player] := currentBet;
        } else if r.kind == AllIn {
          facingAllin := true;
        }
      }
    }
    assert history[..|history|] == history;
    c := Street(Both(bets[0], bets[1]), currentBet, lastRaiseTo, facingAllin);
  }

  /** `holdem_state`, from parsed records on. */
  method HoldemState(me: Seat, dealer: Seat, chips: int, round: int, history: seq<Record>) returns (s: CState)
    ensures s == Decide(StreetReplay(dealer, round, history), me, chips)
  {
    var c := ReplayStreet(dealer, round, history);
    var streetBet := c.bets.Of(if me == 1 then 1 else 0);
    var toCall := if c.currentBet > streetBet then c.currentBet - streetBet else 0;
    var minRaiseTo := 2 * c.lastRaiseTo;
    if minRaiseTo < BIG_BLIND {
      minRaiseTo := BIG_BLIND;
    }
    var minRaiseDelta := minRaiseTo - streetBet;
    var maxRaiseTo := streetBet + chips;
    var canRaise := !c.facingAllin && chips > toCall && maxRaiseTo > c.currentBet && minRaiseTo <= maxRaiseTo
                    && minRaiseDelta > 0;
    s := CState(streetBet, c.currentBet, toCall, minRaiseTo, minRaiseDelta, c.facingAllin, canRaise);
  }

  /** A record both replays can follow: its street does not go back or beyond the current
      one, it neither folds nor goes all-in, and its chips are there. */
  ghost predicate Follows(l: Ledger, r: Record, round: int) {
    var m := EnterRound(l, r.round);
    && l.round <= r.round <= round
    && match r.kind
       case Check => m.contrib.Of(r.player) == m.roundBet
       case Call => m.roundBet - m.contrib.Of(r.player) <= m.stacks.Of(r.player)
       case Raise => 0 <= r.action <= m.stacks.Of(r.player)
       case _ => false
  }

  ghost predicate Plain(sb: Seat, history: seq<Record>, round: int) {
    |history| > 0 ==>
      Plain(sb, history[..|history| - 1], round)
      && Follows(Replay(sb, history[..|history| - 1]), history[|history| - 1], round)
  }

  lemma {:induction false} PlainKeepsPlayers(sb: Seat, history: seq<Record>, round: int)
    requires 0 <= round && Plain(sb, history, round)
    ensures Replay(sb, history).alive == Both(true, true) && Replay(sb, history).allin == Both(false, false)
    ensures Replay(sb, history).round <= round
  {
    if |history| > 0 {
      PlainKeepsPlayers(sb, history[..|history| - 1], round);
    }
  }

  ghost predicate SameStreet(c: Street, l: Ledger) {
    c.bets == l.contrib && c.currentBet == l.roundBet && !c.facingAllin
  }

  lemma SameRecord(c: Street, l: Ledger, r: Record)
    requires Balanced(l) && l.alive == Both(true, true) && l.allin == Both(false, false)
    requires SameStreet(c, l) && Follows(l, r, r.round) && l.round == r.round
    ensures SameStreet(Bet(c, r.round, r), ApplyAction(l, r))
  {
    if r.player == 0 {
    } else {
    }
  }

  /** The C replay of one street and the Python replay of the whole hand leave the same
      street bets and the same amount to call, on every plain history. */
  lemma {:induction false} ReplaysCoincide(sb: Seat, history: seq<Record>, round: int)
    requires 0 <= round && Plain(sb, history, round)
    ensures SameStreet(StreetReplay(sb, round, history), EnterRound(Replay(sb, history), round))
    decreases |history|
  {
    if |history| > 0 {
      var before, r := history[..|history| - 1], history[|history| - 1];
      ReplaysCoincide(sb, before, round);
      PlainKeepsPlayers(sb, before, round);
      ReplayBalances(sb, before, round);
      if r.round == round {
        SameRecord(StreetReplay(sb, round, before), EnterRound(Replay(sb, before), round), r);
      }
    }
  }

  lemma SameAmountToCall(sb: Seat, history: seq<Record>, me: Seat, publicCards: nat, chips: int)
    requires Plain(sb, history, RoundIndex(publicCards))
    ensures
      var c := Decide(StreetReplay(sb, RoundIndex(publicCards), history), me, chips);
      var p := Observe(Replay(sb, history), me, publicCards);
      c.toCall == p.toCall && c.streetBet == p.myRoundBet && c.currentBet == p.roundBet
  {
    ReplaysCoincide(sb, history, RoundIndex(publicCards));
    PlainKeepsPlayers(sb, history, RoundIndex(publicCards));
    ReplayBalances(sb, history, RoundIndex(publicCards));
  }

  // ----- against the referee

  ghost predicate UpTo(history: seq<Record>, round: int) {
    forall k :: 0 <= k < |history| ==> history[k].round <= round
  }

  lemma {:induction false} FreshStreet(sb: Seat, round: int, history: seq<Record>)
    requires UpTo(history, round - 1)
    ensures StreetReplay(sb, round, history) == Opening(sb, round)
  {
    if |history| > 0 {
      FreshStreet(sb, round, history[..|history| - 1]);
    }
  }

  /** With nobody all-in the street replay is the referee's street; once the opponent is
      all-in only the flag and the bot's own bet are right. */
  ghost predicate Shows(t: Table, c: Street) {
    var me, you := t.toAct, Other(t.toAct);
    if t.CanAct(you) then
      !c.facingAllin && c.bets == t.bets && c.currentBet == t.roundBet && c.lastRaiseTo == t.roundRaise
    else
      c.facingAllin && c.bets.Of(me) == t.bets.Of(me) == c.currentBet
  }

  ghost predicate Streets(t: Table) {
    UpTo(t.history, t.street) && Shows(t, StreetReplay(t.dealer, t.street, t.history))
  }

  /** The street as the next seat to act will see it, before the turn has passed on. */
  ghost predicate WillShow(t: Table, c: Street) {
    var me, you := t.toAct, Other(t.toAct);
    if t.CanAct(me) then
      !c.facingAllin && c.bets == t.bets && c.currentBet == t.roundBet && c.lastRaiseTo == t.roundRaise
    else
      c.facingAllin && c.bets.Of(you) == t.bets.Of(you) == c.currentBet
  }

  lemma RaiseShows(t: Table, c: Street, bet: int)
    requires Live(t) && Shows(t, c) && bet != FOLD && bet != ALLIN && bet != 0 && Place(t, bet).Placed?
    ensures WillShow(Place(t, bet).table, Bet(c, t.street, Published(t, bet)))
  {
    PlaceRaise(t, bet);
    if t.toAct == 0 {
    } else {
    }
  }

  lemma CallShows(t: Table, c: Street)
    requires Live(t) && Shows(t, c) && Act(t, 0).Continue?
    requires !Closes(Logged(Place(t, 0).table, 0, Place(t, 0).kind))
    ensures WillShow(Place(t, 0).table, Bet(c, t.street, Published(t, 0)))
  {
    ActionShape(t, 0);
    ExactCallEnds(t);
    if t.toAct == 0 {
    } else {
    }
  }

  lemma AllInShows(t: Table, c: Street)
    requires Live(t) && Shows(t, c) && Act(t, ALLIN).Continue?
    requires !Closes(Logged(Place(t, ALLIN).table, ALLIN, AllIn))
    ensures WillShow(Place(t, ALLIN).table, Bet(c, t.street, Published(t, ALLIN)))
  {
    ActionShape(t, ALLIN);
    if t.toAct == 0 {
    } else {
    }
  }

  lemma BetShows(t: Table, c: Street, bet: int)
    requires Live(t) && Shows(t, c) && Act(t, bet).Continue?
    requires !Closes(Logged(Place(t, bet).table, bet, Place(t, bet).kind))
    ensures WillShow(Place(t, bet).table, Bet(c, t.street, Published(t, bet)))
  {
    ActionShape(t, bet);
    if bet == ALLIN {
      AllInShows(t, c);
    } else if bet == 0 {
      CallShows(t, c);
    } else {
      RaiseShows(t, c, bet);
    }
  }

  lemma ActionShows(t: Table, bet: int)
    requires Live(t) && Streets(t) && Act(t, bet).Continue?
    ensures Streets(Act(t, bet).next)
  {
    var u := Act(t, bet).next;
    ActionShape(t, bet);
    assert u.history[..|t.history|] == t.history;
    if Closes(Logged(Place(t, bet).table, bet, Place(t, bet).kind)) {
      FreshStreet(u.dealer, u.street, u.history);
    } else {
      BetShows(t, StreetReplay(t.dealer, t.street, t.history), bet);
    }
  }

  lemma {:induction false} RunShows(t: Table, bets: seq<int>)
    requires Live(t) && Streets(t) && Play(t, bets).Continue?
    ensures Streets(Play(t, bets).next) && Play(t, bets).next.dealer == t.dealer
    decreases |bets|
  {
    if |bets| > 0 {
      PlayStep(t, bets);
      ActionShows(t, bets[0]);
      RunShows(Act(t, bets[0]).next, bets[1..]);
    }
  }

  /** Over every run of the referee, a C bot knows whether it faces an all-in, knows the
      amount to call exactly when it does not, and offers a raise exactly when the
      referee would accept one - its smallest raise being the referee's smallest. */
  lemma CBotIsFaithful(dealer: Seat, bets: seq<int>)
    requires Play(Deal(dealer), bets).Continue?
    ensures
      var t := Play(Deal(dealer), bets).next;
      var c := Decide(StreetReplay(dealer, t.street, t.history), t.toAct, t.chips.Of(t.toAct));
      && (c.facingAllin <==> !t.CanAct(Other(t.toAct)))
      && (c.toCall == t.ToCall(t.toAct) <==> !c.facingAllin)
      && (forall bet :: bet > 0 ==>
            (!Act(t, bet).Rejected? <==> c.canRaise && c.minRaiseDelta <= bet <= t.chips.Of(t.toAct)))
      && (c.canRaise ==> c.minRaiseDelta <= t.chips.Of(t.toAct))
  {
    DealIsLive(dealer);
    EveryRun(Deal(dealer), bets);
    RunShows(Deal(dealer), bets);
    var t := Play(Deal(dealer), bets).next;
    forall bet | bet > 0
      ensures !Act(t, bet).Rejected?
         <==> t.CanAct(Other(t.toAct)) && 2 * t.roundRaise - t.StreetBet(t.toAct) <= bet <= t.chips.Of(t.toAct)
    {
      LegalRaises(t, bet);
    }
  }
}

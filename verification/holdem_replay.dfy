/** How the sample bot rebuilds the betting state from the published history
    (samples/holdem_bot6.py). */
module HoldemReplay {
  import opened HoldemTypes

  /** The loop state of `reconstruct_state`. */
  datatype Ledger = Ledger(
    stacks: Both<int>,
    committed: Both<int>,
    round: int,
    roundBet: int,
    raiseStep: int,
    contrib: Both<int>,
    alive: Both<bool>,
    allin: Both<bool>)

  /** The dictionary `reconstruct_state` returns. */
  datatype State = State(
    round: int,
    roundBet: int,
    raiseStep: int,
    minRaise: int,
    contrib: Both<int>,
    playerBets: Both<int>,
    stacks: Both<int>,
    committed: Both<int>,
    pot: int,
    toCall: int,
    opponentAllin: bool,
    allinCall: int,
    myRoundBet: int)

  /** The seat the bot takes for the small blind: the one after the dealer. */
  function BotSmallBlind(dealer: Seat): Seat {
    Other(dealer)
  }

  function Blinds(sb: Seat): Ledger {
    var posted := Both(0, 0).With(sb, SMALL_BLIND).With(Other(sb), BIG_BLIND);
    Ledger(Both(STARTING_STACK - posted.first, STARTING_STACK - posted.second), posted,
           0, BIG_BLIND, BIG_BLIND, posted, Both(true, true), Both(false, false))
  }

  /** Entering another street clears what was bet on the last one. */
  function EnterRound(l: Ledger, round: int): Ledger {
    if round == l.round then l
    else l.(round := round, roundBet := 0, raiseStep := SMALL_BLIND, contrib := Both(0, 0))
  }

  /** Move `add` chips of a player from stack to street. */
  function Pay(l: Ledger, i: Seat, add: int): Ledger {
    l.(stacks := l.stacks.With(i, l.stacks.Of(i) - add),
       committed := l.committed.With(i, l.committed.Of(i) + add),
       contrib := l.contrib.With(i, l.contrib.Of(i) + add))
  }

  function RaiseTo(l: Ledger, i: Seat): Ledger {
    l.(roundBet := Max(l.roundBet, l.contrib.Of(i)))
  }

  /** The chips a record takes from its player's stack, clamped to what is there. */
  function Amount(l: Ledger, r: Record): int {
    var stack := l.stacks.Of(r.player);
    match r.kind
    case Fold => 0
    case AllIn => stack
    case Raise => Max(0, Min(r.action, stack))
    case _ => Min(Max(0, l.roundBet - l.contrib.Of(r.player)), stack)
  }

  function ApplyAction(l: Ledger, r: Record): Ledger {
    var i := r.player;
    if r.kind == Fold then l.(alive := l.alive.With(i, false))
    else if !l.alive.Of(i) || l.allin.Of(i) then l
    else
      var paid := Pay(l, i, Amount(l, r));
      match r.kind
      case AllIn => RaiseTo(paid, i).(allin := l.allin.With(i, true))
      case Raise => RaiseTo(paid, i).(raiseStep := Max(l.raiseStep, Amount(l, r)))
      case _ => paid
  }

  function ApplyRecord(l: Ledger, r: Record): Ledger {
    ApplyAction(EnterRound(l, r.round), r)
  }

  function Replay(sb: Seat, history: seq<Record>): Ledger {
    if |history| == 0 then Blinds(sb)
    else ApplyRecord(Replay(sb, history[..|history| - 1]), history[|history| - 1])
  }

  /** The street the public cards show. */
  function RoundIndex(publicCards: nat): int {
    if publicCards == 0 then 0 else if publicCards == 3 then 1 else if publicCards == 4 then 2 else 3
  }

  function PlayerBet(l: Ledger, i: Seat): int {
    if !l.alive.Of(i) then -1 else if l.allin.Of(i) then -2 else l.contrib.Of(i)
  }

  function Observe(ledger: Ledger, me: Seat, publicCards: nat): State {
    var l := EnterRound(ledger, RoundIndex(publicCards));
    var you := Other(me);
    var mine := if PlayerBet(l, me) < 0 then 0 else PlayerBet(l, me);
    State(RoundIndex(publicCards), l.roundBet, l.raiseStep, Max(0, 2 * l.raiseStep - mine), l.contrib,
          Both(PlayerBet(l, 0), PlayerBet(l, 1)), l.stacks, l.committed,
          l.committed.first + l.committed.second, Max(0, l.roundBet - mine), l.allin.Of(you) && l.alive.Of(you),
          Max(0, Min(l.committed.Of(you), l.committed.Of(me) + l.stacks.Of(me)) - l.committed.Of(me)), mine)
  }

  /** The loop of `reconstruct_state`: one pass over the history that updates the
      per-seat lists in place. */
  method ReplayHistory(dealer: Seat, history: seq<Record>) returns (l: Ledger)
    ensures l == Replay(BotSmallBlind(dealer), history)
  {
    var sb, bb := (dealer + 1) % 2, (dealer + 2) % 2;
    var stacks := Both(STARTING_STACK, STARTING_STACK);
    stacks := stacks.With(sb, stacks.Of(sb) - SMALL_BLIND);
    stacks := stacks.With(bb, stacks.Of(bb) - BIG_BLIND);
    var committed := Both(0, 0).With(sb, SMALL_BLIND).With(bb, BIG_BLIND);
    var currentRound, roundBet, raiseStep := 0, BIG_BLIND, BIG_BLIND;
    var contrib := Both(0, 0).With(sb, SMALL_BLIND).With(bb, BIG_BLIND);
    var alive, allin := Both(true, true), Both(false, false);
    l := Ledger(stacks, committed, currentRound, roundBet, raiseStep, contrib, alive, allin);

    for k := 0 to |history|
      invariant l == Replay(BotSmallBlind(dealer), history[..k])
      invariant l == Ledger(stacks, committed, currentRound, roundBet, raiseStep, contrib, alive, allin)
    {
      var r := history[k];
      var i := r.player;
      assert history[..k + 1][..k] == history[..k];
      if r.round != currentRound {
        currentRound, roundBet, raiseStep, contrib := r.round, 0, SMALL_BLIND, Both(0, 0);
      }
      ghost var m := EnterRound(l, r.round);
      assert m == Ledger(stacks, committed, currentRound, roundBet, raiseStep, contrib, alive, allin);
      if r.kind == Fold {
        alive := alive.With(i, false);
      } else if alive.Of(i) && !allin.Of(i) {
        var add;
        if r.kind == AllIn {
          add := stacks.Of(i);
          allin := allin.With(i, true);
        } else if r.kind == Raise {
          add := Max(0, Min(r.action, stacks.Of(i)));
          raiseStep := Max(raiseStep, add);
        } else {
          add := Min(Max(0, roundBet - contrib.Of(i)), stacks.Of(i));
        }
        stacks := stacks.With(i, stacks.Of(i) - add);
        committed := committed.With(i, committed.Of(i) + add);
        contrib := contrib.With(i, contrib.Of(i) + add);
        if r.kind == AllIn || r.kind == Raise {
          roundBet := Max(roundBet, contrib.Of(i));
        }
      }
      l := Ledger(stacks, committed, currentRound, roundBet, raiseStep, contrib, alive, allin);
      assert l == ApplyAction(m, r);
    }
    assert history[..|history|] == history;
  }

  /** The loop over the players: what each has bet on the street, or that it folded or is all-in. */
  method PlayerBets(alive: Both<bool>, allin: Both<bool>, contrib: Both<int>) returns (bets: Both<int>)
    ensures bets.first == if !alive.first then -1 else if allin.first then -2 else contrib.first
    ensures bets.second == if !alive.second then -1 else if allin.second then -2 else contrib.second
  {
    bets := Both(0, 0);
    for pid := 0 to 2
      invariant pid >= 1 ==> bets.first == if !alive.first then -1 else if allin.first then -2 else contrib.first
      invariant pid >= 2 ==> bets.second == if !alive.second then -1 else if allin.second then -2 else contrib.second
    {
      if !alive.Of(pid) {
        bets := bets.With(pid, -1);
      } else if allin.Of(pid) {
        bets := bets.With(pid, -2);
      } else {
        bets := bets.With(pid, contrib.Of(pid));
      }
    }
  }

  /** `reconstruct_state`: replay, drop the bets of a finished street, and derive what
      the bot decides on. */
  method ReconstructState(me: Seat, dealer: Seat, history: seq<Record>, publicCards: nat) returns (s: State)
    ensures s == Observe(Replay(BotSmallBlind(dealer), history), me, publicCards)
  {
    var l := ReplayHistory(dealer, history);
    var roundIdx := RoundIndex(publicCards);
    var roundBet, raiseStep, contrib := l.roundBet, l.raiseStep, l.contrib;
    if l.round != roundIdx {
      roundBet, raiseStep, contrib := 0, SMALL_BLIND, Both(0, 0);
    }
    var playerBets := PlayerBets(l.alive, l.allin, contrib);
    var you := (me + 1) % 2;
    var mine := if playerBets.Of(me) < 0 then 0 else playerBets.Of(me);
    s := State(roundIdx, roundBet, raiseStep, Max(0, 2 * raiseStep - mine), contrib, playerBets, l.stacks,
               l.committed, l.committed.first + l.committed.second, Max(0, roundBet - mine),
               l.allin.Of(you) && l.alive.Of(you),
               Max(0, Min(l.committed.Of(you), l.committed.Of(me) + l.stacks.Of(me)) - l.committed.Of(me)), mine);
  }

  /** What every replay keeps, whatever the history says. */
  ghost predicate SeatBalanced(l: Ledger, i: Seat) {
    && l.stacks.Of(i) >= 0
    && l.stacks.Of(i) + l.committed.Of(i) == STARTING_STACK
    && 0 <= l.contrib.Of(i) <= l.committed.Of(i)
    && (l.allin.Of(i) ==> l.stacks.Of(i) == 0)
  }

  ghost predicate Balanced(l: Ledger) {
    && SeatBalanced(l, 0) && SeatBalanced(l, 1)
    && l.roundBet == Max(l.contrib.first, l.contrib.second)
    && l.raiseStep >= SMALL_BLIND
  }

  lemma PaymentKeepsBalance(l: Ledger, i: Seat, add: int)
    requires Balanced(l) && !l.allin.Of(i) && 0 <= add <= l.stacks.Of(i)
    ensures Balanced(RaiseTo(Pay(l, i, add), i))
    ensures l.contrib.Of(i) + add <= l.roundBet ==> Balanced(Pay(l, i, add))
  {
  }

  lemma ActionKeepsBalance(l: Ledger, r: Record)
    requires Balanced(l)
    ensures Balanced(ApplyAction(l, r))
  {
    if r.kind != Fold && !l.allin.Of(r.player) {
      PaymentKeepsBalance(l, r.player, Amount(l, r));
    }
  }

  /** Chips are conserved seat by seat over every history, legal or not, on every
      street the bot may be asked about. */
  lemma {:induction false} ReplayBalances(sb: Seat, history: seq<Record>, round: int)
    ensures Balanced(Replay(sb, history))
    ensures Balanced(EnterRound(Replay(sb, history), round))
  {
    if |history| > 0 {
      ReplayBalances(sb, history[..|history| - 1], round);
      var r := history[|history| - 1];
      ActionKeepsBalance(EnterRound(Replay(sb, history[..|history| - 1]), r.round), r);
    }
  }

  /** The player has folded somewhere in the history. */
  predicate Folded(history: seq<Record>, i: Seat) {
    exists k :: 0 <= k < |history| && history[k].player == i && history[k].kind == Fold
  }

  /** The player has gone all-in, and had not folded before. */
  predicate WentAllIn(history: seq<Record>, i: Seat) {
    exists k :: 0 <= k < |history| && history[k].player == i && history[k].kind == AllIn && !Folded(history[..k], i)
  }

  lemma FoldedAppend(history: seq<Record>, i: Seat)
    requires |history| > 0
    ensures
      var init, r := history[..|history| - 1], history[|history| - 1];
      && (Folded(history, i) <==> Folded(init, i) || (r.player == i && r.kind == Fold))
      && (WentAllIn(history, i) <==> WentAllIn(init, i) || (r.player == i && r.kind == AllIn && !Folded(init, i)))
  {
    var init, n := history[..|history| - 1], |history| - 1;
    assert forall k :: 0 <= k < n ==> init[k] == history[k] && init[..k] == history[..k];
    if Folded(init, i) {
      var k :| 0 <= k < n && init[k].player == i && init[k].kind == Fold;
      assert history[k].kind == Fold;
    }
    if WentAllIn(init, i) {
      var k :| 0 <= k < n && init[k].player == i && init[k].kind == AllIn && !Folded(init[..k], i);
      assert history[k].kind == AllIn && !Folded(history[..k], i);
    }
  }

  lemma RecordMarks(l: Ledger, r: Record, i: Seat)
    ensures
      var m := ApplyRecord(l, r);
      && (m.alive.Of(i) <==> l.alive.Of(i) && !(r.player == i && r.kind == Fold))
      && (m.allin.Of(i) <==> l.allin.Of(i) || (r.player == i && r.kind == AllIn && l.alive.Of(i)))
  {
  }

  /** Over every history, legal or not: the replay has a player out exactly if it folded, and
      all-in exactly if it went all-in before any fold. */
  lemma {:induction false} MarksAreExact(sb: Seat, history: seq<Record>, i: Seat)
    ensures Replay(sb, history).alive.Of(i) <==> !Folded(history, i)
    ensures Replay(sb, history).allin.Of(i) <==> WentAllIn(history, i)
  {
    if |history| > 0 {
      var init := history[..|history| - 1];
      MarksAreExact(sb, init, i);
      FoldedAppend(history, i);
      RecordMarks(Replay(sb, init), history[|history| - 1], i);
    }
  }

  /** What the bot is told each player has bet on the street: -1 after a fold, -2 after an all-in,
      and otherwise chips. */
  lemma BetsAreMarked(sb: Seat, history: seq<Record>, me: Seat, publicCards: nat, i: Seat)
    ensures
      var s := Observe(Replay(sb, history), me, publicCards);
      if Folded(history, i) then s.playerBets.Of(i) == -1
      else if WentAllIn(history, i) then s.playerBets.Of(i) == -2
      else 0 <= s.playerBets.Of(i) == s.contrib.Of(i) <= s.roundBet
  {
    MarksAreExact(sb, history, i);
    ReplayBalances(sb, history, RoundIndex(publicCards));
  }

  /** Its own bet counts against the round's unless it is out or all-in, and the opponent is
      all-in if it went so and is not out. */
  lemma OwnBetCounts(sb: Seat, history: seq<Record>, me: Seat, publicCards: nat)
    ensures
      var s := Observe(Replay(sb, history), me, publicCards);
      s.myRoundBet == (if Folded(history, me) || WentAllIn(history, me) then 0 else s.contrib.Of(me))
      && (s.opponentAllin <==> WentAllIn(history, Other(me)) && !Folded(history, Other(me)))
  {
    MarksAreExact(sb, history, me);
    MarksAreExact(sb, history, Other(me));
    ReplayBalances(sb, history, RoundIndex(publicCards));
  }

  /** `sanitize_action`: the last word on an action before it is sent. */
  function Sanitize(action: int, s: State, myChips: int): (r: int) {
    if s.opponentAllin then (if action == -1 || action == -2 then action else -1)
    else if s.toCall >= myChips then (if action == -2 then -2 else -1)
    else if action > 0 && action >= myChips then -2
    else if action > 0 && (action < s.minRaise || action <= s.toCall) then 0
    else if action == 0 && s.toCall > 0 then 0
    else action
  }

  /** What is left of an action. Facing an all-in, or a call that takes all the chips, it is an
      all-in exactly if that was asked for and otherwise a fold. Else a raise of all the chips or
      more is an all-in, one within the bot's bounds stays, a smaller one is a check or call, and
      what is no raise stays. Sanitizing again changes nothing. */
  lemma SanitizedMeans(action: int, s: State, myChips: int)
    ensures
      var r, pressed := Sanitize(action, s, myChips), s.opponentAllin || s.toCall >= myChips;
      && (pressed ==> r == if action == -2 then -2 else -1)
      && (!pressed && action <= 0 ==> r == action)
      && (!pressed && action > 0 ==>
            (r == -2 <==> action >= myChips)
            && (r == action <==> Max(s.minRaise, s.toCall + 1) <= action < myChips)
            && (r in {-2, 0, action}))
    ensures Sanitize(Sanitize(action, s, myChips), s, myChips) == Sanitize(action, s, myChips)
  {
  }

  /** A positive action that survives `sanitize_action`, whatever chips the request names, is
      replayed in full exactly when the bot has not folded and the replayed stack covers it,
      and strictly raises the street's bet exactly when what the stack covers exceeds the
      amount to call. Both hold of every unfolded seat whose named chips are in the stack. */
  lemma SanitizedRaiseIsExact(sb: Seat, history: seq<Record>, me: Seat, publicCards: nat, action: int, myChips: int)
    requires
      var s := Observe(Replay(sb, history), me, publicCards);
      action > 0 && Sanitize(action, s, myChips) == action
    ensures
      var s := Observe(Replay(sb, history), me, publicCards);
      var before := EnterRound(Replay(sb, history), RoundIndex(publicCards));
      var after := Replay(sb, history + [Record(RoundIndex(publicCards), me, action, Raise)]);
      var alive, stack := before.alive.Of(me), before.stacks.Of(me);
      && (after.contrib.Of(me) == before.contrib.Of(me) + action <==> alive && action <= stack)
      && (after.roundBet > before.roundBet <==> alive && Min(action, stack) > s.toCall)
      && (after.roundBet > before.roundBet ==> after.roundBet == after.contrib.Of(me))
      && (alive && myChips <= stack ==> s.toCall < action < stack)
  {
    var r := Record(RoundIndex(publicCards), me, action, Raise);
    assert (history + [r])[..|history|] == history;
    ReplayBalances(sb, history, RoundIndex(publicCards));
  }
}

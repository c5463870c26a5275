/** The inbound token bucket of a local-AI connection (bzplat/backend/api_routes.py). Time is
    a real number of seconds from a clock that never goes back. */
module TokenBucket {

  const BURST: real := 20.0
  const REFILL_PER_SECOND: real := 5.0

  datatype Call = Consume(now: real) | Refund

  datatype State = State(tokens: real, refilledAt: real)

  function Least(x: real, y: real): real {
    if x <= y then x else y
  }

  function Refilled(s: State, now: real): real {
    Least(BURST, s.tokens + (now - s.refilledAt) * REFILL_PER_SECOND)
  }

  function Step(s: State, call: Call): State {
    match call
    case Consume(now) => State(Refilled(s, now) - (if Admits(s, now) then 1.0 else 0.0), now)
    case Refund => State(Least(BURST, s.tokens + 1.0), s.refilledAt)
  }

  predicate Admits(s: State, now: real) {
    Refilled(s, now) >= 1.0
  }

  /** The bucket after a history of calls, newest last. */
  function After(start: real, h: seq<Call>): State {
    if |h| == 0 then State(BURST, start) else Step(After(start, h[..|h| - 1]), h[|h| - 1])
  }

  predicate Admitted(start: real, h: seq<Call>)
    requires |h| > 0
  {
    h[|h| - 1].Consume? && Admits(After(start, h[..|h| - 1]), h[|h| - 1].now)
  }

  /** The clock does not go back. */
  predicate Timely(start: real, h: seq<Call>) {
    |h| > 0 ==> Timely(start, h[..|h| - 1])
                && (h[|h| - 1].Consume? ==> h[|h| - 1].now >= After(start, h[..|h| - 1]).refilledAt)
  }

  class Bucket {
    var tokens: real
    var refilledAt: real
    const start: real
    ghost var history: seq<Call>

    ghost predicate Valid()
      reads this
    {
      State(tokens, refilledAt) == After(start, history)
    }

    constructor (now: real)
      ensures Valid() && start == now && history == []
    {
      tokens, refilledAt, start, history := BURST, now, now, [];
    }

    method ConsumeInboundToken(now: real) returns (ok: bool)
      requires Valid()
      modifies this
      ensures Valid() && history == old(history) + [Consume(now)]
      ensures ok <==> Admitted(start, history)
    {
      history := history + [Consume(now)];
      assert history[..|history| - 1] == old(history);
      tokens := Least(BURST, tokens + (now - refilledAt) * REFILL_PER_SECOND);
      refilledAt := now;
      if tokens < 1.0 {
        return false;
      }
      tokens := tokens - 1.0;
      ok := true;
    }

    method RefundBoundTurnToken()
      requires Valid()
      modifies this
      ensures Valid() && history == old(history) + [Refund]
    {
      history := history + [Refund];
      assert history[..|history| - 1] == old(history);
      tokens := Least(BURST, tokens + 1.0);
    }
  }

  // ----- traffic: what calls used, against what time allowed

  /** Admitted calls less refunds, from one point of a history to its end. */
  function Used(start: real, h: seq<Call>, from: nat): int
    requires from <= |h|
    decreases |h|
  {
    if |h| == from then 0
    else
      Used(start, h[..|h| - 1], from) + (if Admitted(start, h) then 1 else 0)
      - (if h[|h| - 1].Refund? then 1 else 0)
  }

  /** What a bucket last full at some call would hold now: at the start, or when call k - 1
      had just topped it up. */
  function Spare(start: real, h: seq<Call>, k: nat): real
    requires k <= |h|
    decreases |h|
  {
    if |h| == k then
      BURST - (if k > 0 && Admitted(start, h) then 1.0 else 0.0)
    else
      var init := h[..|h| - 1];
      Spare(start, init, k)
      + (match h[|h| - 1]
         case Refund => 1.0
         case Consume(now) =>
           (now - After(start, init).refilledAt) * REFILL_PER_SECOND - (if Admitted(start, h) then 1.0 else 0.0))
  }

  /** The level is within its bounds. */
  lemma {:induction false} LevelInBounds(start: real, h: seq<Call>)
    requires Timely(start, h)
    ensures 0.0 <= After(start, h).tokens <= BURST
    decreases |h|
  {
    if |h| > 0 {
      LevelInBounds(start, h[..|h| - 1]);
    }
  }

  /** The level never exceeds any of the levels it would have had from a full bucket... */
  lemma {:induction false} LevelIsLeast(start: real, h: seq<Call>, k: nat)
    requires k <= |h|
    ensures After(start, h).tokens <= Spare(start, h, k)
    decreases |h|
  {
    if k < |h| {
      LevelIsLeast(start, h[..|h| - 1], k);
    }
  }

  /** ... and is one of them. */
  lemma {:induction false} LevelIsSpare(start: real, h: seq<Call>) returns (k: nat)
    ensures k <= |h| && After(start, h).tokens == Spare(start, h, k)
    decreases |h|
  {
    if |h| == 0 {
      k := 0;
    } else {
      var init := h[..|h| - 1];
      k := LevelIsSpare(start, init);
      if After(start, h).tokens != Spare(start, h, k) {
        k := |h|;
      }
    }
  }

  /** In numbers: a full bucket, what time has added, less what was used. */
  lemma {:induction false} SpareIsBudget(start: real, h: seq<Call>, k: nat)
    requires k <= |h|
    ensures Spare(start, h, k) ==
            BURST + (After(start, h).refilledAt - After(start, h[..k]).refilledAt) * REFILL_PER_SECOND
            - Used(start, h, k) as real - (if k > 0 && Admitted(start, h[..k]) then 1.0 else 0.0)
    decreases |h|
  {
    if k < |h| {
      var init := h[..|h| - 1];
      SpareIsBudget(start, init, k);
      assert init[..k] == h[..k];
    } else {
      assert h[..k] == h;
    }
  }

  lemma {:induction false} UsedSplits(start: real, h: seq<Call>, i: nat)
    requires i < |h|
    ensures Used(start, h, i) == Used(start, h, i + 1) + (if Admitted(start, h[..i + 1]) then 1 else 0)
                                 - (if h[i].Refund? then 1 else 0)
    decreases |h|
  {
    if i < |h| - 1 {
      var init := h[..|h| - 1];
      UsedSplits(start, init, i);
      assert init[..i + 1] == h[..i + 1];
    } else {
      assert h[..i + 1] == h;
    }
  }

  /** Over any span of calls: admissions less refunds are at most a full bucket and what the
      span's length refills. */
  lemma SpanIsBounded(start: real, h: seq<Call>, i: nat)
    requires Timely(start, h) && i < |h|
    ensures Used(start, h, i) as real <=
            BURST + (After(start, h).refilledAt - After(start, h[..i + 1]).refilledAt) * REFILL_PER_SECOND
  {
    LevelInBounds(start, h);
    LevelIsLeast(start, h, i + 1);
    SpareIsBudget(start, h, i + 1);
    UsedSplits(start, h, i);
  }

  /** A call is denied exactly if, since some point, less than one token is left of a full
      bucket, the time passed and the use made. */
  lemma DenialIsDeserved(start: real, h: seq<Call>, now: real)
    ensures !Admits(After(start, h), now) <==>
            exists k :: 0 <= k <= |h| &&
              Spare(start, h, k) + (now - After(start, h).refilledAt) * REFILL_PER_SECOND < 1.0
  {
    var k := LevelIsSpare(start, h);
    forall i | 0 <= i <= |h|
      ensures After(start, h).tokens <= Spare(start, h, i)
    {
      LevelIsLeast(start, h, i);
    }
  }

  lemma {:induction false} ClockAdvances(start: real, h: seq<Call>, k: nat)
    requires Timely(start, h) && k <= |h|
    ensures After(start, h[..k]).refilledAt <= After(start, h).refilledAt
    decreases |h|
  {
    if k < |h| {
      ClockAdvances(start, h[..|h| - 1], k);
      assert h[..|h| - 1][..k] == h[..k];
    } else {
      assert h[..k] == h;
    }
  }

  /** A peer with at most 19 unrefunded admissions over any span up to now is admitted, however
      fast it calls. */
  lemma RefundedTrafficIsAdmitted(start: real, h: seq<Call>, now: real)
    requires Timely(start, h) && now >= After(start, h).refilledAt
    requires forall i :: 0 <= i <= |h| ==> Used(start, h, i) <= 19
    ensures Admits(After(start, h), now)
  {
    var k := LevelIsSpare(start, h);
    SpareIsBudget(start, h, k);
    ClockAdvances(start, h, k);
    assert Used(start, h, k) <= 19;
    if k > 0 {
      UsedSplits(start, h, k - 1);
      assert Used(start, h, k - 1) <= 19;
    }
  }
}

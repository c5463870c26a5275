/** The sliding-window rate limiter and its two-level use (bzplat/backend/security.py). */
module RateLimiter {

  /** Who a budget belongs to, as the middleware spells it. */
  datatype Key = Key(text: string)

  type Table = map<Key, seq<real>>

  function Ago(now: real, span: real): real {
    now - span
  }

  function Stored(hits: Table, k: Key): seq<real> {
    if k in hits then hits[k] else []
  }

  /** The hits later than `start`, in order. */
  function After(times: seq<real>, start: real): seq<real> {
    if |times| == 0 then []
    else
      var rest := After(times[..|times| - 1], start);
      if times[|times| - 1] > start then rest + [times[|times| - 1]] else rest
  }

  function Earliest(times: seq<real>): real
    requires |times| > 0
  {
    if |times| == 1 then times[0]
    else
      var rest := Earliest(times[..|times| - 1]);
      if times[|times| - 1] < rest then times[|times| - 1] else rest
  }

  function Latest(times: seq<real>): real
    requires |times| > 0
  {
    if |times| == 1 then times[0]
    else
      var rest := Latest(times[..|times| - 1]);
      if times[|times| - 1] > rest then times[|times| - 1] else rest
  }

  /** Drop the buckets without a hit later than `cutoff`. */
  function Cleaned(hits: Table, cutoff: real): Table {
    map k | k in hits && |hits[k]| > 0 && Latest(hits[k]) > cutoff :: hits[k]
  }

  datatype Verdict = Admitted(remaining: int) | TableFull(retry: int) | Limited(retry: int)

  datatype Outcome = Outcome(hits: Table, verdict: Verdict)

  /** The table without the key's bucket if that has run empty. */
  function Trimmed(hits: Table, key: Key, start: real): Table {
    if |After(Stored(hits, key), start)| == 0 then hits - {key} else hits
  }

  /** A new key that finds the table full has the expired buckets reclaimed first. */
  function MadeRoom(hits: Table, maxBuckets: nat, key: Key, cutoff: real): Table {
    if key !in hits && |hits| >= maxBuckets then Cleaned(hits, cutoff) else hits
  }

  /** Seconds until the oldest hit of the window has expired, rounded up. */
  function RetryAfter(bucket: seq<real>, window: real, now: real): int {
    var oldest := if |bucket| > 0 then Earliest(bucket) else now;
    var retry := (oldest + window - now).Floor + 1;
    if retry < 1 then 1 else retry
  }

  function RetryFull(window: real): int {
    if window.Floor < 1 then 1 else window.Floor
  }

  /** One check. `now` and `later` are the two clock readings of the source: one on entry
      and one when the full table is cleaned. */
  function CheckTable(hits: Table, maxBuckets: nat, key: Key, limit: int, window: real, now: real,
                      later: real): Outcome
  {
    var bucket := After(Stored(hits, key), Ago(now, window));
    var kept := Trimmed(hits, key, Ago(now, window));
    var table := MadeRoom(kept, maxBuckets, key, Ago(later, window));
    if key !in kept && |table| >= maxBuckets then
      Outcome(table, TableFull(RetryFull(window)))
    else if |bucket| >= limit then
      Outcome(table[key := bucket], Limited(RetryAfter(bucket, window, now)))
    else
      Outcome(table[key := bucket + [now]], Admitted(limit - (|bucket| + 1)))
  }

  method Prune(stored: seq<real>, start: real) returns (bucket: seq<real>)
    ensures bucket == After(stored, start)
  {
    bucket := [];
    for i := 0 to |stored|
      invariant bucket == After(stored[..i], start)
    {
      assert stored[..i + 1][..i] == stored[..i];
      if stored[i] > start {
        bucket := bucket + [stored[i]];
      }
    }
    assert stored[..|stored|] == stored;
  }

  /** The limiter object: checks and cleanups update the table in place. */
  class InMemoryRateLimiter {
    const maxBuckets: nat
    var hits: Table

    constructor (maxBuckets: nat)
      requires maxBuckets >= 1
      ensures this.maxBuckets == maxBuckets && hits == map[]
    {
      this.maxBuckets, hits := maxBuckets, map[];
    }

    /** Prune the key's bucket and, if the key is new and the table full, reclaim the
        expired buckets. */
    method Reserve(key: Key, window: real, now: real, later: real) returns (bucket: seq<real>, room: bool)
      modifies this
      ensures bucket == After(Stored(old(hits), key), Ago(now, window))
      ensures hits == MadeRoom(Trimmed(old(hits), key, Ago(now, window)), maxBuckets, key, Ago(later, window))
      ensures room <==> key in Trimmed(old(hits), key, Ago(now, window)) || |hits| < maxBuckets
    {
      bucket := Prune(if key in hits then hits[key] else [], Ago(now, window));
      if |bucket| == 0 {
        hits := hits - {key};
      }
      room := true;
      if key !in hits && |hits| >= maxBuckets {
        Cleanup(window, later);
        room := |hits| < maxBuckets;
      }
    }

    method Check(key: Key, limit: int, window: real, now: real, later: real)
      returns (ok: bool, remaining: int, retry: int)
      modifies this
      ensures hits == CheckTable(old(hits), maxBuckets, key, limit, window, now, later).hits
      ensures match CheckTable(old(hits), maxBuckets, key, limit, window, now, later).verdict
              case Admitted(n) => ok && remaining == n && retry == 0
              case TableFull(r) => !ok && remaining == 0 && retry == r
              case Limited(r) => !ok && remaining == 0 && retry == r
    {
      var bucket, room := Reserve(key, window, now, later);
      if !room {
        return false, 0, RetryFull(window);
      }
      if |bucket| >= limit {
        hits := hits[key := bucket];
        return false, 0, RetryAfter(bucket, window, now);
      }
      bucket := bucket + [now];
      hits := hits[key := bucket];
      return true, limit - |bucket|, 0;
    }

    method Cleanup(maxAge: real, now: real)
      modifies this
      ensures hits == Cleaned(old(hits), Ago(now, maxAge))
    {
      var cutoff := Ago(now, maxAge);
      hits := map k | k in hits && |hits[k]| > 0 && Latest(hits[k]) > cutoff :: hits[k];
    }
  }

  // ----- the naive limiter: keep every admitted hit, count when asked

  datatype Hit = Hit(key: Key, time: real)

  /** A key's admitted hits later than `start`. */
  function Recent(history: seq<Hit>, k: Key, start: real): seq<real> {
    if |history| == 0 then []
    else
      var rest := Recent(history[..|history| - 1], k, start);
      var h := history[|history| - 1];
      if h.key == k && h.time > start then rest + [h.time] else rest
  }

  function LiveKeys(history: seq<Hit>, start: real): set<Key> {
    set h | h in history && h.time > start :: h.key
  }

  datatype Decision = Admit | Deny | DenyFull

  function NaiveCheck(history: seq<Hit>, maxBuckets: nat, key: Key, limit: int, window: real, now: real,
                      later: real): Decision
  {
    var count := |Recent(history, key, Ago(now, window))|;
    if count == 0 && |LiveKeys(history, Ago(later, window))| >= maxBuckets then DenyFull
    else if count >= limit then Deny
    else Admit
  }

  function Kept(history: seq<Hit>, d: Decision, key: Key, now: real): seq<Hit> {
    if d == Admit then history + [Hit(key, now)] else history
  }

  // ----- refinement

  /** The table still shows a key's hits later than `start`. */
  ghost predicate ShowsKey(hits: Table, history: seq<Hit>, start: real, k: Key) {
    After(Stored(hits, k), start) == Recent(history, k, start)
  }

  ghost predicate Shows(hits: Table, history: seq<Hit>, start: real) {
    forall k: Key :: ShowsKey(hits, history, start, k)
  }

  lemma AfterAppend(times: seq<real>, t: real, start: real)
    ensures After(times + [t], start) == if t > start then After(times, start) + [t] else After(times, start)
  {
    assert (times + [t])[..|times|] == times;
  }

  lemma {:induction false} AfterTwice(times: seq<real>, a: real, b: real)
    requires a <= b
    ensures After(After(times, a), b) == After(times, b)
  {
    if |times| > 0 {
      AfterTwice(times[..|times| - 1], a, b);
      AfterAppend(After(times[..|times| - 1], a), times[|times| - 1], b);
    }
  }

  lemma RecentAppend(history: seq<Hit>, h: Hit, k: Key, start: real)
    ensures Recent(history + [h], k, start)
         == if h.key == k && h.time > start then Recent(history, k, start) + [h.time] else Recent(history, k, start)
  {
    assert (history + [h])[..|history|] == history;
  }

  lemma {:induction false} RecentAfter(history: seq<Hit>, k: Key, a: real, b: real)
    requires a <= b
    ensures After(Recent(history, k, a), b) == Recent(history, k, b)
  {
    if |history| > 0 {
      var h := history[|history| - 1];
      RecentAfter(history[..|history| - 1], k, a, b);
      AfterAppend(Recent(history[..|history| - 1], k, a), h.time, b);
    }
  }

  /** What is shown stays shown as time passes. */
  lemma ShowsLater(hits: Table, history: seq<Hit>, a: real, b: real)
    requires Shows(hits, history, a) && a <= b
    ensures Shows(hits, history, b)
  {
    forall k: Key
      ensures ShowsKey(hits, history, b, k)
    {
      assert ShowsKey(hits, history, a, k);
      AfterTwice(Stored(hits, k), a, b);
      RecentAfter(history, k, a, b);
    }
  }

  lemma {:induction false} LatestDecides(times: seq<real>, start: real)
    requires |times| > 0
    ensures Latest(times) > start <==> |After(times, start)| > 0
  {
    if |times| > 1 {
      LatestDecides(times[..|times| - 1], start);
    } else {
      assert times[..0] == [];
    }
  }

  /** Cleaning no later than the window starts loses no live hit. */
  lemma CleanedShows(hits: Table, history: seq<Hit>, cutoff: real, start: real)
    requires Shows(hits, history, start) && cutoff <= start
    ensures Shows(Cleaned(hits, cutoff), history, start)
    ensures |Cleaned(hits, cutoff)| <= |hits|
  {
    forall k: Key
      ensures ShowsKey(Cleaned(hits, cutoff), history, start, k)
    {
      assert ShowsKey(hits, history, start, k);
      if k in hits && |hits[k]| > 0 {
        LatestDecides(hits[k], start);
      }
    }
    SubsetSize(Cleaned(hits, cutoff).Keys, hits.Keys);
    assert |hits| == |hits.Keys| && |Cleaned(hits, cutoff)| == |Cleaned(hits, cutoff).Keys|;
  }

  lemma {:induction false} RecentMembers(history: seq<Hit>, k: Key, start: real)
    ensures |Recent(history, k, start)| > 0 <==> k in LiveKeys(history, start)
  {
    if |history| > 0 {
      var h := history[|history| - 1];
      RecentMembers(history[..|history| - 1], k, start);
      assert forall g :: g in history <==> g in history[..|history| - 1] || g == h;
    }
  }

  /** Cleaned where the window starts, the table holds exactly the live keys. */
  lemma CleanedKeys(hits: Table, history: seq<Hit>, start: real)
    requires Shows(hits, history, start)
    ensures Cleaned(hits, start).Keys == LiveKeys(history, start)
    ensures LiveKeys(history, start) <= hits.Keys
  {
    forall k: Key
      ensures k in Cleaned(hits, start).Keys <==> k in LiveKeys(history, start)
      ensures k in LiveKeys(history, start) ==> k in hits.Keys
    {
      RecentMembers(history, k, start);
      assert ShowsKey(hits, history, start, k);
      if k in hits && |hits[k]| > 0 {
        LatestDecides(hits[k], start);
      }
    }
  }

  lemma TrimmedShows(hits: Table, history: seq<Hit>, start: real, key: Key)
    requires Shows(hits, history, start)
    ensures Shows(Trimmed(hits, key, start), history, start)
    ensures key in Trimmed(hits, key, start) <==> |Recent(history, key, start)| > 0
    ensures |Trimmed(hits, key, start)| <= |hits|
  {
    var kept := Trimmed(hits, key, start);
    assert ShowsKey(hits, history, start, key);
    forall k: Key
      ensures ShowsKey(kept, history, start, k)
    {
      assert ShowsKey(hits, history, start, k);
    }
    SubsetSize(kept.Keys, hits.Keys);
    assert |kept| == |kept.Keys| && |hits| == |hits.Keys|;
  }

  /** The bucket a decision leaves behind. */
  function NewBucket(bucket: seq<real>, d: Decision, now: real): seq<real> {
    if d == Admit then bucket + [now] else bucket
  }

  lemma StoredShowsKey(history: seq<Hit>, start: real, later: real, now: real, key: Key, d: Decision)
    requires start <= later
    ensures After(NewBucket(Recent(history, key, start), d, now), later)
         == Recent(Kept(history, d, key, now), key, later)
  {
    RecentAfter(history, key, start, later);
    if d == Admit {
      AfterAppend(Recent(history, key, start), now, later);
      RecentAppend(history, Hit(key, now), key, later);
    }
  }

  lemma KeptElsewhere(history: seq<Hit>, d: Decision, now: real, key: Key, k: Key, start: real)
    requires k != key
    ensures Recent(Kept(history, d, key, now), k, start) == Recent(history, k, start)
  {
    if d == Admit {
      RecentAppend(history, Hit(key, now), k, start);
    }
  }

  /** Storing the pruned bucket, with the new hit if there is one, keeps the table showing
      the history. */
  lemma StoredShows(hits: Table, history: seq<Hit>, start: real, later: real, now: real, key: Key, d: Decision)
    requires Shows(hits, history, later) && start <= later
    ensures Shows(hits[key := NewBucket(Recent(history, key, start), d, now)], Kept(history, d, key, now), later)
  {
    var bucket, after := NewBucket(Recent(history, key, start), d, now), Kept(history, d, key, now);
    var table := hits[key := bucket];
    StoredShowsKey(history, start, later, now, key, d);
    forall k: Key
      ensures ShowsKey(table, after, later, k)
    {
      if k == key {
        assert Stored(table, k) == bucket;
      } else {
        KeptElsewhere(history, d, now, key, k, later);
        assert ShowsKey(hits, history, later, k);
        assert Stored(table, k) == Stored(hits, k);
      }
    }
  }

  function DecisionOf(v: Verdict): Decision {
    match v
    case Admitted(_) => Admit
    case TableFull(_) => DenyFull
    case Limited(_) => Deny
  }

  lemma SubsetSize(a: set<Key>, b: set<Key>)
    requires a <= b
    ensures |a| <= |b|
  {
    assert b == a + (b - a);
  }

  /** Whether the table turns a new key away for lack of room is decided by the live keys. */
  lemma RoomIff(hits: Table, history: seq<Hit>, maxBuckets: nat, key: Key, cutoff: real)
    requires Shows(hits, history, cutoff) && |hits| <= maxBuckets
    ensures
      var table := MadeRoom(hits, maxBuckets, key, cutoff);
      && Shows(table, history, cutoff)
      && |table| <= maxBuckets
      && (key !in hits ==> (|table| >= maxBuckets <==> |LiveKeys(history, cutoff)| >= maxBuckets))
      && (key !in hits && |table| < maxBuckets ==> |table.Keys + {key}| <= maxBuckets)
      && (key in hits ==> table.Keys + {key} == table.Keys)
  {
    var table := MadeRoom(hits, maxBuckets, key, cutoff);
    CleanedKeys(hits, history, cutoff);
    CleanedShows(hits, history, cutoff, cutoff);
    SubsetSize(LiveKeys(history, cutoff), hits.Keys);
    SubsetSize(table.Keys, hits.Keys);
    assert |hits| == |hits.Keys| && |table| == |table.Keys|;
  }

  /** Setting a key's bucket adds at most that key. */
  lemma BucketFits(table: Table, key: Key, maxBuckets: nat)
    requires |table.Keys + {key}| <= maxBuckets
    ensures forall b: seq<real> {:trigger table[key := b]} :: |table[key := b]| <= maxBuckets
  {
    forall b: seq<real> {:trigger table[key := b]}
      ensures |table[key := b]| <= maxBuckets
    {
      assert table[key := b].Keys == table.Keys + {key};
      assert |table[key := b]| == |table[key := b].Keys|;
    }
  }

  /** The trimmed table with room made, against the history, at both moments of a check. */
  lemma RoomFor(hits: Table, history: seq<Hit>, maxBuckets: nat, key: Key, start: real, cutoff: real)
    requires Shows(hits, history, start) && start <= cutoff && |hits| <= maxBuckets
    ensures
      var kept := Trimmed(hits, key, start);
      var table := MadeRoom(kept, maxBuckets, key, cutoff);
      && After(Stored(hits, key), start) == Recent(history, key, start)
      && (key in kept <==> |Recent(history, key, start)| > 0)
      && Shows(table, history, cutoff) && |table| <= maxBuckets
      && (key !in kept ==> (|table| >= maxBuckets <==> |LiveKeys(history, cutoff)| >= maxBuckets))
      && (key in kept || |table| < maxBuckets ==>
            forall b: seq<real> {:trigger table[key := b]} :: |table[key := b]| <= maxBuckets)
  {
    TrimmedShows(hits, history, start, key);
    var kept := Trimmed(hits, key, start);
    ShowsLater(kept, history, start, cutoff);
    RoomIff(kept, history, maxBuckets, key, cutoff);
    assert ShowsKey(hits, history, start, key);
    var table := MadeRoom(kept, maxBuckets, key, cutoff);
    assert |table| == |table.Keys|;
    if key in kept || |table| < maxBuckets {
      BucketFits(table, key, maxBuckets);
    }
  }

  /** One check decides what the naive limiter decides on the same history, and leaves a
      table that shows the history it leaves. */
  lemma CheckRefines(hits: Table, history: seq<Hit>, maxBuckets: nat, key: Key, limit: int, window: real,
                     now: real, later: real)
    requires Shows(hits, history, Ago(now, window)) && now <= later && |hits| <= maxBuckets
    ensures
      var o := CheckTable(hits, maxBuckets, key, limit, window, now, later);
      var d := NaiveCheck(history, maxBuckets, key, limit, window, now, later);
      && DecisionOf(o.verdict) == d
      && Shows(o.hits, Kept(history, d, key, now), Ago(later, window))
      && |o.hits| <= maxBuckets
  {
    var start, cutoff := Ago(now, window), Ago(later, window);
    RoomFor(hits, history, maxBuckets, key, start, cutoff);
    var table := MadeRoom(Trimmed(hits, key, start), maxBuckets, key, cutoff);
    var d := NaiveCheck(history, maxBuckets, key, limit, window, now, later);
    StoredShows(table, history, start, cutoff, now, key, d);
  }

  /** The numbers that go with an answer: what is left, or how long to wait. */
  lemma CheckReports(hits: Table, history: seq<Hit>, maxBuckets: nat, key: Key, limit: int, window: real,
                     now: real, later: real)
    requires Shows(hits, history, Ago(now, window)) && now <= later && |hits| <= maxBuckets
    ensures
      var bucket := Recent(history, key, Ago(now, window));
      match CheckTable(hits, maxBuckets, key, limit, window, now, later).verdict
      case Admitted(remaining) => remaining == limit - |bucket| - 1 >= 0
      case Limited(retry) => retry == RetryAfter(bucket, window, now)
      case TableFull(retry) =>
        bucket == [] && (window >= 1.0 ==> retry as real <= window < retry as real + 1.0)
        && (window < 1.0 ==> retry == 1)
  {
    RoomFor(hits, history, maxBuckets, key, Ago(now, window), Ago(later, window));
  }

  // ----- whole runs

  datatype Call =
    | Check(key: Key, limit: int, now: real, later: real)
    | Cleanup(maxAge: real, now: real)

  function Ends(c: Call): real {
    if c.Check? then c.later else c.now
  }

  predicate InOrder(c: Call, window: real, clock: real) {
    clock <= c.now && if c.Check? then c.now <= c.later else window <= c.maxAge
  }

  /** The clock never goes back, and no cleanup is more eager than the window. */
  predicate Ordered(calls: seq<Call>, window: real, clock: real)
    decreases |calls|
  {
    |calls| > 0 ==> InOrder(calls[0], window, clock) && Ordered(calls[1..], window, Ends(calls[0]))
  }

  function TableStep(hits: Table, maxBuckets: nat, window: real, c: Call): Table {
    match c
    case Check(key, limit, now, later) => CheckTable(hits, maxBuckets, key, limit, window, now, later).hits
    case Cleanup(maxAge, now) => Cleaned(hits, Ago(now, maxAge))
  }

  /** What the table answers, as the naive limiter would put it; a cleanup answers nothing. */
  function TableAnswer(hits: Table, maxBuckets: nat, window: real, c: Call): seq<Decision> {
    match c
    case Check(key, limit, now, later) =>
      [DecisionOf(CheckTable(hits, maxBuckets, key, limit, window, now, later).verdict)]
    case Cleanup(_, _) => []
  }

  function NaiveStep(history: seq<Hit>, maxBuckets: nat, window: real, c: Call): seq<Hit> {
    match c
    case Check(key, limit, now, later) =>
      Kept(history, NaiveCheck(history, maxBuckets, key, limit, window, now, later), key, now)
    case Cleanup(_, _) => history
  }

  function NaiveAnswer(history: seq<Hit>, maxBuckets: nat, window: real, c: Call): seq<Decision> {
    match c
    case Check(key, limit, now, later) => [NaiveCheck(history, maxBuckets, key, limit, window, now, later)]
    case Cleanup(_, _) => []
  }

  function TableRun(hits: Table, maxBuckets: nat, window: real, calls: seq<Call>): (Table, seq<Decision>)
    decreases |calls|
  {
    if |calls| == 0 then (hits, [])
    else
      var rest := TableRun(TableStep(hits, maxBuckets, window, calls[0]), maxBuckets, window, calls[1..]);
      (rest.0, TableAnswer(hits, maxBuckets, window, calls[0]) + rest.1)
  }

  function NaiveRun(history: seq<Hit>, maxBuckets: nat, window: real, calls: seq<Call>): (seq<Hit>, seq<Decision>)
    decreases |calls|
  {
    if |calls| == 0 then (history, [])
    else
      var rest := NaiveRun(NaiveStep(history, maxBuckets, window, calls[0]), maxBuckets, window, calls[1..]);
      (rest.0, NaiveAnswer(history, maxBuckets, window, calls[0]) + rest.1)
  }

  lemma StepRefines(hits: Table, history: seq<Hit>, maxBuckets: nat, window: real, c: Call, clock: real)
    requires Shows(hits, history, Ago(clock, window)) && |hits| <= maxBuckets && InOrder(c, window, clock)
    ensures TableAnswer(hits, maxBuckets, window, c) == NaiveAnswer(history, maxBuckets, window, c)
    ensures Shows(TableStep(hits, maxBuckets, window, c), NaiveStep(history, maxBuckets, window, c),
                  Ago(Ends(c), window))
    ensures |TableStep(hits, maxBuckets, window, c)| <= maxBuckets
  {
    ShowsLater(hits, history, Ago(clock, window), Ago(c.now, window));
    if c.Check? {
      CheckRefines(hits, history, maxBuckets, c.key, c.limit, window, c.now, c.later);
    } else {
      CleanedShows(hits, history, Ago(c.now, c.maxAge), Ago(c.now, window));
    }
  }

  lemma {:induction false} RunRefines(hits: Table, history: seq<Hit>, maxBuckets: nat, window: real,
                                      calls: seq<Call>, clock: real)
    requires Shows(hits, history, Ago(clock, window)) && |hits| <= maxBuckets && Ordered(calls, window, clock)
    ensures TableRun(hits, maxBuckets, window, calls).1 == NaiveRun(history, maxBuckets, window, calls).1
    ensures |TableRun(hits, maxBuckets, window, calls).0| <= maxBuckets
    decreases |calls|
  {
    if |calls| > 0 {
      StepRefines(hits, history, maxBuckets, window, calls[0], clock);
      RunRefines(TableStep(hits, maxBuckets, window, calls[0]), NaiveStep(history, maxBuckets, window, calls[0]),
                 maxBuckets, window, calls[1..], Ends(calls[0]));
    }
  }

  /** From an empty table, the pruned, evicting limiter answers every check as the one that
      keeps every hit forever, table-full refusals included, and never holds more than its
      buckets. */
  lemma LimiterRefinesNaive(hits: Table, history: seq<Hit>, maxBuckets: nat, window: real, calls: seq<Call>,
                            start: real)
    requires hits == map[] && history == [] && Ordered(calls, window, start)
    ensures TableRun(hits, maxBuckets, window, calls).1 == NaiveRun(history, maxBuckets, window, calls).1
    ensures |TableRun(hits, maxBuckets, window, calls).0| <= maxBuckets
  {
    RunRefines(hits, history, maxBuckets, window, calls, start);
  }

  // ----- what the naive limiter promises

  /** How many of a key's admitted hits fall later than `a` and no later than `b`. */
  function Between(history: seq<Hit>, k: Key, a: real, b: real): nat {
    if |history| == 0 then 0
    else
      var h := history[|history| - 1];
      Between(history[..|history| - 1], k, a, b) + (if h.key == k && a < h.time <= b then 1 else 0)
  }

  lemma {:induction false} BetweenAtMostRecent(history: seq<Hit>, k: Key, a: real, b: real, start: real)
    requires start <= a
    ensures Between(history, k, a, b) <= |Recent(history, k, start)|
  {
    if |history| > 0 {
      BetweenAtMostRecent(history[..|history| - 1], k, a, b, start);
    }
  }

  /** Every hit of the key was admitted with fewer than `cap` others in its window. */
  ghost predicate Paced(history: seq<Hit>, k: Key, cap: int, window: real) {
    |history| > 0 ==>
      var before, h := history[..|history| - 1], history[|history| - 1];
      Paced(before, k, cap, window) && (h.key == k ==> |Recent(before, k, Ago(h.time, window))| < cap)
  }

  lemma {:induction false} PacedWindow(history: seq<Hit>, k: Key, cap: int, window: real, a: real)
    requires cap >= 0 && Paced(history, k, cap, window)
    ensures Between(history, k, a, a + window) <= cap
  {
    if |history| > 0 {
      var before, h := history[..|history| - 1], history[|history| - 1];
      PacedWindow(before, k, cap, window, a);
      if h.key == k && a < h.time <= a + window {
        BetweenAtMostRecent(before, k, a, a + window, Ago(h.time, window));
      }
    }
  }

  predicate Capped(c: Call, k: Key, cap: int) {
    c.Check? && c.key == k ==> c.limit <= cap
  }

  lemma NaiveStepPaced(history: seq<Hit>, maxBuckets: nat, window: real, c: Call, k: Key, cap: int)
    requires Paced(history, k, cap, window) && Capped(c, k, cap)
    ensures Paced(NaiveStep(history, maxBuckets, window, c), k, cap, window)
  {
    if c.Check? {
      assert (history + [Hit(c.key, c.now)])[..|history|] == history;
    }
  }

  lemma {:induction false} NaiveRunPaced(history: seq<Hit>, maxBuckets: nat, window: real, calls: seq<Call>,
                                         k: Key, cap: int)
    requires Paced(history, k, cap, window) && forall j :: 0 <= j < |calls| ==> Capped(calls[j], k, cap)
    ensures Paced(NaiveRun(history, maxBuckets, window, calls).0, k, cap, window)
    decreases |calls|
  {
    if |calls| > 0 {
      NaiveStepPaced(history, maxBuckets, window, calls[0], k, cap);
      NaiveRunPaced(NaiveStep(history, maxBuckets, window, calls[0]), maxBuckets, window, calls[1..], k, cap);
    }
  }

  /** No window of any placement ever holds more admitted hits than the key's limit. */
  lemma NoWindowExceeds(maxBuckets: nat, window: real, calls: seq<Call>, k: Key, cap: nat, a: real)
    requires forall j :: 0 <= j < |calls| ==> Capped(calls[j], k, cap)
    ensures Between(NaiveRun([], maxBuckets, window, calls).0, k, a, a + window) <= cap
  {
    NaiveRunPaced([], maxBuckets, window, calls, k, cap);
    PacedWindow(NaiveRun([], maxBuckets, window, calls).0, k, cap, window, a);
  }

  lemma {:induction false} AfterAll(times: seq<real>, start: real)
    requires |times| > 0
    ensures start < Earliest(times) ==> After(times, start) == times
    ensures Earliest(times) <= start ==> |After(times, start)| < |times|
    ensures |After(times, start)| <= |times|
  {
    if |times| > 1 {
      AfterAll(times[..|times| - 1], start);
      assert times == times[..|times| - 1] + [times[|times| - 1]];
    } else {
      assert times[..0] == [];
    }
  }

  /** Waiting the announced seconds outlasts the oldest hit, by at most one second. */
  lemma RetryBounds(bucket: seq<real>, window: real, now: real)
    requires |bucket| > 0 && Earliest(bucket) > Ago(now, window)
    ensures
      var retry := RetryAfter(bucket, window, now) as real;
      now + retry - 1.0 <= Earliest(bucket) + window < now + retry
  {
    var left := Earliest(bucket) + window - now;
    assert left.Floor as real <= left < left.Floor as real + 1.0;
    assert left.Floor >= 0;
  }

  /** The Retry-After of a refusal is right to the second: sooner than a second before it
      the same check is refused again, and from then on, if the key gains no hit in the
      meantime, the limit no longer stands in the way. */
  lemma RetryIsHonest(history: seq<Hit>, maxBuckets: nat, key: Key, limit: int, window: real,
                      now: real, later: real, moment: real, laterMoment: real)
    requires NaiveCheck(history, maxBuckets, key, limit, window, now, later) == Deny
    requires |Recent(history, key, Ago(now, window))| == limit >= 1 && now <= moment
    ensures
      var retry := RetryAfter(Recent(history, key, Ago(now, window)), window, now) as real;
      var again := NaiveCheck(history, maxBuckets, key, limit, window, moment, laterMoment);
      && (moment < now + retry - 1.0 ==> again == Deny)
      && (moment >= now + retry ==> again != Deny)
  {
    var bucket := Recent(history, key, Ago(now, window));
    AllRecent(history, key, Ago(now, window));
    RetryBounds(bucket, window, now);
    RecentAfter(history, key, Ago(now, window), Ago(moment, window));
    AfterAll(bucket, Ago(moment, window));
  }

  lemma {:induction false} AllRecent(history: seq<Hit>, k: Key, start: real)
    ensures |Recent(history, k, start)| > 0 ==> Earliest(Recent(history, k, start)) > start
  {
    if |history| > 0 {
      AllRecent(history[..|history| - 1], k, start);
      var rest, t := Recent(history[..|history| - 1], k, start), history[|history| - 1].time;
      assert (rest + [t])[..|rest|] == rest;
    }
  }

  // ----- the two-level use

  const WINDOW: real := 60.0
  const GLOBAL_LIMIT: int := 600
  const CLEANUP_EVERY: real := 600.0
  const CLEANUP_AGE: real := 3600.0

  const ROTATE: seq<string> := ["api", "local-ai", "agents", "{agent}", "rotate"]
  const VERSIONS: seq<string> := ["api", "bots", "{bot}", "versions"]
  const ATTACHMENTS: seq<string> := ["api", "feedback", "bugs", "{bug}", "attachments"]

  /** A path that is a route's but for a public id in one place. */
  predicate Matches(path: seq<string>, route: seq<string>, id: nat)
    requires id < |route|
  {
    |path| == |route| && |path[id]| > 0 && path[..id] == route[..id] && path[id + 1..] == route[id + 1..]
  }

  /** Rotating public ids of three POST routes share one bucket per address. */
  function BucketPath(verb: string, path: seq<string>): seq<string> {
    if verb == "POST" && Matches(path, ROTATE, 3) then ROTATE
    else if verb == "POST" && Matches(path, VERSIONS, 2) then VERSIONS
    else if verb == "POST" && Matches(path, ATTACHMENTS, 3) then ATTACHMENTS
    else path
  }

  /** Two paths share a bucket exactly if they are one, or one of the three routes with two ids. */
  lemma BucketsAreRoutes(verb: string, p: seq<string>, q: seq<string>)
    ensures BucketPath(verb, p) == BucketPath(verb, q) <==>
              || p == q
              || (verb == "POST" && Matches(p, ROTATE, 3) && Matches(q, ROTATE, 3))
              || (verb == "POST" && Matches(p, VERSIONS, 2) && Matches(q, VERSIONS, 2))
              || (verb == "POST" && Matches(p, ATTACHMENTS, 3) && Matches(q, ATTACHMENTS, 3))
  {
    PatternsApart();
    assert Matches(ROTATE, ROTATE, 3) && Matches(VERSIONS, VERSIONS, 2) && Matches(ATTACHMENTS, ATTACHMENTS, 3);
  }

  lemma PatternsApart()
    ensures ROTATE[4] != ATTACHMENTS[4] && |VERSIONS| == 4 && |ROTATE| == 5 && |ATTACHMENTS| == 5
    ensures ROTATE[4..][0] == ROTATE[4] && ATTACHMENTS[4..][0] == ATTACHMENTS[4]
  {
    assert "rotate"[0] == 'r' && "attachments"[0] == 'a';
  }

  // ----- how keys are spelled

  /** A path from its segments. */
  function PathText(path: seq<string>): string {
    if |path| == 0 then "" else "/" + path[0] + PathText(path[1..])
  }

  function RouteKey(ip: string, verb: string, path: seq<string>): Key {
    Key(ip + [':'] + verb + [':'] + PathText(path))
  }

  /** The budget of everything from one address, spelled like one of its routes. */
  function GlobalKey(ip: string): Key {
    Key(ip + ":*:/api/*")
  }

  /** What an address, a method and a path of a request look like: only an address may hold
      a colon, only a path a slash. */
  predicate Plain(ip: string, verb: string, path: seq<string>) {
    '/' !in ip && '/' !in verb && ':' !in verb && |path| > 0 && forall k :: 0 <= k < |path| ==> '/' !in path[k]
  }

  /** Two texts cut at the first mark are the same cut in two the same way. */
  lemma FirstCut(a: string, x: string, b: string, y: string, mark: char)
    requires a + x == b + y && mark !in a && mark !in b
    requires x == [] || x[0] == mark
    requires y == [] || y[0] == mark
    ensures a == b && x == y
  {
    var s := a + x;
    assert x != [] ==> s[|a|] == mark;
    assert y != [] ==> s[|b|] == mark;
    assert forall k :: 0 <= k < |a| ==> s[k] == a[k] != mark;
    assert forall k :: 0 <= k < |b| ==> s[k] == b[k] != mark;
    assert a == (a + x)[..|a|] && b == (b + y)[..|b|];
    assert x == (a + x)[|a|..] && y == (b + y)[|b|..];
  }

  /** Likewise at the last mark. */
  lemma LastCut(a: string, x: string, b: string, y: string, mark: char)
    requires a + [mark] + x == b + [mark] + y && mark !in x && mark !in y
    ensures a == b && x == y
  {
    var s, t := a + [mark] + x, b + [mark] + y;
    assert s[|a|] == mark && t[|b|] == mark;
    assert forall k :: |a| < k < |s| ==> s[k] == x[k - |a| - 1] != mark;
    assert forall k :: |b| < k < |t| ==> t[k] == y[k - |b| - 1] != mark;
    assert a == s[..|a|] && b == t[..|b|];
    assert x == s[|a| + 1..] && y == t[|b| + 1..];
  }

  lemma {:induction false} PathsApart(p: seq<string>, q: seq<string>)
    requires forall k :: 0 <= k < |p| ==> '/' !in p[k]
    requires forall k :: 0 <= k < |q| ==> '/' !in q[k]
    ensures PathText(p) == PathText(q) <==> p == q
    decreases |p|
  {
    if |p| > 0 && |q| > 0 && PathText(p) == PathText(q) {
      assert p[0] + PathText(p[1..]) == PathText(p)[1..] == PathText(q)[1..] == q[0] + PathText(q[1..]);
      FirstCut(p[0], PathText(p[1..]), q[0], PathText(q[1..]), '/');
      PathsApart(p[1..], q[1..]);
      assert p == [p[0]] + p[1..] && q == [q[0]] + q[1..];
    }
  }

  lemma RouteKeysApart(ip: string, verb: string, path: seq<string>, ip2: string, verb2: string, path2: seq<string>)
    requires Plain(ip, verb, path) && Plain(ip2, verb2, path2)
    ensures RouteKey(ip, verb, path) == RouteKey(ip2, verb2, path2) <==> ip == ip2 && verb == verb2 && path == path2
  {
    if RouteKey(ip, verb, path) == RouteKey(ip2, verb2, path2) {
      var a, b := ip + [':'] + verb + [':'], ip2 + [':'] + verb2 + [':'];
      FirstCut(a, PathText(path), b, PathText(path2), '/');
      FirstDrop(ip + [':'] + verb, ip2 + [':'] + verb2, ':');
      LastCut(ip, verb, ip2, verb2, ':');
      PathsApart(path, path2);
    }
  }

  lemma FirstDrop(a: string, b: string, mark: char)
    requires a + [mark] == b + [mark]
    ensures a == b
  {
    assert a == (a + [mark])[..|a|] && b == (b + [mark])[..|b|];
  }

  const GLOBAL_PATH: seq<string> := ["api", "*"]

  lemma GlobalIsRoute(ip: string)
    ensures GlobalKey(ip) == RouteKey(ip, "*", GLOBAL_PATH)
  {
    assert PathText(GLOBAL_PATH[1..]) == "/*";
    assert PathText(GLOBAL_PATH) == "/api/*";
    assert ip + [':'] + "*" + [':'] + "/api/*" == ip + ":*:/api/*";
  }

  /** The joined keys keep budgets apart: two route keys are one exactly if address, method
      and path are, and a route's key is an address's exactly for that address, with a star
      for the method and one as the path below /api. */
  lemma KeysAreApart(ip: string, verb: string, path: seq<string>, ip2: string, verb2: string, path2: seq<string>)
    requires Plain(ip, verb, path) && Plain(ip2, verb2, path2)
    ensures RouteKey(ip, verb, path) == RouteKey(ip2, verb2, path2) <==> ip == ip2 && verb == verb2 && path == path2
    ensures RouteKey(ip, verb, path) == GlobalKey(ip2) <==> ip == ip2 && verb == "*" && path == GLOBAL_PATH
    ensures GlobalKey(ip) == GlobalKey(ip2) <==> ip == ip2
  {
    GlobalIsRoute(ip);
    GlobalIsRoute(ip2);
    RouteKeysApart(ip, verb, path, ip2, verb2, path2);
    RouteKeysApart(ip, verb, path, ip2, "*", GLOBAL_PATH);
    RouteKeysApart(ip, "*", GLOBAL_PATH, ip2, "*", GLOBAL_PATH);
  }

  /** One limited request, with the clock readings of its cleanup and of its two checks. */
  datatype Request = Request(ip: string, verb: string, path: seq<string>, limit: int,
                             entered: real, global: real, globalLater: real, route: real, routeLater: real)
  {
    function GlobalCheck(): Call {
      Check(GlobalKey(ip), GLOBAL_LIMIT, global, globalLater)
    }

    function RouteCheck(): Call {
      Check(RouteKey(ip, verb, BucketPath(verb, path)), limit, route, routeLater)
    }

    predicate CleansUp(lastCleanup: real) {
      entered - lastCleanup > CLEANUP_EVERY
    }
  }

  datatype Reply = Served | GlobalRefused | RouteRefused

  class RateLimitMiddleware {
    const limiter: InMemoryRateLimiter
    var lastCleanup: real

    constructor (limiter: InMemoryRateLimiter, now: real)
      ensures this.limiter == limiter && lastCleanup == now
    {
      this.limiter, lastCleanup := limiter, now;
    }

    /** `dispatch` for a request that is subject to a limit: spend the address's budget
        first and the route's only if that is granted. */
    method Dispatch(r: Request) returns (reply: Reply)
      modifies this, limiter
      ensures limiter.hits == TableDispatch(old(limiter.hits), limiter.maxBuckets, old(lastCleanup), r).0
      ensures reply == TableDispatch(old(limiter.hits), limiter.maxBuckets, old(lastCleanup), r).1
      ensures lastCleanup == if r.CleansUp(old(lastCleanup)) then r.entered else old(lastCleanup)
    {
      if r.entered - lastCleanup > CLEANUP_EVERY {
        limiter.Cleanup(CLEANUP_AGE, r.entered);
        lastCleanup := r.entered;
      }
      var ok, remaining, retry := limiter.Check(GlobalKey(r.ip), GLOBAL_LIMIT, WINDOW, r.global, r.globalLater);
      if !ok {
        return GlobalRefused;
      }
      ok, remaining, retry := limiter.Check(RouteKey(r.ip, r.verb, BucketPath(r.verb, r.path)), r.limit, WINDOW,
                                            r.route, r.routeLater);
      return if ok then Served else RouteRefused;
    }
  }

  function Tidied(hits: Table, lastCleanup: real, r: Request): Table {
    if r.CleansUp(lastCleanup) then Cleaned(hits, Ago(r.entered, CLEANUP_AGE)) else hits
  }

  function TableDispatch(hits: Table, maxBuckets: nat, lastCleanup: real, r: Request): (Table, Reply) {
    var tidy := Tidied(hits, lastCleanup, r);
    var afterGlobal := TableStep(tidy, maxBuckets, WINDOW, r.GlobalCheck());
    if TableAnswer(tidy, maxBuckets, WINDOW, r.GlobalCheck()) != [Admit] then (afterGlobal, GlobalRefused)
    else
      (TableStep(afterGlobal, maxBuckets, WINDOW, r.RouteCheck()),
       if TableAnswer(afterGlobal, maxBuckets, WINDOW, r.RouteCheck()) == [Admit] then Served else RouteRefused)
  }

  function NaiveDispatch(history: seq<Hit>, maxBuckets: nat, r: Request): (seq<Hit>, Reply) {
    var afterGlobal := NaiveStep(history, maxBuckets, WINDOW, r.GlobalCheck());
    if NaiveAnswer(history, maxBuckets, WINDOW, r.GlobalCheck()) != [Admit] then (afterGlobal, GlobalRefused)
    else
      (NaiveStep(afterGlobal, maxBuckets, WINDOW, r.RouteCheck()),
       if NaiveAnswer(afterGlobal, maxBuckets, WINDOW, r.RouteCheck()) == [Admit] then Served else RouteRefused)
  }

  /** The room a key finds: some hit of its own in the window, or fewer live keys than buckets. */
  predicate HasRoom(history: seq<Hit>, maxBuckets: nat, key: Key, now: real, later: real) {
    |Recent(history, key, now - 60.0)| > 0 || |LiveKeys(history, later - 60.0)| < maxBuckets
  }

  /** A request is served exactly if its address has fewer than 600 hits in the last minute and
      its route fewer than its limit, and both find room; the first decides for itself, and an
      address's hit is spent whatever the route says. */
  lemma ServedIff(history: seq<Hit>, maxBuckets: nat, r: Request)
    ensures
      var address, route := GlobalKey(r.ip), RouteKey(r.ip, r.verb, BucketPath(r.verb, r.path));
      var spent := history + [Hit(address, r.global)];
      var reply := NaiveDispatch(history, maxBuckets, r).1;
      var passes := |Recent(history, address, r.global - 60.0)| < 600
                    && HasRoom(history, maxBuckets, address, r.global, r.globalLater);
      && (reply == GlobalRefused <==> !passes)
      && (reply == Served <==> passes && |Recent(spent, route, r.route - 60.0)| < r.limit
                               && HasRoom(spent, maxBuckets, route, r.route, r.routeLater))
      && NaiveDispatch(history, maxBuckets, r).0 ==
         (if reply == GlobalRefused then history else if reply == RouteRefused then spent
          else spent + [Hit(route, r.route)])
  {
  }

  predicate RequestInOrder(r: Request, clock: real) {
    clock <= r.entered <= r.global <= r.globalLater <= r.route <= r.routeLater
  }

  lemma TidiedShows(hits: Table, history: seq<Hit>, maxBuckets: nat, lastCleanup: real, r: Request, clock: real)
    requires Shows(hits, history, Ago(clock, WINDOW)) && |hits| <= maxBuckets && clock <= r.entered
    ensures Shows(Tidied(hits, lastCleanup, r), history, Ago(r.entered, WINDOW))
    ensures |Tidied(hits, lastCleanup, r)| <= maxBuckets
  {
    ShowsLater(hits, history, Ago(clock, WINDOW), Ago(r.entered, WINDOW));
    if r.CleansUp(lastCleanup) {
      StepRefines(hits, history, maxBuckets, WINDOW, Cleanup(CLEANUP_AGE, r.entered), clock);
    }
  }

  lemma DispatchRefines(hits: Table, history: seq<Hit>, maxBuckets: nat, lastCleanup: real, r: Request, clock: real)
    requires Shows(hits, history, Ago(clock, WINDOW)) && |hits| <= maxBuckets && RequestInOrder(r, clock)
    ensures
      var table, naive := TableDispatch(hits, maxBuckets, lastCleanup, r), NaiveDispatch(history, maxBuckets, r);
      table.1 == naive.1 && |table.0| <= maxBuckets && Shows(table.0, naive.0, Ago(r.routeLater, WINDOW))
  {
    TidiedShows(hits, history, maxBuckets, lastCleanup, r, clock);
    var tidy := Tidied(hits, lastCleanup, r);
    StepRefines(tidy, history, maxBuckets, WINDOW, r.GlobalCheck(), r.entered);
    var afterGlobal := TableStep(tidy, maxBuckets, WINDOW, r.GlobalCheck());
    var spent := NaiveStep(history, maxBuckets, WINDOW, r.GlobalCheck());
    StepRefines(afterGlobal, spent, maxBuckets, WINDOW, r.RouteCheck(), r.globalLater);
    ShowsLater(afterGlobal, spent, Ago(r.globalLater, WINDOW), Ago(r.routeLater, WINDOW));
  }

  /** Replies of the middleware and of the naive limiter over a sequence of requests. */
  function TableReplies(hits: Table, maxBuckets: nat, lastCleanup: real, rs: seq<Request>): seq<Reply>
    decreases |rs|
  {
    if |rs| == 0 then []
    else
      var d := TableDispatch(hits, maxBuckets, lastCleanup, rs[0]);
      [d.1] + TableReplies(d.0, maxBuckets, if rs[0].CleansUp(lastCleanup) then rs[0].entered else lastCleanup, rs[1..])
  }

  function NaiveReplies(history: seq<Hit>, maxBuckets: nat, rs: seq<Request>): (seq<Hit>, seq<Reply>)
    decreases |rs|
  {
    if |rs| == 0 then (history, [])
    else
      var d := NaiveDispatch(history, maxBuckets, rs[0]);
      var rest := NaiveReplies(d.0, maxBuckets, rs[1..]);
      (rest.0, [d.1] + rest.1)
  }

  predicate RequestsInOrder(rs: seq<Request>, clock: real)
    decreases |rs|
  {
    |rs| > 0 ==> RequestInOrder(rs[0], clock) && RequestsInOrder(rs[1..], rs[0].routeLater)
  }

  lemma {:induction false} RepliesRefine(hits: Table, history: seq<Hit>, maxBuckets: nat, lastCleanup: real,
                                         rs: seq<Request>, clock: real)
    requires Shows(hits, history, Ago(clock, WINDOW)) && |hits| <= maxBuckets && RequestsInOrder(rs, clock)
    ensures TableReplies(hits, maxBuckets, lastCleanup, rs) == NaiveReplies(history, maxBuckets, rs).1
    decreases |rs|
  {
    if |rs| > 0 {
      DispatchRefines(hits, history, maxBuckets, lastCleanup, rs[0], clock);
      RepliesRefine(TableDispatch(hits, maxBuckets, lastCleanup, rs[0]).0, NaiveDispatch(history, maxBuckets, rs[0]).0,
                    maxBuckets, if rs[0].CleansUp(lastCleanup) then rs[0].entered else lastCleanup, rs[1..],
                    rs[0].routeLater);
    }
  }

  /** `cap` is no smaller than any limit the key is checked against. */
  predicate AllCapped(rs: seq<Request>, k: Key, cap: int) {
    forall r :: r in rs ==> Capped(r.GlobalCheck(), k, cap) && Capped(r.RouteCheck(), k, cap)
  }

  lemma {:induction false} RepliesPaced(history: seq<Hit>, maxBuckets: nat, rs: seq<Request>, k: Key, cap: int)
    requires Paced(history, k, cap, WINDOW)
    requires AllCapped(rs, k, cap)
    ensures Paced(NaiveReplies(history, maxBuckets, rs).0, k, cap, WINDOW)
    decreases |rs|
  {
    if |rs| > 0 {
      var spent := NaiveStep(history, maxBuckets, WINDOW, rs[0].GlobalCheck());
      NaiveStepPaced(history, maxBuckets, WINDOW, rs[0].GlobalCheck(), k, cap);
      NaiveStepPaced(spent, maxBuckets, WINDOW, rs[0].RouteCheck(), k, cap);
      RepliesPaced(NaiveDispatch(history, maxBuckets, rs[0]).0, maxBuckets, rs[1..], k, cap);
    }
  }

  /** The served requests that passed the key's check later than `a` and no later than `b`. */
  function ServedBetween(rs: seq<Request>, replies: seq<Reply>, k: Key, a: real, b: real): nat
    requires |replies| == |rs|
    decreases |rs|
  {
    if |rs| == 0 then 0
    else
      var r := rs[0];
      ServedBetween(rs[1..], replies[1..], k, a, b)
      + (if replies[0] == Served && r.GlobalCheck().key == k && a < r.global <= b then 1 else 0)
      + (if replies[0] == Served && r.RouteCheck().key == k && a < r.route <= b then 1 else 0)
  }

  lemma {:induction false} ServedAreHits(history: seq<Hit>, maxBuckets: nat, rs: seq<Request>, k: Key, a: real, b: real)
    ensures |NaiveReplies(history, maxBuckets, rs).1| == |rs|
    ensures Between(history, k, a, b) + ServedBetween(rs, NaiveReplies(history, maxBuckets, rs).1, k, a, b)
         <= Between(NaiveReplies(history, maxBuckets, rs).0, k, a, b)
    decreases |rs|
  {
    if |rs| > 0 {
      var d := NaiveDispatch(history, maxBuckets, rs[0]);
      var spent := NaiveStep(history, maxBuckets, WINDOW, rs[0].GlobalCheck());
      ServedAreHits(d.0, maxBuckets, rs[1..], k, a, b);
      assert NaiveReplies(history, maxBuckets, rs).1[1..] == NaiveReplies(d.0, maxBuckets, rs[1..]).1;
      BetweenGrows(history, maxBuckets, rs[0].GlobalCheck(), k, a, b);
      BetweenGrows(spent, maxBuckets, rs[0].RouteCheck(), k, a, b);
    }
  }

  lemma BetweenGrows(history: seq<Hit>, maxBuckets: nat, c: Call, k: Key, a: real, b: real)
    requires c.Check?
    ensures Between(NaiveStep(history, maxBuckets, WINDOW, c), k, a, b)
         == Between(history, k, a, b)
            + (if NaiveAnswer(history, maxBuckets, WINDOW, c) == [Admit] && c.key == k && a < c.now <= b then 1 else 0)
  {
    assert (history + [Hit(c.key, c.now)])[..|history|] == history;
  }

  /** What the naive middleware serves keeps to the budget. */
  lemma NaiveBudgetsHold(history: seq<Hit>, maxBuckets: nat, rs: seq<Request>, k: Key, cap: nat, a: real)
    requires Paced(history, k, cap, WINDOW) && AllCapped(rs, k, cap)
    ensures |NaiveReplies(history, maxBuckets, rs).1| == |rs|
    ensures ServedBetween(rs, NaiveReplies(history, maxBuckets, rs).1, k, a, a + WINDOW) <= cap
  {
    RepliesPaced(history, maxBuckets, rs, k, cap);
    PacedWindow(NaiveReplies(history, maxBuckets, rs).0, k, cap, WINDOW, a);
    ServedAreHits(history, maxBuckets, rs, k, a, a + WINDOW);
  }

  /** Over every sequence of requests, from an empty table, the middleware replies as the naive
      two-level limiter does, and in every window of sixty seconds an address is served at most
      600 times and a route of it at most as often as its own limit. */
  lemma BudgetsHold(hits: Table, history: seq<Hit>, maxBuckets: nat, lastCleanup: real, rs: seq<Request>, start: real,
                    k: Key, cap: nat, a: real)
    requires hits == map[] && history == []
    requires RequestsInOrder(rs, start) && AllCapped(rs, k, cap)
    ensures |TableReplies(hits, maxBuckets, lastCleanup, rs)| == |rs|
    ensures TableReplies(hits, maxBuckets, lastCleanup, rs) == NaiveReplies(history, maxBuckets, rs).1
    ensures ServedBetween(rs, TableReplies(hits, maxBuckets, lastCleanup, rs), k, a, a + WINDOW) <= cap
  {
    RepliesRefine(hits, history, maxBuckets, lastCleanup, rs, start);
    NaiveBudgetsHold(history, maxBuckets, rs, k, cap, a);
  }

  // ----- budgets by address, method and path

  /** Two paths are one route: the same, or one of the three patterns with two ids. */
  predicate OneRoute(verb: string, p: seq<string>, q: seq<string>) {
    || p == q
    || (verb == "POST" && Matches(p, ROTATE, 3) && Matches(q, ROTATE, 3))
    || (verb == "POST" && Matches(p, VERSIONS, 2) && Matches(q, VERSIONS, 2))
    || (verb == "POST" && Matches(p, ATTACHMENTS, 3) && Matches(q, ATTACHMENTS, 3))
  }

  /** A request for a route of an address. */
  predicate IsFor(r: Request, ip: string, verb: string, path: seq<string>) {
    r.ip == ip && r.verb == verb && OneRoute(verb, r.path, path)
  }

  /** The requests for a route served later than `a` and no later than `b`. */
  function ServedFor(rs: seq<Request>, replies: seq<Reply>, ip: string, verb: string, path: seq<string>, a: real,
                     b: real): nat
    requires |replies| == |rs|
    decreases |rs|
  {
    if |rs| == 0 then 0
    else
      ServedFor(rs[1..], replies[1..], ip, verb, path, a, b)
      + (if replies[0] == Served && IsFor(rs[0], ip, verb, path) && a < rs[0].route <= b then 1 else 0)
  }

  /** The requests of an address served later than `a` and no later than `b`. */
  function ServedTo(rs: seq<Request>, replies: seq<Reply>, ip: string, a: real, b: real): nat
    requires |replies| == |rs|
    decreases |rs|
  {
    if |rs| == 0 then 0
    else
      ServedTo(rs[1..], replies[1..], ip, a, b)
      + (if replies[0] == Served && rs[0].ip == ip && a < rs[0].global <= b then 1 else 0)
  }

  predicate AllPlain(rs: seq<Request>) {
    forall r :: r in rs ==> Plain(r.ip, r.verb, r.path)
  }

  /** Collapsing an id keeps a path plain. */
  lemma BucketIsPlain(ip: string, verb: string, path: seq<string>)
    requires Plain(ip, verb, path)
    ensures Plain(ip, verb, BucketPath(verb, path))
  {
    assert '/' !in "api" && '/' !in "local-ai" && '/' !in "agents" && '/' !in "{agent}" && '/' !in "rotate";
    assert '/' !in "bots" && '/' !in "{bot}" && '/' !in "versions";
    assert '/' !in "feedback" && '/' !in "bugs" && '/' !in "{bug}" && '/' !in "attachments";
  }

  /** The text of a path is a pattern's but for a public id: there is one, and it has no slash. */
  ghost predicate Spells(text: string, before: string, after: string) {
    exists id: string :: |id| > 0 && '/' !in id && text == before + id + after
  }

  predicate PlainPath(path: seq<string>) {
    forall k :: 0 <= k < |path| ==> '/' !in path[k]
  }

  lemma {:induction false} PathTextSplit(p: seq<string>, q: seq<string>)
    ensures PathText(p + q) == PathText(p) + PathText(q)
    decreases |p|
  {
    if |p| == 0 {
      assert p + q == q;
    } else {
      assert (p + q)[1..] == p[1..] + q;
      PathTextSplit(p[1..], q);
    }
  }

  lemma TextAround(a: seq<string>, x: string, b: seq<string>)
    ensures PathText(a + [x] + b) == PathText(a) + "/" + x + PathText(b)
  {
    PathTextSplit(a + [x], b);
    PathTextSplit(a, [x]);
    OneSegment(x);
    Joined(PathText(a), "/", x, PathText(b));
  }

  lemma Joined(a: string, b: string, c: string, d: string)
    ensures a + (b + c) + d == a + b + c + d
  {
  }

  lemma TextOfMatch(path: seq<string>, route: seq<string>, id: nat)
    requires PlainPath(path) && id < |route| && Matches(path, route, id)
    ensures Spells(PathText(path), PathText(route[..id]) + "/", PathText(route[id + 1..]))
  {
    assert path == path[..id] + [path[id]] + path[id + 1..];
    TextAround(path[..id], path[id], path[id + 1..]);
  }

  lemma Rebuilt(route: seq<string>, id: nat, x: string, other: seq<string>)
    requires PlainPath(route) && id < |route| && |x| > 0 && '/' !in x
    requires other == route[..id] + [x] + route[id + 1..]
    ensures PlainPath(other) && Matches(other, route, id)
  {
    assert other[..id] == route[..id] && other[id + 1..] == route[id + 1..];
  }

  lemma MatchOfText(path: seq<string>, route: seq<string>, id: nat)
    requires PlainPath(path) && PlainPath(route) && id < |route|
    requires Spells(PathText(path), PathText(route[..id]) + "/", PathText(route[id + 1..]))
    ensures Matches(path, route, id)
  {
    var before, after := PathText(route[..id]) + "/", PathText(route[id + 1..]);
    var x: string :| |x| > 0 && '/' !in x && PathText(path) == before + x + after;
    var other := route[..id] + [x] + route[id + 1..];
    Rebuilt(route, id, x, other);
    TextAround(route[..id], x, route[id + 1..]);
    PathsApart(path, other);
  }

  /** A path is a route's but for an id exactly if its text is. */
  lemma MatchesText(path: seq<string>, route: seq<string>, id: nat, before: string, after: string)
    requires PlainPath(path) && PlainPath(route) && id < |route|
    requires before == PathText(route[..id]) + "/" && after == PathText(route[id + 1..])
    ensures Matches(path, route, id) <==> Spells(PathText(path), before, after)
  {
    if Matches(path, route, id) {
      TextOfMatch(path, route, id);
    } else if Spells(PathText(path), before, after) {
      MatchOfText(path, route, id);
    }
  }

  lemma OneSegment(a: string)
    ensures PathText([a]) == "/" + a
  {
    assert [a][1..] == [];
  }

  lemma TwoSegments(a: string, b: string, path: seq<string>)
    requires path == [a] + [b]
    ensures PathText(path) == "/" + a + ("/" + b)
  {
    OneSegment(a);
    OneSegment(b);
    PathTextSplit([a], [b]);
  }

  lemma ThreeSegments(a: string, b: string, c: string, path: seq<string>)
    requires path == [a] + [b] + [c]
    ensures PathText(path) == "/" + a + ("/" + b) + ("/" + c)
  {
    TwoSegments(a, b, [a] + [b]);
    OneSegment(c);
    PathTextSplit([a] + [b], [c]);
  }

  lemma RotateTexts(before: string, after: string)
    requires before == "/api/local-ai/agents/" && after == "/rotate"
    ensures PlainPath(ROTATE) && PathText(ROTATE[..3]) + "/" == before && PathText(ROTATE[4..]) == after
  {
    ThreeSegments("api", "local-ai", "agents", ROTATE[..3]);
    OneSegment("rotate");
    assert ROTATE[4..] == ["rotate"];
  }

  lemma VersionsTexts(before: string, after: string)
    requires before == "/api/bots/" && after == "/versions"
    ensures PlainPath(VERSIONS) && PathText(VERSIONS[..2]) + "/" == before && PathText(VERSIONS[3..]) == after
  {
    TwoSegments("api", "bots", VERSIONS[..2]);
    OneSegment("versions");
    assert VERSIONS[3..] == ["versions"];
  }

  lemma AttachmentsTexts(before: string, after: string)
    requires before == "/api/feedback/bugs/" && after == "/attachments"
    ensures PlainPath(ATTACHMENTS) && PathText(ATTACHMENTS[..3]) + "/" == before && PathText(ATTACHMENTS[4..]) == after
  {
    ThreeSegments("api", "feedback", "bugs", ATTACHMENTS[..3]);
    OneSegment("attachments");
    assert ATTACHMENTS[4..] == ["attachments"];
  }

  /** The three routes whose ids do not count are those of token rotations, new Bot versions and
      attachments to bug reports, by the text of the path. */
  lemma RoutesByText(path: seq<string>)
    requires PlainPath(path)
    ensures Matches(path, ROTATE, 3) <==> Spells(PathText(path), "/api/local-ai/agents/", "/rotate")
    ensures Matches(path, VERSIONS, 2) <==> Spells(PathText(path), "/api/bots/", "/versions")
    ensures Matches(path, ATTACHMENTS, 3) <==> Spells(PathText(path), "/api/feedback/bugs/", "/attachments")
  {
    var rotate, versions, attachments := "/api/local-ai/agents/", "/api/bots/", "/api/feedback/bugs/";
    RotateTexts(rotate, "/rotate");
    VersionsTexts(versions, "/versions");
    AttachmentsTexts(attachments, "/attachments");
    MatchesText(path, ROTATE, 3, rotate, "/rotate");
    MatchesText(path, VERSIONS, 2, versions, "/versions");
    MatchesText(path, ATTACHMENTS, 3, attachments, "/attachments");
  }

  /** A request is checked under a route's key exactly if it is for that route. */
  lemma RouteKeyIff(r: Request, ip: string, verb: string, path: seq<string>)
    requires Plain(r.ip, r.verb, r.path) && Plain(ip, verb, path)
    ensures r.RouteCheck().key == RouteKey(ip, verb, BucketPath(verb, path)) <==> IsFor(r, ip, verb, path)
  {
    BucketIsPlain(r.ip, r.verb, r.path);
    BucketIsPlain(ip, verb, path);
    KeysAreApart(r.ip, r.verb, BucketPath(r.verb, r.path), ip, verb, BucketPath(verb, path));
    BucketsAreRoutes(verb, r.path, path);
  }

  lemma {:induction false} ServedForIsCounted(rs: seq<Request>, replies: seq<Reply>, ip: string, verb: string,
                                              path: seq<string>, a: real, b: real)
    requires |replies| == |rs| && AllPlain(rs) && Plain(ip, verb, path)
    ensures ServedFor(rs, replies, ip, verb, path, a, b)
         <= ServedBetween(rs, replies, RouteKey(ip, verb, BucketPath(verb, path)), a, b)
    decreases |rs|
  {
    if |rs| > 0 {
      RouteKeyIff(rs[0], ip, verb, path);
      ServedForIsCounted(rs[1..], replies[1..], ip, verb, path, a, b);
    }
  }

  lemma {:induction false} ServedToIsCounted(rs: seq<Request>, replies: seq<Reply>, ip: string, a: real, b: real)
    requires |replies| == |rs|
    ensures ServedTo(rs, replies, ip, a, b) <= ServedBetween(rs, replies, GlobalKey(ip), a, b)
    decreases |rs|
  {
    if |rs| > 0 {
      ServedToIsCounted(rs[1..], replies[1..], ip, a, b);
    }
  }

  /** Over every sequence of requests, from an empty table: in every window of sixty seconds the
      requests served for one route of an address, whatever the ids in their paths, number at
      most the largest limit they carry. */
  lemma RouteBudgetsHold(hits: Table, maxBuckets: nat, lastCleanup: real, rs: seq<Request>, start: real,
                         ip: string, verb: string, path: seq<string>, cap: nat, a: real)
    requires hits == map[] && RequestsInOrder(rs, start) && AllPlain(rs) && Plain(ip, verb, path)
    requires forall r :: r in rs && IsFor(r, ip, verb, path) ==> r.limit <= cap
    requires verb == "*" && path == GLOBAL_PATH ==> GLOBAL_LIMIT <= cap
    ensures |TableReplies(hits, maxBuckets, lastCleanup, rs)| == |rs|
    ensures ServedFor(rs, TableReplies(hits, maxBuckets, lastCleanup, rs), ip, verb, path, a, a + 60.0) <= cap
  {
    var k := RouteKey(ip, verb, BucketPath(verb, path));
    BucketIsPlain(ip, verb, path);
    forall r | r in rs
      ensures Capped(r.GlobalCheck(), k, cap) && Capped(r.RouteCheck(), k, cap)
    {
      RouteKeyIff(r, ip, verb, path);
      KeysAreApart(ip, verb, BucketPath(verb, path), r.ip, r.verb, r.path);
    }
    BudgetsHold(hits, [], maxBuckets, lastCleanup, rs, start, k, cap, a);
    ServedForIsCounted(rs, TableReplies(hits, maxBuckets, lastCleanup, rs), ip, verb, path, a, a + 60.0);
  }

  /** And all the requests served to one address number at most 600. */
  lemma AddressBudgetHolds(hits: Table, maxBuckets: nat, lastCleanup: real, rs: seq<Request>, start: real,
                           ip: string, a: real)
    requires hits == map[] && RequestsInOrder(rs, start) && AllPlain(rs) && '/' !in ip
    requires forall r :: r in rs && IsFor(r, ip, "*", GLOBAL_PATH) ==> r.limit <= 600
    ensures |TableReplies(hits, maxBuckets, lastCleanup, rs)| == |rs|
    ensures ServedTo(rs, TableReplies(hits, maxBuckets, lastCleanup, rs), ip, a, a + 60.0) <= 600
  {
    assert Plain(ip, "*", GLOBAL_PATH);
    GlobalIsRoute(ip);
    forall r | r in rs
      ensures Capped(r.GlobalCheck(), GlobalKey(ip), 600) && Capped(r.RouteCheck(), GlobalKey(ip), 600)
    {
      RouteKeyIff(r, ip, "*", GLOBAL_PATH);
    }
    BudgetsHold(hits, [], maxBuckets, lastCleanup, rs, start, GlobalKey(ip), 600, a);
    ServedToIsCounted(rs, TableReplies(hits, maxBuckets, lastCleanup, rs), ip, a, a + 60.0);
  }
}

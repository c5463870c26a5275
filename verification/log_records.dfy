/** Grouping and selecting log records for the administrators' log page
    (bzplat/backend/api_routes.py). What a header line is, and which lines hit the keyword,
    are parameters. */
module LogRecords {

  datatype Option<T> = None | Some(value: T)

  /** A record: its level, if it has a header, and its lines. */
  datatype Record = Record(level: Option<string>, lines: seq<string>)

  /** The level in a line's header, if the line is a header. */
  type Header = string -> Option<string>

  const TAIL_LINES: nat := 8000
  const MAX_LIMIT: int := 2000

  /** A line without the carriage returns and line feeds at its end. */
  function Strip(line: string): (r: string)
    ensures r <= line && (forall i :: |r| <= i < |line| ==> line[i] in {'\r', '\n'})
    ensures |r| > 0 ==> r[|r| - 1] !in {'\r', '\n'}
  {
    if |line| > 0 && line[|line| - 1] in {'\r', '\n'} then Strip(line[..|line| - 1]) else line
  }

  function Stripped(raw: seq<string>): seq<string> {
    if |raw| == 0 then [] else Stripped(raw[..|raw| - 1]) + [Strip(raw[|raw| - 1])]
  }

  function Flatten(records: seq<Record>): seq<string> {
    if |records| == 0 then [] else Flatten(records[..|records| - 1]) + records[|records| - 1].lines
  }

  /** A levelled record starts with its header and has no other; one without is a single line. */
  ghost predicate WellFormed(header: Header, r: Record) {
    && |r.lines| > 0 && header(r.lines[0]) == r.level
    && (r.level.None? ==> |r.lines| == 1)
    && (r.level.Some? ==> forall i :: 0 < i < |r.lines| ==> header(r.lines[i]).None?)
  }

  /** Well-formed records, those without a header before all others. */
  ghost predicate Grouped(header: Header, records: seq<Record>) {
    && (forall i :: 0 <= i < |records| ==> WellFormed(header, records[i]))
    && (forall i, j :: 0 <= i < j < |records| && records[i].level.Some? ==> records[j].level.Some?)
  }

  /** One more line: a new record, or a continuation of the last. */
  function Extended(header: Header, records: seq<Record>, line: string): seq<Record> {
    var n := |records|;
    if header(line).Some? then records + [Record(header(line), [line])]
    else if n > 0 && records[n - 1].level.Some? then
      records[..n - 1] + [Record(records[n - 1].level, records[n - 1].lines + [line])]
    else records + [Record(None, [line])]
  }

  lemma AppendIsGrouped(header: Header, records: seq<Record>, r: Record)
    requires Grouped(header, records) && WellFormed(header, r)
    requires |records| > 0 && records[|records| - 1].level.Some? ==> r.level.Some?
    ensures Grouped(header, records + [r])
    ensures Flatten(records + [r]) == Flatten(records) + r.lines
  {
    var more := records + [r];
    assert more[..|records|] == records;
    forall i, j | 0 <= i < j < |more| && more[i].level.Some?
      ensures more[j].level.Some?
    {
      if j == |records| && i < j - 1 {
        assert records[j - 1].level.Some?;
      }
    }
  }

  lemma InitIsGrouped(header: Header, a: seq<Record>)
    requires Grouped(header, a) && |a| > 0
    ensures Grouped(header, a[..|a| - 1])
  {
  }

  lemma LongerRecord(header: Header, r: Record, line: string)
    ensures WellFormed(header, r) && r.level.Some? && header(line).None? ==>
              WellFormed(header, Record(r.level, r.lines + [line]))
  {
  }

  /** A line that continues the last record. */
  lemma ContinuedIsGrouped(header: Header, init: seq<Record>, last: Record, line: string)
    requires Grouped(header, init + [last]) && last.level.Some? && header(line).None?
    ensures Grouped(header, init + [Record(last.level, last.lines + [line])])
    ensures Flatten(init + [Record(last.level, last.lines + [line])]) == Flatten(init + [last]) + [line]
  {
    var records, r := init + [last], Record(last.level, last.lines + [line]);
    assert records[|init|] == last && records[..|init|] == init;
    LongerRecord(header, last, line);
    InitIsGrouped(header, records);
    AppendIsGrouped(header, init, r);
    assert Flatten(init) + (last.lines + [line]) == (Flatten(init) + last.lines) + [line];
  }

  lemma ExtendedIsGrouped(header: Header, records: seq<Record>, line: string)
    requires Grouped(header, records)
    ensures Grouped(header, Extended(header, records, line))
    ensures Flatten(Extended(header, records, line)) == Flatten(records) + [line]
  {
    var n := |records|;
    if header(line).None? && n > 0 && records[n - 1].level.Some? {
      var init, last := records[..n - 1], records[n - 1];
      assert records == init + [last];
      ContinuedIsGrouped(header, init, last, line);
      assert Extended(header, records, line) == init + [Record(last.level, last.lines + [line])];
    } else {
      AppendIsGrouped(header, records, Record(header(line), [line]));
    }
  }

  lemma StrippedStep(raw: seq<string>, i: nat)
    requires i < |raw|
    ensures Stripped(raw[..i + 1]) == Stripped(raw[..i]) + [Strip(raw[i])]
  {
    assert raw[..i + 1][..i] == raw[..i];
  }

  /** The records hold the stripped lines, all of them and in order. */
  method GroupLogRecords(header: Header, raw: seq<string>) returns (records: seq<Record>)
    ensures Grouped(header, records)
    ensures Flatten(records) == Stripped(raw)
  {
    records := [];
    for i := 0 to |raw|
      invariant Grouped(header, records)
      invariant Flatten(records) == Stripped(raw[..i])
    {
      var line := Strip(raw[i]);
      StrippedStep(raw, i);
      ExtendedIsGrouped(header, records, line);
      records := AddLine(header, records, line);
    }
    assert raw[..|raw|] == raw;
  }

  method AddLine(header: Header, records: seq<Record>, line: string) returns (more: seq<Record>)
    ensures more == Extended(header, records, line)
  {
    var n := |records|;
    if header(line).Some? {
      more := records + [Record(header(line), [line])];
    } else if n > 0 && records[n - 1].level.Some? {
      var last := records[n - 1];
      more := records[n - 1 := last.(lines := last.lines + [line])];
    } else {
      more := records + [Record(None, [line])];
    }
  }

  // ----- the grouping is the only one

  /** When the last record has no header, no line is a header. */
  lemma {:induction false} NoHeaders(header: Header, a: seq<Record>, k: nat)
    requires Grouped(header, a) && |a| > 0 && a[|a| - 1].level.None? && k < |Flatten(a)|
    ensures header(Flatten(a)[k]).None?
    decreases |a|
  {
    var init := a[..|a| - 1];
    assert WellFormed(header, a[|a| - 1]);
    if k < |Flatten(init)| {
      assert init != [];
      assert forall i :: 0 <= i < |init| ==> init[i] == a[i];
      NoHeaders(header, init, k);
    }
  }

  /** Two groupings of the same lines cannot have last records of different lengths. */
  lemma LastRecord(header: Header, a: seq<Record>, b: seq<Record>)
    requires Grouped(header, a) && Grouped(header, b) && Flatten(a) == Flatten(b) && |a| > 0 && |b| > 0
    ensures |a[|a| - 1].lines| >= |b[|b| - 1].lines|
  {
    var p, q := a[|a| - 1], b[|b| - 1];
    assert WellFormed(header, p) && WellFormed(header, q);
    var n := |Flatten(a)|;
    var i := |q.lines| - |p.lines|;
    if i > 0 {
      assert Flatten(a)[n - |p.lines|] == p.lines[0];
      assert Flatten(b)[n - |p.lines|] == q.lines[i];
      assert Flatten(b)[n - |q.lines|] == q.lines[0];
      NoHeaders(header, a, n - |q.lines|);
    }
  }

  lemma NotEmpty(header: Header, a: seq<Record>)
    requires Grouped(header, a) && |a| > 0
    ensures |Flatten(a)| > 0
  {
    assert WellFormed(header, a[|a| - 1]);
  }

  lemma SameLast(header: Header, a: seq<Record>, b: seq<Record>)
    requires Grouped(header, a) && Grouped(header, b) && Flatten(a) == Flatten(b) && |a| > 0 && |b| > 0
    ensures a[|a| - 1] == b[|b| - 1]
    ensures Flatten(a[..|a| - 1]) == Flatten(b[..|b| - 1])
  {
    LastRecord(header, a, b);
    LastRecord(header, b, a);
    var p, q := a[|a| - 1], b[|b| - 1];
    assert WellFormed(header, p) && WellFormed(header, q);
    var m := |Flatten(a)| - |p.lines|;
    assert Flatten(a)[m..] == p.lines && Flatten(b)[m..] == q.lines;
    assert Flatten(a)[..m] == Flatten(a[..|a| - 1]) && Flatten(b)[..m] == Flatten(b[..|b| - 1]);
  }

  /** The lines determine their grouping. */
  lemma {:induction false} GroupingIsUnique(header: Header, a: seq<Record>, b: seq<Record>)
    requires Grouped(header, a) && Grouped(header, b) && Flatten(a) == Flatten(b)
    ensures a == b
    decreases |a|
  {
    if |a| > 0 {
      NotEmpty(header, a);
      SameLast(header, a, b);
      InitIsGrouped(header, a);
      InitIsGrouped(header, b);
      GroupingIsUnique(header, a[..|a| - 1], b[..|b| - 1]);
      assert a == a[..|a| - 1] + [a[|a| - 1]] && b == b[..|b| - 1] + [b[|b| - 1]];
    } else if |b| > 0 {
      NotEmpty(header, b);
    }
  }

  // ----- selection

  predicate Keeps(level: Option<string>, keyword: Option<string -> bool>, r: Record) {
    && (level.Some? ==> r.level == level)
    && (keyword.Some? ==> exists i :: 0 <= i < |r.lines| && keyword.value(r.lines[i]))
  }

  function Matched(level: Option<string>, keyword: Option<string -> bool>, records: seq<Record>): seq<Record> {
    if |records| == 0 then []
    else
      var r := records[|records| - 1];
      Matched(level, keyword, records[..|records| - 1]) + (if Keeps(level, keyword, r) then [r] else [])
  }

  /** A record more adds itself at the end, or nothing: what is kept stays in order. */
  lemma MatchedSplit(level: Option<string>, keyword: Option<string -> bool>, records: seq<Record>, r: Record)
    ensures Matched(level, keyword, records + [r]) ==
            Matched(level, keyword, records) + (if Keeps(level, keyword, r) then [r] else [])
  {
    assert (records + [r])[..|records|] == records;
  }

  /** The filters leave, in order, exactly the records of the level asked for that have the keyword
      in some line, wherever in the record it is. */
  lemma {:induction false} FiltersAreExact(level: Option<string>, keyword: Option<string -> bool>, records: seq<Record>,
                                           r: Record)
    ensures r in Matched(level, keyword, records) <==>
              r in records
              && (level.None? || r.level == level)
              && (keyword.None? || exists line :: line in r.lines && keyword.value(line))
    ensures |Matched(level, keyword, records)| <= |records|
    ensures level.None? && keyword.None? ==> Matched(level, keyword, records) == records
    decreases |records|
  {
    if |records| > 0 {
      var init, last := records[..|records| - 1], records[|records| - 1];
      FiltersAreExact(level, keyword, init, r);
      assert records == init + [last];
      KeepsLines(level, keyword, last);
    }
  }

  lemma KeepsLines(level: Option<string>, keyword: Option<string -> bool>, r: Record)
    ensures Keeps(level, keyword, r) <==>
              (level.None? || r.level == level)
              && (keyword.None? || exists line :: line in r.lines && keyword.value(line))
  {
    if keyword.Some? && exists line :: line in r.lines && keyword.value(line) {
      var line :| line in r.lines && keyword.value(line);
      var i :| 0 <= i < |r.lines| && r.lines[i] == line;
      assert keyword.value(r.lines[i]);
    }
  }

  function BoundedLimit(limit: int): (r: int)
    ensures 1 <= r <= 2000 && (1 <= limit <= 2000 ==> r == limit)
    ensures (limit < 1 ==> r == 1) && (limit > 2000 ==> r == 2000)
  {
    var capped := if limit < MAX_LIMIT then limit else MAX_LIMIT;
    if capped > 1 then capped else 1
  }

  /** A suffix of the records: all of them, or the shortest with enough lines. */
  ghost predicate Suffices(records: seq<Record>, k: int, limit: int) {
    && 0 <= k <= |records|
    && (k > 0 ==> |Flatten(records[k..])| >= limit)
    && (k < |records| ==> |Flatten(records[k + 1..])| < limit)
  }

  lemma {:induction false} FlattenSplit(a: seq<Record>, b: seq<Record>)
    ensures Flatten(a + b) == Flatten(a) + Flatten(b)
    decreases |b|
  {
    if |b| == 0 {
      assert a + b == a;
    } else {
      var init := b[..|b| - 1];
      assert (a + b)[..|a + b| - 1] == a + init;
      FlattenSplit(a, init);
    }
  }

  lemma FlattenDrop(records: seq<Record>, k: nat)
    requires k < |records|
    ensures Flatten(records[k..]) == records[k].lines + Flatten(records[k + 1..])
  {
    assert records[k..] == [records[k]] + records[k + 1..];
    FlattenSplit([records[k]], records[k + 1..]);
    assert [records[k]][..0] == [];
  }

  /** There is one such suffix, as no record is empty. */
  lemma {:induction false} SuffixIsUnique(records: seq<Record>, j: int, k: int, limit: int)
    requires limit >= 1 && Suffices(records, j, limit) && Suffices(records, k, limit)
    ensures j == k
  {
    if j < k {
      Shrinks(records, j + 1, k);
    } else if k < j {
      Shrinks(records, k + 1, j);
    }
  }

  lemma {:induction false} Shrinks(records: seq<Record>, j: nat, k: nat)
    requires j <= k <= |records|
    ensures |Flatten(records[j..])| >= |Flatten(records[k..])|
    decreases k - j
  {
    if j < k {
      FlattenDrop(records, j);
      Shrinks(records, j + 1, k);
    }
  }

  function Reversed(s: seq<Record>): seq<Record> {
    if |s| == 0 then [] else [s[|s| - 1]] + Reversed(s[..|s| - 1])
  }

  /** The lines of the records, last record first. */
  method Unreversed(selected: seq<Record>) returns (lines: seq<string>)
    ensures lines == Flatten(Reversed(selected))
  {
    lines := [];
    var i := |selected|;
    assert selected[..i] == selected;
    while i > 0
      invariant 0 <= i <= |selected|
      invariant lines + Flatten(Reversed(selected[..i])) == Flatten(Reversed(selected))
    {
      i := i - 1;
      assert selected[..i + 1][..i] == selected[..i];
      FlattenSplit([selected[i]], Reversed(selected[..i]));
      FlattenOne(selected[i]);
      lines := lines + selected[i].lines;
    }
  }

  lemma FlattenOne(r: Record)
    ensures Flatten([r]) == r.lines
  {
    var one := [r];
    assert one[..|one| - 1] == [];
  }

  /** The lines are those of a suffix that is everything or just enough. */
  ghost predicate Selects(lines: seq<string>, matched: seq<Record>, limit: int) {
    exists k :: Suffices(matched, k, limit) && lines == Flatten(matched[k..])
  }

  /** The selection: newest records until there are enough lines, then in their order. */
  method SelectNewest(matched: seq<Record>, limit: int) returns (lines: seq<string>)
    requires limit >= 1
    ensures Selects(lines, matched, limit)
  {
    var selected: seq<Record> := [];
    var count := 0;
    ghost var k := |matched|;
    assert matched[k..] == [];
    while |selected| < |matched| && count < limit
      invariant |selected| <= |matched| && k == |matched| - |selected|
      invariant Reversed(selected) == matched[k..]
      invariant count == |Flatten(matched[k..])|
      invariant k < |matched| ==> |Flatten(matched[k + 1..])| < limit
    {
      k := k - 1;
      FlattenDrop(matched, k);
      var r := matched[|matched| - 1 - |selected|];
      assert (selected + [r])[..|selected|] == selected;
      count := count + |r.lines|;
      selected := selected + [r];
    }
    lines := Unreversed(selected);
  }

  /** What the page shows of the records that the file's last lines group into. */
  ghost predicate Shows(lines: seq<string>, header: Header, tail: seq<string>,
                        level: Option<string>, keyword: Option<string -> bool>, limit: int) {
    exists records :: Grouped(header, records) && Flatten(records) == Stripped(tail)
                      && Selects(lines, Matched(level, keyword, records), limit)
  }

  /** The page shows the newest matching records, whole: the grouping of the last lines of the
      file, filtered, from the only point where the limit is met. */
  method AdminLogs(header: Header, file: seq<string>, level: Option<string>, keyword: Option<string -> bool>,
                   limit: int)
    returns (lines: seq<string>)
    ensures Shows(lines, header, if |file| <= 8000 then file else file[|file| - 8000..],
                  level, keyword, BoundedLimit(limit))
  {
    var tail := if |file| <= TAIL_LINES then file else file[|file| - TAIL_LINES..];
    var groups := GroupLogRecords(header, tail);
    var matched: seq<Record> := [];
    for i := 0 to |groups|
      invariant matched == Matched(level, keyword, groups[..i])
    {
      assert groups[..i + 1][..i] == groups[..i];
      if Keeps(level, keyword, groups[i]) {
        matched := matched + [groups[i]];
      }
    }
    assert groups[..|groups|] == groups;
    lines := SelectNewest(matched, BoundedLimit(limit));
  }

  /** So there is one answer. */
  lemma OneAnswer(header: Header, tail: seq<string>, level: Option<string>, keyword: Option<string -> bool>,
                  limit: int, a: seq<string>, b: seq<string>)
    requires limit >= 1
    requires Shows(a, header, tail, level, keyword, limit) && Shows(b, header, tail, level, keyword, limit)
    ensures a == b
  {
    var r :| Grouped(header, r) && Flatten(r) == Stripped(tail) && Selects(a, Matched(level, keyword, r), limit);
    var s :| Grouped(header, s) && Flatten(s) == Stripped(tail) && Selects(b, Matched(level, keyword, s), limit);
    GroupingIsUnique(header, r, s);
    var matched := Matched(level, keyword, r);
    var j :| Suffices(matched, j, limit) && a == Flatten(matched[j..]);
    var k :| Suffices(matched, k, limit) && b == Flatten(matched[k..]);
    SuffixIsUnique(matched, j, k, limit);
  }
}

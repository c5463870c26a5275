/** Log fields that cannot break or forge a log line (bzplat/backend/security.py). A text is
    a sequence of code points; which of them are printable or space is a parameter. */
module LogField {

  type Codepoint = c: int | 0 <= c <= 0x10FFFF
  type Text = seq<Codepoint>

  datatype Option<T> = None | Some(value: T)

  const BACKSPACE: Codepoint := 8
  const TAB: Codepoint := 9
  const LF: Codepoint := 10
  const FORM_FEED: Codepoint := 12
  const CR: Codepoint := 13
  const SPACE: Codepoint := 32
  const QUOTE: Codepoint := 34
  const EQUALS: Codepoint := 61
  const BACKSLASH: Codepoint := 92
  const ELLIPSIS: Codepoint := 0x2026
  const LOG_FIELD_MAX_CHARS: nat := 1024

  // The letters of the escapes: b, f, n, r, t, u and U.
  const LOWER_B: Codepoint := 98
  const LOWER_F: Codepoint := 102
  const LOWER_N: Codepoint := 110
  const LOWER_R: Codepoint := 114
  const LOWER_T: Codepoint := 116
  const LOWER_U: Codepoint := 117
  const UPPER_U: Codepoint := 85

  // ----- hexadecimal digits

  function HexDigit(d: int): Codepoint
    requires 0 <= d < 16
  {
    if d < 10 then 48 + d else 87 + d
  }

  function DigitValue(c: Codepoint): Option<int> {
    if 48 <= c <= 57 then Some(c - 48) else if 97 <= c <= 102 then Some(c - 87) else None
  }

  function Pow16(w: nat): nat {
    if w == 0 then 1 else 16 * Pow16(w - 1)
  }

  /** The last w hexadecimal digits of a number. */
  function Hex(v: nat, w: nat): (s: Text)
    ensures |s| == w
    decreases w
  {
    if w == 0 then [] else Hex(v / 16, w - 1) + [HexDigit(v % 16)]
  }

  function HexValue(s: Text): Option<int> {
    if |s| == 0 then Some(0)
    else
      match (HexValue(s[..|s| - 1]), DigitValue(s[|s| - 1]))
      case (Some(high), Some(low)) => Some(16 * high + low)
      case _ => None
  }

  lemma {:induction false} HexRoundTrip(v: nat, w: nat)
    requires v < Pow16(w)
    ensures HexValue(Hex(v, w)) == Some(v)
    decreases w
  {
    if w > 0 {
      var s := Hex(v, w);
      HexRoundTrip(v / 16, w - 1);
      assert s[..w - 1] == Hex(v / 16, w - 1);
    }
  }

  lemma HexRoundTrips(v: Codepoint)
    ensures v <= 0xFFFF ==> HexValue(Hex(v, 4)) == Some(v)
    ensures HexValue(Hex(v, 8)) == Some(v)
  {
    assert Pow16(4) == 0x10000 by {
      assert Pow16(2) == 256;
    }
    assert Pow16(8) > 0x10FFFF by {
      assert Pow16(6) == 256 * Pow16(4);
    }
    if v <= 0xFFFF {
      HexRoundTrip(v, 4);
    }
    HexRoundTrip(v, 8);
  }

  // ----- the escaper

  function Escape(printable: Codepoint -> bool, c: Codepoint): Text {
    if c == BACKSLASH then [BACKSLASH, BACKSLASH]
    else if c == QUOTE then [BACKSLASH, QUOTE]
    else if c == CR then [BACKSLASH, LOWER_R]
    else if c == LF then [BACKSLASH, LOWER_N]
    else if c == TAB then [BACKSLASH, LOWER_T]
    else if !printable(c) then
      if c <= 0xFFFF then [BACKSLASH, LOWER_U] + Hex(c, 4) else [BACKSLASH, UPPER_U] + Hex(c, 8)
    else [c]
  }

  function Escaper(printable: Codepoint -> bool): Codepoint -> Text {
    c => Escape(printable, c)
  }

  function EscapeAll(escape: Codepoint -> Text, t: Text): Text {
    if |t| == 0 then [] else EscapeAll(escape, t[..|t| - 1]) + escape(t[|t| - 1])
  }

  function Truncated(s: Text, maxChars: nat): Text
    requires maxChars >= 1
  {
    if |s| <= maxChars then s else s[..maxChars - 1] + [ELLIPSIS]
  }

  /** The field is the escaped text, cut to its limit; a limit below one is refused. */
  method SingleLineLogField(printable: Codepoint -> bool, value: Text, maxChars: int) returns (r: Option<Text>)
    ensures r.None? <==> maxChars < 1
    ensures r.Some? ==> r.value == Truncated(EscapeAll(Escaper(printable), value), maxChars) && |r.value| <= maxChars
  {
    if maxChars < 1 {
      return None;
    }
    var escaped: Text := [];
    for i := 0 to |value|
      invariant escaped == EscapeAll(Escaper(printable), value[..i])
    {
      var c := value[i];
      assert value[..i + 1][..i] == value[..i];
      if c == BACKSLASH {
        escaped := escaped + [BACKSLASH, BACKSLASH];
      } else if c == QUOTE {
        escaped := escaped + [BACKSLASH, QUOTE];
      } else if c == CR {
        escaped := escaped + [BACKSLASH, LOWER_R];
      } else if c == LF {
        escaped := escaped + [BACKSLASH, LOWER_N];
      } else if c == TAB {
        escaped := escaped + [BACKSLASH, LOWER_T];
      } else if !printable(c) {
        escaped := escaped + if c <= 0xFFFF then [BACKSLASH, LOWER_U] + Hex(c, 4)
                             else [BACKSLASH, UPPER_U] + Hex(c, 8);
      } else {
        escaped := escaped + [c];
      }
    }
    assert value[..|value|] == value;
    if |escaped| > maxChars {
      return Some(if maxChars > 1 then escaped[..maxChars - 1] + [ELLIPSIS] else [ELLIPSIS]);
    }
    r := Some(escaped);
  }

  // ----- the decoder

  /** One escaped code point at the start of a text, and how long it is. This also reads the
      escapes of JSON strings. */
  function Token(s: Text): (r: Option<(Codepoint, int)>)
    ensures r.Some? ==> 0 < r.value.1 <= |s|
  {
    if |s| == 0 then None
    else if s[0] != BACKSLASH then Some((s[0], 1))
    else if |s| == 1 then None
    else if s[1] == BACKSLASH then Some((BACKSLASH, 2))
    else if s[1] == QUOTE then Some((QUOTE, 2))
    else if s[1] == LOWER_R then Some((CR, 2))
    else if s[1] == LOWER_N then Some((LF, 2))
    else if s[1] == LOWER_T then Some((TAB, 2))
    else if s[1] == LOWER_B then Some((BACKSPACE, 2))
    else if s[1] == LOWER_F then Some((FORM_FEED, 2))
    else if s[1] == LOWER_U then HexToken(s, 4)
    else if s[1] == UPPER_U then HexToken(s, 8)
    else None
  }

  function HexToken(s: Text, w: nat): (r: Option<(Codepoint, int)>)
    requires |s| >= 2
    ensures r.Some? ==> 2 <= r.value.1 <= |s|
  {
    if |s| < 2 + w then None
    else
      match HexValue(s[2..2 + w])
      case Some(v) => if 0 <= v <= 0x10FFFF then Some((v, 2 + w)) else None
      case None => None
  }

  /** Everything that can be decoded, and what is left over. */
  function Scan(s: Text): (Text, Text)
    decreases |s|
  {
    match Token(s)
    case None => ([], s)
    case Some((c, n)) => var (t, rest) := Scan(s[n..]); ([c] + t, rest)
  }

  /** Every code can be read, whatever follows it, and a cut code cannot: a prefix code. */
  ghost predicate PrefixCode(escape: Codepoint -> Text) {
    && (forall c, rest: Text :: Token(escape(c) + rest) == Some((c, |escape(c)|)))
    && (forall c, n: nat :: n < |escape(c)| ==> Token(escape(c)[..n]) == None)
  }

  lemma TokenOfHex(mark: Codepoint, c: Codepoint, w: nat, rest: Text)
    requires (mark == LOWER_U && w == 4 && c <= 0xFFFF) || (mark == UPPER_U && w == 8)
    ensures Token([BACKSLASH, mark] + Hex(c, w) + rest) == Some((c, 2 + w))
  {
    var s := [BACKSLASH, mark] + Hex(c, w) + rest;
    HexRoundTrips(c);
    assert s[0] == BACKSLASH && s[1] == mark;
    assert s[2..2 + w] == Hex(c, w);
  }

  lemma TokenOfEscape(printable: Codepoint -> bool, c: Codepoint, rest: Text)
    ensures Token(Escape(printable, c) + rest) == Some((c, |Escape(printable, c)|))
  {
    if |Escape(printable, c)| == 6 {
      TokenOfHex(LOWER_U, c, 4, rest);
    } else if |Escape(printable, c)| == 10 {
      TokenOfHex(UPPER_U, c, 8, rest);
    } else {
      assert (Escape(printable, c) + rest)[0] == Escape(printable, c)[0];
    }
  }

  lemma TokenOfCut(printable: Codepoint -> bool, c: Codepoint, n: nat)
    requires n < |Escape(printable, c)|
    ensures Token(Escape(printable, c)[..n]) == None
  {
  }

  lemma EscapesArePrefixCode(printable: Codepoint -> bool)
    ensures PrefixCode(Escaper(printable))
  {
    var escape := Escaper(printable);
    forall c, rest: Text
      ensures Token(escape(c) + rest) == Some((c, |escape(c)|))
    {
      TokenOfEscape(printable, c, rest);
    }
    forall c, n: nat | n < |escape(c)|
      ensures Token(escape(c)[..n]) == None
    {
      TokenOfCut(printable, c, n);
    }
  }

  lemma {:induction false} EscapeAllSplit(escape: Codepoint -> Text, a: Text, b: Text)
    ensures EscapeAll(escape, a + b) == EscapeAll(escape, a) + EscapeAll(escape, b)
    decreases |b|
  {
    if |b| == 0 {
      assert a + b == a;
    } else {
      var init := b[..|b| - 1];
      var x, y, z := EscapeAll(escape, a), EscapeAll(escape, init), escape(b[|b| - 1]);
      assert (a + b)[..|a + b| - 1] == a + init;
      EscapeAllSplit(escape, a, init);
      assert EscapeAll(escape, a + b) == (x + y) + z;
      assert (x + y) + z == x + (y + z);
    }
  }

  lemma EscapeOne(escape: Codepoint -> Text, c: Codepoint)
    ensures EscapeAll(escape, [c]) == escape(c)
  {
    var one: Text := [c];
    assert one[..|one| - 1] == [];
  }

  lemma EscapeCons(escape: Codepoint -> Text, c: Codepoint, rest: Text)
    ensures EscapeAll(escape, [c] + rest) == escape(c) + EscapeAll(escape, rest)
  {
    EscapeAllSplit(escape, [c], rest);
    EscapeOne(escape, c);
  }

  lemma EscapeFirst(escape: Codepoint -> Text, t: Text)
    requires |t| > 0
    ensures EscapeAll(escape, t) == escape(t[0]) + EscapeAll(escape, t[1..])
  {
    var c, rest := t[0], t[1..];
    assert t == [c] + rest;
    EscapeCons(escape, c, rest);
  }

  /** What was decoded from a cut field, and what was left: the decoded text is a prefix of
      the value, all of it up to the escape that the cut fell in. */
  ghost predicate Accounts(escape: Codepoint -> Text, cut: Text, t: Text, d: Text, left: Text) {
    && d <= t && EscapeAll(escape, d) + left == cut
    && (d == t ==> left == [])
    && (d != t ==> |left| < |escape(t[|d|])|)
  }

  ghost predicate Recovers(escape: Codepoint -> Text, cut: Text, t: Text) {
    Accounts(escape, cut, t, Scan(cut).0, Scan(cut).1)
  }

  lemma ScanEscape(escape: Codepoint -> Text, c: Codepoint, rest: Text)
    requires PrefixCode(escape)
    ensures Scan(escape(c) + rest) == ([c] + Scan(rest).0, Scan(rest).1)
  {
    assert Token(escape(c) + rest) == Some((c, |escape(c)|));
    assert (escape(c) + rest)[|escape(c)|..] == rest;
  }

  lemma AccountsStep(escape: Codepoint -> Text, t: Text, rest: Text, d: Text, left: Text)
    requires |t| > 0 && Accounts(escape, rest, t[1..], d, left)
    ensures Accounts(escape, escape(t[0]) + rest, t, [t[0]] + d, left)
  {
    var more := [t[0]] + d;
    assert t == [t[0]] + t[1..];
    assert more[1..] == d;
    EscapeFirst(escape, more);
    assert EscapeAll(escape, more) + left == escape(t[0]) + (EscapeAll(escape, d) + left);
    if more != t {
      assert t[|more|] == t[1..][|d|];
    }
  }

  lemma {:induction false} ScanOfCut(escape: Codepoint -> Text, t: Text, n: nat)
    requires PrefixCode(escape) && n <= |EscapeAll(escape, t)|
    ensures Recovers(escape, EscapeAll(escape, t)[..n], t)
    decreases |t|
  {
    if |t| > 0 {
      var all := EscapeAll(escape, t);
      var first := escape(t[0]);
      var later := EscapeAll(escape, t[1..]);
      EscapeFirst(escape, t);
      if n < |first| {
        assert Token(first[..n]) == None;
        assert all[..n] == first[..n];
      } else {
        var rest := later[..n - |first|];
        ScanOfCut(escape, t[1..], n - |first|);
        ScanEscape(escape, t[0], rest);
        AccountsStep(escape, t, rest, Scan(rest).0, Scan(rest).1);
        assert all[..n] == first + rest;
      }
    }
  }

  /** Escaping loses nothing: the decoder gives every value back. */
  lemma {:induction false} ScanOfAll(escape: Codepoint -> Text, t: Text)
    requires PrefixCode(escape)
    ensures Scan(EscapeAll(escape, t)) == (t, [])
    decreases |t|
  {
    if |t| > 0 {
      EscapeFirst(escape, t);
      ScanOfAll(escape, t[1..]);
      ScanEscape(escape, t[0], EscapeAll(escape, t[1..]));
      assert t == [t[0]] + t[1..];
    }
  }

  lemma EscapeRoundTrip(printable: Codepoint -> bool, t: Text)
    ensures Scan(EscapeAll(Escaper(printable), t)) == (t, [])
  {
    EscapesArePrefixCode(printable);
    ScanOfAll(Escaper(printable), t);
  }

  /** A cut field still gives back the start of the value. */
  lemma TruncationKeepsPrefix(printable: Codepoint -> bool, t: Text, maxChars: nat)
    requires maxChars >= 1
    ensures
      var escape := Escaper(printable);
      var s := Truncated(EscapeAll(escape, t), maxChars);
      && |s| <= maxChars
      && (|EscapeAll(escape, t)| <= maxChars ==> Scan(s) == (t, []))
      && (|EscapeAll(escape, t)| > maxChars ==>
            |s| == maxChars && s[maxChars - 1] == ELLIPSIS && Recovers(escape, s[..maxChars - 1], t))
  {
    var escape := Escaper(printable);
    EscapesArePrefixCode(printable);
    ScanOfAll(escape, t);
    if |EscapeAll(escape, t)| > maxChars {
      ScanOfCut(escape, t, maxChars - 1);
      assert Truncated(EscapeAll(escape, t), maxChars)[..maxChars - 1] == EscapeAll(escape, t)[..maxChars - 1];
    }
  }

  /** The letters, digits and marks that escapes are made of. */
  predicate EscapeMark(c: Codepoint) {
    48 <= c <= 57 || LOWER_F >= c >= 97 || c in {BACKSLASH, QUOTE, LOWER_N, LOWER_R, LOWER_T, LOWER_U, UPPER_U}
  }

  lemma HexMarks(v: nat, w: nat, i: nat)
    requires i < w
    ensures EscapeMark(Hex(v, w)[i])
    decreases w
  {
    if i < w - 1 {
      HexMarks(v / 16, w - 1, i);
    }
  }

  lemma {:induction false} EscapedIsPrintable(printable: Codepoint -> bool, t: Text, i: nat)
    requires forall c :: EscapeMark(c) ==> printable(c)
    requires i < |EscapeAll(Escaper(printable), t)|
    ensures printable(EscapeAll(Escaper(printable), t)[i])
    decreases |t|
  {
    var init := t[..|t| - 1];
    if i < |EscapeAll(Escaper(printable), init)| {
      EscapedIsPrintable(printable, init, i);
    } else {
      OnePrintable(printable, t[|t| - 1], i - |EscapeAll(Escaper(printable), init)|);
    }
  }

  lemma OnePrintable(printable: Codepoint -> bool, c: Codepoint, i: nat)
    requires forall c :: EscapeMark(c) ==> printable(c)
    requires i < |Escape(printable, c)|
    ensures printable(Escape(printable, c)[i])
  {
    if i >= 2 {
      HexMarks(c, |Escape(printable, c)| - 2, i - 2);
    }
  }

  /** The field is one printable line: nothing unprintable, so no line break, is left. */
  lemma FieldIsPrintable(printable: Codepoint -> bool, t: Text, maxChars: nat)
    requires maxChars >= 1 && printable(ELLIPSIS) && forall c :: EscapeMark(c) ==> printable(c)
    ensures forall i :: 0 <= i < |Truncated(EscapeAll(Escaper(printable), t), maxChars)| ==>
                          printable(Truncated(EscapeAll(Escaper(printable), t), maxChars)[i])
  {
    var all := EscapeAll(Escaper(printable), t);
    forall i | 0 <= i < |all|
      ensures printable(all[i])
    {
      EscapedIsPrintable(printable, t, i);
    }
  }

  // ----- fields and lines

  /** One character of a JSON string, with non-ASCII characters left alone. */
  function JsonEscape(c: Codepoint): Text {
    if c == BACKSLASH then [BACKSLASH, BACKSLASH]
    else if c == QUOTE then [BACKSLASH, QUOTE]
    else if c == BACKSPACE then [BACKSLASH, LOWER_B]
    else if c == FORM_FEED then [BACKSLASH, LOWER_F]
    else if c == LF then [BACKSLASH, LOWER_N]
    else if c == CR then [BACKSLASH, LOWER_R]
    else if c == TAB then [BACKSLASH, LOWER_T]
    else if c < 32 then [BACKSLASH, LOWER_U] + Hex(c, 4)
    else [c]
  }

  function Json(): Codepoint -> Text {
    c => JsonEscape(c)
  }

  function JsonString(t: Text): Text {
    [QUOTE] + EscapeAll(Json(), t) + [QUOTE]
  }

  predicate Bare(space: Codepoint -> bool, safe: Text) {
    |safe| > 0 && forall i :: 0 <= i < |safe| ==> !space(safe[i]) && safe[i] !in {EQUALS, QUOTE, BACKSLASH}
  }

  function Rendered(space: Codepoint -> bool, safe: Text): Text {
    if Bare(space, safe) then safe else JsonString(safe)
  }

  datatype Entry = Entry(name: Text, safe: Text)

  function Field(space: Codepoint -> bool, entry: Entry): Text {
    entry.name + [EQUALS] + Rendered(space, entry.safe)
  }

  function Fields(space: Codepoint -> bool, entries: seq<Entry>): (parts: seq<Text>)
    ensures |parts| == |entries| && forall i :: 0 <= i < |parts| ==> parts[i] == Field(space, entries[i])
  {
    seq(|entries|, i requires 0 <= i < |entries| => Field(space, entries[i]))
  }

  function Joined(parts: seq<Text>): Text {
    if |parts| == 0 then []
    else if |parts| == 1 then parts[0]
    else parts[0] + [SPACE] + Joined(parts[1..])
  }

  function Line(space: Codepoint -> bool, entries: seq<Entry>): Text {
    Joined(Fields(space, entries))
  }

  // ----- reading a line back

  /** Where a mark first stands, or the end. */
  function Until(s: Text, mark: Codepoint): (n: nat)
    ensures n <= |s|
    ensures n < |s| ==> s[n] == mark
  {
    if |s| == 0 || s[0] == mark then 0 else 1 + Until(s[1..], mark)
  }

  /** The rest of a JSON string, and what follows its closing quote. */
  function ReadString(s: Text): (r: Option<(Text, Text)>)
    ensures r.Some? ==> |r.value.1| < |s|
    decreases |s|
  {
    if |s| > 0 && s[0] == QUOTE then Some(([], s[1..]))
    else
      match Token(s)
      case None => None
      case Some((c, n)) =>
        match ReadString(s[n..])
        case None => None
        case Some((t, rest)) => Some(([c] + t, rest))
  }

  function ReadValue(s: Text): (r: Option<(Text, Text)>)
    ensures r.Some? ==> |r.value.1| <= |s|
  {
    if |s| > 0 && s[0] == QUOTE then ReadString(s[1..])
    else var n := Until(s, SPACE); Some((s[..n], s[n..]))
  }

  function ReadField(s: Text): (r: Option<(Entry, Text)>)
    ensures r.Some? ==> |r.value.1| < |s|
  {
    var n := Until(s, EQUALS);
    if n == |s| then None
    else
      match ReadValue(s[n + 1..])
      case None => None
      case Some((v, rest)) => Some((Entry(s[..n], v), rest))
  }

  function ReadLine(s: Text): Option<seq<Entry>>
    decreases |s|
  {
    match ReadField(s)
    case None => None
    case Some((entry, rest)) =>
      if |rest| == 0 then Some([entry])
      else if rest[0] != SPACE then None
      else
        match ReadLine(rest[1..])
        case None => None
        case Some(entries) => Some([entry] + entries)
  }

  lemma JsonIsPrefixCode()
    ensures PrefixCode(Json())
  {
    var escape := Json();
    forall c, rest: Text
      ensures Token(escape(c) + rest) == Some((c, |escape(c)|))
    {
      JsonToken(c, rest);
    }
    forall c, n: nat | n < |escape(c)|
      ensures Token(escape(c)[..n]) == None
    {
      JsonCut(c, n);
    }
  }

  lemma JsonToken(c: Codepoint, rest: Text)
    ensures Token(JsonEscape(c) + rest) == Some((c, |JsonEscape(c)|))
  {
    if |JsonEscape(c)| == 6 {
      TokenOfHex(LOWER_U, c, 4, rest);
    } else {
      assert (JsonEscape(c) + rest)[0] == JsonEscape(c)[0];
    }
  }

  lemma JsonCut(c: Codepoint, n: nat)
    requires n < |JsonEscape(c)|
    ensures Token(JsonEscape(c)[..n]) == None
  {
  }

  lemma {:induction false} StringReadsBack(t: Text, rest: Text)
    requires PrefixCode(Json())
    ensures ReadString(EscapeAll(Json(), t) + [QUOTE] + rest) == Some((t, rest))
    decreases |t|
  {
    var s := EscapeAll(Json(), t) + [QUOTE] + rest;
    if |t| == 0 {
      assert s == [QUOTE] + rest;
    } else {
      var first := JsonEscape(t[0]);
      var later := EscapeAll(Json(), t[1..]) + [QUOTE] + rest;
      EscapeFirst(Json(), t);
      assert Json()(t[0]) == first;
      assert s == first + later;
      StringReadsBack(t[1..], rest);
      StringStep(t[0], later);
      assert t == [t[0]] + t[1..];
    }
  }

  lemma StringStep(c: Codepoint, later: Text)
    requires ReadString(later).Some?
    ensures ReadString(JsonEscape(c) + later) == Some(([c] + ReadString(later).value.0, ReadString(later).value.1))
  {
    JsonToken(c, later);
    assert (JsonEscape(c) + later)[|JsonEscape(c)|..] == later;
  }

  lemma {:induction false} UntilFirst(a: Text, mark: Codepoint, rest: Text)
    requires mark !in a && (|rest| > 0 ==> rest[0] == mark)
    ensures Until(a + rest, mark) == |a|
    ensures (a + rest)[..|a|] == a && (a + rest)[|a|..] == rest
    decreases |a|
  {
    if |a| == 0 {
      assert a + rest == rest;
    } else {
      assert (a + rest)[1..] == a[1..] + rest;
      UntilFirst(a[1..], mark, rest);
    }
  }

  lemma BareReadsBack(safe: Text, rest: Text)
    requires |safe| > 0 && safe[0] != QUOTE && SPACE !in safe && (|rest| > 0 ==> rest[0] == SPACE)
    ensures ReadValue(safe + rest) == Some((safe, rest))
  {
    UntilFirst(safe, SPACE, rest);
    assert (safe + rest)[0] == safe[0];
  }

  lemma QuotedReadsBack(safe: Text, rest: Text)
    ensures ReadValue(JsonString(safe) + rest) == Some((safe, rest))
  {
    JsonIsPrefixCode();
    StringReadsBack(safe, rest);
    assert (JsonString(safe) + rest)[0] == QUOTE;
    assert (JsonString(safe) + rest)[1..] == EscapeAll(Json(), safe) + [QUOTE] + rest;
  }

  /** A value is read back, up to the space or the end that follows it. */
  lemma ValueReadsBack(space: Codepoint -> bool, safe: Text, rest: Text)
    requires space(SPACE) && (|rest| > 0 ==> rest[0] == SPACE)
    ensures ReadValue(Rendered(space, safe) + rest) == Some((safe, rest))
  {
    if Bare(space, safe) {
      BareReadsBack(safe, rest);
    } else {
      QuotedReadsBack(safe, rest);
    }
  }

  lemma FieldSplits(name: Text, value: Text)
    requires EQUALS !in name && ReadValue(value).Some?
    ensures ReadField(name + ([EQUALS] + value)) ==
            Some((Entry(name, ReadValue(value).value.0), ReadValue(value).value.1))
  {
    UntilFirst(name, EQUALS, [EQUALS] + value);
    assert (name + ([EQUALS] + value))[|name| + 1..] == value;
  }

  lemma Regroup(a: Text, b: Text, c: Text, d: Text)
    ensures a + b + c + d == a + (b + (c + d))
  {
  }

  lemma FieldReadsBack(space: Codepoint -> bool, entry: Entry, rest: Text)
    requires space(SPACE) && EQUALS !in entry.name && (|rest| > 0 ==> rest[0] == SPACE)
    ensures ReadField(Field(space, entry) + rest) == Some((entry, rest))
  {
    var value := Rendered(space, entry.safe);
    ValueReadsBack(space, entry.safe, rest);
    FieldSplits(entry.name, value + rest);
    Regroup(entry.name, [EQUALS], value, rest);
  }

  lemma LineStep(space: Codepoint -> bool, entry: Entry, later: Text)
    requires space(SPACE) && EQUALS !in entry.name && ReadLine(later).Some?
    ensures ReadLine(Field(space, entry) + ([SPACE] + later)) == Some([entry] + ReadLine(later).value)
  {
    FieldReadsBack(space, entry, [SPACE] + later);
    assert ([SPACE] + later)[1..] == later;
  }

  lemma LineEnd(space: Codepoint -> bool, entry: Entry)
    requires space(SPACE) && EQUALS !in entry.name
    ensures ReadLine(Field(space, entry)) == Some([entry])
  {
    FieldReadsBack(space, entry, []);
    assert Field(space, entry) + [] == Field(space, entry);
  }

  lemma LineFirst(space: Codepoint -> bool, entries: seq<Entry>)
    requires |entries| > 0
    ensures |entries| == 1 ==> Line(space, entries) == Field(space, entries[0])
    ensures |entries| > 1 ==> Line(space, entries) == Field(space, entries[0]) + ([SPACE] + Line(space, entries[1..]))
  {
    assert Fields(space, entries)[1..] == Fields(space, entries[1..]);
  }

  predicate Named(entries: seq<Entry>) {
    forall i :: 0 <= i < |entries| ==> EQUALS !in entries[i].name
  }

  /** No value can forge a field: a line gives back exactly the fields it was made of. */
  lemma {:induction false} LineReadsBack(space: Codepoint -> bool, entries: seq<Entry>)
    requires space(SPACE) && |entries| > 0 && Named(entries)
    ensures ReadLine(Line(space, entries)) == Some(entries)
    decreases |entries|
  {
    LineFirst(space, entries);
    if |entries| == 1 {
      LineEnd(space, entries[0]);
      assert entries == [entries[0]];
    } else {
      LineReadsBack(space, entries[1..]);
      LineStep(space, entries[0], Line(space, entries[1..]));
      assert entries == [entries[0]] + entries[1..];
    }
  }

  // ----- the audit line

  const IP: Text := [105, 112]
  const ACTION: Text := [97, 99, 116, 105, 111, 110]
  const RESULT: Text := [114, 101, 115, 117, 108, 116]
  const USER: Text := [117, 115, 101, 114]
  const TARGET: Text := [116, 97, 114, 103, 101, 116]
  const DETAIL: Text := [100, 101, 116, 97, 105, 108]

  function Safe(printable: Codepoint -> bool, value: Text): Text {
    Truncated(EscapeAll(Escaper(printable), value), LOG_FIELD_MAX_CHARS)
  }

  function Maybe(printable: Codepoint -> bool, name: Text, value: Option<Text>): seq<Entry> {
    if value.Some? then [Entry(name, Safe(printable, value.value))] else []
  }

  lemma NamesArePlain()
    ensures EQUALS !in IP && EQUALS !in ACTION && EQUALS !in RESULT
    ensures EQUALS !in USER && EQUALS !in TARGET && EQUALS !in DETAIL
  {
  }

  lemma PartsConcat(space: Codepoint -> bool, a: seq<Entry>, b: seq<Entry>)
    requires Named(a) && Named(b)
    ensures Named(a + b) && Fields(space, a + b) == Fields(space, a) + Fields(space, b)
  {
  }

  function Always(printable: Codepoint -> bool, name: Text, value: Text): seq<Entry> {
    [Entry(name, Safe(printable, value))]
  }

  lemma PartsMaybe(printable: Codepoint -> bool, space: Codepoint -> bool, entries: seq<Entry>, name: Text,
                   value: Option<Text>)
    requires Named(entries) && EQUALS !in name
    ensures Named(entries + Maybe(printable, name, value))
    ensures Fields(space, entries + Maybe(printable, name, value)) ==
            Fields(space, entries) + Fields(space, Maybe(printable, name, value))
  {
    PartsConcat(space, entries, Maybe(printable, name, value));
  }

  /** One more part, if its value is given. */
  method Append(printable: Codepoint -> bool, space: Codepoint -> bool, parts: seq<Text>, name: Text,
                value: Option<Text>)
    returns (more: seq<Text>)
    ensures more == parts + Fields(space, Maybe(printable, name, value))
  {
    more := parts;
    if value.Some? {
      more := more + [Field(space, Entry(name, Safe(printable, value.value)))];
    }
  }

  /** The audit line says what it was given and nothing else. */
  method AuditLog(printable: Codepoint -> bool, space: Codepoint -> bool,
                  ip: Text, action: Text, result: Text, user: Option<Text>, target: Option<Text>, detail: Option<Text>)
    returns (line: Text)
    requires space(SPACE)
    ensures ReadLine(line) == Some(
      Always(printable, IP, ip) + Always(printable, ACTION, action) + Always(printable, RESULT, result)
      + Maybe(printable, USER, user) + Maybe(printable, TARGET, target) + Maybe(printable, DETAIL, detail))
  {
    NamesArePlain();
    ghost var entries :=
      Always(printable, IP, ip) + Always(printable, ACTION, action) + Always(printable, RESULT, result);
    var parts := [Field(space, Entry(IP, Safe(printable, ip))), Field(space, Entry(ACTION, Safe(printable, action))),
                  Field(space, Entry(RESULT, Safe(printable, result)))];
    assert parts == Fields(space, entries);
    parts := Append(printable, space, parts, USER, user);
    PartsMaybe(printable, space, entries, USER, user);
    entries := entries + Maybe(printable, USER, user);
    parts := Append(printable, space, parts, TARGET, target);
    PartsMaybe(printable, space, entries, TARGET, target);
    entries := entries + Maybe(printable, TARGET, target);
    parts := Append(printable, space, parts, DETAIL, detail);
    PartsMaybe(printable, space, entries, DETAIL, detail);
    entries := entries + Maybe(printable, DETAIL, detail);
    line := Joined(parts);
    LineReadsBack(space, entries);
  }

  // ----- the same in characters

  function Codes(s: string): Text
    requires forall i :: 0 <= i < |s| ==> s[i] as int <= 0x7F
  {
    seq(|s|, i requires 0 <= i < |s| => s[i] as int)
  }

  /** The escapes of a field, as they look. */
  lemma EscapesByCharacter(printable: Codepoint -> bool)
    ensures Escape(printable, '\\' as int) == Codes("\\\\") && Escape(printable, '"' as int) == Codes("\\\"")
    ensures Escape(printable, '\r' as int) == Codes("\\r") && Escape(printable, '\n' as int) == Codes("\\n")
    ensures Escape(printable, '\t' as int) == Codes("\\t")
    ensures forall c: Codepoint :: !printable(c) && c !in {9, 10, 13, 34, 92} ==>
              Escape(printable, c) == if c < 0x10000 then Codes("\\u") + Hex(c, 4) else Codes("\\U") + Hex(c, 8)
    ensures forall c: Codepoint :: printable(c) && c !in {9, 10, 13, 34, 92} ==> Escape(printable, c) == [c]
  {
  }

  /** And those of a quoted value, which leave everything from the space on alone. */
  lemma JsonByCharacter()
    ensures JsonEscape('\\' as int) == Codes("\\\\") && JsonEscape('"' as int) == Codes("\\\"")
    ensures JsonEscape('\r' as int) == Codes("\\r") && JsonEscape('\n' as int) == Codes("\\n")
    ensures JsonEscape('\t' as int) == Codes("\\t")
    ensures JsonEscape(8) == Codes("\\b") && JsonEscape(12) == Codes("\\f")
    ensures forall c: Codepoint :: c < 32 && c !in {8, 9, 10, 12, 13} ==> JsonEscape(c) == Codes("\\u") + Hex(c, 4)
    ensures forall c: Codepoint :: c >= 32 && c !in {34, 92} ==> JsonEscape(c) == [c]
  {
  }

  lemma DigitsByCharacter(d: int)
    requires 0 <= d < 16
    ensures HexDigit(d) == "0123456789abcdef"[d] as int
    ensures forall c: Codepoint :: DigitValue(c) == Some(d) <==> c == HexDigit(d)
  {
  }

  lemma {:induction false} EscapedIsNoShorter(escape: Codepoint -> Text, t: Text)
    requires forall c: Codepoint :: |escape(c)| >= 1
    ensures |EscapeAll(escape, t)| >= |t|
    decreases |t|
  {
    if |t| > 0 {
      EscapedIsNoShorter(escape, t[..|t| - 1]);
    }
  }

  /** A value is left bare exactly if it is not empty and has no space, equals sign, quote or
      backslash in it. */
  lemma QuotedIff(space: Codepoint -> bool, safe: Text)
    ensures Rendered(space, safe) == safe <==>
            |safe| > 0 && forall c :: c in safe ==> !space(c) && c != '=' as int && c != '"' as int && c != '\\' as int
    ensures Rendered(space, safe) != safe ==> Rendered(space, safe)[0] == '"' as int
  {
    assert forall c: Codepoint :: |Json()(c)| >= 1;
    EscapedIsNoShorter(Json(), safe);
    if Bare(space, safe) {
      assert forall c :: c in safe ==> exists i :: 0 <= i < |safe| && safe[i] == c;
    } else {
      assert |JsonString(safe)| > |safe|;
      assert forall i :: 0 <= i < |safe| ==> safe[i] in safe;
    }
  }

  /** A field of the audit line has at most 1024 characters, and is whole if it has no more. */
  lemma FieldsAreBounded(printable: Codepoint -> bool, value: Text)
    ensures
      var escaped := EscapeAll(Escaper(printable), value);
      if |escaped| <= 1024 then Safe(printable, value) == escaped
      else |Safe(printable, value)| == 1024 && Safe(printable, value)[..1023] == escaped[..1023]
           && Safe(printable, value)[1023] == 0x2026
  {
  }

  /** The names of the audit line's fields. */
  lemma NamesByCharacter()
    ensures IP == Codes("ip") && ACTION == Codes("action") && RESULT == Codes("result")
    ensures USER == Codes("user") && TARGET == Codes("target") && DETAIL == Codes("detail")
  {
  }
}

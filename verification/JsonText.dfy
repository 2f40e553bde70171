/** JSON values as JavaScript sees them, and the text `JSON.stringify` gives scalars and strings.
    Texts are sequences of UTF-16 code units. */
module JsonText {
  import opened Options

  type Unit = x: int | 0 <= x < 0x10000
  type Text = seq<Unit>

  /** An object's entries are listed in the order in which `Object.entries` lists them.
      A finite number is represented by its text; `NonFinite` is NaN or an infinity. */
  datatype Json =
    | Undefined
    | Null
    | Bool(b: bool)
    | NonFinite
    | Num(text: Text)
    | Str(s: Text)
    | Arr(items: seq<Json>)
    | Obj(entries: seq<(Text, Json)>)

  const QUOTE: Unit := 34
  const COMMA: Unit := 44
  const COLON: Unit := 58
  const OPEN_BRACKET: Unit := 91
  const BACKSLASH: Unit := 92
  const CLOSE_BRACKET: Unit := 93
  const OPEN_BRACE: Unit := 123
  const CLOSE_BRACE: Unit := 125

  const NULL: Text := [110, 117, 108, 108]
  const TRUE: Text := [116, 114, 117, 101]
  const FALSE: Text := [102, 97, 108, 115, 101]

  /** `0`-`9`, `+`, `-`, `.`, `E`, `e`: what section 6 of RFC 8259 builds numbers from. */
  predicate IsNumberUnit(u: Unit) {
    48 <= u <= 57 || u == 43 || u == 45 || u == 46 || u == 69 || u == 101
  }

  predicate IsNumberText(t: Text) {
    t != [] && (t[0] == 45 || 48 <= t[0] <= 57) && forall i | 0 <= i < |t| :: IsNumberUnit(t[i])
  }

  // ----- strings -----

  predicate IsLead(u: Unit) { 0xD800 <= u < 0xDC00 }

  predicate IsTrail(u: Unit) { 0xDC00 <= u < 0xE000 }

  function HexDigit(n: int): Unit
    requires 0 <= n < 16
  {
    if n < 10 then 48 + n else 87 + n
  }

  function HexEscape(u: Unit): (t: Text)
    ensures |t| == 6
  {
    [BACKSLASH, 117, HexDigit(u / 4096), HexDigit(u / 256 % 16), HexDigit(u / 16 % 16), HexDigit(u % 16)]
  }

  /** Short escapes where JSON has them, `\u00xx` for other controls and for unpaired surrogates. */
  function Escape(u: Unit): (t: Text)
    ensures t != []
  {
    if u == QUOTE || u == BACKSLASH then [BACKSLASH, u]
    else if u == 8 then [BACKSLASH, 98]
    else if u == 9 then [BACKSLASH, 116]
    else if u == 10 then [BACKSLASH, 110]
    else if u == 12 then [BACKSLASH, 102]
    else if u == 13 then [BACKSLASH, 114]
    else if u < 32 || IsLead(u) || IsTrail(u) then HexEscape(u)
    else [u]
  }

  /** Surrogate pairs pass through; everything else is escaped unit by unit. */
  function QuoteBody(s: Text): Text {
    if s == [] then []
    else if |s| > 1 && IsLead(s[0]) && IsTrail(s[1]) then [s[0], s[1]] + QuoteBody(s[2..])
    else Escape(s[0]) + QuoteBody(s[1..])
  }

  function Quote(s: Text): Text {
    [QUOTE] + QuoteBody(s) + [QUOTE]
  }

  /** The escapes, unit by unit, as section 7 of RFC 8259 has them: of the controls, five have a letter. */
  lemma EscapesMean(u: Unit)
    ensures var hex := [48, 49, 50, 51, 52, 53, 54, 55, 56, 57, 97, 98, 99, 100, 101, 102];
            Escape(u) == if u == 34 || u == 92 then [92, u]
                         else if u == 8 then [92, 98] else if u == 9 then [92, 116] else if u == 10 then [92, 110]
                         else if u == 12 then [92, 102] else if u == 13 then [92, 114]
                         else if 32 <= u < 0xD800 || 0xE000 <= u then [u]
                         else [92, 117, hex[u / 4096], hex[u / 256 % 16], hex[u / 16 % 16], hex[u % 16]]
  {
  }

  /** Nothing that needs an escape: no quote, backslash or control, and surrogates in pairs only. */
  predicate Plain(s: Text) {
    || s == []
    || (|s| > 1 && 0xD800 <= s[0] < 0xDC00 <= s[1] < 0xE000 && Plain(s[2..]))
    || (s[0] >= 32 && s[0] != 34 && s[0] != 92 && !(0xD800 <= s[0] < 0xE000) && Plain(s[1..]))
  }

  /** A text prints as itself between quotes exactly when it is plain. */
  lemma {:induction false} PlainExactly(s: Text)
    ensures QuoteBody(s) == s <==> Plain(s)
    ensures |s| <= |QuoteBody(s)|
  {
    if s != [] {
      if |s| > 1 && IsLead(s[0]) && IsTrail(s[1]) {
        PlainExactly(s[2..]);
        assert s == [s[0], s[1]] + s[2..];
        assert QuoteBody(s)[2..] == QuoteBody(s[2..]);
      } else {
        PlainExactly(s[1..]);
        assert s == [s[0]] + s[1..];
        if Escape(s[0]) == [s[0]] {
          assert QuoteBody(s)[1..] == QuoteBody(s[1..]);
        } else {
          assert |Escape(s[0])| > 1;
        }
      }
    }
  }

  function HexValue(u: Unit): Option<int> {
    if 48 <= u <= 57 then Some(u - 48)
    else if 97 <= u <= 102 then Some(u - 87)
    else if 65 <= u <= 70 then Some(u - 55)
    else None
  }

  /** The unit that a one-letter escape stands for. */
  function Unescape(u: Unit): Option<Unit> {
    if u == QUOTE || u == BACKSLASH || u == 47 then Some(u)
    else if u == 98 then Some(8)
    else if u == 116 then Some(9)
    else if u == 110 then Some(10)
    else if u == 102 then Some(12)
    else if u == 114 then Some(13)
    else None
  }

  /** The four hexadecimal digits of a `\u` escape. */
  function FourHex(t: Text): Option<Unit>
    requires |t| >= 4
  {
    var a, b, c, d := HexValue(t[0]), HexValue(t[1]), HexValue(t[2]), HexValue(t[3]);
    if a.None? || b.None? || c.None? || d.None? then None
    else
      var n := a.value * 4096 + b.value * 256 + c.value * 16 + d.value;
      if 0 <= n < 0x10000 then Some(n) else None
  }

  /** Reads a string after its opening quote, up to and including the closing one. Controls must be escaped. */
  function ParseString(t: Text): (r: Option<(Text, Text)>)
    ensures r.Some? ==> |r.value.1| < |t|
  {
    if t == [] then None
    else if t[0] == QUOTE then Some(([], t[1..]))
    else if t[0] == BACKSLASH then
      if |t| < 2 then None
      else if t[1] == 117 then
        if |t| < 6 || FourHex(t[2..6]).None? then None
        else Put(FourHex(t[2..6]).value, ParseString(t[6..]))
      else if Unescape(t[1]).None? then None
      else Put(Unescape(t[1]).value, ParseString(t[2..]))
    else if t[0] < 32 then None
    else Put(t[0], ParseString(t[1..]))
  }

  function Put(u: Unit, r: Option<(Text, Text)>): (r': Option<(Text, Text)>)
    ensures r'.Some? <==> r.Some?
    ensures r.Some? ==> r'.value == ([u] + r.value.0, r.value.1)
  {
    if r.None? then None else Some(([u] + r.value.0, r.value.1))
  }

  lemma HexDigitRoundTrip(n: int)
    requires 0 <= n < 16
    ensures HexValue(HexDigit(n)) == Some(n)
  {
  }

  lemma HexDigitsSum(u: Unit)
    ensures u == u / 4096 * 4096 + u / 256 % 16 * 256 + u / 16 % 16 * 16 + u % 16
    ensures 0 <= u / 4096 < 16
  {
    assert u == u / 16 * 16 + u % 16;
    assert u / 16 == u / 256 * 16 + u / 16 % 16;
    assert u / 256 == u / 4096 * 16 + u / 256 % 16;
  }

  lemma HexRoundTrip(u: Unit, rest: Text)
    ensures FourHex((HexEscape(u) + rest)[2..6]) == Some(u)
  {
    HexDigitsSum(u);
    HexDigitRoundTrip(u / 4096);
    HexDigitRoundTrip(u / 256 % 16);
    HexDigitRoundTrip(u / 16 % 16);
    HexDigitRoundTrip(u % 16);
    var t := (HexEscape(u) + rest)[2..6];
    assert t[0] == HexDigit(u / 4096) && t[1] == HexDigit(u / 256 % 16) && t[2] == HexDigit(u / 16 % 16)
           && t[3] == HexDigit(u % 16);
  }

  lemma LiteralRoundTrip(u: Unit, rest: Text)
    requires u != QUOTE && u != BACKSLASH && u >= 32
    ensures ParseString([u] + rest) == Put(u, ParseString(rest))
  {
    assert ([u] + rest)[1..] == rest;
  }

  lemma HexEscapeRoundTrip(u: Unit, rest: Text)
    ensures ParseString(HexEscape(u) + rest) == Put(u, ParseString(rest))
  {
    var t := HexEscape(u) + rest;
    HexRoundTrip(u, rest);
    assert t[0] == BACKSLASH && t[1] == 117;
    assert t[6..] == rest;
  }

  lemma ShortEscapeRoundTrip(letter: Unit, u: Unit, rest: Text)
    requires Unescape(letter) == Some(u)
    ensures ParseString([BACKSLASH, letter] + rest) == Put(u, ParseString(rest))
  {
    var t := [BACKSLASH, letter] + rest;
    assert t[0] == BACKSLASH && t[1] == letter && letter != 117;
    assert t[2..] == rest;
  }

  lemma EscapeRoundTrip(u: Unit, rest: Text)
    ensures ParseString(Escape(u) + rest) == Put(u, ParseString(rest))
  {
    if Escape(u) == [u] {
      LiteralRoundTrip(u, rest);
    } else if Escape(u) == HexEscape(u) {
      HexEscapeRoundTrip(u, rest);
    } else {
      ShortEscapeRoundTrip(Escape(u)[1], u, rest);
    }
  }

  lemma PairRoundTrip(lead: Unit, trail: Unit, rest: Text)
    requires IsLead(lead) && IsTrail(trail)
    ensures ParseString([lead, trail] + rest) == Put(lead, Put(trail, ParseString(rest)))
  {
    LiteralRoundTrip(trail, rest);
    LiteralRoundTrip(lead, [trail] + rest);
    assert [lead, trail] + rest == [lead] + ([trail] + rest);
  }

  lemma Regroup(a: Text, b: Text, rest: Text)
    ensures (a + b) + [QUOTE] + rest == a + (b + [QUOTE] + rest)
  {
  }

  /** Quoting is undone by reading, whatever follows the closing quote. */
  lemma {:induction false} StringRoundTrip(s: Text, rest: Text)
    ensures ParseString(QuoteBody(s) + [QUOTE] + rest) == Some((s, rest))
  {
    if s == [] {
      assert QuoteBody(s) + [QUOTE] + rest == [QUOTE] + rest;
    } else {
      var paired := |s| > 1 && IsLead(s[0]) && IsTrail(s[1]);
      var tail := if paired then s[2..] else s[1..];
      var front := QuoteBody(tail) + [QUOTE] + rest;
      StringRoundTrip(tail, rest);
      if paired {
        PairRoundTrip(s[0], s[1], front);
        Regroup([s[0], s[1]], QuoteBody(tail), rest);
      } else {
        EscapeRoundTrip(s[0], front);
        Regroup(Escape(s[0]), QuoteBody(tail), rest);
      }
      assert [s[0]] + s[1..] == s && (paired ==> [s[0]] + ([s[1]] + s[2..]) == s);
    }
  }

  // ----- numbers -----

  /** Splits off the longest run of number units. */
  function ParseNumber(t: Text): (r: (Text, Text))
    ensures t == r.0 + r.1
  {
    if t == [] || !IsNumberUnit(t[0]) then ([], t)
    else
      var (n, rest) := ParseNumber(t[1..]);
      ([t[0]] + n, rest)
  }

  lemma {:induction false} NumberRoundTrip(n: Text, rest: Text)
    requires forall i | 0 <= i < |n| :: IsNumberUnit(n[i])
    requires rest == [] || !IsNumberUnit(rest[0])
    ensures ParseNumber(n + rest) == (n, rest)
  {
    if n == [] {
      assert n + rest == rest;
    } else {
      NumberRoundTrip(n[1..], rest);
      assert (n + rest)[1..] == n[1..] + rest;
      assert n == [n[0]] + n[1..];
    }
  }
}

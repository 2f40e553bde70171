/** A reader for canonical texts, following sections 4, 5 and 7 of RFC 8259 without optional
    white space, and the proof that it undoes printing. Beyond the RFC an array element may be empty. */
module JsonParser {
  import opened Options
  import opened JsonText
  import opened CanonicalKey

  function ParseValue(t: Text): (r: Option<(Json, Text)>)
    ensures r.Some? ==> |r.value.1| < |t|
    decreases |t|, 0
  {
    if t == [] then None
    else if t[0] == QUOTE then
      var r := ParseString(t[1..]);
      if r.None? then None else Some((Str(r.value.0), r.value.1))
    else if t[0] == OPEN_BRACKET then
      if |t| > 1 && t[1] == CLOSE_BRACKET then Some((Arr([]), t[2..]))
      else
        var r := ParseItems(t[1..]);
        if r.None? then None else Some((Arr(r.value.0), r.value.1))
    else if t[0] == OPEN_BRACE then
      if |t| > 1 && t[1] == CLOSE_BRACE then Some((Obj([]), t[2..]))
      else
        var r := ParseMembers(t[1..]);
        if r.None? then None else Some((Obj(r.value.0), r.value.1))
    else if NULL <= t then Some((Null, t[4..]))
    else if TRUE <= t then Some((Bool(true), t[4..]))
    else if FALSE <= t then Some((Bool(false), t[5..]))
    else if IsNumberUnit(t[0]) then
      var (n, rest) := ParseNumber(t);
      Some((Num(n), rest))
    else None
  }

  /** An array element: nothing at all stands for an undefined one. */
  function ParseItem(t: Text): (r: Option<(Json, Text)>)
    ensures r.Some? ==> |r.value.1| <= |t|
    decreases |t|, 1
  {
    if t != [] && (t[0] == COMMA || t[0] == CLOSE_BRACKET) then Some((Undefined, t)) else ParseValue(t)
  }

  /** One or more elements and the closing bracket. */
  function ParseItems(t: Text): (r: Option<(seq<Json>, Text)>)
    ensures r.Some? ==> |r.value.1| < |t|
    decreases |t|, 2
  {
    var r := ParseItem(t);
    if r.None? || r.value.1 == [] then None
    else
      var (v, rest) := r.value;
      if rest[0] == CLOSE_BRACKET then Some(([v], rest[1..]))
      else if rest[0] != COMMA then None
      else
        var more := ParseItems(rest[1..]);
        if more.None? then None else Some(([v] + more.value.0, more.value.1))
  }

  /** One or more members and the closing brace. */
  function ParseMembers(t: Text): (r: Option<(seq<(Text, Json)>, Text)>)
    ensures r.Some? ==> |r.value.1| < |t|
    decreases |t|, 1
  {
    var r := ParseMember(t);
    if r.None? || r.value.1 == [] then None
    else
      var (m, rest) := r.value;
      if rest[0] == CLOSE_BRACE then Some(([m], rest[1..]))
      else if rest[0] != COMMA then None
      else
        var more := ParseMembers(rest[1..]);
        if more.None? then None else Some(([m] + more.value.0, more.value.1))
  }

  function ParseMember(t: Text): (r: Option<((Text, Json), Text)>)
    ensures r.Some? ==> |r.value.1| < |t|
    decreases |t|, 0
  {
    if t == [] || t[0] != QUOTE then None
    else
      var key := ParseString(t[1..]);
      if key.None? || key.value.1 == [] || key.value.1[0] != COLON then None
      else
        var v := ParseValue(key.value.1[1..]);
        if v.None? then None else Some(((key.value.0, v.value.0), v.value.1))
  }

  /** Values that a text determines: every number finite, nothing undefined but array elements,
      and no array of a single undefined element, which prints like an empty one. */
  predicate Printable(v: Json)
    decreases v, 1
  {
    match v
    case Undefined => false
    case NonFinite => false
    case Num(text) => IsNumberText(text)
    case Arr(items) =>
      (forall i | 0 <= i < |items| :: items[i].Undefined? || Printable(items[i])) && items != [Undefined]
    case Obj(entries) => forall i | 0 <= i < |entries| :: PrintableEntry(entries[i])
    case _ => true
  }

  predicate PrintableEntry(e: (Text, Json))
    decreases e, 2
  {
    Printable(e.1)
  }

  /** What may follow a value: a number must not run on. */
  predicate Stops(rest: Text) {
    rest == [] || !IsNumberUnit(rest[0])
  }

  lemma PrintStart(v: Json)
    requires Printable(v)
    ensures Print(v) != [] && Print(v)[0] != CLOSE_BRACKET && Print(v)[0] != COMMA
  {
  }

  // ----- one step of each reader -----

  lemma ReadWord(word: Text, rest: Text)
    ensures word <= word + rest && (word + rest)[|word|..] == rest
  {
  }

  lemma ReadNull(rest: Text)
    ensures ParseValue(NULL + rest) == Some((Null, rest))
  {
    ReadWord(NULL, rest);
  }

  lemma ReadBool(b: bool, rest: Text)
    ensures ParseValue((if b then TRUE else FALSE) + rest) == Some((Bool(b), rest))
  {
    ReadWord(if b then TRUE else FALSE, rest);
  }

  lemma NotWord(word: Text, t: Text)
    requires word != [] && t != [] && t[0] != word[0]
    ensures !(word <= t)
  {
  }

  lemma ReadNumber(n: Text, rest: Text)
    requires IsNumberText(n) && Stops(rest)
    ensures ParseValue(n + rest) == Some((Num(n), rest))
  {
    NumberRoundTrip(n, rest);
    NumberFirst(n, rest);
  }

  lemma NumberFirst(n: Text, rest: Text)
    requires IsNumberText(n)
    ensures var t := n + rest;
            t != [] && ParseValue(t) == Some((Num(ParseNumber(t).0), ParseNumber(t).1))
  {
    var t := n + rest;
    assert t[0] == n[0];
    NotWord(NULL, t);
    NotWord(TRUE, t);
    NotWord(FALSE, t);
  }

  lemma ReadString(s: Text, rest: Text)
    ensures ParseValue(Quote(s) + rest) == Some((Str(s), rest))
  {
    StringRoundTrip(s, rest);
    Opened(QuoteBody(s), rest);
  }

  lemma ReadArr(u: Text, items: seq<Json>, rest: Text)
    requires u != [] && u[0] != CLOSE_BRACKET && ParseItems(u) == Some((items, rest))
    ensures ParseValue([OPEN_BRACKET] + u) == Some((Arr(items), rest))
  {
    assert ([OPEN_BRACKET] + u)[1..] == u;
  }

  lemma ReadObj(u: Text, entries: seq<(Text, Json)>, rest: Text)
    requires u != [] && u[0] != CLOSE_BRACE && ParseMembers(u) == Some((entries, rest))
    ensures ParseValue([OPEN_BRACE] + u) == Some((Obj(entries), rest))
  {
    assert ([OPEN_BRACE] + u)[1..] == u;
  }

  lemma ReadEmpty(rest: Text)
    ensures ParseValue([OPEN_BRACKET] + ([CLOSE_BRACKET] + rest)) == Some((Arr([]), rest))
    ensures ParseValue([OPEN_BRACE] + ([CLOSE_BRACE] + rest)) == Some((Obj([]), rest))
  {
    var a, o := [OPEN_BRACKET] + ([CLOSE_BRACKET] + rest), [OPEN_BRACE] + ([CLOSE_BRACE] + rest);
    assert a[2..] == rest && o[2..] == rest;
  }

  lemma ReadLastItem(t: Text, v: Json, rest: Text)
    requires ParseItem(t) == Some((v, [CLOSE_BRACKET] + rest))
    ensures ParseItems(t) == Some(([v], rest))
  {
    assert ([CLOSE_BRACKET] + rest)[1..] == rest;
  }

  lemma ReadItem(t: Text, v: Json, u: Text, items: seq<Json>, rest: Text)
    requires ParseItem(t) == Some((v, [COMMA] + u)) && ParseItems(u) == Some((items, rest))
    ensures ParseItems(t) == Some(([v] + items, rest))
  {
    assert ([COMMA] + u)[1..] == u;
  }

  lemma ReadLastMember(t: Text, m: (Text, Json), rest: Text)
    requires ParseMember(t) == Some((m, [CLOSE_BRACE] + rest))
    ensures ParseMembers(t) == Some(([m], rest))
  {
    assert ([CLOSE_BRACE] + rest)[1..] == rest;
  }

  lemma ReadMember(t: Text, m: (Text, Json), u: Text, entries: seq<(Text, Json)>, rest: Text)
    requires ParseMember(t) == Some((m, [COMMA] + u)) && ParseMembers(u) == Some((entries, rest))
    ensures ParseMembers(t) == Some(([m] + entries, rest))
  {
    assert ([COMMA] + u)[1..] == u;
  }

  lemma ReadKey(k: Text, u: Text, v: Json, rest: Text)
    requires ParseValue(u) == Some((v, rest))
    ensures ParseMember(Quote(k) + ([COLON] + u)) == Some(((k, v), rest))
  {
    var after := [COLON] + u;
    StringRoundTrip(k, after);
    Opened(QuoteBody(k), after);
    assert after[1..] == u;
  }

  lemma Opened(body: Text, after: Text)
    ensures var t := [QUOTE] + body + [QUOTE] + after; t[0] == QUOTE && t[1..] == body + [QUOTE] + after
  {
  }

  lemma Colon(k: Text, v: Text, rest: Text)
    ensures k + [COLON] + v + rest == k + ([COLON] + (v + rest))
  {
  }

  // ----- joining -----

  lemma JoinOne(x: Text)
    ensures Join([x]) == x
  {
  }

  lemma JoinCons(x: Text, ts: seq<Text>, close: Text)
    requires ts != []
    ensures Join([x] + ts) + close == x + ([COMMA] + (Join(ts) + close))
  {
    assert ([x] + ts)[1..] == ts;
  }

  lemma JoinStart(ts: seq<Text>)
    requires ts != [] && ts[0] != []
    ensures Join(ts) != [] && Join(ts)[0] == ts[0][0]
  {
  }

  lemma Wrap(open: Unit, body: Text, close: Unit, rest: Text)
    ensures [open] + body + [close] + rest == [open] + (body + ([close] + rest))
  {
  }

  // ----- reading undoes printing -----

  lemma {:induction false} RoundTrip(v: Json, rest: Text)
    requires Printable(v) && Stops(rest)
    ensures ParseValue(Print(v) + rest) == Some((v, rest))
    decreases v, 1
  {
    match v
    case Null => ReadNull(rest);
    case Bool(b) => ReadBool(b, rest);
    case Num(text) => ReadNumber(text, rest);
    case Str(s) => ReadString(s, rest);
    case Arr(items) => ArrRoundTrip(items, rest);
    case Obj(entries) => ObjRoundTrip(entries, rest);
  }

  /** What may follow an array element. */
  predicate Separates(rest: Text) {
    rest != [] && (rest[0] == COMMA || rest[0] == CLOSE_BRACKET)
  }

  lemma {:induction false} ItemRoundTrip(v: Json, rest: Text)
    requires (v.Undefined? || Printable(v)) && Separates(rest)
    ensures ParseItem(Print(v) + rest) == Some((v, rest))
    decreases v, 2
  {
    if v.Undefined? {
      assert Print(v) + rest == rest;
    } else {
      RoundTrip(v, rest);
      PrintStart(v);
    }
  }

  /** The text of an array's elements does not look like the end of the array. */
  lemma ItemsStart(items: seq<Json>)
    requires items != [] && items != [Undefined] && (items[0].Undefined? || Printable(items[0]))
    ensures Join(PrintItems(items)) != [] && Join(PrintItems(items))[0] != CLOSE_BRACKET
  {
    var ts := PrintItems(items);
    if items[0].Undefined? {
      assert |items| > 1;
      assert ts == [Print(items[0])] + PrintItems(items[1..]) && |ts| > 1;
    } else {
      PrintStart(items[0]);
      JoinStart(ts);
    }
  }

  lemma {:induction false} ArrRoundTrip(items: seq<Json>, rest: Text)
    requires (forall i | 0 <= i < |items| :: items[i].Undefined? || Printable(items[i])) && items != [Undefined]
    ensures ParseValue([OPEN_BRACKET] + Join(PrintItems(items)) + [CLOSE_BRACKET] + rest) == Some((Arr(items), rest))
    decreases items, 1
  {
    var body, close := Join(PrintItems(items)), [CLOSE_BRACKET] + rest;
    Wrap(OPEN_BRACKET, body, CLOSE_BRACKET, rest);
    if items == [] {
      assert body + close == close;
      ReadEmpty(rest);
    } else {
      ItemsRoundTrip(items, rest);
      ItemsStart(items);
      ReadArr(body + close, items, rest);
    }
  }

  lemma {:induction false} ItemsRoundTrip(items: seq<Json>, rest: Text)
    requires items != [] && forall i | 0 <= i < |items| :: items[i].Undefined? || Printable(items[i])
    ensures ParseItems(Join(PrintItems(items)) + ([CLOSE_BRACKET] + rest)) == Some((items, rest))
    decreases items, 0
  {
    var close := [CLOSE_BRACKET] + rest;
    if |items| == 1 {
      ItemRoundTrip(items[0], close);
      JoinOne(Print(items[0]));
      assert PrintItems(items) == [Print(items[0])] + PrintItems([]);
      ReadLastItem(Print(items[0]) + close, items[0], rest);
      assert items == [items[0]];
    } else {
      var more := Join(PrintItems(items[1..])) + close;
      ItemRoundTrip(items[0], [COMMA] + more);
      ItemsRoundTrip(items[1..], rest);
      JoinCons(Print(items[0]), PrintItems(items[1..]), close);
      ReadItem(Print(items[0]) + ([COMMA] + more), items[0], more, items[1..], rest);
      assert items == [items[0]] + items[1..];
    }
  }

  lemma {:induction false} EntryRoundTrip(e: (Text, Json), rest: Text)
    requires PrintableEntry(e) && Stops(rest)
    ensures ParseMember(PrintEntry(e) + rest) == Some((e, rest))
    decreases e, 2
  {
    RoundTrip(e.1, rest);
    ReadKey(e.0, Print(e.1) + rest, e.1, rest);
    Colon(Quote(e.0), Print(e.1), rest);
  }

  lemma {:induction false} ObjRoundTrip(entries: seq<(Text, Json)>, rest: Text)
    requires forall i | 0 <= i < |entries| :: PrintableEntry(entries[i])
    ensures ParseValue([OPEN_BRACE] + Join(Texts(PrintEntries(entries))) + [CLOSE_BRACE] + rest)
         == Some((Obj(entries), rest))
    decreases entries, 1
  {
    var body, close := Join(Texts(PrintEntries(entries))), [CLOSE_BRACE] + rest;
    Wrap(OPEN_BRACE, body, CLOSE_BRACE, rest);
    if entries == [] {
      assert body + close == close;
      ReadEmpty(rest);
    } else {
      EntriesRoundTrip(entries, rest);
      JoinStart(Texts(PrintEntries(entries)));
      ReadObj(body + close, entries, rest);
    }
  }

  lemma MembersFirst(entries: seq<(Text, Json)>)
    requires entries != []
    ensures var ts := Texts(PrintEntries(entries));
            ts == [PrintEntry(entries[0])] + Texts(PrintEntries(entries[1..]))
  {
    var members := PrintEntries(entries);
    assert members[1..] == PrintEntries(entries[1..]);
  }

  lemma {:induction false} LastEntryRoundTrip(e: (Text, Json), rest: Text)
    requires PrintableEntry(e)
    ensures ParseMembers(PrintEntry(e) + ([CLOSE_BRACE] + rest)) == Some(([e], rest))
    decreases e, 3
  {
    EntryRoundTrip(e, [CLOSE_BRACE] + rest);
    ReadLastMember(PrintEntry(e) + ([CLOSE_BRACE] + rest), e, rest);
  }

  lemma {:induction false} NextEntryRoundTrip(e: (Text, Json), more: Text, entries: seq<(Text, Json)>, rest: Text)
    requires PrintableEntry(e) && ParseMembers(more) == Some((entries, rest))
    ensures ParseMembers(PrintEntry(e) + ([COMMA] + more)) == Some(([e] + entries, rest))
    decreases e, 3
  {
    EntryRoundTrip(e, [COMMA] + more);
    ReadMember(PrintEntry(e) + ([COMMA] + more), e, more, entries, rest);
  }

  lemma {:induction false} EntriesRoundTrip(entries: seq<(Text, Json)>, rest: Text)
    requires entries != [] && forall i | 0 <= i < |entries| :: PrintableEntry(entries[i])
    ensures ParseMembers(Join(Texts(PrintEntries(entries))) + ([CLOSE_BRACE] + rest)) == Some((entries, rest))
    decreases entries, 0
  {
    var e, tail := entries[0], entries[1..];
    var others := Texts(PrintEntries(tail));
    assert entries == [e] + tail;
    MembersFirst(entries);
    if tail == [] {
      LastEntryRoundTrip(e, rest);
      JoinOne(PrintEntry(e));
      assert [PrintEntry(e)] + others == [PrintEntry(e)] && entries == [e];
      return;
    }
    EntriesRoundTrip(tail, rest);
    NextEntryRoundTrip(e, Join(others) + ([CLOSE_BRACE] + rest), tail, rest);
    JoinCons(PrintEntry(e), others, [CLOSE_BRACE] + rest);
  }
}

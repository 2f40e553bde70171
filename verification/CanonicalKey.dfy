/** The canonical text of a JSON value, from which cache keys are made. */
module CanonicalKey {
  import opened JsonText

  /** Where a key falls in the locale's collation order; keys of equal rank compare as equal. */
  type Collation = Text -> real

  // ----- sorting entries -----

  function InsertByKey<T>(e: (Text, T), s: seq<(Text, T)>, rank: Collation): seq<(Text, T)> {
    if s == [] || rank(e.0) <= rank(s[0].0) then [e] + s else [s[0]] + InsertByKey(e, s[1..], rank)
  }

  /** A stable sort by collation rank. */
  function SortByKey<T>(es: seq<(Text, T)>, rank: Collation): seq<(Text, T)> {
    if es == [] then [] else InsertByKey(es[0], SortByKey(es[1..], rank), rank)
  }

  // ----- the serialiser -----

  function Join(texts: seq<Text>): Text {
    if texts == [] then [] else if |texts| == 1 then texts[0] else texts[0] + [COMMA] + Join(texts[1..])
  }

  function Texts(members: seq<(Text, Text)>): (ts: seq<Text>)
    ensures |ts| == |members|
  {
    if members == [] then [] else [members[0].1] + Texts(members[1..])
  }

  function Scalar(v: Json): Text
    requires !v.Arr? && !v.Obj?
  {
    match v
    case Undefined => []
    case Null => NULL
    case Bool(b) => if b then TRUE else FALSE
    case NonFinite => NULL
    case Num(text) => text
    case Str(s) => Quote(s)
  }

  /** `stableStringify`. An `undefined` array element joins as the empty text. */
  function Stringify(v: Json, rank: Collation): Text
    decreases v, 1
  {
    match v
    case Arr(items) => [OPEN_BRACKET] + Join(StringifyItems(items, rank)) + [CLOSE_BRACKET]
    case Obj(entries) => [OPEN_BRACE] + Join(Texts(SortByKey(StringifyEntries(entries, rank), rank))) + [CLOSE_BRACE]
    case _ => Scalar(v)
  }

  function StringifyItems(items: seq<Json>, rank: Collation): (ts: seq<Text>)
    ensures |ts| == |items|
    decreases items, 0
  {
    if items == [] then [] else [Stringify(items[0], rank)] + StringifyItems(items[1..], rank)
  }

  /** The defined entries, each with its key and its printed member. */
  function StringifyEntries(entries: seq<(Text, Json)>, rank: Collation): seq<(Text, Text)>
    decreases entries, 0
  {
    if entries == [] then []
    else
      (if entries[0].1.Undefined? then [] else [(entries[0].0, StringifyEntry(entries[0], rank))])
      + StringifyEntries(entries[1..], rank)
  }

  function StringifyEntry(e: (Text, Json), rank: Collation): Text
    decreases e, 2
  {
    Quote(e.0) + [COLON] + Stringify(e.1, rank)
  }

  // ----- canonical values -----

  /** The value with undefined entries dropped and entries sorted, at every level. */
  function Canon(v: Json, rank: Collation): Json
    decreases v, 1
  {
    match v
    case Arr(items) => Arr(CanonItems(items, rank))
    case Obj(entries) => Obj(SortByKey(CanonEntries(entries, rank), rank))
    case _ => v
  }

  function CanonItems(items: seq<Json>, rank: Collation): (cs: seq<Json>)
    ensures |cs| == |items|
    decreases items, 0
  {
    if items == [] then [] else [Canon(items[0], rank)] + CanonItems(items[1..], rank)
  }

  function CanonEntries(entries: seq<(Text, Json)>, rank: Collation): seq<(Text, Json)>
    decreases entries, 0
  {
    if entries == [] then []
    else
      (if entries[0].1.Undefined? then [] else [(entries[0].0, CanonEntry(entries[0], rank))])
      + CanonEntries(entries[1..], rank)
  }

  function CanonEntry(e: (Text, Json), rank: Collation): Json
    decreases e, 2
  {
    Canon(e.1, rank)
  }

  /** Printing without sorting or dropping anything. */
  function Print(v: Json): Text
    decreases v, 1
  {
    match v
    case Arr(items) => [OPEN_BRACKET] + Join(PrintItems(items)) + [CLOSE_BRACKET]
    case Obj(entries) => [OPEN_BRACE] + Join(Texts(PrintEntries(entries))) + [CLOSE_BRACE]
    case _ => Scalar(v)
  }

  function PrintItems(items: seq<Json>): (ts: seq<Text>)
    ensures |ts| == |items|
    decreases items, 0
  {
    if items == [] then [] else [Print(items[0])] + PrintItems(items[1..])
  }

  function PrintEntries(entries: seq<(Text, Json)>): (ms: seq<(Text, Text)>)
    ensures |ms| == |entries|
    decreases entries, 0
  {
    if entries == [] then []
    else [(entries[0].0, PrintEntry(entries[0]))] + PrintEntries(entries[1..])
  }

  function PrintEntry(e: (Text, Json)): Text
    decreases e, 2
  {
    Quote(e.0) + [COLON] + Print(e.1)
  }

  /** Sorting looks at keys only, so it commutes with printing the members. */
  lemma {:induction false} InsertPrinted(e: (Text, Json), s: seq<(Text, Json)>, rank: Collation)
    ensures PrintEntries(InsertByKey(e, s, rank)) == InsertByKey(PrintEntries([e])[0], PrintEntries(s), rank)
  {
    var one := [e];
    assert one[1..] == [];
    if s == [] || rank(e.0) <= rank(s[0].0) {
      assert ([e] + s)[1..] == s;
    } else {
      InsertPrinted(e, s[1..], rank);
      var t := InsertByKey(e, s, rank);
      assert t[1..] == InsertByKey(e, s[1..], rank);
    }
  }

  lemma {:induction false} SortPrinted(es: seq<(Text, Json)>, rank: Collation)
    ensures PrintEntries(SortByKey(es, rank)) == SortByKey(PrintEntries(es), rank)
  {
    if es != [] {
      SortPrinted(es[1..], rank);
      InsertPrinted(es[0], SortByKey(es[1..], rank), rank);
      var one := [es[0]];
      assert one[1..] == [];
      assert PrintEntries(es)[1..] == PrintEntries(es[1..]);
    }
  }

  /** The canonical text prints the canonical value. */
  lemma {:induction false} StringifyIsPrintCanon(v: Json, rank: Collation)
    ensures Stringify(v, rank) == Print(Canon(v, rank))
    decreases v, 1
  {
    match v
    case Arr(items) => ItemsPrintCanon(items, rank);
    case Obj(entries) =>
      EntriesPrintCanon(entries, rank);
      SortPrinted(CanonEntries(entries, rank), rank);
    case _ =>
  }

  lemma {:induction false} ItemsPrintCanon(items: seq<Json>, rank: Collation)
    ensures StringifyItems(items, rank) == PrintItems(CanonItems(items, rank))
    decreases items, 0
  {
    if items != [] {
      StringifyIsPrintCanon(items[0], rank);
      ItemsPrintCanon(items[1..], rank);
      assert CanonItems(items, rank)[1..] == CanonItems(items[1..], rank);
    }
  }

  lemma {:induction false} EntriesPrintCanon(entries: seq<(Text, Json)>, rank: Collation)
    ensures StringifyEntries(entries, rank) == PrintEntries(CanonEntries(entries, rank))
    decreases entries, 0
  {
    if entries != [] {
      EntryPrintCanon(entries[0], rank);
      EntriesPrintCanon(entries[1..], rank);
      if !entries[0].1.Undefined? {
        var c := [(entries[0].0, CanonEntry(entries[0], rank))] + CanonEntries(entries[1..], rank);
        assert c[1..] == CanonEntries(entries[1..], rank);
      } else {
        assert [] + CanonEntries(entries[1..], rank) == CanonEntries(entries[1..], rank);
        assert [] + StringifyEntries(entries[1..], rank) == StringifyEntries(entries[1..], rank);
      }
    }
  }

  lemma {:induction false} EntryPrintCanon(e: (Text, Json), rank: Collation)
    ensures StringifyEntry(e, rank) == PrintEntry((e.0, CanonEntry(e, rank)))
    decreases e, 2
  {
    StringifyIsPrintCanon(e.1, rank);
  }
}

/** Two values share a canonical text exactly when they look alike: what a text shows of a value,
    what it hides, and what that means for cache keys. */
module CacheKey {
  import opened Options
  import opened JsonText
  import opened CanonicalKey
  import opened JsonParser

  predicate Defined(e: (Text, Json)) {
    !e.1.Undefined?
  }

  /** No two defined entries fall at the same place in the collation. */
  predicate NoTies(entries: seq<(Text, Json)>, rank: Collation) {
    forall i, j | 0 <= i < j < |entries| && Defined(entries[i]) && Defined(entries[j]) ::
      rank(entries[i].0) != rank(entries[j].0)
  }

  // ----- what a text can show -----

  /** The value as its text shows it: numbers that are not finite are null, and an array of one undefined
      element is empty, at every level. */
  function Shown(v: Json): (shown: Json)
    ensures shown.Undefined? <==> v.Undefined?
    decreases v, 1
  {
    match v
    case NonFinite => Null
    case Arr(items) =>
      if ShownItems(items) == [Undefined] then Arr([]) else Arr(ShownItems(items))
    case Obj(entries) => Obj(ShownEntries(entries))
    case _ => v
  }

  function ShownItems(items: seq<Json>): (shown: seq<Json>)
    ensures |shown| == |items|
    decreases items, 0
  {
    if items == [] then [] else [Shown(items[0])] + ShownItems(items[1..])
  }

  function ShownEntries(entries: seq<(Text, Json)>): (shown: seq<(Text, Json)>)
    ensures |shown| == |entries|
    decreases entries, 0
  {
    if entries == [] then [] else [(entries[0].0, ShownEntry(entries[0]))] + ShownEntries(entries[1..])
  }

  function ShownEntry(e: (Text, Json)): (shown: Json)
    ensures shown.Undefined? <==> e.1.Undefined?
    decreases e, 2
  {
    Shown(e.1)
  }

  /** Every finite number in the value has a number's text. */
  predicate Sound(v: Json)
    decreases v, 1
  {
    match v
    case Num(text) => IsNumberText(text)
    case Arr(items) => forall i | 0 <= i < |items| :: Sound(items[i])
    case Obj(entries) => forall i | 0 <= i < |entries| :: SoundEntry(entries[i])
    case _ => true
  }

  predicate SoundEntry(e: (Text, Json))
    decreases e, 2
  {
    Sound(e.1)
  }

  // ----- alike -----

  /** The same value up to undefined entries and key order, at every level, but for keys that fall at one place
      in the collation the order counts. */
  ghost predicate Alike(a: Json, b: Json, rank: Collation)
    decreases a, 1
  {
    match a
    case Arr(x) => b.Arr? && |x| == |b.items| && forall i | 0 <= i < |x| :: Alike(x[i], b.items[i], rank)
    case Obj(x) => b.Obj? && forall r: real :: AlikeAt(x, b.entries, r, rank)
    case _ => a == b
  }

  predicate Falls(e: (Text, Json), r: real, rank: Collation) {
    Defined(e) && rank(e.0) == r
  }

  /** The defined entries that fall at place `r` correspond one by one, in order. */
  ghost predicate AlikeAt(x: seq<(Text, Json)>, y: seq<(Text, Json)>, r: real, rank: Collation)
    decreases x, 0, |y|
  {
    if x != [] && !Falls(x[0], r, rank) then AlikeAt(x[1..], y, r, rank)
    else if y != [] && !Falls(y[0], r, rank) then AlikeAt(x, y[1..], r, rank)
    else if x == [] || y == [] then x == y
    else x[0].0 == y[0].0 && AlikeEntry(x[0], y[0].1, rank) && AlikeAt(x[1..], y[1..], r, rank)
  }

  ghost predicate AlikeEntry(e: (Text, Json), v: Json, rank: Collation)
    decreases e, 2
  {
    Alike(e.1, v, rank)
  }

  // ----- sorted entries and their groups -----

  predicate Ascending<T>(s: seq<(Text, T)>, rank: Collation) {
    |s| <= 1 || (rank(s[0].0) <= rank(s[1].0) && Ascending(s[1..], rank))
  }

  /** The entries at one place of the collation, in order. */
  function Group<T>(s: seq<(Text, T)>, r: real, rank: Collation): seq<(Text, T)> {
    if s == [] then [] else One(s[0], r, rank) + Group(s[1..], r, rank)
  }

  lemma {:induction false} InGroup<T>(s: seq<(Text, T)>, r: real, rank: Collation, x: (Text, T))
    ensures x in Group(s, r, rank) <==> x in s && rank(x.0) == r
  {
    if s != [] {
      InGroup(s[1..], r, rank, x);
      assert s == [s[0]] + s[1..];
    }
  }

  lemma {:induction false} InsertAscending<T>(e: (Text, T), s: seq<(Text, T)>, rank: Collation)
    requires Ascending(s, rank)
    ensures Ascending(InsertByKey(e, s, rank), rank)
  {
    if s != [] && rank(e.0) > rank(s[0].0) {
      InsertAscending(e, s[1..], rank);
      assert InsertByKey(e, s, rank)[1..] == InsertByKey(e, s[1..], rank);
    } else {
      assert ([e] + s)[1..] == s;
    }
  }

  function One<T>(e: (Text, T), r: real, rank: Collation): seq<(Text, T)> {
    if rank(e.0) == r then [e] else []
  }

  lemma GroupCons<T>(e: (Text, T), s: seq<(Text, T)>, r: real, rank: Collation)
    ensures Group([e] + s, r, rank) == One(e, r, rank) + Group(s, r, rank)
  {
    assert ([e] + s)[1..] == s;
  }

  lemma OnesSwap<T>(e: (Text, T), f: (Text, T), g: seq<(Text, T)>, r: real, rank: Collation)
    requires rank(e.0) != rank(f.0)
    ensures One(e, r, rank) + (One(f, r, rank) + g) == One(f, r, rank) + (One(e, r, rank) + g)
  {
  }

  /** Insertion puts an entry in front of its group. */
  lemma {:induction false} InsertGroup<T>(e: (Text, T), s: seq<(Text, T)>, r: real, rank: Collation)
    ensures Group(InsertByKey(e, s, rank), r, rank) == One(e, r, rank) + Group(s, r, rank)
  {
    if s == [] || rank(e.0) <= rank(s[0].0) {
      GroupCons(e, s, r, rank);
    } else {
      InsertGroup(e, s[1..], r, rank);
      GroupCons(s[0], InsertByKey(e, s[1..], rank), r, rank);
      OnesSwap(e, s[0], Group(s[1..], r, rank), r, rank);
    }
  }

  /** Sorting is stable: it keeps every group as it was. */
  lemma {:induction false} SortGroup<T>(es: seq<(Text, T)>, r: real, rank: Collation)
    ensures Group(SortByKey(es, rank), r, rank) == Group(es, r, rank)
  {
    if es != [] {
      SortGroup(es[1..], r, rank);
      InsertGroup(es[0], SortByKey(es[1..], rank), r, rank);
    }
  }

  lemma {:induction false} SortAscending<T>(es: seq<(Text, T)>, rank: Collation)
    ensures Ascending(SortByKey(es, rank), rank)
  {
    if es != [] {
      SortAscending(es[1..], rank);
      InsertAscending(es[0], SortByKey(es[1..], rank), rank);
    }
  }

  lemma {:induction false} HeadIsLeast<T>(s: seq<(Text, T)>, rank: Collation, x: (Text, T))
    requires Ascending(s, rank) && x in s
    ensures rank(s[0].0) <= rank(x.0)
  {
    if x != s[0] {
      assert s == [s[0]] + s[1..];
      HeadIsLeast(s[1..], rank, x);
    }
  }

  ghost predicate SameGroups<T>(a: seq<(Text, T)>, b: seq<(Text, T)>, rank: Collation) {
    forall r: real :: Group(a, r, rank) == Group(b, r, rank)
  }

  lemma HeadInOther<T>(a: seq<(Text, T)>, b: seq<(Text, T)>, rank: Collation)
    requires SameGroups(a, b, rank) && a != []
    ensures a[0] in b && Group(b, rank(a[0].0), rank) != [] && Group(b, rank(a[0].0), rank)[0] == a[0]
  {
    var r := rank(a[0].0);
    assert Group(a, r, rank)[0] == a[0];
    assert Group(b, r, rank) == Group(a, r, rank);
    InGroup(b, r, rank, a[0]);
  }

  lemma HeadsAgree<T>(a: seq<(Text, T)>, b: seq<(Text, T)>, rank: Collation)
    requires Ascending(a, rank) && Ascending(b, rank) && SameGroups(a, b, rank) && a != [] && b != []
    ensures a[0] == b[0] && SameGroups(a[1..], b[1..], rank)
  {
    HeadInOther(a, b, rank);
    HeadInOther(b, a, rank);
    HeadIsLeast(b, rank, a[0]);
    HeadIsLeast(a, rank, b[0]);
    forall r: real | true
      ensures Group(a[1..], r, rank) == Group(b[1..], r, rank)
    {
      var head := if rank(a[0].0) == r then [a[0]] else [];
      assert Group(a, r, rank) == head + Group(a[1..], r, rank) && Group(b, r, rank) == head + Group(b[1..], r, rank);
      Uncons(head, Group(a[1..], r, rank), Group(b[1..], r, rank));
    }
  }

  lemma Uncons<T>(head: seq<T>, a: seq<T>, b: seq<T>)
    requires head + a == head + b
    ensures a == b
  {
    assert (head + a)[|head|..] == a && (head + b)[|head|..] == b;
  }

  /** A sorted list is determined by its groups. */
  lemma {:induction false} GroupsDetermine<T>(a: seq<(Text, T)>, b: seq<(Text, T)>, rank: Collation)
    requires Ascending(a, rank) && Ascending(b, rank) && SameGroups(a, b, rank)
    ensures a == b
    decreases |a|
  {
    if a == [] {
      if b != [] {
        HeadInOther(b, a, rank);
      }
    } else {
      HeadInOther(a, b, rank);
      HeadsAgree(a, b, rank);
      GroupsDetermine(a[1..], b[1..], rank);
      assert a == [a[0]] + a[1..] && b == [b[0]] + b[1..];
    }
  }

  lemma SortMembers<T>(es: seq<(Text, T)>, rank: Collation, x: (Text, T))
    ensures x in SortByKey(es, rank) <==> x in es
  {
    SortGroup(es, rank(x.0), rank);
    InGroup(es, rank(x.0), rank, x);
    InGroup(SortByKey(es, rank), rank(x.0), rank, x);
  }

  // ----- canonical entries -----

  lemma {:induction false} CanonEntriesMeans(es: seq<(Text, Json)>, rank: Collation, x: (Text, Json))
    ensures x in CanonEntries(es, rank)
       <==> exists i :: 0 <= i < |es| && Defined(es[i]) && x == (es[i].0, CanonEntry(es[i], rank))
  {
    if es != [] {
      var tail := es[1..];
      CanonEntriesMeans(tail, rank, x);
      if i :| 0 <= i < |es| && Defined(es[i]) && x == (es[i].0, CanonEntry(es[i], rank)) {
        assert i > 0 ==> tail[i - 1] == es[i];
      }
      if i :| 0 <= i < |tail| && Defined(tail[i]) && x == (tail[i].0, CanonEntry(tail[i], rank)) {
        assert tail[i] == es[i + 1];
      }
    }
  }

  lemma {:induction false} CanonEntriesApart(es: seq<(Text, Json)>, rank: Collation)
    requires NoTies(es, rank)
    ensures KeysApart(CanonEntries(es, rank), rank)
  {
    if es != [] {
      var tail := es[1..];
      CanonEntriesApart(tail, rank);
      var cs := CanonEntries(tail, rank);
      forall i | 0 <= i < |cs| && Defined(es[0])
        ensures rank(cs[i].0) != rank(es[0].0)
      {
        CanonEntriesMeans(tail, rank, cs[i]);
        var j :| 0 <= j < |tail| && Defined(tail[j]) && cs[i] == (tail[j].0, CanonEntry(tail[j], rank));
        assert tail[j] == es[j + 1];
      }
    }
  }

  lemma {:induction false} CanonItemsAt(items: seq<Json>, rank: Collation)
    ensures forall i | 0 <= i < |items| :: CanonItems(items, rank)[i] == Canon(items[i], rank)
  {
    if items != [] {
      CanonItemsAt(items[1..], rank);
      assert forall i | 1 <= i < |items| :: items[i] == items[1..][i - 1];
    }
  }

  // ----- canonical values are alike exactly when they are equal -----

  /** For every pair of entries, equality of the canonical values is already known to be likeness. */
  ghost predicate EntriesKnown(x: seq<(Text, Json)>, y: seq<(Text, Json)>, rank: Collation) {
    forall i, j | 0 <= i < |x| && 0 <= j < |y| ::
      CanonEntry(x[i], rank) == CanonEntry(y[j], rank) <==> AlikeEntry(x[i], y[j].1, rank)
  }

  lemma KnownTails(x: seq<(Text, Json)>, y: seq<(Text, Json)>, rank: Collation)
    requires EntriesKnown(x, y, rank)
    ensures x != [] ==> EntriesKnown(x[1..], y, rank)
    ensures y != [] ==> EntriesKnown(x, y[1..], rank)
    ensures x != [] && y != [] ==> EntriesKnown(x[1..], y[1..], rank)
  {
  }

  lemma GroupOfFirst(x: seq<(Text, Json)>, r: real, rank: Collation)
    requires x != []
    ensures Group(CanonEntries(x, rank), r, rank)
         == (if Falls(x[0], r, rank) then [(x[0].0, CanonEntry(x[0], rank))] else [])
           + Group(CanonEntries(x[1..], rank), r, rank)
  {
    var c := CanonEntries(x, rank);
    if Defined(x[0]) {
      assert c[0] == (x[0].0, CanonEntry(x[0], rank)) && c[1..] == CanonEntries(x[1..], rank);
    } else {
      assert c == CanonEntries(x[1..], rank);
    }
  }

  lemma {:induction false} AlikeAtIsGroup(x: seq<(Text, Json)>, y: seq<(Text, Json)>, r: real, rank: Collation)
    requires EntriesKnown(x, y, rank)
    ensures Group(CanonEntries(x, rank), r, rank) == Group(CanonEntries(y, rank), r, rank) <==> AlikeAt(x, y, r, rank)
    decreases |x| + |y|
  {
    KnownTails(x, y, rank);
    if x != [] { GroupOfFirst(x, r, rank); }
    if y != [] { GroupOfFirst(y, r, rank); }
    if x != [] && !Falls(x[0], r, rank) {
      AlikeAtIsGroup(x[1..], y, r, rank);
    } else if y != [] && !Falls(y[0], r, rank) {
      AlikeAtIsGroup(x, y[1..], r, rank);
    } else if x != [] && y != [] {
      AlikeAtIsGroup(x[1..], y[1..], r, rank);
      ConsEqual((x[0].0, CanonEntry(x[0], rank)), (y[0].0, CanonEntry(y[0], rank)),
                Group(CanonEntries(x[1..], rank), r, rank), Group(CanonEntries(y[1..], rank), r, rank));
    }
  }

  lemma ConsEqual<T>(a: T, b: T, s: seq<T>, t: seq<T>)
    ensures [a] + s == [b] + t <==> a == b && s == t
  {
    if [a] + s == [b] + t {
      assert ([a] + s)[0] == ([b] + t)[0] && ([a] + s)[1..] == s && ([b] + t)[1..] == t;
    }
  }

  lemma ObjectsAlike(x: seq<(Text, Json)>, y: seq<(Text, Json)>, rank: Collation)
    requires EntriesKnown(x, y, rank)
    ensures Canon(Obj(x), rank) == Canon(Obj(y), rank) <==> Alike(Obj(x), Obj(y), rank)
  {
    var cx, cy := CanonEntries(x, rank), CanonEntries(y, rank);
    forall r: real | true
      ensures Group(cx, r, rank) == Group(cy, r, rank) <==> AlikeAt(x, y, r, rank)
      ensures Group(SortByKey(cx, rank), r, rank) == Group(cx, r, rank)
      ensures Group(SortByKey(cy, rank), r, rank) == Group(cy, r, rank)
    {
      AlikeAtIsGroup(x, y, r, rank);
      SortGroup(cx, r, rank);
      SortGroup(cy, r, rank);
    }
    SortAscending(cx, rank);
    SortAscending(cy, rank);
    if Alike(Obj(x), Obj(y), rank) {
      assert SameGroups(SortByKey(cx, rank), SortByKey(cy, rank), rank);
      GroupsDetermine(SortByKey(cx, rank), SortByKey(cy, rank), rank);
    }
  }

  lemma {:induction false} CanonIsAlike(a: Json, b: Json, rank: Collation)
    ensures Canon(a, rank) == Canon(b, rank) <==> Alike(a, b, rank)
    decreases a, 1
  {
    if a.Arr? && b.Arr? {
      forall i | 0 <= i < |a.items| && i < |b.items|
        ensures Canon(a.items[i], rank) == Canon(b.items[i], rank) <==> Alike(a.items[i], b.items[i], rank)
      {
        CanonIsAlike(a.items[i], b.items[i], rank);
      }
      ArraysAlike(a.items, b.items, rank);
    } else if a.Obj? && b.Obj? {
      forall i, j | 0 <= i < |a.entries| && 0 <= j < |b.entries|
        ensures CanonEntry(a.entries[i], rank) == CanonEntry(b.entries[j], rank)
           <==> AlikeEntry(a.entries[i], b.entries[j].1, rank)
      {
        EntryIsAlike(a.entries[i], b.entries[j], rank);
      }
      ObjectsAlike(a.entries, b.entries, rank);
    }
  }

  lemma ArraysAlike(x: seq<Json>, y: seq<Json>, rank: Collation)
    requires forall i | 0 <= i < |x| && i < |y| :: Canon(x[i], rank) == Canon(y[i], rank) <==> Alike(x[i], y[i], rank)
    ensures Canon(Arr(x), rank) == Canon(Arr(y), rank) <==> Alike(Arr(x), Arr(y), rank)
  {
    CanonItemsAt(x, rank);
    CanonItemsAt(y, rank);
    if |x| == |y| && Alike(Arr(x), Arr(y), rank) {
      assert CanonItems(x, rank) == CanonItems(y, rank);
    }
    if Canon(Arr(x), rank) == Canon(Arr(y), rank) {
      assert |CanonItems(x, rank)| == |CanonItems(y, rank)|;
    }
  }

  lemma {:induction false} EntryIsAlike(e: (Text, Json), f: (Text, Json), rank: Collation)
    ensures CanonEntry(e, rank) == CanonEntry(f, rank) <==> AlikeEntry(e, f.1, rank)
    decreases e, 2
  {
    CanonIsAlike(e.1, f.1, rank);
  }

  // ----- the text shows no more and no less -----

  /** Printing loses what `Shown` drops. */
  lemma {:induction false} ShownPrintsAlike(v: Json, rank: Collation)
    ensures Stringify(Shown(v), rank) == Stringify(v, rank)
    decreases v, 1
  {
    match v
    case Arr(items) =>
      ItemsPrintAlike(items, rank);
      if ShownItems(items) == [Undefined] {
        HolePrintsAlike(rank);
      }
    case Obj(entries) => EntriesPrintAlike(entries, rank);
    case _ =>
  }

  lemma HolePrintsAlike(rank: Collation)
    ensures Stringify(Arr([Undefined]), rank) == Stringify(Arr([]), rank)
  {
    var none: seq<Json>, one := [], [Undefined];
    assert one[1..] == none;
    assert StringifyItems(one, rank) == [[]] + StringifyItems(none, rank);
  }

  lemma {:induction false} ItemsPrintAlike(items: seq<Json>, rank: Collation)
    ensures StringifyItems(ShownItems(items), rank) == StringifyItems(items, rank)
    decreases items, 0
  {
    if items != [] {
      ShownPrintsAlike(items[0], rank);
      ItemsPrintAlike(items[1..], rank);
      assert ShownItems(items)[1..] == ShownItems(items[1..]);
    }
  }

  lemma {:induction false} EntriesPrintAlike(entries: seq<(Text, Json)>, rank: Collation)
    ensures StringifyEntries(ShownEntries(entries), rank) == StringifyEntries(entries, rank)
    decreases entries, 0
  {
    if entries != [] {
      EntryPrintsAlike(entries[0], rank);
      EntriesPrintAlike(entries[1..], rank);
      assert ShownEntries(entries)[1..] == ShownEntries(entries[1..]);
    }
  }

  lemma {:induction false} EntryPrintsAlike(e: (Text, Json), rank: Collation)
    ensures StringifyEntry((e.0, ShownEntry(e)), rank) == StringifyEntry(e, rank)
    decreases e, 2
  {
    ShownPrintsAlike(e.1, rank);
  }

  lemma {:induction false} ShownAt(items: seq<Json>, entries: seq<(Text, Json)>)
    ensures forall i | 0 <= i < |items| :: ShownItems(items)[i] == Shown(items[i])
    ensures forall i | 0 <= i < |entries| :: ShownEntries(entries)[i] == (entries[i].0, ShownEntry(entries[i]))
    decreases |items| + |entries|
  {
    if items != [] {
      ShownAt(items[1..], entries);
      assert forall i | 1 <= i < |items| :: items[i] == items[1..][i - 1];
    } else if entries != [] {
      ShownAt(items, entries[1..]);
      assert forall i | 1 <= i < |entries| :: entries[i] == entries[1..][i - 1];
    }
  }

  lemma CanonNotHole(items: seq<Json>, rank: Collation)
    requires items != [Undefined]
    ensures CanonItems(items, rank) != [Undefined]
  {
    CanonItemsAt(items, rank);
    if |items| == 1 {
      assert items == [items[0]];
      assert CanonItems(items, rank)[0] == Canon(items[0], rank);
    }
  }

  /** The canonical form of what a text shows can be printed and read back. */
  lemma {:induction false} CanonPrintable(v: Json, rank: Collation)
    requires Sound(v) && !v.Undefined?
    ensures Printable(Canon(Shown(v), rank))
    decreases v, 1
  {
    match v
    case Arr(items) =>
      ShownAt(items, []);
      CanonItemsAt(ShownItems(items), rank);
      forall i | 0 <= i < |items| && !items[i].Undefined?
        ensures Printable(CanonItems(ShownItems(items), rank)[i])
      {
        CanonPrintable(items[i], rank);
      }
      if ShownItems(items) != [Undefined] {
        CanonNotHole(ShownItems(items), rank);
      }
    case Obj(entries) =>
      var cs := CanonEntries(ShownEntries(entries), rank);
      ShownAt([], entries);
      forall i | 0 <= i < |SortByKey(cs, rank)|
        ensures PrintableEntry(SortByKey(cs, rank)[i])
      {
        var x := SortByKey(cs, rank)[i];
        SortMembers(cs, rank, x);
        CanonEntriesMeans(ShownEntries(entries), rank, x);
        var j :| 0 <= j < |entries| && Defined(ShownEntries(entries)[j])
                 && x == (ShownEntries(entries)[j].0, CanonEntry(ShownEntries(entries)[j], rank));
        CanonEntryPrintable(entries[j], rank);
      }
    case _ =>
  }

  lemma {:induction false} CanonEntryPrintable(e: (Text, Json), rank: Collation)
    requires SoundEntry(e) && Defined(e)
    ensures Printable(CanonEntry((e.0, ShownEntry(e)), rank))
    decreases e, 2
  {
    CanonPrintable(e.1, rank);
  }

  // ----- the theorems -----

  /** A canonical text reads back as the canonical form of the value it shows. */
  lemma CanonicalTextDecodes(v: Json, rank: Collation)
    requires Sound(v) && !v.Undefined?
    ensures ParseValue(Stringify(v, rank)) == Some((Canon(Shown(v), rank), []))
  {
    ShownPrintsAlike(v, rank);
    CanonPrintable(v, rank);
    StringifyIsPrintCanon(Shown(v), rank);
    RoundTrip(Canon(Shown(v), rank), []);
    assert Print(Canon(Shown(v), rank)) + [] == Print(Canon(Shown(v), rank));
  }

  lemma TextIsCanon(a: Json, b: Json, rank: Collation)
    requires Sound(a) && Sound(b)
    ensures Stringify(a, rank) == Stringify(b, rank) <==> Canon(Shown(a), rank) == Canon(Shown(b), rank)
  {
    if !a.Undefined? {
      CanonicalTextDecodes(a, rank);
    }
    if !b.Undefined? {
      CanonicalTextDecodes(b, rank);
    }
    ShownPrintsAlike(a, rank);
    ShownPrintsAlike(b, rank);
    StringifyIsPrintCanon(Shown(a), rank);
    StringifyIsPrintCanon(Shown(b), rank);
  }

  /** Two values have the same text if and only if what their texts show is alike. */
  lemma CanonicalKeyExact(a: Json, b: Json, rank: Collation)
    requires Sound(a) && Sound(b)
    ensures Stringify(a, rank) == Stringify(b, rank) <==> Alike(Shown(a), Shown(b), rank)
  {
    TextIsCanon(a, b, rank);
    CanonIsAlike(Shown(a), Shown(b), rank);
  }

  // ----- without ties -----

  predicate KeysApart<T>(s: seq<(Text, T)>, rank: Collation) {
    forall i, j | 0 <= i < j < |s| :: rank(s[i].0) != rank(s[j].0)
  }

  lemma {:induction false} SmallGroup<T>(s: seq<(Text, T)>, r: real, rank: Collation)
    requires KeysApart(s, rank)
    ensures |Group(s, r, rank)| <= 1
  {
    if s != [] {
      SmallGroup(s[1..], r, rank);
      var tail := Group(s[1..], r, rank);
      if tail != [] {
        InGroup(s[1..], r, rank, tail[0]);
        var i :| 0 <= i < |s[1..]| && s[1..][i] == tail[0];
        assert rank(s[0].0) != rank(s[i + 1].0);
      }
    }
  }

  lemma GroupWithin<T>(a: seq<(Text, T)>, b: seq<(Text, T)>, r: real, rank: Collation)
    requires KeysApart(b, rank) && (forall x | x in a :: x in b) && Group(a, r, rank) != []
    ensures Group(b, r, rank) == [Group(a, r, rank)[0]]
  {
    var x := Group(a, r, rank)[0];
    InGroup(a, r, rank, x);
    InGroup(b, r, rank, x);
    SmallGroup(b, r, rank);
  }

  lemma MembersDecide<T>(a: seq<(Text, T)>, b: seq<(Text, T)>, r: real, rank: Collation)
    requires KeysApart(a, rank) && KeysApart(b, rank) && forall x :: x in a <==> x in b
    ensures Group(a, r, rank) == Group(b, r, rank)
  {
    if Group(a, r, rank) != [] {
      GroupWithin(a, b, r, rank);
      SmallGroup(a, r, rank);
    } else if Group(b, r, rank) != [] {
      GroupWithin(b, a, r, rank);
      assert false;
    }
  }

  /** Without ties an object's canonical value depends on the set of its canonical entries only. */
  lemma ApartCanons(x: seq<(Text, Json)>, y: seq<(Text, Json)>, rank: Collation)
    requires NoTies(x, rank) && NoTies(y, rank)
    requires forall e :: e in CanonEntries(x, rank) <==> e in CanonEntries(y, rank)
    ensures Canon(Obj(x), rank) == Canon(Obj(y), rank)
  {
    var cx, cy := CanonEntries(x, rank), CanonEntries(y, rank);
    CanonEntriesApart(x, rank);
    CanonEntriesApart(y, rank);
    forall r: real | true
      ensures Group(SortByKey(cx, rank), r, rank) == Group(SortByKey(cy, rank), r, rank)
    {
      SortGroup(cx, r, rank);
      SortGroup(cy, r, rank);
      MembersDecide(cx, cy, r, rank);
    }
    SortAscending(cx, rank);
    SortAscending(cy, rank);
    GroupsDetermine(SortByKey(cx, rank), SortByKey(cy, rank), rank);
  }

  /** Entries with the same key and values that look alike. */
  ghost predicate Matches(e: (Text, Json), f: (Text, Json), rank: Collation) {
    Defined(e) && Defined(f) && e.0 == f.0 && Alike(e.1, f.1, rank)
  }

  ghost predicate HasMatch(e: (Text, Json), y: seq<(Text, Json)>, rank: Collation) {
    exists j :: 0 <= j < |y| && Matches(e, y[j], rank)
  }

  ghost predicate HasSource(x: seq<(Text, Json)>, f: (Text, Json), rank: Collation) {
    exists i :: 0 <= i < |x| && Matches(x[i], f, rank)
  }

  /** Every defined entry of either has its match in the other. */
  ghost predicate SameEntries(x: seq<(Text, Json)>, y: seq<(Text, Json)>, rank: Collation) {
    && (forall i {:trigger HasMatch(x[i], y, rank)} | 0 <= i < |x| && Defined(x[i]) :: HasMatch(x[i], y, rank))
    && (forall j {:trigger HasSource(x, y[j], rank)} | 0 <= j < |y| && Defined(y[j]) :: HasSource(x, y[j], rank))
  }

  lemma MatchedEntry(x: seq<(Text, Json)>, y: seq<(Text, Json)>, rank: Collation, e: (Text, Json))
    requires SameEntries(x, y, rank)
    ensures e in CanonEntries(x, rank) <==> e in CanonEntries(y, rank)
  {
    CanonEntriesMeans(x, rank, e);
    CanonEntriesMeans(y, rank, e);
    if i :| 0 <= i < |x| && Defined(x[i]) && e == (x[i].0, CanonEntry(x[i], rank)) {
      assert HasMatch(x[i], y, rank);
      var j :| 0 <= j < |y| && Matches(x[i], y[j], rank);
      CanonIsAlike(x[i].1, y[j].1, rank);
      assert CanonEntry(x[i], rank) == CanonEntry(y[j], rank);
    }
    if j :| 0 <= j < |y| && Defined(y[j]) && e == (y[j].0, CanonEntry(y[j], rank)) {
      assert HasSource(x, y[j], rank);
      var i :| 0 <= i < |x| && Matches(x[i], y[j], rank);
      CanonIsAlike(x[i].1, y[j].1, rank);
      assert CanonEntry(x[i], rank) == CanonEntry(y[j], rank);
    }
  }

  lemma SharedEntry(x: seq<(Text, Json)>, y: seq<(Text, Json)>, rank: Collation, i: nat) returns (j: nat)
    requires Canon(Obj(x), rank) == Canon(Obj(y), rank) && i < |x| && Defined(x[i])
    ensures j < |y| && Defined(y[j]) && x[i].0 == y[j].0 && Canon(x[i].1, rank) == Canon(y[j].1, rank)
  {
    var e := (x[i].0, CanonEntry(x[i], rank));
    CanonEntriesMeans(x, rank, e);
    SortMembers(CanonEntries(x, rank), rank, e);
    SortMembers(CanonEntries(y, rank), rank, e);
    CanonEntriesMeans(y, rank, e);
    j :| 0 <= j < |y| && Defined(y[j]) && e == (y[j].0, CanonEntry(y[j], rank));
    assert CanonEntry(x[i], rank) == CanonEntry(y[j], rank);
  }

  /** Where the collation tells the keys apart, objects look alike if and only if they have the same entries. */
  lemma ApartAlike(x: seq<(Text, Json)>, y: seq<(Text, Json)>, rank: Collation)
    requires NoTies(x, rank) && NoTies(y, rank)
    ensures Alike(Obj(x), Obj(y), rank) <==> SameEntries(x, y, rank)
  {
    CanonIsAlike(Obj(x), Obj(y), rank);
    if SameEntries(x, y, rank) {
      forall e | true
        ensures e in CanonEntries(x, rank) <==> e in CanonEntries(y, rank)
      {
        MatchedEntry(x, y, rank, e);
      }
      ApartCanons(x, y, rank);
    }
    if Canon(Obj(x), rank) == Canon(Obj(y), rank) {
      AlikeShares(x, y, rank);
    }
  }

  lemma AlikeShares(x: seq<(Text, Json)>, y: seq<(Text, Json)>, rank: Collation)
    requires Canon(Obj(x), rank) == Canon(Obj(y), rank)
    ensures SameEntries(x, y, rank)
  {
    forall i | 0 <= i < |x| && Defined(x[i])
      ensures HasMatch(x[i], y, rank)
    {
      var j := SharedEntry(x, y, rank, i);
      CanonIsAlike(x[i].1, y[j].1, rank);
      assert Matches(x[i], y[j], rank);
    }
    forall j | 0 <= j < |y| && Defined(y[j])
      ensures HasSource(x, y[j], rank)
    {
      var i := SharedEntry(y, x, rank, j);
      CanonIsAlike(x[i].1, y[j].1, rank);
      assert Matches(x[i], y[j], rank);
    }
  }

  // ----- building a cache key -----

  const KEY_T: Text := [116]
  const KEY_C: Text := [99]

  function OrNull(context: Json): Json {
    if context.Undefined? then Null else context
  }

  /** What `buildKey` hashes for an announcement type and a context. */
  function HashInput(kind: Text, context: Json, rank: Collation): Text {
    Stringify(Pair(kind, OrNull(context)), rank)
  }

  /** Two requests with contexts hash the same text exactly when their types are equal and their contexts look alike.
      A request without one hashes as if its context were null, so like another exactly when that one's looks like
      null. */
  lemma HashInputExact(kind: Text, context: Json, kind': Text, context': Json, rank: Collation)
    requires rank(KEY_T) != rank(KEY_C) && Sound(context) && Sound(context')
    ensures HashInput(kind, Undefined, rank) == HashInput(kind, Null, rank)
    ensures context != Undefined && context' != Undefined ==>
              (HashInput(kind, context, rank) == HashInput(kind', context', rank)
               <==> kind == kind' && Alike(Shown(context), Shown(context'), rank))
    ensures context' != Undefined ==>
              (HashInput(kind, Undefined, rank) == HashInput(kind', context', rank)
               <==> kind == kind' && Alike(Null, Shown(context'), rank))
  {
    GivenExact(kind, OrNull(context), kind', OrNull(context'), rank);
    GivenExact(kind, Null, kind', OrNull(context'), rank);
  }

  lemma GivenExact(kind: Text, context: Json, kind': Text, context': Json, rank: Collation)
    requires rank(KEY_T) != rank(KEY_C) && Sound(context) && Sound(context')
    requires context != Undefined && context' != Undefined
    ensures HashInput(kind, context, rank) == HashInput(kind', context', rank)
       <==> kind == kind' && Alike(Shown(context), Shown(context'), rank)
  {
    PairSound(kind, context);
    PairSound(kind', context');
    CanonicalKeyExact(Pair(kind, context), Pair(kind', context'), rank);
    PairShown(kind, context);
    PairShown(kind', context');
    PairAlike(kind, Shown(context), kind', Shown(context'), rank);
  }

  /** The text itself, for a collation that puts `c` before `t`. */
  lemma HashInputText(kind: Text, context: Json, rank: Collation)
    requires rank([99]) < rank([116])
    ensures HashInput(kind, context, rank)
         == [OPEN_BRACE]
            + ((Quote([99]) + [COLON] + Stringify(if context == Undefined then Null else context, rank))
               + [COMMA] + (Quote([116]) + [COLON] + Quote(kind)))
            + [CLOSE_BRACE]
  {
    var v := Pair(kind, OrNull(context));
    var t: (Text, Text) := (KEY_T, StringifyEntry(v.entries[0], rank));
    var c: (Text, Text) := (KEY_C, StringifyEntry(v.entries[1], rank));
    TwoMembers(v.entries[0], v.entries[1], rank);
    TwoSorted(t, c, rank);
    assert t.1 == Quote(KEY_T) + [COLON] + Stringify(Str(kind), rank);
    assert Stringify(v, rank) == [OPEN_BRACE] + Join(Texts([c, t])) + [CLOSE_BRACE];
  }

  lemma TwoMembers(e: (Text, Json), f: (Text, Json), rank: Collation)
    requires Defined(e) && Defined(f)
    ensures StringifyEntries([e, f], rank) == [(e.0, StringifyEntry(e, rank)), (f.0, StringifyEntry(f, rank))]
  {
    var none: seq<(Text, Json)> := [];
    assert [e, f][1..] == [f] && [f][1..] == none;
    assert StringifyEntries([f], rank) == [(f.0, StringifyEntry(f, rank))] + StringifyEntries(none, rank);
  }

  lemma TwoSorted(t: (Text, Text), c: (Text, Text), rank: Collation)
    requires rank(c.0) < rank(t.0)
    ensures SortByKey([t, c], rank) == [c, t]
    ensures Join(Texts([c, t])) == c.1 + [COMMA] + t.1
  {
    var ts: seq<(Text, Text)>, cs: seq<(Text, Text)> := [t], [c];
    assert ts[1..] == ts[..0] && cs[1..] == cs[..0] && [t, c][1..] == cs && [c, t][1..] == ts;
    assert SortByKey(cs, rank) == cs;
    assert InsertByKey(t, cs, rank) == [c] + [t];
    assert Texts(ts) == [t.1] && Texts([c, t]) == [c.1, t.1];
    assert [c.1, t.1][1..] == [t.1];
  }

  function Pair(kind: Text, context: Json): Json {
    Obj([(KEY_T, Str(kind)), (KEY_C, context)])
  }

  lemma PairSound(kind: Text, context: Json)
    requires Sound(context)
    ensures Sound(Pair(kind, context))
  {
    var x := Pair(kind, context).entries;
    assert SoundEntry(x[0]) && SoundEntry(x[1]);
  }

  lemma PairShown(kind: Text, context: Json)
    ensures Shown(Pair(kind, context)) == Pair(kind, Shown(context))
  {
    var x := Pair(kind, context).entries;
    ShownAt([], x);
    assert ShownEntry(x[0]) == Str(kind);
    assert ShownEntries(x) == Pair(kind, Shown(context)).entries;
  }

  lemma PairAlike(kind: Text, context: Json, kind': Text, context': Json, rank: Collation)
    requires rank(KEY_T) != rank(KEY_C) && !context.Undefined? && !context'.Undefined?
    ensures Alike(Pair(kind, context), Pair(kind', context'), rank) <==> kind == kind' && Alike(context, context', rank)
  {
    var x, y := Pair(kind, context).entries, Pair(kind', context').entries;
    PairApart(kind, context, rank);
    PairApart(kind', context', rank);
    ApartAlike(x, y, rank);
    assert KEY_T[0] != KEY_C[0];
    assert Matches(x[0], y[0], rank) <==> kind == kind';
    assert Matches(x[1], y[1], rank) <==> Alike(context, context', rank);
    assert !Matches(x[0], y[1], rank) && !Matches(x[1], y[0], rank);
    if Alike(Obj(x), Obj(y), rank) {
      assert HasMatch(x[0], y, rank) && HasMatch(x[1], y, rank);
    }
    if kind == kind' && Alike(context, context', rank) {
      assert HasMatch(x[0], y, rank) && HasMatch(x[1], y, rank) && HasSource(x, y[0], rank) && HasSource(x, y[1], rank);
    }
  }

  lemma PairApart(kind: Text, context: Json, rank: Collation)
    requires rank(KEY_T) != rank(KEY_C)
    ensures NoTies(Pair(kind, context).entries, rank)
  {
  }

  /** So different values can share a key: an undefined array element is like no element at all,
      and NaN and the infinities are like null. */
  lemma DifferentValuesCollide(rank: Collation)
    ensures Stringify(Arr([Undefined]), rank) == Stringify(Arr([]), rank) && !Alike(Arr([Undefined]), Arr([]), rank)
    ensures Stringify(NonFinite, rank) == Stringify(Null, rank) && !Alike(NonFinite, Null, rank)
  {
    HolePrintsAlike(rank);
  }

  // ----- insertion order -----

  predicate DistinctKeys(entries: seq<(Text, Json)>) {
    forall i, j | 0 <= i < j < |entries| :: entries[i].0 != entries[j].0
  }

  /** However the entries are ordered, the object's text is the same. */
  ghost predicate OrderFree(entries: seq<(Text, Json)>, rank: Collation) {
    forall y: seq<(Text, Json)> | multiset(y) == multiset(entries) ::
      Stringify(Obj(y), rank) == Stringify(Obj(entries), rank)
  }

  lemma SameBag(x: seq<(Text, Json)>, y: seq<(Text, Json)>)
    requires multiset(x) == multiset(y)
    ensures forall e :: e in x <==> e in y
  {
    forall e | true
      ensures e in x <==> e in y
    {
      assert e in multiset(x) <==> e in multiset(y);
    }
  }

  lemma ApartReordered(x: seq<(Text, Json)>, y: seq<(Text, Json)>, rank: Collation)
    requires NoTies(x, rank) && NoTies(y, rank) && forall d :: d in x <==> d in y
    ensures Stringify(Obj(x), rank) == Stringify(Obj(y), rank)
  {
    forall e | true
      ensures e in CanonEntries(x, rank) <==> e in CanonEntries(y, rank)
    {
      if e in CanonEntries(x, rank) { ReorderedMembers(x, y, rank, e); }
      if e in CanonEntries(y, rank) { ReorderedMembers(y, x, rank, e); }
    }
    ApartCanons(x, y, rank);
    StringifyIsPrintCanon(Obj(x), rank);
    StringifyIsPrintCanon(Obj(y), rank);
  }

  lemma ReorderedMembers(x: seq<(Text, Json)>, y: seq<(Text, Json)>, rank: Collation, e: (Text, Json))
    requires (forall d :: d in x <==> d in y) && e in CanonEntries(x, rank)
    ensures e in CanonEntries(y, rank)
  {
    CanonEntriesMeans(x, rank, e);
    CanonEntriesMeans(y, rank, e);
    var i :| 0 <= i < |x| && Defined(x[i]) && e == (x[i].0, CanonEntry(x[i], rank));
    assert x[i] in y;
    var j :| 0 <= j < |y| && y[j] == x[i];
  }

  /** Stable insertion of two tied entries keeps them in the order in which they came. */
  lemma {:induction false} TiedInsertsDiffer<T>(e: (Text, T), f: (Text, T), s: seq<(Text, T)>, rank: Collation)
    requires rank(e.0) == rank(f.0) && e != f
    ensures InsertByKey(e, InsertByKey(f, s, rank), rank) != InsertByKey(f, InsertByKey(e, s, rank), rank)
  {
    var ef, fe := InsertByKey(e, InsertByKey(f, s, rank), rank), InsertByKey(f, InsertByKey(e, s, rank), rank);
    if s == [] || rank(e.0) <= rank(s[0].0) {
      assert ef == [e] + ([f] + s) && fe == [f] + ([e] + s);
      assert ef[0] == e && fe[0] == f;
    } else {
      TiedInsertsDiffer(e, f, s[1..], rank);
      assert ef == [s[0]] + InsertByKey(e, InsertByKey(f, s[1..], rank), rank);
      assert fe == [s[0]] + InsertByKey(f, InsertByKey(e, s[1..], rank), rank);
      assert ef[1..] != fe[1..];
    }
  }

  lemma CanonOfFront(e: (Text, Json), f: (Text, Json), rest: seq<(Text, Json)>, rank: Collation)
    requires Defined(e) && Defined(f)
    ensures CanonEntries([e, f] + rest, rank)
         == [(e.0, CanonEntry(e, rank)), (f.0, CanonEntry(f, rank))] + CanonEntries(rest, rank)
  {
    var x := [e, f] + rest;
    assert x[1..] == [f] + rest && x[1..][1..] == rest;
  }

  lemma SortOfFront<T>(e: (Text, T), f: (Text, T), rest: seq<(Text, T)>, rank: Collation)
    ensures SortByKey([e, f] + rest, rank) == InsertByKey(e, InsertByKey(f, SortByKey(rest, rank), rank), rank)
  {
    var x := [e, f] + rest;
    assert x[1..] == [f] + rest && x[1..][1..] == rest;
  }

  lemma TiedCanonsDiffer(e: (Text, Json), f: (Text, Json), rest: seq<(Text, Json)>, rank: Collation)
    requires Defined(e) && Defined(f) && e.0 != f.0 && rank(e.0) == rank(f.0)
    ensures Canon(Obj([e, f] + rest), rank) != Canon(Obj([f, e] + rest), rank)
  {
    var ce, cf := (e.0, CanonEntry(e, rank)), (f.0, CanonEntry(f, rank));
    CanonOfFront(e, f, rest, rank);
    CanonOfFront(f, e, rest, rank);
    SortOfFront(ce, cf, CanonEntries(rest, rank), rank);
    SortOfFront(cf, ce, CanonEntries(rest, rank), rank);
    TiedInsertsDiffer(ce, cf, SortByKey(CanonEntries(rest, rank), rank), rank);
  }

  lemma ToFront<T>(a: seq<T>, x: T, b: seq<T>)
    ensures multiset([x] + (a + b)) == multiset(a + [x] + b)
  {
    assert multiset(a + b) == multiset(a) + multiset(b);
  }

  lemma BothToFront<T>(a: seq<T>, x: T, b: seq<T>, y: T, c: seq<T>)
    ensures multiset([x, y] + (a + b + c)) == multiset(a + [x] + b + [y] + c)
  {
    ToFront(a + b, y, c);
    ToFront(a, x, b + [y] + c);
    assert [x, y] + (a + b + c) == [x] + ([y] + ((a + b) + c));
    assert a + (b + [y] + c) == (a + b) + [y] + c;
    assert a + [x] + (b + [y] + c) == a + [x] + b + [y] + c;
  }

  lemma FrontSwap<T>(x: T, y: T, rest: seq<T>)
    ensures multiset([x, y] + rest) == multiset([y, x] + rest)
  {
    assert multiset([x, y]) == multiset([y, x]);
  }

  lemma Parts<T>(s: seq<T>, i: nat, j: nat)
    requires i < j < |s|
    ensures s == s[..i] + [s[i]] + s[i + 1..j] + [s[j]] + s[j + 1..]
  {
  }

  lemma RestOfBag<T>(x: T, y: T, rest: seq<T>, s: seq<T>)
    requires multiset([x, y] + rest) == multiset(s)
    ensures forall k | 0 <= k < |rest| :: rest[k] in s
  {
    forall k | 0 <= k < |rest|
      ensures rest[k] in s
    {
      assert ([x, y] + rest)[k + 2] == rest[k];
      assert rest[k] in multiset([x, y] + rest);
    }
  }

  /** The entries with two of them moved to the front. */
  lemma PullOut<T>(s: seq<T>, i: nat, j: nat) returns (rest: seq<T>)
    requires i < j < |s|
    ensures multiset([s[i], s[j]] + rest) == multiset(s) == multiset([s[j], s[i]] + rest)
    ensures forall k | 0 <= k < |rest| :: rest[k] in s
  {
    var a, b, c := s[..i], s[i + 1..j], s[j + 1..];
    rest := a + b + c;
    Parts(s, i, j);
    BothToFront(a, s[i], b, s[j], c);
    FrontSwap(s[i], s[j], rest);
    RestOfBag(s[i], s[j], rest, s);
  }

  lemma TiedOrdersDiffer(e: (Text, Json), f: (Text, Json), rest: seq<(Text, Json)>, rank: Collation)
    requires Defined(e) && Defined(f) && e.0 != f.0 && rank(e.0) == rank(f.0)
    requires forall k | 0 <= k < |rest| :: SoundEntry(rest[k])
    requires SoundEntry(e) && SoundEntry(f)
    ensures Stringify(Obj([e, f] + rest), rank) != Stringify(Obj([f, e] + rest), rank)
  {
    ShownFront(e, f, rest);
    ShownFront(f, e, rest);
    TiedCanonsDiffer((e.0, ShownEntry(e)), (f.0, ShownEntry(f)), ShownEntries(rest), rank);
    TextIsCanon(Obj([e, f] + rest), Obj([f, e] + rest), rank);
  }

  lemma TiesShow(entries: seq<(Text, Json)>, rank: Collation, i: nat, j: nat)
    requires forall k | 0 <= k < |entries| :: SoundEntry(entries[k])
    requires DistinctKeys(entries) && i < j < |entries| && Defined(entries[i]) && Defined(entries[j])
    requires rank(entries[i].0) == rank(entries[j].0)
    ensures !OrderFree(entries, rank)
  {
    var e, f := entries[i], entries[j];
    var rest := PullOut(entries, i, j);
    forall k | 0 <= k < |rest|
      ensures SoundEntry(rest[k])
    {
      assert rest[k] in entries;
    }
    TiedOrdersDiffer(e, f, rest, rank);
    assert multiset([e, f] + rest) == multiset(entries) && multiset([f, e] + rest) == multiset(entries);
  }

  lemma ShownFront(e: (Text, Json), f: (Text, Json), rest: seq<(Text, Json)>)
    ensures ShownEntries([e, f] + rest) == [(e.0, ShownEntry(e)), (f.0, ShownEntry(f))] + ShownEntries(rest)
  {
    var x := [e, f] + rest;
    assert x[1..] == [f] + rest && x[1..][1..] == rest;
  }

  lemma NoTiesReordered(x: seq<(Text, Json)>, y: seq<(Text, Json)>, rank: Collation)
    requires NoTies(x, rank) && DistinctKeys(x) && multiset(x) == multiset(y)
    ensures NoTies(y, rank)
  {
    forall i, j | 0 <= i < j < |y| && Defined(y[i]) && Defined(y[j])
      ensures rank(y[i].0) != rank(y[j].0)
    {
      var rest := PullOut(y, i, j);
      assert y[i] in multiset(x) && y[j] in multiset(x);
      var k :| 0 <= k < |x| && x[k] == y[i];
      var l :| 0 <= l < |x| && x[l] == y[j];
      if k == l {
        Twice(x, y[i], rest);
      }
    }
  }

  /** An element that occurs twice in the bag of a list stands at two places in it. */
  lemma Twice<T>(x: seq<T>, e: T, rest: seq<T>)
    requires multiset(x) == multiset([e, e] + rest)
    ensures exists k, l :: 0 <= k < l < |x| && x[k] == e && x[l] == e
  {
    assert multiset(x)[e] >= 2;
    assert e in multiset(x);
    var k :| 0 <= k < |x| && x[k] == e;
    var others := x[..k] + x[k + 1..];
    assert x == x[..k] + [e] + x[k + 1..];
    assert multiset(others)[e] >= 1;
    var l :| 0 <= l < |others| && others[l] == e;
    assert x[if l < k then l else l + 1] == e;
  }

  /** For an object with distinct keys every order of its entries prints alike if and only if the collation
      tells the keys of its defined entries apart. */
  lemma OrderFreeExactly(entries: seq<(Text, Json)>, rank: Collation)
    requires DistinctKeys(entries) && forall k | 0 <= k < |entries| :: SoundEntry(entries[k])
    ensures OrderFree(entries, rank) <==> NoTies(entries, rank)
  {
    if NoTies(entries, rank) {
      forall y: seq<(Text, Json)> | multiset(y) == multiset(entries)
        ensures Stringify(Obj(y), rank) == Stringify(Obj(entries), rank)
      {
        NoTiesReordered(entries, y, rank);
        SameBag(y, entries);
        ApartReordered(y, entries, rank);
      }
    } else {
      var i, j :| 0 <= i < j < |entries| && Defined(entries[i]) && Defined(entries[j])
                  && rank(entries[i].0) == rank(entries[j].0);
      TiesShow(entries, rank, i, j);
    }
  }
}

/** Printing a list of hours as ranges. */
module HourRange {
  // ----- sorting -----

  function Insert(x: int, s: seq<int>): seq<int> {
    if s == [] || x <= s[0] then [x] + s else [s[0]] + Insert(x, s[1..])
  }

  /** The hours in ascending order, repeats included. */
  function Sorted(hours: seq<int>): seq<int> {
    if hours == [] then [] else Insert(hours[0], Sorted(hours[1..]))
  }

  predicate Ascending(s: seq<int>) {
    |s| <= 1 || (s[0] <= s[1] && Ascending(s[1..]))
  }

  lemma {:induction false} InsertAscending(x: int, s: seq<int>)
    requires Ascending(s)
    ensures Ascending(Insert(x, s))
  {
    if s != [] && x > s[0] {
      InsertAscending(x, s[1..]);
      assert Insert(x, s)[1..] == Insert(x, s[1..]);
    } else {
      assert ([x] + s)[1..] == s;
    }
  }

  lemma {:induction false} InsertContents(x: int, s: seq<int>)
    ensures multiset(Insert(x, s)) == multiset(s) + multiset{x}
  {
    if s != [] && x > s[0] {
      InsertContents(x, s[1..]);
      assert s == [s[0]] + s[1..];
    }
  }

  lemma {:induction false} SortedProperties(hours: seq<int>)
    ensures Ascending(Sorted(hours)) && multiset(Sorted(hours)) == multiset(hours)
  {
    if hours != [] {
      SortedProperties(hours[1..]);
      InsertAscending(hours[0], Sorted(hours[1..]));
      InsertContents(hours[0], Sorted(hours[1..]));
      assert hours == [hours[0]] + hours[1..];
    }
  }

  lemma {:induction false} HeadIsLeast(s: seq<int>, x: int)
    requires Ascending(s) && x in multiset(s)
    ensures s[0] <= x
  {
    if |s| > 1 && x != s[0] {
      assert s == [s[0]] + s[1..];
      HeadIsLeast(s[1..], x);
    }
  }

  lemma Behead(s: seq<int>)
    requires s != []
    ensures s[0] in multiset(s) && multiset(s[1..]) == multiset(s) - multiset{s[0]}
  {
    assert s == [s[0]] + s[1..];
    assert multiset(s) == multiset{s[0]} + multiset(s[1..]);
  }

  lemma SameSize(a: seq<int>, b: seq<int>)
    requires multiset(a) == multiset(b)
    ensures |a| == |b|
  {
    assert |multiset(a)| == |a| && |multiset(b)| == |b|;
  }

  lemma HeadsAgree(a: seq<int>, b: seq<int>)
    requires Ascending(a) && Ascending(b) && multiset(a) == multiset(b) && a != [] && b != []
    ensures a[0] == b[0] && multiset(a[1..]) == multiset(b[1..])
  {
    Behead(a);
    Behead(b);
    HeadIsLeast(b, a[0]);
    HeadIsLeast(a, b[0]);
  }

  lemma AscendingTail(s: seq<int>)
    requires s != [] && Ascending(s)
    ensures Ascending(s[1..]) && s == [s[0]] + s[1..]
  {
  }

  /** An ascending sequence is determined by its contents. */
  lemma {:induction false} AscendingUnique(a: seq<int>, b: seq<int>)
    requires Ascending(a) && Ascending(b) && multiset(a) == multiset(b)
    ensures a == b
    decreases |a|
  {
    SameSize(a, b);
    if a != [] {
      HeadsAgree(a, b);
      AscendingTail(a);
      AscendingTail(b);
      AscendingUnique(a[1..], b[1..]);
    }
  }

  // ----- splitting the sorted hours into runs -----

  type Range = (int, int)

  /** The next hour lengthens the last run or begins a new one. */
  function Extend(ranges: seq<Range>, h: int): seq<Range>
    requires ranges != []
  {
    var last := ranges[|ranges| - 1];
    if h == last.1 + 1 then ranges[..|ranges| - 1] + [(last.0, h)] else ranges + [(h, h)]
  }

  /** The runs of a list, left to right. */
  function Ranges(s: seq<int>): (ranges: seq<Range>)
    requires s != []
    ensures ranges != []
  {
    var n := |s| - 1;
    if n == 0 then [(s[0], s[0])] else Extend(Ranges(s[..n]), s[n])
  }

  /** The hours a range stands for. */
  function Hours(lo: int, hi: int): seq<int>
    decreases hi - lo
  {
    if lo > hi then [] else Hours(lo, hi - 1) + [hi]
  }

  function Expand(ranges: seq<Range>): seq<int> {
    if ranges == [] then [] else Expand(ranges[..|ranges| - 1]) + Hours(ranges[|ranges| - 1].0, ranges[|ranges| - 1].1)
  }

  /** Proper ranges, none of which starts one above the end of the one before. */
  predicate Maximal(ranges: seq<Range>) {
    ranges == [] ||
    var n := |ranges| - 1;
    && Maximal(ranges[..n])
    && ranges[n].0 <= ranges[n].1
    && (n > 0 ==> ranges[n].0 != ranges[n - 1].1 + 1)
  }

  lemma ExpandSnoc(ranges: seq<Range>, r: Range)
    ensures Expand(ranges + [r]) == Expand(ranges) + Hours(r.0, r.1)
    ensures Maximal(ranges + [r])
       <==> Maximal(ranges) && r.0 <= r.1 && (ranges != [] ==> r.0 != ranges[|ranges| - 1].1 + 1)
  {
    assert (ranges + [r])[..|ranges|] == ranges;
  }

  lemma HoursStep(lo: int, hi: int)
    requires lo <= hi
    ensures Hours(lo, lo) == [lo] && Hours(lo, hi + 1) == Hours(lo, hi) + [hi + 1]
  {
    assert Hours(lo, lo - 1) == [];
  }

  lemma ExtendExact(ranges: seq<Range>, h: int)
    requires ranges != [] && Maximal(ranges)
    ensures Expand(Extend(ranges, h)) == Expand(ranges) + [h] && Maximal(Extend(ranges, h))
  {
    var front, last := ranges[..|ranges| - 1], ranges[|ranges| - 1];
    assert ranges == front + [last];
    ExpandSnoc(front, last);
    if h == last.1 + 1 {
      ExpandSnoc(front, (last.0, h));
      HoursStep(last.0, last.1);
    } else {
      ExpandSnoc(ranges, (h, h));
      HoursStep(h, h);
    }
  }

  /** The ranges say exactly what the list said, in order and with repeats, in as few ranges as possible. */
  lemma {:induction false} RangesExact(s: seq<int>)
    requires s != []
    ensures Expand(Ranges(s)) == s && Maximal(Ranges(s))
  {
    var n := |s| - 1;
    if n == 0 {
      ExpandSnoc([], (s[0], s[0]));
      HoursStep(s[0], s[0]);
      assert [] + [(s[0], s[0])] == [(s[0], s[0])];
    } else {
      RangesExact(s[..n]);
      ExtendExact(Ranges(s[..n]), s[n]);
      assert s == s[..n] + [s[n]];
    }
  }

  // ----- printing -----

  function Digits(n: int): string
    requires 0 <= n <= 12
  {
    if n < 10 then [['0', '1', '2', '3', '4', '5', '6', '7', '8', '9'][n]] else ['1', ['0', '1', '2'][n - 10]]
  }

  /** JavaScript's remainder keeps the sign of the dividend; adding 24 and reducing again makes it proper. */
  function TruncatedMod24(h: int): int {
    if h >= 0 then h % 24 else -((-h) % 24)
  }

  function Norm(h: int): (n: int)
    ensures n == h % 24
  {
    (TruncatedMod24(h) + 24) % 24
  }

  /** The number on the clock face, and the half of the day. */
  function Face(h: int): (f: int)
    ensures 1 <= f <= 12
  {
    var n := Norm(h);
    if n == 0 then 12 else if n <= 12 then n else n - 12
  }

  function Suffix(h: int): (s: string)
    ensures |s| == 2
  {
    if Norm(h) < 12 then "am" else "pm"
  }

  function FormatHour(h: int): string {
    var norm := Norm(h);
    if norm == 0 then "12am"
    else if norm == 12 then "12pm"
    else if norm < 12 then Digits(norm) + "am"
    else Digits(norm - 12) + "pm"
  }

  lemma FormatHourParts(h: int)
    ensures FormatHour(h) == Digits(Face(h)) + Suffix(h)
  {
  }

  /** The start loses its suffix when both ends share it. */
  function FormatRange(start: int, end: int): string {
    if start == end then FormatHour(start)
    else if Suffix(start) == Suffix(end) then Digits(Face(start)) + "-" + FormatHour(end)
    else FormatHour(start) + "-" + FormatHour(end)
  }

  function Print(ranges: seq<Range>): string {
    if ranges == [] then ""
    else if |ranges| == 1 then FormatRange(ranges[0].0, ranges[0].1)
    else FormatRange(ranges[0].0, ranges[0].1) + ", " + Print(ranges[1..])
  }

  function Text(hours: seq<int>): string {
    if hours == [] then "" else Print(Ranges(Sorted(hours)))
  }

  lemma RangesStep(s: seq<int>, i: nat)
    requires 0 < i < |s|
    ensures Ranges(s[..i + 1]) == Extend(Ranges(s[..i]), s[i])
  {
    assert s[..i + 1][..i] == s[..i];
  }

  method FormatHourRange(hours: seq<int>) returns (text: string)
    ensures text == Text(hours)
  {
    if |hours| == 0 {
      return "";
    }
    var sorted := Sorted(hours);
    SortedProperties(hours);
    assert |multiset(sorted)| == |sorted| && |multiset(hours)| == |hours|;
    var ranges: seq<Range> := [];
    var curStart, curEnd := sorted[0], sorted[0];
    for i := 1 to |sorted|
      invariant ranges + [(curStart, curEnd)] == Ranges(sorted[..i])
    {
      var h := sorted[i];
      RangesStep(sorted, i);
      if h == curEnd + 1 {
        curEnd := h;
      } else {
        ranges := ranges + [(curStart, curEnd)];
        curStart := h;
        curEnd := h;
      }
    }
    assert sorted[..|sorted|] == sorted;
    ranges := ranges + [(curStart, curEnd)];
    text := Print(ranges);
  }

  // ----- reading the text back -----

  lemma SplitHead(a: string, x: string, sep: char)
    ensures var s := a + [sep] + x;
            && s[0] == (if a == [] then sep else a[0])
            && s[1..] == (if a == [] then x else a[1..] + [sep] + x)
  {
  }

  /** A text splits in one way only at the first occurrence of a character. */
  lemma {:induction false} SplitUnique(a: string, x: string, b: string, y: string, sep: char)
    requires sep !in a && sep !in b
    requires a + [sep] + x == b + [sep] + y
    ensures a == b && x == y
  {
    SplitHead(a, x, sep);
    SplitHead(b, y, sep);
    if a != [] && b != [] {
      SplitUnique(a[1..], x, b[1..], y, sep);
      assert a == [a[0]] + a[1..] && b == [b[0]] + b[1..];
    }
  }

  lemma DigitsInjective(m: int, n: int)
    requires 0 <= m <= 12 && 0 <= n <= 12 && Digits(m) == Digits(n)
    ensures m == n
  {
  }

  lemma DigitsAreDigits(n: int)
    requires 0 <= n <= 12
    ensures 1 <= |Digits(n)| <= 2
    ensures forall c | c in Digits(n) :: '0' <= c <= '9'
  {
  }

  /** The same place on the dial, possibly days apart. */
  predicate SameHour(h: int, g: int) {
    h % 24 == g % 24
  }

  lemma FaceAndHalf(h: int, g: int)
    requires Face(h) == Face(g) && Suffix(h) == Suffix(g)
    ensures SameHour(h, g)
  {
    assert "am"[0] != "pm"[0];
  }

  lemma Cut(d: string, s: string)
    requires |s| == 2
    ensures var t := d + s; t[..|t| - 2] == d && t[|t| - 2..] == s
  {
  }

  lemma HourExact(h: int, g: int)
    ensures FormatHour(h) == FormatHour(g) <==> SameHour(h, g)
  {
    if FormatHour(h) == FormatHour(g) {
      FormatHourParts(h);
      FormatHourParts(g);
      Cut(Digits(Face(h)), Suffix(h));
      Cut(Digits(Face(g)), Suffix(g));
      DigitsInjective(Face(h), Face(g));
      FaceAndHalf(h, g);
    }
  }

  /** The left part of a printed range: the start hour, with its suffix only when the end's differs. */
  function Left(start: int, end: int): string {
    if Suffix(start) == Suffix(end) then Digits(Face(start)) else FormatHour(start)
  }

  lemma HourChars(h: int)
    ensures '-' !in FormatHour(h) && ',' !in FormatHour(h)
    ensures |FormatHour(h)| >= 3 && FormatHour(h)[|FormatHour(h)| - 1] == 'm'
  {
    FormatHourParts(h);
    DigitsAreDigits(Face(h));
  }

  lemma LeftChars(start: int, end: int)
    ensures '-' !in Left(start, end) && ',' !in Left(start, end)
    ensures Left(start, end) != ""
            && (Left(start, end)[|Left(start, end)| - 1] == 'm' <==> Suffix(start) != Suffix(end))
  {
    HourChars(start);
    DigitsAreDigits(Face(start));
  }

  lemma RangeChars(start: int, end: int)
    ensures ',' !in FormatRange(start, end) && FormatRange(start, end) != ""
    ensures '-' in FormatRange(start, end) <==> start != end
    ensures start != end ==> FormatRange(start, end) == Left(start, end) + ['-'] + FormatHour(end)
  {
    HourChars(start);
    HourChars(end);
    LeftChars(start, end);
  }

  lemma LeftInjective(s: int, t: int, end: int, until: int)
    requires SameHour(end, until) && Left(s, end) == Left(t, until)
    ensures SameHour(s, t)
  {
    LeftChars(s, end);
    LeftChars(t, until);
    if Suffix(s) == Suffix(end) {
      DigitsInjective(Face(s), Face(t));
      FaceAndHalf(s, t);
    } else {
      HourExact(s, t);
    }
  }

  /** What a printed range shows: its ends on the dial, and whether there is one hour or two. */
  predicate SameRange(r: Range, q: Range) {
    SameHour(r.0, q.0) && SameHour(r.1, q.1) && (r.0 == r.1 <==> q.0 == q.1)
  }

  lemma RangeShows(r: Range, q: Range)
    requires FormatRange(r.0, r.1) == FormatRange(q.0, q.1)
    ensures SameRange(r, q)
  {
    RangeChars(r.0, r.1);
    RangeChars(q.0, q.1);
    if r.0 == r.1 {
      HourExact(r.0, q.0);
    } else {
      LeftChars(r.0, r.1);
      LeftChars(q.0, q.1);
      HourChars(r.1);
      HourChars(q.1);
      SplitUnique(Left(r.0, r.1), FormatHour(r.1), Left(q.0, q.1), FormatHour(q.1), '-');
      HourExact(r.1, q.1);
      LeftInjective(r.0, q.0, r.1, q.1);
    }
  }

  lemma RangeHidesTheDay(r: Range, q: Range)
    requires SameRange(r, q)
    ensures FormatRange(r.0, r.1) == FormatRange(q.0, q.1)
  {
  }

  predicate SameRanges(a: seq<Range>, b: seq<Range>) {
    |a| == |b| && forall i | 0 <= i < |a| :: SameRange(a[i], b[i])
  }

  /** A printed list is its first range, and after a comma the rest. */
  lemma PrintHead(ranges: seq<Range>)
    requires ranges != []
    ensures Print(ranges) != ""
    ensures ',' in Print(ranges) <==> |ranges| > 1
    ensures |ranges| > 1 ==>
              Print(ranges) == FormatRange(ranges[0].0, ranges[0].1) + [','] + (" " + Print(ranges[1..]))
    ensures ',' !in FormatRange(ranges[0].0, ranges[0].1)
  {
    RangeChars(ranges[0].0, ranges[0].1);
    if |ranges| > 1 {
      Comma(FormatRange(ranges[0].0, ranges[0].1), Print(ranges[1..]));
    }
  }

  lemma Comma(x: string, y: string)
    ensures x + ", " + y == x + [','] + (" " + y)
    ensures ',' in x + ", " + y
  {
    assert (x + [','] + (" " + y))[|x|] == ',';
  }

  lemma PrintTail(a: seq<Range>, b: seq<Range>)
    requires a != [] && b != [] && Print(a) == Print(b)
    ensures FormatRange(a[0].0, a[0].1) == FormatRange(b[0].0, b[0].1)
    ensures Print(a[1..]) == Print(b[1..])
  {
    PrintHead(a);
    PrintHead(b);
    if |a| > 1 {
      var x, y := " " + Print(a[1..]), " " + Print(b[1..]);
      SplitUnique(FormatRange(a[0].0, a[0].1), x, FormatRange(b[0].0, b[0].1), y, ',');
      assert Print(a[1..]) == x[1..] && Print(b[1..]) == y[1..];
    }
  }

  lemma SameRangesCons(a: seq<Range>, b: seq<Range>)
    requires a != [] && b != [] && SameRange(a[0], b[0]) && SameRanges(a[1..], b[1..])
    ensures SameRanges(a, b)
  {
    forall i | 0 < i < |a|
      ensures SameRange(a[i], b[i])
    {
      assert SameRange(a[1..][i - 1], b[1..][i - 1]);
    }
  }

  lemma {:induction false} PrintShows(a: seq<Range>, b: seq<Range>)
    requires Print(a) == Print(b)
    ensures SameRanges(a, b)
    decreases |a|
  {
    if a == [] || b == [] {
      if a != [] { PrintHead(a); }
      if b != [] { PrintHead(b); }
      return;
    }
    PrintTail(a, b);
    RangeShows(a[0], b[0]);
    PrintShows(a[1..], b[1..]);
    SameRangesCons(a, b);
  }

  lemma {:induction false} PrintHidesTheDay(a: seq<Range>, b: seq<Range>)
    requires SameRanges(a, b)
    ensures Print(a) == Print(b)
    decreases |a|
  {
    if a != [] {
      RangeHidesTheDay(a[0], b[0]);
      PrintHidesTheDay(a[1..], b[1..]);
    }
  }

  // ----- the text itself -----

  /** The hours of the day as they are printed. */
  const CLOCK: seq<string> := [
    "12am", "1am", "2am", "3am", "4am", "5am", "6am", "7am", "8am", "9am", "10am", "11am",
    "12pm", "1pm", "2pm", "3pm", "4pm", "5pm", "6pm", "7pm", "8pm", "9pm", "10pm", "11pm"]

  lemma HalfDay(n: int)
    requires 0 < n < 12
    ensures Digits(n) + "am" == CLOCK[n] && Digits(n) + "pm" == CLOCK[n + 12]
  {
    assert Digits(n) == ["", "1", "2", "3", "4", "5", "6", "7", "8", "9", "10", "11"][n];
  }

  lemma HourText(h: int)
    ensures FormatHour(h) == CLOCK[h % 24]
  {
    var n := Norm(h);
    if 0 < n < 12 {
      HalfDay(n);
    } else if n > 12 {
      HalfDay(n - 12);
    }
  }

  /** An hour as printed, without its half of the day. */
  function Bare(h: int): string {
    CLOCK[h % 24][..|CLOCK[h % 24]| - 2]
  }

  /** A range prints as its hour, or as its two hours with a dash, the half of the day being left out of the first when
      both lie in the same. */
  lemma RangeText(start: int, end: int)
    ensures FormatRange(start, end) ==
              if start == end then CLOCK[start % 24]
              else if start % 24 < 12 <==> end % 24 < 12 then Bare(start) + "-" + CLOCK[end % 24]
              else CLOCK[start % 24] + "-" + CLOCK[end % 24]
  {
    HourText(start);
    HourText(end);
    FormatHourParts(start);
    Cut(Digits(Face(start)), Suffix(start));
    assert "am"[0] != "pm"[0];
  }

  /** Ranges are listed with a comma and a space between them. */
  lemma {:induction false} ListText(a: seq<Range>, b: seq<Range>, r: Range)
    ensures Print([r]) == FormatRange(r.0, r.1)
    ensures a != [] && b != [] ==> Print(a + b) == Print(a) + (", " + Print(b))
    decreases |a|
  {
    if a != [] && b != [] {
      assert (a + b)[1..] == a[1..] + b;
      if |a| == 1 {
        assert a[1..] + b == b;
      } else {
        ListText(a[1..], b, r);
      }
    }
  }

  /** The examples in the comment on the function. */
  lemma TextExamples()
    ensures Text([9, 10, 11]) == "9-11am"
    ensures Text([9, 10, 11, 14, 15, 16]) == "9-11am, 2-4pm"
  {
    AscendingSorted([9, 10, 11]);
    AscendingSorted([9, 10, 11, 14, 15, 16]);
    MorningRange();
    BothRanges();
    ListText([(9, 11)], [(14, 16)], (9, 11));
    ListText([], [], (14, 16));
    WorkText();
    assert "9-11am" + (", " + "2-4pm") == "9-11am, 2-4pm";
  }

  lemma WorkText()
    ensures FormatRange(9, 11) == "9-11am" && FormatRange(14, 16) == "2-4pm"
  {
    assert Face(9) == 9 && Face(14) == 2 && Digits(9) == "9" && Digits(2) == "2";
    assert FormatHour(11) == "11am" && FormatHour(16) == "4pm";
  }

  lemma MorningRange()
    ensures Ranges([9, 10, 11]) == [(9, 11)]
  {
    var s := [9, 10, 11];
    RangesStep(s, 1);
    RangesStep(s, 2);
    assert s[..1] == [9] && s[..3] == s;
  }

  lemma BothRanges()
    ensures Ranges([9, 10, 11, 14, 15, 16]) == [(9, 11)] + [(14, 16)]
  {
    var s: seq<int> := [9, 10, 11, 14, 15, 16];
    MorningRange();
    assert s[..3] == [9, 10, 11];
    RangesStep(s, 3);
    assert Ranges(s[..4]) == [(9, 11)] + [(14, 14)];
    RangesStep(s, 4);
    assert Ranges(s[..5]) == [(9, 11)] + [(14, 15)];
    RangesStep(s, 5);
    assert s[..6] == s;
  }

  lemma AscendingSorted(s: seq<int>)
    requires forall i, j | 0 <= i <= j < |s| :: s[i] <= s[j]
    ensures Sorted(s) == s
  {
    if s != [] {
      AscendingSorted(s[1..]);
      assert s == [s[0]] + s[1..];
    }
  }

  // ----- the theorems -----

  /** The ranges that a list is printed as. */
  function RangesOf(hours: seq<int>): seq<Range> {
    if hours == [] then [] else Ranges(Sorted(hours))
  }

  /** For any two lists of integers: they print alike if and only if their ranges correspond one to one,
      their ends at the same places on the dial, single hours to single hours. */
  lemma TextExact(a: seq<int>, b: seq<int>)
    ensures Text(a) == Text(b) <==> SameRanges(RangesOf(a), RangesOf(b))
  {
    if Text(a) == Text(b) {
      PrintShows(RangesOf(a), RangesOf(b));
    }
    if SameRanges(RangesOf(a), RangesOf(b)) {
      PrintHidesTheDay(RangesOf(a), RangesOf(b));
    }
  }

  predicate OnDial(h: int) {
    0 <= h < 24
  }

  predicate AllOnDial(ranges: seq<Range>) {
    forall i | 0 <= i < |ranges| :: OnDial(ranges[i].0) && OnDial(ranges[i].1)
  }

  /** Range ends are hours of the list. */
  lemma {:induction false} RangesOnDial(s: seq<int>)
    requires s != [] && forall i | 0 <= i < |s| :: OnDial(s[i])
    ensures AllOnDial(Ranges(s))
  {
    var n := |s| - 1;
    if n > 0 {
      RangesOnDial(s[..n]);
    }
  }

  lemma SortedOnDial(hours: seq<int>)
    requires forall i | 0 <= i < |hours| :: OnDial(hours[i])
    ensures forall i | 0 <= i < |Sorted(hours)| :: OnDial(Sorted(hours)[i])
    ensures |Sorted(hours)| == |hours|
  {
    SortedProperties(hours);
    var s := Sorted(hours);
    SameSize(s, hours);
    forall i | 0 <= i < |s|
      ensures OnDial(s[i])
    {
      assert s[i] in multiset(s);
      assert s[i] in hours;
    }
  }

  lemma SameOnDial(h: int, g: int)
    requires OnDial(h) && OnDial(g) && SameHour(h, g)
    ensures h == g
  {
  }

  lemma DialDecides(a: seq<Range>, b: seq<Range>)
    requires AllOnDial(a) && AllOnDial(b) && SameRanges(a, b)
    ensures a == b
  {
    forall i | 0 <= i < |a|
      ensures a[i] == b[i]
    {
      SameOnDial(a[i].0, b[i].0);
      SameOnDial(a[i].1, b[i].1);
    }
  }

  /** Two lists of hours of the day print alike if and only if they are permutations of each other. */
  lemma TextIsContents(a: seq<int>, b: seq<int>)
    requires (forall i | 0 <= i < |a| :: OnDial(a[i])) && forall i | 0 <= i < |b| :: OnDial(b[i])
    ensures Text(a) == Text(b) <==> multiset(a) == multiset(b)
  {
    SortedProperties(a);
    SortedProperties(b);
    if multiset(a) == multiset(b) {
      AscendingUnique(Sorted(a), Sorted(b));
      SameSize(a, b);
    }
    if Text(a) == Text(b) {
      TextDecodes(a, b);
    }
  }

  lemma TextDecodes(a: seq<int>, b: seq<int>)
    requires (forall i | 0 <= i < |a| :: OnDial(a[i])) && forall i | 0 <= i < |b| :: OnDial(b[i])
    requires Text(a) == Text(b)
    ensures Sorted(a) == Sorted(b)
  {
    SortedOnDial(a);
    SortedOnDial(b);
    TextExact(a, b);
    if a != [] && b != [] {
      RangesOnDial(Sorted(a));
      RangesOnDial(Sorted(b));
      DialDecides(RangesOf(a), RangesOf(b));
      RangesExact(Sorted(a));
      RangesExact(Sorted(b));
    }
  }

  /** Off the dial permutations are not all: midnight and twenty-four hours later print alike. */
  lemma OffTheDial()
    ensures Text([0]) == Text([24]) && multiset([0]) != multiset([24])
  {
    assert [0][1..] == [] && [24][1..] == [];
    assert RangesOf([0]) == [(0, 0)] && RangesOf([24]) == [(24, 24)];
    TextExact([0], [24]);
    assert 0 in multiset([0]) && 0 !in multiset([24]);
  }
}

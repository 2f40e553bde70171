/** Counting the elements of a sequence that satisfy a predicate. */
module Counting {
  function Count<T>(s: seq<T>, p: T -> bool): (n: nat)
    ensures n <= |s|
  {
    if s == [] then 0 else Count(s[..|s| - 1], p) + (if p(s[|s| - 1]) then 1 else 0)
  }

  lemma CountSnoc<T>(s: seq<T>, x: T, p: T -> bool)
    ensures Count(s + [x], p) == Count(s, p) + (if p(x) then 1 else 0)
  {
    assert (s + [x])[..|s|] == s;
  }

  lemma {:induction false} CountConcat<T>(a: seq<T>, b: seq<T>, p: T -> bool)
    ensures Count(a + b, p) == Count(a, p) + Count(b, p)
    decreases |b|
  {
    if b == [] {
      assert a + b == a;
    } else {
      var n := |b| - 1;
      CountConcat(a, b[..n], p);
      assert (a + b)[..|a| + n] == a + b[..n];
      assert (a + b)[|a| + n] == b[n];
    }
  }

  lemma {:induction false} CountUpdate<T>(s: seq<T>, i: nat, x: T, p: T -> bool)
    requires i < |s|
    ensures Count(s[i := x], p) + (if p(s[i]) then 1 else 0) == Count(s, p) + (if p(x) then 1 else 0)
  {
    var n := |s| - 1;
    if i < n {
      CountUpdate(s[..n], i, x, p);
      assert s[i := x][..n] == s[..n][i := x];
    } else {
      assert s[i := x][..n] == s[..n];
    }
  }

  /** The number of places at which the predicate holds. */
  lemma {:induction false} CountIsSize<T>(s: seq<T>, p: T -> bool, places: set<int>)
    requires forall i | i in places :: 0 <= i < |s|
    requires forall i | 0 <= i < |s| :: i in places <==> p(s[i])
    ensures Count(s, p) == |places|
  {
    if |s| == 0 {
      assert forall i :: i !in places;
    } else {
      var n := |s| - 1;
      CountIsSize(s[..n], p, places - {n});
    }
  }

  lemma {:induction false} CountNone<T>(s: seq<T>, p: T -> bool)
    requires forall x | x in s :: !p(x)
    ensures Count(s, p) == 0
  {
    if s != [] {
      CountNone(s[..|s| - 1], p);
    }
  }

  lemma {:induction false} CountedOne<T>(s: seq<T>, p: T -> bool)
    requires Count(s, p) > 0
    ensures exists i :: 0 <= i < |s| && p(s[i])
  {
    if !p(s[|s| - 1]) {
      CountedOne(s[..|s| - 1], p);
      var i :| 0 <= i < |s| - 1 && p(s[..|s| - 1][i]);
      assert p(s[i]);
    }
  }

  lemma {:induction false} CountedTwo<T>(s: seq<T>, p: T -> bool)
    requires Count(s, p) > 1
    ensures exists i, j :: 0 <= i < j < |s| && p(s[i]) && p(s[j])
  {
    var n := |s| - 1;
    if p(s[n]) {
      CountedOne(s[..n], p);
      var i :| 0 <= i < n && p(s[..n][i]);
      assert p(s[i]) && p(s[n]);
    } else {
      CountedTwo(s[..n], p);
      var i, j :| 0 <= i < j < n && p(s[..n][i]) && p(s[..n][j]);
      assert p(s[i]) && p(s[j]);
    }
  }
}

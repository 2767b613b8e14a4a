/** Sequence helpers: duplicate-free sequences, insertion-ordered sets and a descending sort. */
module Collections {

  /** No element occurs twice. */
  ghost predicate Distinct<T>(s: seq<T>) {
    forall i, j :: 0 <= i < j < |s| ==> s[i] != s[j]
  }

  /** Appends `x` unless it is already present: how an insertion-ordered set
      (a Python dict's keys, a graph's node list) grows. */
  function Appended<T(==)>(s: seq<T>, x: T): (r: seq<T>)
    ensures x in s ==> r == s
    ensures x !in s ==> r == s + [x]
    ensures Distinct(s) ==> Distinct(r)
  {
    if x in s then s else s + [x]
  }

  /** Keys ordered from largest to smallest (ties in any order). */
  ghost predicate Descending<T>(s: seq<T>, key: T -> real) {
    forall i, j :: 0 <= i < j < |s| ==> key(s[i]) >= key(s[j])
  }

  /** Places `x` before the first element whose key is not greater than its own. */
  function InsertDescending<T>(x: T, s: seq<T>, key: T -> real): (r: seq<T>)
    requires Descending(s, key)
    ensures multiset(r) == multiset(s) + multiset{x}
    ensures |r| == |s| + 1
    ensures Descending(r, key)
    ensures r[0] == x || (|s| > 0 && r[0] == s[0])
  {
    if s == [] || key(x) >= key(s[0]) then
      DescendingCons(x, s, key);
      [x] + s
    else
      var tail := InsertDescending(x, s[1..], key);
      assert s == [s[0]] + s[1..];
      DescendingCons(s[0], tail, key);
      [s[0]] + tail
  }

  /** A head whose key is at least the first key of a descending sequence keeps it descending. */
  lemma DescendingCons<T>(h: T, t: seq<T>, key: T -> real)
    requires Descending(t, key)
    requires |t| > 0 ==> key(h) >= key(t[0])
    ensures Descending([h] + t, key)
  {
    var r := [h] + t;
    forall i, j | 0 <= i < j < |r|
      ensures key(r[i]) >= key(r[j])
    {
      if i == 0 {
        assert r[j] == t[j - 1];
        assert key(t[0]) >= key(t[j - 1]) || j == 1;
      } else {
        assert r[i] == t[i - 1] && r[j] == t[j - 1];
      }
    }
  }

  /** A copy of `s` ordered by `key`, largest first (pandas `sort_values(ascending=False)`). */
  function SortDescending<T>(s: seq<T>, key: T -> real): (r: seq<T>)
    ensures multiset(r) == multiset(s)
    ensures |r| == |s|
    ensures Descending(r, key)
  {
    if s == [] then []
    else
      assert s == [s[0]] + s[1..];
      InsertDescending(s[0], SortDescending(s[1..], key), key)
  }
}

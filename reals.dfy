/** Real-valued folds standing for Python's `max`/`abs` and numpy's `min`/`max`/`ptp`. */
module Reals {

  /** Lower and upper bound of one axis, as passed to `set_xlim` / `set_ylim`. */
  datatype Bounds = Bounds(lo: real, hi: real)

  /** Python's two-argument `max`. */
  function Max(a: real, b: real): (r: real)
    ensures r >= a && r >= b
    ensures r == a || r == b
  {
    if b > a then b else a
  }

  function Abs(x: real): (r: real)
    ensures r >= 0.0
    ensures r == x || r == -x
  {
    if x < 0.0 then -x else x
  }

  /** The least element of a non-empty sequence (numpy `min`). */
  function MinOf(s: seq<real>): real
    requires |s| > 0
  {
    if |s| == 1 then s[0]
    else
      var m := MinOf(s[1..]);
      if s[0] <= m then s[0] else m
  }

  /** The greatest element of a non-empty sequence (numpy `max`). */
  function MaxOf(s: seq<real>): real
    requires |s| > 0
  {
    if |s| == 1 then s[0]
    else
      var m := MaxOf(s[1..]);
      if s[0] >= m then s[0] else m
  }

  /** The minimum is a lower bound that some element attains. */
  lemma {:induction false} MinOfIsLeast(s: seq<real>)
    requires |s| > 0
    ensures forall i :: 0 <= i < |s| ==> MinOf(s) <= s[i]
    ensures exists i :: 0 <= i < |s| && s[i] == MinOf(s)
    decreases |s|
  {
    if |s| > 1 {
      MinOfIsLeast(s[1..]);
      assert forall i :: 1 <= i < |s| ==> s[i] == s[1..][i - 1];
      var j :| 0 <= j < |s[1..]| && s[1..][j] == MinOf(s[1..]);
      assert s[j + 1] == MinOf(s[1..]);
      if MinOf(s) != s[0] {
        assert s[j + 1] == MinOf(s);
      }
    } else {
      assert s[0] == MinOf(s);
    }
  }

  /** The maximum is an upper bound that some element attains. */
  lemma {:induction false} MaxOfIsGreatest(s: seq<real>)
    requires |s| > 0
    ensures forall i :: 0 <= i < |s| ==> s[i] <= MaxOf(s)
    ensures exists i :: 0 <= i < |s| && s[i] == MaxOf(s)
    decreases |s|
  {
    if |s| > 1 {
      MaxOfIsGreatest(s[1..]);
      assert forall i :: 1 <= i < |s| ==> s[i] == s[1..][i - 1];
      var j :| 0 <= j < |s[1..]| && s[1..][j] == MaxOf(s[1..]);
      assert s[j + 1] == MaxOf(s[1..]);
      if MaxOf(s) != s[0] {
        assert s[j + 1] == MaxOf(s);
      }
    } else {
      assert s[0] == MaxOf(s);
    }
  }

  /** Every element moved by `c` (numpy broadcasting `a + c`). */
  function Shifted(s: seq<real>, c: real): (r: seq<real>)
    ensures |r| == |s|
  {
    seq(|s|, i requires 0 <= i < |s| => s[i] + c)
  }

  /** Shifting every element shifts the minimum by the same amount. */
  lemma MinOfShifted(s: seq<real>, c: real)
    requires |s| > 0
    ensures MinOf(Shifted(s, c)) == MinOf(s) + c
  {
    var t := Shifted(s, c);
    MinOfIsLeast(s);
    MinOfIsLeast(t);
    var i :| 0 <= i < |s| && s[i] == MinOf(s);
    var j :| 0 <= j < |t| && t[j] == MinOf(t);
    assert MinOf(t) <= t[i] == s[i] + c;
    assert MinOf(s) <= s[j] == t[j] - c;
  }

  /** Shifting every element shifts the maximum by the same amount. */
  lemma MaxOfShifted(s: seq<real>, c: real)
    requires |s| > 0
    ensures MaxOf(Shifted(s, c)) == MaxOf(s) + c
  {
    var t := Shifted(s, c);
    MaxOfIsGreatest(s);
    MaxOfIsGreatest(t);
    var i :| 0 <= i < |s| && s[i] == MaxOf(s);
    var j :| 0 <= j < |t| && t[j] == MaxOf(t);
    assert t[i] <= MaxOf(t) && t[i] == s[i] + c;
    assert s[j] <= MaxOf(s) && t[j] == s[j] + c;
  }
}

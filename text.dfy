/** The string rules behind a shot's display label: Python's whitespace
    splitting and the decimal rendering of an integer (`str(int)`). */
module Text {
  import opened Results

  /** Python's `str.isspace` for a single character: the characters that
      `str.split()` with no argument treats as separators. */
  predicate IsSpace(c: char) {
    || c == ' '
    || ('\t' <= c <= '\r')
    || ('\U{1C}' <= c <= '\U{1F}')
    || c == '\U{85}' || c == '\U{A0}' || c == '\U{1680}'
    || ('\U{2000}' <= c <= '\U{200A}')
    || c == '\U{2028}' || c == '\U{2029}' || c == '\U{202F}' || c == '\U{205F}' || c == '\U{3000}'
  }

  ghost predicate AllSpace(s: string) {
    forall i :: 0 <= i < |s| ==> IsSpace(s[i])
  }

  ghost predicate NoSpace(s: string) {
    forall i :: 0 <= i < |s| ==> !IsSpace(s[i])
  }

  /** `w` is the last word of `s`: a non-empty run of non-space characters
      that starts the text or follows a space, and after which only spaces follow. */
  ghost predicate IsLastWord(s: string, w: string) {
    && |w| > 0
    && NoSpace(w)
    && exists b :: IsLastWordAt(s, w, b)
  }

  ghost predicate IsLastWordAt(s: string, w: string, b: int) {
    && 0 <= b <= |s| - |w|
    && s[b..b + |w|] == w
    && AllSpace(s[b + |w|..])
    && (b == 0 || IsSpace(s[b - 1]))
  }

  /** Where `s[..j]` ends once its trailing whitespace is stripped. */
  function TrimmedEnd(s: string, j: nat): (e: nat)
    requires j <= |s|
    ensures e <= j
    ensures AllSpace(s[e..j])
    ensures e == 0 || !IsSpace(s[e - 1])
  {
    if j > 0 && IsSpace(s[j - 1]) then
      var e := TrimmedEnd(s, j - 1);
      assert s[e..j] == s[e..j - 1] + [s[j - 1]];
      e
    else
      j
  }

  /** Where the run of non-space characters that ends at `j` begins. */
  function WordStart(s: string, j: nat): (b: nat)
    requires j <= |s|
    ensures b <= j
    ensures NoSpace(s[b..j])
    ensures b == 0 || IsSpace(s[b - 1])
  {
    if j > 0 && !IsSpace(s[j - 1]) then
      var b := WordStart(s, j - 1);
      assert s[b..j] == s[b..j - 1] + [s[j - 1]];
      b
    else
      j
  }

  /** The last whitespace-separated word of `s` (pandas `.str.split().str[-1]`),
      missing (NaN) when `s` holds no word at all. */
  function LastWord(s: string): (r: Option<string>)
    ensures r.None? <==> AllSpace(s)
    ensures r.Some? ==> IsLastWord(s, r.value)
  {
    var e := TrimmedEnd(s, |s|);
    if e == 0 then
      None
    else
      var b := WordStart(s, e);
      assert s[b..e][e - b - 1] == s[e - 1];
      assert IsLastWordAt(s, s[b..e], b);
      Some(s[b..e])
  }

  /** A text has at most one last word. */
  lemma LastWordUnique(s: string, w1: string, w2: string)
    requires IsLastWord(s, w1) && IsLastWord(s, w2)
    ensures w1 == w2
  {
    var b1 :| IsLastWordAt(s, w1, b1);
    var b2 :| IsLastWordAt(s, w2, b2);
    TrailingSpaces(s, w1, b1);
    TrailingSpaces(s, w2, b2);
    assert !IsSpace(s[b1 + |w1| - 1]) && !IsSpace(s[b2 + |w2| - 1]);
    assert b1 + |w1| == b2 + |w2|;
  }

  /** What `IsLastWordAt` says about single positions of `s`. */
  lemma TrailingSpaces(s: string, w: string, b: int)
    requires |w| > 0 && NoSpace(w) && IsLastWordAt(s, w, b)
    ensures forall k :: b + |w| <= k < |s| ==> IsSpace(s[k])
    ensures forall k :: b <= k < b + |w| ==> !IsSpace(s[k])
  {
    forall k | b + |w| <= k < |s| ensures IsSpace(s[k]) {
      assert s[b + |w|..][k - b - |w|] == s[k];
    }
    forall k | b <= k < b + |w| ensures !IsSpace(s[k]) {
      assert s[b..b + |w|][k - b] == s[k];
    }
  }

  predicate IsDigit(c: char) {
    '0' <= c <= '9'
  }

  predicate IsDigits(s: string) {
    forall i :: 0 <= i < |s| ==> IsDigit(s[i])
  }

  function DigitChar(d: nat): (c: char)
    requires d < 10
    ensures IsDigit(c)
  {
    ('0' as int + d) as char
  }

  function DigitValue(c: char): (d: nat)
    requires IsDigit(c)
    ensures d < 10
    ensures DigitChar(d) == c
  {
    c as int - '0' as int
  }

  /** `str(n)` for a non-negative integer: its decimal digits, most significant first. */
  function Decimal(n: nat): (s: string)
    ensures |s| > 0 && IsDigits(s)
    ensures s[0] == '0' ==> n == 0
    ensures s[0] == '0' ==> s == "0"
  {
    if n < 10 then [DigitChar(n)] else Decimal(n / 10) + [DigitChar(n % 10)]
  }

  /** Reads a string of decimal digits back as a number. */
  function ParseDecimal(s: string): nat
    requires IsDigits(s)
  {
    if s == [] then 0 else ParseDecimal(s[..|s| - 1]) * 10 + DigitValue(s[|s| - 1])
  }

  /** The decimal rendering loses nothing: parsing it gives the number back. */
  lemma {:induction false} DecimalRoundTrip(n: nat)
    ensures ParseDecimal(Decimal(n)) == n
  {
    var s := Decimal(n);
    if n >= 10 {
      DecimalRoundTrip(n / 10);
      assert s[..|s| - 1] == Decimal(n / 10);
    }
  }

  /** The spelling `str(n)` gives a number: digits, at least one, and no leading zero
      except for zero itself. */
  predicate IsNumeral(s: string) {
    |s| > 0 && IsDigits(s) && (s[0] == '0' ==> s == "0")
  }

  /** A numeral is the decimal rendering of the number it denotes: `str(int(s)) == s`. */
  lemma {:induction false} NumeralIsDecimal(s: string)
    requires IsNumeral(s)
    ensures Decimal(ParseDecimal(s)) == s
    decreases |s|
  {
    if |s| >= 2 {
      var p := s[..|s| - 1];
      assert p[0] == s[0] != '0';
      NumeralIsDecimal(p);
      var n := ParseDecimal(s);
      var q := ParseDecimal(p);
      assert q != 0;
      assert n / 10 == q && n % 10 == DigitValue(s[|s| - 1]);
      assert s == p + [s[|s| - 1]];
    }
  }

  /** Index of the first `' '` in `t`, or `|t|` when there is none. */
  function IndexOfBlank(t: string): (i: nat)
    ensures i <= |t|
    ensures forall j :: 0 <= j < i ==> t[j] != ' '
    ensures i < |t| ==> t[i] == ' '
  {
    if t == [] || t[0] == ' ' then 0 else 1 + IndexOfBlank(t[1..])
  }
}

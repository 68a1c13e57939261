/** The string operations the agent and the tools are built from: prefix and
    suffix tests, concatenation of line sequences, Python's `str.join`,
    `str.strip` and `str.replace` on single characters, and the decimal
    rendering of integers that `str(n)` and the `:.2f` price format produce. */
module Text {

  predicate StartsWith(s: string, p: string) {
    |p| <= |s| && s[..|p|] == p
  }

  predicate EndsWith(s: string, p: string) {
    |p| <= |s| && s[|s| - |p|..] == p
  }

  lemma StartsWithAppend(a: string, b: string, p: string)
    requires StartsWith(a, p)
    ensures StartsWith(a + b, p)
  {
  }

  // ---------------------------------------------------------------- lines

  /** The strings of `ss` written one after another, in order. */
  function Concat(ss: seq<string>): string {
    if ss == [] then "" else ss[0] + Concat(ss[1..])
  }

  lemma {:induction false} ConcatAppend(a: seq<string>, b: seq<string>)
    ensures Concat(a + b) == Concat(a) + Concat(b)
  {
    if a == [] {
      assert a + b == b;
    } else {
      assert (a + b)[1..] == a[1..] + b;
      ConcatAppend(a[1..], b);
    }
  }

  lemma ConcatSingleton(x: string)
    ensures Concat([x]) == x
  {
  }

  /** Renders every element with `f`, keeping the order. */
  function MapSeq<T>(xs: seq<T>, f: T -> string): (r: seq<string>)
    ensures |r| == |xs|
    ensures forall i :: 0 <= i < |xs| ==> r[i] == f(xs[i])
  {
    seq(|xs|, i requires 0 <= i < |xs| => f(xs[i]))
  }

  /** The accumulation `for line in lines: acc += line`, performed left to
      right; it writes `acc` followed by every line in order. */
  function AppendAll(acc: string, lines: seq<string>): (r: string)
    ensures r == acc + Concat(lines)
    decreases |lines|
  {
    if lines == [] then acc
    else
      assert acc + Concat(lines) == (acc + lines[0]) + Concat(lines[1..]);
      AppendAll(acc + lines[0], lines[1..])
  }

  /** Python's `sep.join(xs)`. */
  function Join(sep: string, xs: seq<string>): string
    decreases |xs|
  {
    if xs == [] then ""
    else if |xs| == 1 then xs[0]
    else xs[0] + sep + Join(sep, xs[1..])
  }

  /** Python's `s.replace(a, b)` for one-character `a` and `b`. */
  function ReplaceChar(s: string, a: char, b: char): (r: string)
    ensures |r| == |s|
    ensures forall i :: 0 <= i < |s| ==> r[i] == (if s[i] == a then b else s[i])
  {
    seq(|s|, i requires 0 <= i < |s| => if s[i] == a then b else s[i])
  }

  // ---------------------------------------------------------------- strip

  /** The characters Python's `str.isspace` accepts. */
  predicate IsSpace(c: char) {
    || ('\t' <= c <= '\r')
    || ('\U{1C}' <= c <= ' ')
    || c == '\U{85}' || c == '\U{A0}' || c == '\U{1680}'
    || ('\U{2000}' <= c <= '\U{200A}')
    || c == '\U{2028}' || c == '\U{2029}' || c == '\U{202F}'
    || c == '\U{205F}' || c == '\U{3000}'
  }

  /** `s.lstrip()`: the longest suffix of `s` not starting with whitespace. */
  function LStrip(s: string): (r: string)
    ensures |r| <= |s| && r == s[|s| - |r|..]
    ensures r == [] || !IsSpace(r[0])
    ensures forall i :: 0 <= i < |s| - |r| ==> IsSpace(s[i])
  {
    if s != [] && IsSpace(s[0]) then LStrip(s[1..]) else s
  }

  /** `s.rstrip()`: the longest prefix of `s` not ending in whitespace. */
  function RStrip(s: string): (r: string)
    ensures |r| <= |s| && r == s[..|r|]
    ensures r == [] || !IsSpace(r[|r| - 1])
    ensures forall i :: |r| <= i < |s| ==> IsSpace(s[i])
  {
    if s != [] && IsSpace(s[|s| - 1]) then RStrip(s[..|s| - 1]) else s
  }

  /** `s.strip()`: whitespace removed from both ends, nothing else. */
  function Strip(s: string): (r: string)
    ensures r == [] || (!IsSpace(r[0]) && !IsSpace(r[|r| - 1]))
  {
    RStrip(LStrip(s))
  }

  /** Stripping a string that does not start with whitespace keeps every
      character up to and including any non-whitespace character `s[k]`. */
  lemma StripKeepsPrefix(s: string, k: nat)
    requires k < |s|
    requires !IsSpace(s[0]) && !IsSpace(s[k])
    ensures k < |Strip(s)| && Strip(s)[..k + 1] == s[..k + 1]
  {
  }

  // --------------------------------------------------------------- digits

  predicate IsDigit(c: char) {
    '0' <= c <= '9'
  }

  predicate AllDigits(s: string) {
    forall i :: 0 <= i < |s| ==> IsDigit(s[i])
  }

  function DigitChar(d: nat): (c: char)
    requires d < 10
    ensures IsDigit(c)
  {
    (48 + d) as char
  }

  function DigitValue(c: char): (d: nat)
    requires IsDigit(c)
    ensures d < 10
  {
    c as int - 48
  }

  /** The number a string of decimal digits denotes. */
  function DigitsValue(s: string): nat
    requires AllDigits(s)
  {
    if s == [] then 0 else DigitsValue(s[..|s| - 1]) * 10 + DigitValue(s[|s| - 1])
  }

  /** `str(n)` for a non-negative integer. */
  function NatToString(n: nat): (r: string)
    ensures |r| > 0 && AllDigits(r)
    ensures |r| > 1 ==> r[0] != '0'
  {
    if n < 10 then [DigitChar(n)] else NatToString(n / 10) + [DigitChar(n % 10)]
  }

  /** Reading back the digits `str(n)` prints gives `n`. */
  lemma {:induction false} NatToStringRoundTrip(n: nat)
    ensures DigitsValue(NatToString(n)) == n
  {
    var r := NatToString(n);
    if n < 10 {
      assert r[..|r| - 1] == [];
    } else {
      var front := NatToString(n / 10);
      assert r == front + [DigitChar(n % 10)];
      assert r[..|r| - 1] == front;
      NatToStringRoundTrip(n / 10);
    }
  }

  /** The longest prefix of `s` made of decimal digits. */
  function TakeDigits(s: string): (r: string)
    ensures AllDigits(r) && StartsWith(s, r)
  {
    if s != [] && IsDigit(s[0]) then [s[0]] + TakeDigits(s[1..]) else []
  }

  /** A run of digits followed by a non-digit is read back exactly. */
  lemma {:induction false} TakeDigitsOf(d: string, rest: string)
    requires AllDigits(d)
    requires rest == [] || !IsDigit(rest[0])
    ensures TakeDigits(d + rest) == d
  {
    if d == [] {
      assert d + rest == rest;
    } else {
      assert (d + rest)[1..] == d[1..] + rest;
      TakeDigitsOf(d[1..], rest);
    }
  }

  /** The `:.2f` rendering of an amount given in cents. */
  function FormatCents(cents: nat): string {
    NatToString(cents / 100) + "." + [DigitChar(cents / 10 % 10), DigitChar(cents % 10)]
  }

  /** Two digit characters denote the two-digit number they spell. */
  lemma TwoDigitsValue(a: nat, b: nat)
    requires a < 10 && b < 10
    ensures AllDigits([DigitChar(a), DigitChar(b)])
    ensures DigitsValue([DigitChar(a), DigitChar(b)]) == a * 10 + b
  {
    var t := [DigitChar(a), DigitChar(b)];
    assert DigitValue(DigitChar(a)) == a && DigitValue(DigitChar(b)) == b;
    assert t[..1] == [DigitChar(a)];
    assert t[..1][..0] == [];
    assert DigitsValue(t[..1]) == a;
  }

  /** The whole part and the two cent digits put back together. */
  lemma CentsSplit(cents: nat)
    ensures (cents / 100) * 100 + (cents / 10 % 10) * 10 + cents % 10 == cents
  {
    var q := cents / 10;
    assert cents == q * 10 + cents % 10;
    assert q == (q / 10) * 10 + q % 10;
    assert q / 10 == cents / 100;
  }

  /** The rendered amount has a decimal point before exactly two digits and
      denotes the same number of cents. */
  lemma FormatCentsRoundTrip(cents: nat)
    ensures var r := FormatCents(cents);
      && |r| >= 4 && r[|r| - 3] == '.'
      && AllDigits(r[..|r| - 3]) && AllDigits(r[|r| - 2..])
      && DigitsValue(r[..|r| - 3]) * 100 + DigitsValue(r[|r| - 2..]) == cents
  {
    var r := FormatCents(cents);
    var whole := NatToString(cents / 100);
    var tail := [DigitChar(cents / 10 % 10), DigitChar(cents % 10)];
    assert r == whole + "." + tail;
    assert r[..|r| - 3] == whole;
    assert r[|r| - 2..] == tail;
    NatToStringRoundTrip(cents / 100);
    TwoDigitsValue(cents / 10 % 10, cents % 10);
    CentsSplit(cents);
  }
}

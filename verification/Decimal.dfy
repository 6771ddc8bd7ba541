/** Decimal numerals as Go's `strconv` and `time` packages print and read them. */
module Decimal {
  import opened Wrappers

  const UINT64_LIMIT: nat := 0x1_0000_0000_0000_0000

  // Go's `uint` on a 64-bit platform: every row, user and room number.
  type Uint = n: nat | n < UINT64_LIMIT

  predicate IsDigit(c: char) { '0' <= c <= '9' }

  predicate AllDigits(s: string) { forall i :: 0 <= i < |s| ==> IsDigit(s[i]) }

  function Digit(d: nat): (c: char)
    requires d < 10
    ensures IsDigit(c) && DigitValue(c) == d
  {
    ('0' as int + d) as char
  }

  function DigitValue(c: char): (d: nat)
    requires IsDigit(c)
    ensures d < 10
  {
    c as int - '0' as int
  }

  // The number a digit string denotes.
  function Value(s: string): nat
    requires AllDigits(s)
  {
    if s == "" then 0 else 10 * Value(s[..|s| - 1]) + DigitValue(s[|s| - 1])
  }

  // strconv.FormatUint(n, 10)
  function Format(n: nat): (s: string)
    ensures |s| >= 1 && AllDigits(s)
    ensures Value(s) == n
  {
    if n < 10 then [Digit(n)]
    else
      var s := Format(n / 10) + [Digit(n % 10)];
      assert s[..|s| - 1] == Format(n / 10);
      s
  }

  // strconv.ParseUint(s, 10, 64): no sign, no separators, no overflow.
  function ParseUint(s: string): (r: Option<nat>)
  {
    if s != "" && AllDigits(s) && Value(s) < UINT64_LIMIT then Some(Value(s)) else None
  }

  // Zero-padded to exactly `width` digits.
  function Padded(n: nat, width: nat): (s: string)
    requires n < Pow10(width)
    ensures |s| == width && AllDigits(s)
    ensures Value(s) == n
  {
    if width == 0 then ""
    else
      var s := Padded(n / 10, width - 1) + [Digit(n % 10)];
      assert s[..|s| - 1] == Padded(n / 10, width - 1);
      s
  }

  function Pow10(k: nat): (p: nat)
    ensures p >= 1
  {
    if k == 0 then 1 else 10 * Pow10(k - 1)
  }

  lemma ParseFormat(n: nat)
    ensures ParseUint(Format(n)) == if n < UINT64_LIMIT then Some(n) else None
  {
  }

  // Two strings that start with a maximal run of digits agree only when the runs agree.
  lemma DigitRunsAgree(a: string, x: string, b: string, y: string)
    requires AllDigits(a) && AllDigits(b)
    requires x == "" || !IsDigit(x[0])
    requires y == "" || !IsDigit(y[0])
    requires a + x == b + y
    ensures a == b && x == y
  {
    var s := a + x;
    assert forall i :: 0 <= i < |b| ==> s[i] == b[i];
    assert forall i :: 0 <= i < |a| ==> s[i] == a[i];
    assert |a| < |s| ==> s[|a|] == x[0];
    assert |b| < |s| ==> s[|b|] == y[0];
    assert |a| == |b|;
    assert a == (a + x)[..|a|] == (b + y)[..|a|] == b;
    assert x == (a + x)[|a|..] == (b + y)[|a|..] == y;
  }
}

/**
 * How `format!("{}")` renders the scalar arguments of the request builders in
 * `src/client.rs`: `i64` values as decimal text and `bool` values as `true` /
 * `false`. Each rendering comes with its inverse, which shows that no two
 * values share a rendering.
 */
module Render {
  import opened Wrappers

  /** The range of Rust's `i64`, the type of every integer argument. */
  type I64 = x: int | -0x8000_0000_0000_0000 <= x < 0x8000_0000_0000_0000

  predicate IsDigit(c: char) { '0' <= c <= '9' }

  predicate AllDigits(s: string) { forall i :: 0 <= i < |s| ==> IsDigit(s[i]) }

  function DigitChar(n: nat): (c: char)
    requires n < 10
    ensures IsDigit(c) && c as int - '0' as int == n
  {
    ('0' as int + n) as char
  }

  function DigitValue(c: char): nat
    requires IsDigit(c)
  {
    c as int - '0' as int
  }

  /** The number a string of decimal digits denotes (most significant digit first). */
  function NatOf(s: string): nat
    requires AllDigits(s)
  {
    if |s| == 0 then 0 else 10 * NatOf(s[..|s| - 1]) + DigitValue(s[|s| - 1])
  }

  /** Decimal text of a non-negative number: digits only, no leading zero, and it denotes `n`. */
  function NatText(n: nat): (s: string)
    ensures |s| >= 1 && AllDigits(s) && NatOf(s) == n
    ensures s[0] == '0' ==> s == "0"
  {
    if n < 10 then [DigitChar(n)]
    else
      var front := NatText(n / 10);
      assert (front + [DigitChar(n % 10)])[..|front|] == front;
      front + [DigitChar(n % 10)]
  }

  /**
   * The decimal text of a number is unique: any digit string without a
   * leading zero (other than `0` itself) is the `NatText` of its value.
   */
  lemma {:induction false} NatTextCanonical(s: string)
    requires |s| >= 1 && AllDigits(s) && (s[0] == '0' ==> s == "0")
    ensures s == NatText(NatOf(s))
  {
    var n := NatOf(s);
    if |s| == 1 {
      assert s[..0] == [] && NatOf(s[..0]) == 0;
      assert n == DigitValue(s[0]) < 10;
      assert s == [DigitChar(n)];
    } else {
      var front, last := s[..|s| - 1], s[|s| - 1];
      assert front[0] == s[0];
      NatTextCanonical(front);
      assert NatOf(front) >= 1 by {
        NatOfLeading(front);
      }
      assert n / 10 == NatOf(front) && n % 10 == DigitValue(last);
      assert s == front + [last];
    }
  }

  /** A digit string that starts with a non-zero digit denotes a positive number. */
  lemma {:induction false} NatOfLeading(s: string)
    requires |s| >= 1 && AllDigits(s) && s[0] != '0'
    ensures NatOf(s) >= 1
  {
    if |s| > 1 {
      assert s[..|s| - 1][0] == s[0];
      NatOfLeading(s[..|s| - 1]);
    }
  }

  /** Decimal text, with a leading `-` for negatives; the inverse of `IntText`. */
  function IntOf(s: string): Option<int>
  {
    if |s| >= 2 && s[0] == '-' && AllDigits(s[1..]) then Some(0 - NatOf(s[1..]) as int)
    else if |s| >= 1 && AllDigits(s) then Some(NatOf(s))
    else None
  }

  /**
   * Rust's `Display` for an integer: a `-` exactly for negatives, then digits
   * without a leading zero (other than `0` itself), which read back as the
   * same integer.
   */
  function IntText(i: int): (s: string)
    ensures IntOf(s) == Some(i)
    ensures forall k :: 0 <= k < |s| ==> IsDigit(s[k]) || (k == 0 && s[k] == '-')
    ensures |s| >= 1 && (s[0] == '-' <==> i < 0)
    ensures var d := if i < 0 then s[1..] else s; |d| >= 1 && (d[0] == '0' ==> d == "0")
  {
    if i < 0 then
      var digits := NatText(-i);
      assert ("-" + digits)[1..] == digits;
      "-" + digits
    else NatText(i)
  }

  function BoolOf(s: string): Option<bool>
  {
    if s == "true" then Some(true) else if s == "false" then Some(false) else None
  }

  /** Rust's `Display` for `bool`: `true` or `false`, which reads back as the same value. */
  function BoolText(b: bool): (s: string)
    ensures BoolOf(s) == Some(b)
    ensures forall k :: 0 <= k < |s| ==> 'a' <= s[k] <= 'z'
  {
    if b then "true" else "false"
  }
}

/**
 * Decimal text of integers, as Go's `%d` verb renders an integer operand:
 * ASCII digits, most significant first, no leading zeros, and a leading
 * '-' for a negative value.
 */
module Decimal {
  import opened GoTypes

  /** ASCII '0'. */
  const Zero: byte := 48
  /** ASCII '-'. */
  const Minus: byte := 45

  predicate IsDigit(b: byte) {
    Zero <= b <= Zero + 9
  }

  predicate AllDigits(s: seq<byte>) {
    forall i :: 0 <= i < |s| ==> IsDigit(s[i])
  }

  /** The shape `%d` gives a natural number: digits only, no leading zero unless it is "0". */
  predicate Canonical(s: seq<byte>) {
    |s| >= 1 && AllDigits(s) && (|s| > 1 ==> s[0] != Zero)
  }

  /** Decimal text of a natural number. */
  function Format(n: nat): (r: seq<byte>)
    ensures Canonical(r)
  {
    if n < 10 then [Zero + n] else Format(n / 10) + [Zero + n % 10]
  }

  /** The number a string of decimal digits denotes (the inverse of Format). */
  function Parse(s: seq<byte>): nat
    requires AllDigits(s)
  {
    if s == [] then 0 else Parse(s[..|s| - 1]) * 10 + (s[|s| - 1] - Zero)
  }

  /** Decimal text of a signed integer, as `%d` writes an `int64`. */
  function FormatInt(i: int): (r: seq<byte>)
    ensures |r| >= 1
    ensures r[0] == Minus <==> i < 0
    ensures i >= 0 ==> Canonical(r)
    ensures i < 0 ==> Canonical(r[1..]) && Parse(r[1..]) == -i
    ensures i >= 0 ==> Parse(r) == i
  {
    if i < 0 then
      ParseFormat(-i);
      assert ([Minus] + Format(-i))[1..] == Format(-i);
      [Minus] + Format(-i)
    else
      ParseFormat(i);
      Format(i)
  }

  lemma {:induction false} ParseFormat(n: nat)
    ensures Parse(Format(n)) == n
  {
    if n >= 10 {
      var s := Format(n);
      assert s[..|s| - 1] == Format(n / 10);
      ParseFormat(n / 10);
    }
  }

  lemma {:induction false} ParseAtLeastOne(s: seq<byte>)
    requires |s| >= 1 && AllDigits(s) && s[0] != Zero
    ensures Parse(s) >= 1
  {
    if |s| > 1 {
      ParseAtLeastOne(s[..|s| - 1]);
    }
  }

  lemma {:induction false} FormatParse(s: seq<byte>)
    requires Canonical(s)
    ensures Format(Parse(s)) == s
  {
    if |s| > 1 {
      var init := s[..|s| - 1];
      assert Canonical(init);
      ParseAtLeastOne(init);
      FormatParse(init);
      assert s == init + [s[|s| - 1]];
    }
  }

  /** Distinct numbers have distinct decimal texts. */
  lemma FormatInjective(a: nat, b: nat)
    ensures Format(a) == Format(b) <==> a == b
  {
    ParseFormat(a);
    ParseFormat(b);
  }
}

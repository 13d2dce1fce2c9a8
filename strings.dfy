/**
 * The few string operations the graph builders rely on, written over
 * `string` (= `seq<char>`): Python's `str.startswith`, the substring test
 * `sub in s`, and the decimal rendering of a non-negative index used by
 * f-strings such as `f"{op_type}_{i}"`.
 */
module Strings {

  /** Python's `s.startswith(prefix)`. */
  predicate StartsWith(s: string, prefix: string)
  {
    |prefix| <= |s| && s[..|prefix|] == prefix
  }

  /** `sub` occurs in `s` beginning at position `i`. */
  predicate OccursAt(s: string, sub: string, i: nat)
  {
    i + |sub| <= |s| && s[i..i + |sub|] == sub
  }

  lemma OccursAtShift(s: string, sub: string, i: nat)
    requires s != []
    ensures OccursAt(s, sub, i + 1) <==> OccursAt(s[1..], sub, i)
  {
    if i + 1 + |sub| <= |s| {
      assert s[1..][i..i + |sub|] == s[i + 1..i + 1 + |sub|];
    }
  }

  /** Python's substring test `sub in s`, scanning `s` from the left. */
  function Contains(s: string, sub: string): (r: bool)
    ensures r <==> exists i: nat :: OccursAt(s, sub, i)
    decreases |s|
  {
    if StartsWith(s, sub) then
      assert OccursAt(s, sub, 0);
      true
    else if s == [] then
      assert forall i: nat :: !OccursAt(s, sub, i);
      false
    else
      var r := Contains(s[1..], sub);
      assert forall i: nat :: OccursAt(s, sub, i + 1) <==> OccursAt(s[1..], sub, i) by {
        forall i: nat ensures OccursAt(s, sub, i + 1) <==> OccursAt(s[1..], sub, i) {
          OccursAtShift(s, sub, i);
        }
      }
      if r then
        var i: nat :| OccursAt(s[1..], sub, i);
        assert OccursAt(s, sub, i + 1);
        true
      else
        assert forall i: nat :: !OccursAt(s, sub, i) by {
          forall i: nat ensures !OccursAt(s, sub, i) {
            if i > 0 {
              assert !OccursAt(s[1..], sub, i - 1);
            }
          }
        }
        false
  }

  predicate IsDigit(c: char)
  {
    '0' <= c <= '9'
  }

  predicate AllDigits(s: string)
  {
    forall k :: 0 <= k < |s| ==> IsDigit(s[k])
  }

  function DigitChar(d: nat): (c: char)
    requires d < 10
    ensures IsDigit(c)
  {
    ('0' as int + d) as char
  }

  function DigitValue(c: char): (d: nat)
    requires IsDigit(c)
    ensures d < 10
  {
    c as int - '0' as int
  }

  /** The decimal rendering of `n`, as `str(n)` gives it: no sign, no leading zero. */
  function Decimal(n: nat): (r: string)
    ensures |r| >= 1 && AllDigits(r)
    ensures |r| > 1 ==> r[0] != '0'
  {
    if n < 10 then [DigitChar(n)] else Decimal(n / 10) + [DigitChar(n % 10)]
  }

  /** Reads back a string of decimal digits; the reference inverse of `Decimal`. */
  function ParseDecimal(s: string): nat
    requires AllDigits(s)
  {
    if s == [] then 0 else ParseDecimal(s[..|s| - 1]) * 10 + DigitValue(s[|s| - 1])
  }

  lemma {:induction false} ParseDecimalInverse(n: nat)
    ensures ParseDecimal(Decimal(n)) == n
  {
    var r := Decimal(n);
    if n >= 10 {
      ParseDecimalInverse(n / 10);
      assert r[..|r| - 1] == Decimal(n / 10);
      assert DigitValue(r[|r| - 1]) == n % 10;
    } else {
      assert DigitValue(r[0]) == n;
    }
  }

  /** Distinct indices render differently. */
  lemma DecimalInjective(m: nat, n: nat)
    requires Decimal(m) == Decimal(n)
    ensures m == n
  {
    ParseDecimalInverse(m);
    ParseDecimalInverse(n);
  }
}

/**
 * String helpers standing in for the JavaScript string operations the core
 * uses: template-literal rendering of integers, `startsWith` and `includes`.
 */
module Text {

  /** The decimal digit character for `d`. */
  function DigitChar(d: nat): (c: char)
    requires d < 10
    ensures '0' <= c <= '9'
    ensures c as int - '0' as int == d
  {
    ('0' as int + d) as char
  }

  predicate IsDigit(c: char) {
    '0' <= c <= '9'
  }

  /** The number a string of decimal digits denotes, most significant digit first. */
  function DigitsValue(s: string): nat
    requires forall i | 0 <= i < |s| :: IsDigit(s[i])
    decreases |s|
  {
    if s == [] then 0
    else
      assert IsDigit(s[|s| - 1]);
      DigitsValue(s[..|s| - 1]) * 10 + (s[|s| - 1] as int - '0' as int)
  }

  /** The decimal digits of `n`, most significant first, without leading zeros. */
  function NatDigits(n: nat): (s: string)
    ensures 1 <= |s|
    ensures forall i | 0 <= i < |s| :: IsDigit(s[i])
    ensures DigitsValue(s) == n
    ensures s[0] == '0' ==> |s| == 1
    ensures n < 10 <==> |s| == 1
    ensures s[|s| - 1] == DigitChar(n % 10)
  {
    if n < 10 then [DigitChar(n)]
    else
      var high := NatDigits(n / 10);
      assert (high + [DigitChar(n % 10)])[..|high|] == high;
      high + [DigitChar(n % 10)]
  }

  /**
   * `${i}` for an integer `i`: the decimal expansion of `i` without leading
   * zeros, after a minus sign when `i` is negative.
   */
  function IntToString(i: int): (s: string)
    ensures 1 <= |s|
    ensures forall j | 0 <= j < |s| :: s[j] != '_'
    ensures s[0] == '-' <==> i < 0
    ensures i >= 0 ==> (forall j | 0 <= j < |s| :: IsDigit(s[j])) && DigitsValue(s) == i && (s[0] == '0' ==> |s| == 1)
    ensures i < 0 ==> 2 <= |s| && (forall j | 1 <= j < |s| :: IsDigit(s[j])) && DigitsValue(s[1..]) == -i && s[1] != '0'
  {
    if i < 0 then
      var digits := NatDigits(-i);
      assert ("-" + digits)[1..] == digits;
      "-" + digits
    else NatDigits(i)
  }

  /** Distinct naturals render as distinct digit strings. */
  lemma {:induction false} NatDigitsInjective(a: nat, b: nat)
    requires NatDigits(a) == NatDigits(b)
    ensures a == b
  {
    var sa, sb := NatDigits(a), NatDigits(b);
    assert DigitChar(a % 10) == DigitChar(b % 10);
    if a >= 10 && b >= 10 {
      assert NatDigits(a / 10) == sa[..|sa| - 1] == sb[..|sb| - 1] == NatDigits(b / 10);
      NatDigitsInjective(a / 10, b / 10);
    }
  }

  /** Distinct integers render as distinct strings. */
  lemma IntToStringInjective(a: int, b: int)
    requires IntToString(a) == IntToString(b)
    ensures a == b
  {
    if a < 0 {
      assert NatDigits(-a) == IntToString(a)[1..] == IntToString(b)[1..] == NatDigits(-b);
      NatDigitsInjective(-a, -b);
    } else {
      NatDigitsInjective(a, b);
    }
  }

  /** `s.startsWith(prefix)`. */
  predicate StartsWith(s: string, prefix: string) {
    prefix <= s
  }

  /** `sub` occurs in `s` starting at index `i`. */
  predicate OccursAt(s: string, sub: string, i: int) {
    0 <= i <= |s| - |sub| && s[i..i + |sub|] == sub
  }

  /** `s.includes(sub)`. */
  predicate Contains(s: string, sub: string) {
    exists i | 0 <= i <= |s| - |sub| :: OccursAt(s, sub, i)
  }

  /** No string occurs twice in `keys`. */
  predicate Distinct(keys: seq<string>) {
    forall i, j | 0 <= i < j < |keys| :: keys[i] != keys[j]
  }

  /**
   * Two strings each made of an underscore-free head followed by a tail that
   * starts with an underscore are equal only if heads and tails are equal.
   */
  lemma SplitAtUnderscore(a: string, x: string, b: string, y: string)
    requires forall i | 0 <= i < |a| :: a[i] != '_'
    requires forall i | 0 <= i < |b| :: b[i] != '_'
    requires 0 < |x| && x[0] == '_' && 0 < |y| && y[0] == '_'
    requires a + x == b + y
    ensures a == b && x == y
  {
    assert a == (a + x)[..|a|] == (b + y)[..|b|] == b;
    assert x == (a + x)[|a|..] == (b + y)[|b|..] == y;
  }
}

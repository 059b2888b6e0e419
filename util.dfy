/** `simplify_decimal` (`calc_lib/util.py`), from the formatted string on:
    a fixed-point rendering loses its trailing fractional zeros and then a
    bare trailing dot. */
module Util {
  import opened Strings

  const ZERO: set<char> := {'0'}
  const DOT: set<char> := {'.'}

  /** The trimming step of `simplify_decimal`, applied to `plain`, the
      number already formatted with a fixed number of decimals. */
  function SimplifyDecimal(plain: string): (r: string)
    ensures r <= plain
  {
    if '.' !in plain then plain else RStrip(RStrip(plain, ZERO), DOT)
  }

  /** A fixed-point rendering has at most one dot. */
  ghost predicate AtMostOneDot(s: string) {
    forall i, j :: 0 <= i < j < |s| && s[i] == '.' ==> s[j] != '.'
  }

  /** A string with no dot is an integer rendering and stays as it is. */
  lemma SimplifyDecimalInteger(plain: string)
    requires '.' !in plain
    ensures SimplifyDecimal(plain) == plain
  {
  }

  /** Everything before the (first) dot, the integer part, is kept, and
      what is dropped is only zeros and dots. */
  lemma SimplifyDecimalKeepsIntegerPart(plain: string, p: int)
    requires 0 <= p < |plain| && plain[p] == '.' && '.' !in plain[..p]
    ensures plain[..p] <= SimplifyDecimal(plain)
    ensures forall i :: |SimplifyDecimal(plain)| <= i < |plain| ==> plain[i] in ZERO + DOT
  {
    var t := RStrip(plain, ZERO);
    assert plain[p] !in ZERO;
    assert p < |t|;
    assert forall i :: 0 <= i < p ==> t[i] == plain[..p][i] && t[i] != '.';
    var r := RStrip(t, DOT);
    assert p == 0 || t[p - 1] !in DOT;
    assert p <= |r|;
    assert plain[..p] == r[..p];
  }

  /** The result never ends with a dot. */
  lemma SimplifyDecimalNoTrailingDot(plain: string)
    ensures var r := SimplifyDecimal(plain); |r| == 0 || r[|r| - 1] != '.'
  {
    if '.' !in plain && |plain| > 0 {
      assert plain[|plain| - 1] in plain;
    }
  }

  /** When a fractional part survives, it does not end with a zero: the
      trailing zeros are all gone. */
  lemma SimplifyDecimalNoTrailingZero(plain: string)
    requires AtMostOneDot(plain)
    ensures var r := SimplifyDecimal(plain); '.' in r ==> r[|r| - 1] != '0'
  {
  }
}

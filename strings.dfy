/** The few Python string operations the program uses (`str.split`,
    `str.rstrip`/`lstrip`/`strip` with a character set, `str.endswith`, and
    decimal formatting of a non-negative integer), written out on `seq<char>`. */
module Strings {

  predicate EndsWith(s: string, suffix: string) {
    |suffix| <= |s| && s[|s| - |suffix|..] == suffix
  }

  /** Python's `s.split(sep)` for a one-character separator. */
  function Split(s: string, sep: char): (parts: seq<string>)
    ensures |parts| >= 1
  {
    if |s| == 0 then [""]
    else
      var rest := Split(s[1..], sep);
      if s[0] == sep then [""] + rest
      else [[s[0]] + rest[0]] + rest[1..]
  }

  /** Number of occurrences of `c` in `s`. */
  function Count(s: string, c: char): nat {
    if |s| == 0 then 0 else (if s[0] == c then 1 else 0) + Count(s[1..], c)
  }

  /** `sep.join(parts)`. */
  function Join(parts: seq<string>, sep: char): string
    requires |parts| >= 1
  {
    if |parts| == 1 then parts[0] else parts[0] + [sep] + Join(parts[1..], sep)
  }

  /** Splitting yields one more piece than there are separators, and joining
      the pieces with the separator gives back the original text. */
  lemma SplitJoin(s: string, sep: char)
    ensures |Split(s, sep)| == Count(s, sep) + 1
    ensures Join(Split(s, sep), sep) == s
  {
    SplitCount(s, sep);
    SplitThenJoin(s, sep);
  }

  lemma {:induction false} SplitCount(s: string, sep: char)
    ensures |Split(s, sep)| == Count(s, sep) + 1
  {
    if |s| > 0 {
      SplitCount(s[1..], sep);
      SplitFirst(s, sep);
    }
  }

  lemma {:induction false} SplitThenJoin(s: string, sep: char)
    ensures Join(Split(s, sep), sep) == s
  {
    if |s| > 0 {
      var rest := Split(s[1..], sep);
      SplitThenJoin(s[1..], sep);
      SplitFirst(s, sep);
      if s[0] == sep {
        JoinSeparatorFirst(rest, sep);
      } else {
        JoinCons(s[0], rest, sep);
      }
      assert s == [s[0]] + s[1..];
    }
  }

  /** Joining behind an empty first piece puts the separator in front. */
  lemma JoinSeparatorFirst(parts: seq<string>, sep: char)
    requires |parts| >= 1
    ensures Join([""] + parts, sep) == [sep] + Join(parts, sep)
  {
    assert ([""] + parts)[1..] == parts;
  }

  /** A character put in front of the first piece comes first in the join. */
  lemma JoinCons(c: char, parts: seq<string>, sep: char)
    requires |parts| >= 1
    ensures Join([[c] + parts[0]] + parts[1..], sep) == [c] + Join(parts, sep)
  {
    var q := [[c] + parts[0]] + parts[1..];
    if |parts| > 1 {
      assert q[1..] == parts[1..];
    }
  }

  /** The first piece of `split(sep)` is the text before the first separator. */
  lemma {:induction false} SplitFirstPiece(head: string, sep: char, tail: string)
    requires sep !in head
    ensures Split(head + [sep] + tail, sep)[0] == head
  {
    if |head| > 0 {
      assert (head + [sep] + tail)[1..] == head[1..] + [sep] + tail;
      SplitFirstPiece(head[1..], sep, tail);
      assert head == [head[0]] + head[1..];
    } else {
      assert (head + [sep] + tail)[0] == sep;
    }
  }

  /** A text without the separator splits into itself alone. */
  lemma {:induction false} SplitWithoutSeparator(s: string, sep: char)
    requires sep !in s
    ensures Split(s, sep) == [s]
  {
    if |s| > 0 {
      SplitWithoutSeparator(s[1..], sep);
      assert s == [s[0]] + s[1..];
    }
  }

  /** Splitting at a separator splits the text on either side independently. */
  lemma {:induction false} SplitConcat(x: string, sep: char, y: string)
    ensures Split(x + [sep] + y, sep) == Split(x, sep) + Split(y, sep)
  {
    var s := x + [sep] + y;
    if |x| == 0 {
      assert s[1..] == y;
      SplitFirst(s, sep);
    } else {
      assert s[1..] == x[1..] + [sep] + y;
      SplitConcat(x[1..], sep, y);
      SplitFirst(s, sep);
      SplitFirst(x, sep);
      ConsPieces(x[0], sep, Split(x[1..], sep), Split(y, sep));
    }
  }

  /** Putting a character in front of a split commutes with appending pieces. */
  lemma ConsPieces(c: char, sep: char, a: seq<string>, b: seq<string>)
    requires |a| >= 1
    ensures var ab := a + b;
            (if c == sep then [""] + ab else [[c] + ab[0]] + ab[1..])
            == (if c == sep then [""] + a else [[c] + a[0]] + a[1..]) + b
  {
    if c != sep {
      assert (a + b)[1..] == a[1..] + b;
    }
  }

  /** One character off the front of a split. */
  lemma SplitFirst(s: string, sep: char)
    requires |s| > 0
    ensures var rest := Split(s[1..], sep);
            Split(s, sep) == if s[0] == sep then [""] + rest else [[s[0]] + rest[0]] + rest[1..]
  {
  }

  /** No piece of a split holds the separator. */
  lemma {:induction false} SplitPiecesWithoutSeparator(s: string, sep: char)
    ensures forall i :: 0 <= i < |Split(s, sep)| ==> sep !in Split(s, sep)[i]
  {
    if |s| > 0 {
      var rest := Split(s[1..], sep);
      SplitPiecesWithoutSeparator(s[1..], sep);
      SplitFirst(s, sep);
      var parts := Split(s, sep);
      forall i | 0 <= i < |parts| ensures sep !in parts[i] {
        if s[0] == sep {
          if i > 0 {
            assert parts[i] == rest[i - 1];
          }
        } else if i > 0 {
          assert parts[i] == rest[i];
        } else {
          assert parts[0] == [s[0]] + rest[0];
        }
      }
    }
  }

  /** Every piece of a split is made of characters of the text. */
  lemma {:induction false} SplitKeepsCharacters(s: string, sep: char)
    ensures forall i, c :: 0 <= i < |Split(s, sep)| && c in Split(s, sep)[i] ==> c in s
  {
    if |s| > 0 {
      SplitKeepsCharacters(s[1..], sep);
      assert forall c :: c in s[1..] ==> c in s;
    }
  }

  function Last<T>(xs: seq<T>): T
    requires |xs| >= 1
  {
    xs[|xs| - 1]
  }

  /** `s.rstrip(chars)`: drop trailing characters that belong to `chars`. */
  function RStrip(s: string, chars: set<char>): (r: string)
    ensures r <= s
    ensures |r| == 0 || r[|r| - 1] !in chars
    ensures forall i :: |r| <= i < |s| ==> s[i] in chars
  {
    if |s| == 0 || s[|s| - 1] !in chars then s else RStrip(s[..|s| - 1], chars)
  }

  /** `s.lstrip(chars)`: drop leading characters that belong to `chars`. */
  function LStrip(s: string, chars: set<char>): (r: string)
    ensures |r| <= |s| && r == s[|s| - |r|..]
    ensures |r| == 0 || r[0] !in chars
    ensures forall i :: 0 <= i < |s| - |r| ==> s[i] in chars
  {
    if |s| == 0 || s[0] !in chars then s else LStrip(s[1..], chars)
  }

  /** `s.strip(chars)`: a slice of `s` that drops only characters of
      `chars` before and after it, and neither end of which is in `chars`;
      so it drops exactly the longest leading and trailing runs of them. */
  function Strip(s: string, chars: set<char>): (r: string)
    ensures forall c :: c in r ==> c in s
    ensures |r| == 0 || (r[0] !in chars && r[|r| - 1] !in chars)
    ensures exists i, j :: StrippedSlice(s, chars, r, i, j)
  {
    var t := RStrip(s, chars);
    var r := LStrip(t, chars);
    StripIsSlice(s, chars, t, r);
    r
  }

  /** `r` is `s[i..j]`, and everything of `s` outside that slice is in `chars`. */
  ghost predicate StrippedSlice(s: string, chars: set<char>, r: string, i: int, j: int) {
    && 0 <= i <= j <= |s| && r == s[i..j]
    && (forall k :: 0 <= k < i ==> s[k] in chars)
    && (forall k :: j <= k < |s| ==> s[k] in chars)
  }

  lemma StripIsSlice(s: string, chars: set<char>, t: string, r: string)
    requires t <= s && forall k :: |t| <= k < |s| ==> s[k] in chars
    requires |r| <= |t| && r == t[|t| - |r|..] && forall k :: 0 <= k < |t| - |r| ==> t[k] in chars
    ensures StrippedSlice(s, chars, r, |t| - |r|, |t|)
    ensures forall c :: c in r ==> c in s
  {
    var j := |t|;
    var i := j - |r|;
    assert t == s[..j];
    assert r == t[i..];
    assert r == s[i..j];
    forall k | 0 <= k < i
      ensures s[k] in chars
    {
      assert s[k] == t[k];
    }
    SliceKeepsCharacters(s, i, j);
  }

  lemma SliceKeepsCharacters(s: string, lo: int, hi: int)
    requires 0 <= lo <= hi <= |s|
    ensures forall c :: c in s[lo..hi] ==> c in s
  {
    forall c | c in s[lo..hi] ensures c in s {
      var i :| 0 <= i < hi - lo && s[lo..hi][i] == c;
      assert s[lo + i] == c;
    }
  }

  predicate IsDigit(c: char) {
    '0' <= c <= '9'
  }

  predicate AllDigits(s: string) {
    forall i :: 0 <= i < |s| ==> IsDigit(s[i])
  }

  function DigitChar(d: nat): (c: char)
    requires d < 10
    ensures IsDigit(c)
  {
    "0123456789"[d]
  }

  /** Python's `str(n)` (and `f"{n}"`) for a non-negative integer. */
  function NatToString(n: nat): (s: string)
    ensures |s| >= 1 && AllDigits(s)
    ensures n >= 10 ==> |s| >= 2
  {
    if n < 10 then [DigitChar(n)] else NatToString(n / 10) + [DigitChar(n % 10)]
  }

  lemma DigitCharInjective(a: nat, b: nat)
    requires a < 10 && b < 10 && DigitChar(a) == DigitChar(b)
    ensures a == b
  {
  }

  /** Distinct numbers have distinct decimal representations. */
  lemma {:induction false} NatToStringInjective(a: nat, b: nat)
    requires NatToString(a) == NatToString(b)
    ensures a == b
  {
    var sa, sb := NatToString(a), NatToString(b);
    if a < 10 && b < 10 {
      DigitCharInjective(a, b);
    } else if a >= 10 && b >= 10 {
      assert sa[..|sa| - 1] == NatToString(a / 10);
      assert sb[..|sb| - 1] == NatToString(b / 10);
      NatToStringInjective(a / 10, b / 10);
      assert sa[|sa| - 1] == DigitChar(a % 10);
      assert sb[|sb| - 1] == DigitChar(b % 10);
      DigitCharInjective(a % 10, b % 10);
    } else {
      assert false;
    }
  }

  /** Position of the last non-digit character of `s`, or -1 if there is none. */
  function LastNonDigit(s: string): int {
    if |s| == 0 then -1
    else if !IsDigit(s[|s| - 1]) then |s| - 1
    else LastNonDigit(s[..|s| - 1])
  }

  lemma {:induction false} LastNonDigitOf(x: string, ch: char, d: string)
    requires !IsDigit(ch) && AllDigits(d)
    ensures LastNonDigit(x + [ch] + d) == |x|
    decreases |d|
  {
    var n := x + [ch] + d;
    if |d| == 0 {
      assert n == x + [ch];
    } else {
      assert n[..|n| - 1] == x + [ch] + d[..|d| - 1];
      LastNonDigitOf(x, ch, d[..|d| - 1]);
    }
  }

  /** A text that ends in a non-digit marker followed by a run of digits can
      be cut at that marker in only one way. */
  lemma DigitSuffixUnique(x: string, x': string, ch: char, d: string, d': string)
    requires !IsDigit(ch) && AllDigits(d) && AllDigits(d')
    requires x + [ch] + d == x' + [ch] + d'
    ensures x == x' && d == d'
  {
    var n := x + [ch] + d;
    LastNonDigitOf(x, ch, d);
    LastNonDigitOf(x', ch, d');
    assert |x| == |x'|;
    assert x == n[..|x|] && x' == n[..|x'|];
    assert d == n[|x| + 1..] && d' == n[|x'| + 1..];
  }
}

/**
 * The few string primitives of the Go standard library that the label
 * printer relies on: decimal rendering of an integer (strconv.Itoa),
 * removal of every occurrence of a character (strings.ReplaceAll with an
 * empty replacement) and the first field of a split (strings.Split(s, sep)[0]).
 */
module Text {

  predicate IsDigit(c: char) {
    '0' <= c <= '9'
  }

  function DigitChar(d: nat): (c: char)
    requires d < 10
    ensures IsDigit(c)
    ensures c as int - '0' as int == d
  {
    ('0' as int + d) as char
  }

  /** Decimal digits of a natural number, most significant first, no leading zero. */
  function NatDigits(n: nat): (r: string)
    ensures |r| >= 1
    ensures |r| == 1 <==> n < 10
    decreases n
  {
    if n < 10 then [DigitChar(n)] else NatDigits(n / 10) + [DigitChar(n % 10)]
  }

  lemma {:induction false} NatDigitsAreDigits(n: nat)
    ensures forall i :: 0 <= i < |NatDigits(n)| ==> IsDigit(NatDigits(n)[i])
    decreases n
  {
    if n >= 10 {
      NatDigitsAreDigits(n / 10);
    }
  }

  /** strconv.Itoa: an optional minus sign followed by the digits of the magnitude. */
  function Decimal(n: int): string
  {
    if n < 0 then "-" + NatDigits(-n) else NatDigits(n)
  }

  /** A rendering is a non-empty run of digits, led by '-' exactly for negative numbers. */
  lemma DecimalShape(n: int)
    ensures |Decimal(n)| >= 1
    ensures forall i :: 0 < i < |Decimal(n)| ==> IsDigit(Decimal(n)[i])
    ensures n >= 0 <==> IsDigit(Decimal(n)[0])
    ensures n < 0 <==> Decimal(n)[0] == '-'
  {
    NatDigitsAreDigits(if n < 0 then -n else n);
  }

  lemma {:induction false} NatDigitsInjective(a: nat, b: nat)
    requires NatDigits(a) == NatDigits(b)
    ensures a == b
    decreases a
  {
    var ra, rb := NatDigits(a), NatDigits(b);
    if a < 10 {
      assert DigitChar(a) == ra[0] == rb[0] == DigitChar(b);
    } else {
      assert b >= 10;
      assert ra[..|ra| - 1] == NatDigits(a / 10);
      assert rb[..|rb| - 1] == NatDigits(b / 10);
      NatDigitsInjective(a / 10, b / 10);
      assert DigitChar(a % 10) == ra[|ra| - 1] == rb[|rb| - 1] == DigitChar(b % 10);
    }
  }

  /** Distinct integers render to distinct strings. */
  lemma DecimalInjective(a: int, b: int)
    requires Decimal(a) == Decimal(b)
    ensures a == b
  {
    DecimalShape(a);
    DecimalShape(b);
    if a < 0 {
      assert Decimal(a)[1..] == NatDigits(-a);
      assert Decimal(b)[1..] == NatDigits(-b);
      NatDigitsInjective(-a, -b);
    } else {
      NatDigitsInjective(a, b);
    }
  }

  /** A rendered integer never holds the separators ':' and '#'. */
  lemma DecimalHasNoSeparators(n: int)
    ensures ':' !in Decimal(n) && '#' !in Decimal(n)
  {
    DecimalShape(n);
  }

  /** strings.ReplaceAll(s, [c], ""): every occurrence of c removed. */
  function RemoveAll(s: string, c: char): (r: string)
    ensures c !in r
    ensures |r| <= |s|
  {
    if s == [] then [] else (if s[0] == c then [] else [s[0]]) + RemoveAll(s[1..], c)
  }

  /** Every character other than c occurs as often as before. */
  lemma {:induction false} RemoveAllKeepsOthers(s: string, c: char)
    ensures forall x :: x != c ==> multiset(RemoveAll(s, c))[x] == multiset(s)[x]
    decreases |s|
  {
    if s != [] {
      assert s == [s[0]] + s[1..];
      RemoveAllKeepsOthers(s[1..], c);
    }
  }

  /** Removal works piece by piece, so the kept characters stay in their order. */
  lemma {:induction false} RemoveAllAppend(a: string, b: string, c: char)
    ensures RemoveAll(a + b, c) == RemoveAll(a, c) + RemoveAll(b, c)
    decreases |a|
  {
    if a != [] {
      assert (a + b)[0] == a[0];
      assert (a + b)[1..] == a[1..] + b;
      RemoveAllAppend(a[1..], b, c);
    } else {
      assert a + b == b;
    }
  }

  /** A string without c is left as it is. */
  lemma {:induction false} RemoveAllAbsent(s: string, c: char)
    requires c !in s
    ensures RemoveAll(s, c) == s
    decreases |s|
  {
    if s != [] {
      RemoveAllAbsent(s[1..], c);
    }
  }

  lemma RemoveAllIdempotent(s: string, c: char)
    ensures RemoveAll(RemoveAll(s, c), c) == RemoveAll(s, c)
  {
    RemoveAllAbsent(RemoveAll(s, c), c);
  }

  /** strings.Split(s, [sep])[0]: the longest prefix of s without sep. */
  function FieldBefore(s: string, sep: char): (r: string)
    ensures |r| <= |s| && r == s[..|r|]
    ensures sep !in r
    ensures |r| < |s| ==> s[|r|] == sep
  {
    if s == [] || s[0] == sep then [] else [s[0]] + FieldBefore(s[1..], sep)
  }

  /** Splitting a + [sep] + b at its first sep gives a back when a has no sep. */
  lemma {:induction false} FieldBeforeJoin(a: string, sep: char, b: string)
    requires sep !in a
    ensures FieldBefore(a + [sep] + b, sep) == a
    decreases |a|
  {
    var s := a + [sep] + b;
    if a == [] {
      assert s[0] == sep;
    } else {
      assert s[0] == a[0] && s[1..] == a[1..] + [sep] + b;
      FieldBeforeJoin(a[1..], sep, b);
      assert [a[0]] + a[1..] == a;
    }
  }

  /** Without sep the whole string is the first field. */
  lemma FieldBeforeAbsent(s: string, sep: char)
    requires sep !in s
    ensures FieldBefore(s, sep) == s
  {
  }

  /** The part of s after its last sep (all of s when there is none). */
  function LastField(s: string, sep: char): string
  {
    if s == [] || s[|s| - 1] == sep then [] else LastField(s[..|s| - 1], sep) + [s[|s| - 1]]
  }

  lemma {:induction false} LastFieldJoin(a: string, sep: char, d: string)
    requires sep !in d
    ensures LastField(a + [sep] + d, sep) == d
    decreases |d|
  {
    var s := a + [sep] + d;
    if d == [] {
      assert s[|s| - 1] == sep;
    } else {
      var d' := d[..|d| - 1];
      assert s[..|s| - 1] == a + [sep] + d' && s[|s| - 1] == d[|d| - 1];
      LastFieldJoin(a, sep, d');
      assert d' + [d[|d| - 1]] == d;
    }
  }

  /**
   * Two strings that both end in sep followed by a sep-free tail can only be
   * equal when the tails are: the last sep fixes where the tail starts.
   */
  lemma LastFieldUnique(a: string, d1: string, b: string, d2: string, sep: char)
    requires sep !in d1 && sep !in d2
    requires a + [sep] + d1 == b + [sep] + d2
    ensures d1 == d2 && a == b
  {
    LastFieldJoin(a, sep, d1);
    LastFieldJoin(b, sep, d2);
    var s := a + [sep] + d1;
    assert a == s[..|a|];
    assert b == s[..|b|];
  }
}

/**
 * Text helpers shared by the store and the analytics: the ordering SQLite's
 * default BINARY collation puts on TEXT values (used for "YYYY-MM-DD" dates),
 * and the decimal rendering Python's f-strings give integers.
 */
module Text {

  /** `a <= b` character by character, a proper prefix sorting first. */
  predicate LexLe(a: string, b: string)
    decreases |a|
  {
    a == [] || (b != [] && (a[0] < b[0] || (a[0] == b[0] && LexLe(a[1..], b[1..]))))
  }

  lemma {:induction false} LexLeReflexive(a: string)
    ensures LexLe(a, a)
    decreases |a|
  {
    if a != [] {
      LexLeReflexive(a[1..]);
    }
  }

  lemma {:induction false} LexLeTransitive(a: string, b: string, c: string)
    requires LexLe(a, b) && LexLe(b, c)
    ensures LexLe(a, c)
    decreases |a|
  {
    if a != [] && a[0] == b[0] && b[0] == c[0] {
      LexLeTransitive(a[1..], b[1..], c[1..]);
    }
  }

  lemma {:induction false} LexLeTotal(a: string, b: string)
    ensures LexLe(a, b) || LexLe(b, a)
    decreases |a|
  {
    if a != [] && b != [] && a[0] == b[0] {
      LexLeTotal(a[1..], b[1..]);
    }
  }

  lemma {:induction false} LexLeAntisymmetric(a: string, b: string)
    requires LexLe(a, b) && LexLe(b, a)
    ensures a == b
    decreases |a|
  {
    if a != [] {
      LexLeAntisymmetric(a[1..], b[1..]);
      assert a == [a[0]] + a[1..] && b == [b[0]] + b[1..];
    }
  }

  predicate IsDigit(c: char) {
    '0' <= c <= '9'
  }

  predicate AllDigits(s: string) {
    forall i :: 0 <= i < |s| ==> IsDigit(s[i])
  }

  function DigitChar(d: int): (c: char)
    requires 0 <= d < 10
    ensures IsDigit(c) && DigitValue(c) == d
  {
    (('0' as int) + d) as char
  }

  function DigitValue(c: char): (d: int)
    requires IsDigit(c)
    ensures 0 <= d < 10
  {
    c as int - '0' as int
  }

  /** Decimal digits of `n`, most significant first, without leading zeros. */
  function NatToString(n: nat): (s: string)
    ensures s != [] && AllDigits(s)
    ensures |s| > 1 ==> s[0] != '0'
    decreases n
  {
    (if n < 10 then "" else NatToString(n / 10)) + [DigitChar(n % 10)]
  }

  /** The number a string of decimal digits denotes. */
  function ParseDigits(s: string): nat
    requires AllDigits(s)
  {
    if s == [] then 0 else ParseDigits(s[..|s| - 1]) * 10 + DigitValue(s[|s| - 1])
  }

  lemma {:induction false} NatToStringRoundTrip(n: nat)
    ensures ParseDigits(NatToString(n)) == n
    decreases n
  {
    var s := NatToString(n);
    assert s[..|s| - 1] == if n < 10 then "" else NatToString(n / 10);
    if n >= 10 {
      NatToStringRoundTrip(n / 10);
    }
  }

  /** Python's `str(i)` for an integer. */
  function IntToString(i: int): (s: string)
    ensures s != []
  {
    if i < 0 then "-" + NatToString(-i) else NatToString(i)
  }

  /** Position of the first '-' in `s`, or `|s|` when there is none. */
  function IndexOfDash(s: string): (k: nat)
    ensures k <= |s|
    ensures k < |s| ==> s[k] == '-'
    ensures forall i :: 0 <= i < k ==> s[i] != '-'
  {
    if s == [] then 0 else if s[0] == '-' then 0 else 1 + IndexOfDash(s[1..])
  }

  /**
   * Reads back a score "<for>-<against>" written with non-negative goals:
   * both sides must be non-empty runs of digits.
   */
  predicate IsScoreText(s: string) {
    var k := IndexOfDash(s);
    k < |s| && AllDigits(s[..k]) && AllDigits(s[k + 1..])
  }

  function ParseScore(s: string): (r: (nat, nat))
    requires IsScoreText(s)
  {
    var k := IndexOfDash(s);
    (ParseDigits(s[..k]), ParseDigits(s[k + 1..]))
  }

  /** The "<goals_for>-<goals_against>" score text of a match summary. */
  function ScoreString(goalsFor: int, goalsAgainst: int): (s: string)
    ensures |s| >= 3
  {
    IntToString(goalsFor) + "-" + IntToString(goalsAgainst)
  }

  /** For non-negative goals the score text determines both numbers. */
  lemma ScoreStringRoundTrip(goalsFor: nat, goalsAgainst: nat)
    ensures var s := ScoreString(goalsFor, goalsAgainst);
            var k := IndexOfDash(s);
            && k == |IntToString(goalsFor)|
            && IsScoreText(s)
            && ParseScore(s) == (goalsFor, goalsAgainst)
  {
    var a, b := NatToString(goalsFor), NatToString(goalsAgainst);
    var s := a + "-" + b;
    assert IntToString(goalsFor) == a && IntToString(goalsAgainst) == b;
    assert ScoreString(goalsFor, goalsAgainst) == s;
    assert s == a + ("-" + b);
    DashAfterDigits(a, "-" + b);
    var k := IndexOfDash(s);
    assert k == |a|;
    assert s[..k] == a;
    assert s[k + 1..] == b;
    NatToStringRoundTrip(goalsFor);
    NatToStringRoundTrip(goalsAgainst);
  }

  lemma {:induction false} DashAfterDigits(a: string, rest: string)
    requires AllDigits(a) && rest != [] && rest[0] == '-'
    ensures IndexOfDash(a + rest) == |a|
  {
    if a != [] {
      assert (a + rest)[1..] == a[1..] + rest;
      DashAfterDigits(a[1..], rest);
    }
  }
}

/**
 * The aggregate operators both back ends apply to a window of matches:
 * conditional counts (`filter(...).length`, `SUM(CASE ... THEN 1 ELSE 0)`,
 * `len(df[...])`), column sums and means, and `Math.round(x * 10) / 10`.
 */
module Aggregates {
  import opened Types

  import opened Text

  /** A row condition that is counted or filtered on. */
  datatype RowTest =
    | ResultIs(code: string)          // result = 'W' / 'D' / 'L'
    | KnownResult                     // result in ('W', 'D', 'L')
    | CleanSheet                      // goals_against = 0
    | InCompetition(name: string)     // competition = ?
    | DatedFrom(cutoff: string)       // date >= cutoff

  predicate Holds(t: RowTest, m: Match) {
    match t
    case ResultIs(code) => m.result == code
    case KnownResult => IsKnownResult(m.result)
    case CleanSheet => m.goalsAgainst == 0
    case InCompetition(name) => m.competition == name
    case DatedFrom(cutoff) => LexLe(cutoff, m.date)
  }

  /** SQL `WHERE`: the rows satisfying `t`, in their original order. */
  function Filter(rows: seq<Match>, t: RowTest): seq<Match> {
    if rows == [] then [] else Keep(t, rows[0]) + Filter(rows[1..], t)
  }

  /** The one-row filter: `[m]` when `m` passes `t`, otherwise nothing. */
  function Keep(t: RowTest, m: Match): seq<Match> {
    if Holds(t, m) then [m] else []
  }

  /** The filter keeps every row satisfying `t`, as often as it occurs, and no other row. */
  lemma {:induction false} FilterMultiset(rows: seq<Match>, t: RowTest)
    ensures forall m :: multiset(Filter(rows, t))[m] == if Holds(t, m) then multiset(rows)[m] else 0
  {
    if rows != [] {
      var rest := rows[1..];
      FilterMultiset(rest, t);
      assert rows == [rows[0]] + rest;
      assert multiset(Filter(rows, t)) == multiset(Keep(t, rows[0])) + multiset(Filter(rest, t));
      assert multiset(rows) == multiset{rows[0]} + multiset(rest);
      forall m ensures multiset(Filter(rows, t))[m] == if Holds(t, m) then multiset(rows)[m] else 0 {
      }
    }
  }

  /** The filter's length is the count of rows satisfying `t`. */
  lemma {:induction false} FilterCount(rows: seq<Match>, t: RowTest)
    ensures |Filter(rows, t)| == CountWhere(rows, t)
  {
    if rows != [] {
      FilterCount(rows[1..], t);
    }
  }

  /** Number of rows satisfying `t`. */
  function CountWhere(rows: seq<Match>, t: RowTest): (n: nat)
    ensures n <= |rows|
    ensures n == 0 <==> forall i :: 0 <= i < |rows| ==> !Holds(t, rows[i])
    ensures n == |rows| <==> forall i :: 0 <= i < |rows| ==> Holds(t, rows[i])
  {
    if rows == [] then 0
    else
      var rest := CountWhere(rows[1..], t);
      assert forall i :: 1 <= i < |rows| ==> rows[i] == rows[1..][i - 1];
      (if Holds(t, rows[0]) then 1 else 0) + rest
  }

  lemma {:induction false} FilterAppend(a: seq<Match>, b: seq<Match>, t: RowTest)
    ensures Filter(a + b, t) == Filter(a, t) + Filter(b, t)
  {
    if a == [] {
      assert a + b == b;
    } else {
      var ab := a + b;
      assert ab != [] && ab[0] == a[0] && ab[1..] == a[1..] + b;
      FilterAppend(a[1..], b, t);
      var k := Keep(t, a[0]);
      calc {
        Filter(ab, t);
        k + Filter(a[1..] + b, t);
        k + (Filter(a[1..], t) + Filter(b, t));
        (k + Filter(a[1..], t)) + Filter(b, t);
        Filter(a, t) + Filter(b, t);
      }
    }
  }

  /** A count does not depend on the order of the rows. */
  lemma CountWherePermutation(a: seq<Match>, b: seq<Match>, t: RowTest)
    requires multiset(a) == multiset(b)
    ensures CountWhere(a, t) == CountWhere(b, t)
  {
    var fa, fb := Filter(a, t), Filter(b, t);
    FilterMultiset(a, t);
    FilterMultiset(b, t);
    FilterCount(a, t);
    FilterCount(b, t);
    assert multiset(fa) == multiset(fb) by {
      forall m ensures multiset(fa)[m] == multiset(fb)[m] {}
    }
    assert |fa| == |multiset(fa)| == |multiset(fb)| == |fb|;
  }

  lemma {:induction false} CountWhereAppend(a: seq<Match>, b: seq<Match>, t: RowTest)
    ensures CountWhere(a + b, t) == CountWhere(a, t) + CountWhere(b, t)
  {
    if a != [] {
      assert (a + b)[1..] == a[1..] + b;
      CountWhereAppend(a[1..], b, t);
    } else {
      assert a + b == b;
    }
  }

  function Wins(rows: seq<Match>): nat { CountWhere(rows, ResultIs(Win)) }
  function Draws(rows: seq<Match>): nat { CountWhere(rows, ResultIs(Draw)) }
  function Losses(rows: seq<Match>): nat { CountWhere(rows, ResultIs(Loss)) }

  /**
   * The exact-match W/D/L counts never exceed the number of rows, and they add
   * up to it exactly when every row holds one of the three codes.
   */
  lemma {:induction false} ResultCountsPartition(rows: seq<Match>)
    ensures Wins(rows) + Draws(rows) + Losses(rows) <= |rows|
    ensures Wins(rows) + Draws(rows) + Losses(rows) == |rows|
            <==> forall i :: 0 <= i < |rows| ==> IsKnownResult(rows[i].result)
  {
    ResultCountsAreKnown(rows);
    assert forall i :: 0 <= i < |rows| ==> (Holds(KnownResult, rows[i]) <==> IsKnownResult(rows[i].result));
  }

  /** The three counts together count the rows holding one of the three codes. */
  lemma {:induction false} ResultCountsAreKnown(rows: seq<Match>)
    ensures Wins(rows) + Draws(rows) + Losses(rows) == CountWhere(rows, KnownResult)
  {
    if rows != [] {
      ResultCountsAreKnown(rows[1..]);
    }
  }

  /** Integer columns that are summed. */
  datatype IntColumn = GoalsFor | GoalsAgainst | Shots | ShotsOnTarget

  function IntField(m: Match, c: IntColumn): int {
    match c
    case GoalsFor => m.goalsFor
    case GoalsAgainst => m.goalsAgainst
    case Shots => m.shots
    case ShotsOnTarget => m.shotsOnTarget
  }

  function SumInt(rows: seq<Match>, c: IntColumn): int {
    if rows == [] then 0 else IntField(rows[0], c) + SumInt(rows[1..], c)
  }

  lemma {:induction false} SumIntAppend(a: seq<Match>, b: seq<Match>, c: IntColumn)
    ensures SumInt(a + b, c) == SumInt(a, c) + SumInt(b, c)
  {
    if a != [] {
      assert (a + b)[1..] == a[1..] + b;
      SumIntAppend(a[1..], b, c);
    } else {
      assert a + b == b;
    }
  }

  /** A sum does not depend on the order of the rows it runs over. */
  lemma {:induction false} SumIntPermutation(a: seq<Match>, b: seq<Match>, c: IntColumn)
    requires multiset(a) == multiset(b)
    ensures SumInt(a, c) == SumInt(b, c)
    decreases |a|
  {
    if a == [] {
      assert |b| == |multiset(b)| == 0;
    } else {
      var x := a[0];
      assert x in multiset(a) by { assert a == [x] + a[1..]; }
      var i :| 0 <= i < |b| && b[i] == x;
      var rest := RemoveAt(b, i);
      SumIntRemoveAt(b, i, c);
      RemoveMatchingHead(a, b, i);
      SumIntPermutation(a[1..], rest, c);
    }
  }

  /** `s` without its `i`-th element. */
  function RemoveAt(s: seq<Match>, i: nat): (r: seq<Match>)
    requires i < |s|
    ensures |r| == |s| - 1
    ensures multiset(s) == multiset(r) + multiset{s[i]}
  {
    assert s == s[..i] + [s[i]] + s[i + 1..];
    s[..i] + s[i + 1..]
  }

  /** Taking the same row out of two permutations leaves two permutations. */
  lemma RemoveMatchingHead(a: seq<Match>, b: seq<Match>, i: nat)
    requires multiset(a) == multiset(b) && a != [] && i < |b| && b[i] == a[0]
    ensures multiset(a[1..]) == multiset(RemoveAt(b, i))
  {
    var x, rest := a[0], RemoveAt(b, i);
    assert a == [x] + a[1..];
    assert multiset(a) == multiset{x} + multiset(a[1..]);
    forall y ensures multiset(a[1..])[y] == multiset(rest)[y] {
      assert multiset(a)[y] == multiset{x}[y] + multiset(a[1..])[y];
      assert multiset(b)[y] == multiset(rest)[y] + multiset{x}[y];
    }
  }

  lemma SumIntRemoveAt(s: seq<Match>, i: nat, c: IntColumn)
    requires i < |s|
    ensures SumInt(s, c) == IntField(s[i], c) + SumInt(RemoveAt(s, i), c)
  {
    assert s == s[..i] + ([s[i]] + s[i + 1..]);
    SumIntAppend(s[..i], [s[i]] + s[i + 1..], c);
    SumIntAppend(s[..i], s[i + 1..], c);
  }

  /** Integer columns are bounded column-wise, so are their sums. */
  lemma {:induction false} SumIntMonotone(rows: seq<Match>, lo: IntColumn, hi: IntColumn)
    requires forall i :: 0 <= i < |rows| ==> IntField(rows[i], lo) <= IntField(rows[i], hi)
    ensures SumInt(rows, lo) <= SumInt(rows, hi)
  {
    if rows != [] {
      assert forall i :: 1 <= i < |rows| ==> rows[i] == rows[1..][i - 1];
      SumIntMonotone(rows[1..], lo, hi);
    }
  }

  lemma {:induction false} SumIntNonNegative(rows: seq<Match>, c: IntColumn)
    requires forall i :: 0 <= i < |rows| ==> 0 <= IntField(rows[i], c)
    ensures 0 <= SumInt(rows, c)
  {
    if rows != [] {
      assert forall i :: 1 <= i < |rows| ==> rows[i] == rows[1..][i - 1];
      SumIntNonNegative(rows[1..], c);
    }
  }

  /** Real-valued columns that are averaged. */
  datatype RealColumn = Possession | Xg

  function RealField(m: Match, c: RealColumn): real {
    match c
    case Possession => m.possession
    case Xg => m.xg
  }

  function SumReal(rows: seq<Match>, c: RealColumn): real {
    if rows == [] then 0.0 else RealField(rows[0], c) + SumReal(rows[1..], c)
  }

  lemma {:induction false} SumRealAppend(a: seq<Match>, b: seq<Match>, c: RealColumn)
    ensures SumReal(a + b, c) == SumReal(a, c) + SumReal(b, c)
  {
    if a != [] {
      assert (a + b)[1..] == a[1..] + b;
      SumRealAppend(a[1..], b, c);
    } else {
      assert a + b == b;
    }
  }

  lemma {:induction false} SumRealPermutation(a: seq<Match>, b: seq<Match>, c: RealColumn)
    requires multiset(a) == multiset(b)
    ensures SumReal(a, c) == SumReal(b, c)
    decreases |a|
  {
    if a == [] {
      assert |b| == |multiset(b)| == 0;
    } else {
      var x := a[0];
      assert x in multiset(a) by { assert a == [x] + a[1..]; }
      var i :| 0 <= i < |b| && b[i] == x;
      var rest := RemoveAt(b, i);
      SumRealRemoveAt(b, i, c);
      RemoveMatchingHead(a, b, i);
      SumRealPermutation(a[1..], rest, c);
    }
  }

  lemma SumRealRemoveAt(s: seq<Match>, i: nat, c: RealColumn)
    requires i < |s|
    ensures SumReal(s, c) == RealField(s[i], c) + SumReal(RemoveAt(s, i), c)
  {
    assert s == s[..i] + ([s[i]] + s[i + 1..]);
    SumRealAppend(s[..i], [s[i]] + s[i + 1..], c);
    SumRealAppend(s[..i], s[i + 1..], c);
  }

  lemma {:induction false} SumRealBounds(rows: seq<Match>, c: RealColumn, lo: real, hi: real)
    requires forall i :: 0 <= i < |rows| ==> lo <= RealField(rows[i], c) <= hi
    ensures lo * |rows| as real <= SumReal(rows, c) <= hi * |rows| as real
  {
    if rows != [] {
      var t := rows[1..];
      assert forall i :: 0 <= i < |t| ==> t[i] == rows[i + 1];
      SumRealBounds(t, c, lo, hi);
      var n := |t| as real;
      assert |rows| as real == n + 1.0;
      assert lo * (n + 1.0) == lo * n + lo && hi * (n + 1.0) == hi * n + hi;
      assert lo <= RealField(rows[0], c) <= hi;
    }
  }

  /** The arithmetic mean of a column (SQL `AVG`, pandas `mean`). */
  function Mean(rows: seq<Match>, c: RealColumn): real
    requires rows != []
  {
    SumReal(rows, c) / |rows| as real
  }

  /** The mean lies between any bounds every value lies between. */
  lemma MeanWithin(rows: seq<Match>, c: RealColumn, lo: real, hi: real)
    requires rows != []
    requires forall i :: 0 <= i < |rows| ==> lo <= RealField(rows[i], c) <= hi
    ensures lo <= Mean(rows, c) <= hi
  {
    SumRealBounds(rows, c, lo, hi);
    var n := |rows| as real;
    assert lo * n <= SumReal(rows, c) <= hi * n;
    assert SumReal(rows, c) == Mean(rows, c) * n;
  }

  /** `Math.round(x * 10) / 10`, with `Math.round(y)` = floor(y + 0.5). */
  function RoundToTenth(x: real): (r: real)
    ensures x - 0.05 < r <= x + 0.05
    ensures (r * 10.0).Floor as real == r * 10.0
    ensures 0.0 <= x <= 100.0 ==> 0.0 <= r <= 100.0
  {
    var k := (x * 10.0 + 0.5).Floor;
    assert k as real <= x * 10.0 + 0.5 < k as real + 1.0;
    assert 0.0 <= x <= 100.0 ==> 0 <= k <= 1000;
    var r := k as real / 10.0;
    assert r * 10.0 == k as real;
    assert (k as real).Floor == k;
    r
  }

  /** `part / whole * 100`, the win percentage of a non-empty window. */
  function Percentage(part: nat, whole: nat): (p: real)
    requires 0 < whole && part <= whole
    ensures 0.0 <= p <= 100.0
    ensures p * whole as real == 100.0 * part as real
    ensures p == 0.0 <==> part == 0
    ensures p == 100.0 <==> part == whole
  {
    var f := Fraction(part, whole);
    assert f * 100.0 * whole as real == 100.0 * (f * whole as real);
    f * 100.0
  }

  /** `part / whole`, the mean of a 0/1 indicator column over a non-empty window. */
  function Fraction(part: nat, whole: nat): (f: real)
    requires 0 < whole && part <= whole
    ensures 0.0 <= f <= 1.0
    ensures f * whole as real == part as real
    ensures f == 0.0 <==> part == 0
    ensures f == 1.0 <==> part == whole
  {
    var f := part as real / whole as real;
    if f == 1.0 then
      assert whole as real == part as real;
      f
    else
      f
  }

  /** `(rows['result'] == 'W').mean()` over a non-empty window. */
  function WinRate(rows: seq<Match>): (f: real)
    requires rows != []
    ensures 0.0 <= f <= 1.0
    ensures f * |rows| as real == Wins(rows) as real
    ensures f == 1.0 <==> forall i :: 0 <= i < |rows| ==> rows[i].result == Win
    ensures f == 0.0 <==> forall i :: 0 <= i < |rows| ==> rows[i].result != Win
  {
    Fraction(Wins(rows), |rows|)
  }
}

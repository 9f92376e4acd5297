/**
 * Ordering rows by their "YYYY-MM-DD" date text: SQL `ORDER BY date DESC`,
 * SQL `LIMIT`, and pandas `sort_values('date')`. Neither SQLite nor pandas'
 * default sort fixes the order of rows that share a date, so every contract
 * here speaks only of sortedness and of the multiset of rows; the insertion
 * sort below is one admissible order among those.
 */
module DateOrder {
  import opened Text
  import opened Types

  /** Newest first: no row is dated after a row before it. */
  predicate DateDesc(rows: seq<Match>) {
    forall i, j :: 0 <= i < j < |rows| ==> LexLe(rows[j].date, rows[i].date)
  }

  /** Oldest first. */
  predicate DateAsc(rows: seq<Match>) {
    forall i, j :: 0 <= i < j < |rows| ==> LexLe(rows[i].date, rows[j].date)
  }

  lemma ConsDesc(h: Match, t: seq<Match>)
    requires DateDesc(t)
    requires forall k :: 0 <= k < |t| ==> LexLe(t[k].date, h.date)
    ensures DateDesc([h] + t)
  {
    var r := [h] + t;
    forall i, j | 0 <= i < j < |r| ensures LexLe(r[j].date, r[i].date) {
      if i > 0 {
        assert r[i] == t[i - 1] && r[j] == t[j - 1];
      }
    }
  }

  /** Every row of a newest-first `t` is no newer than a row at least as new as its head. */
  lemma BelowHead(m: Match, t: seq<Match>)
    requires DateDesc(t) && (t == [] || LexLe(t[0].date, m.date))
    ensures forall k :: 0 <= k < |t| ==> LexLe(t[k].date, m.date)
  {
    forall k | 0 <= k < |t| ensures LexLe(t[k].date, m.date) {
      if k == 0 {
      } else {
        LexLeTransitive(t[k].date, t[0].date, m.date);
      }
    }
  }

  /** Every row of `r`, which holds the tail of `t` and `m`, is no newer than the head of `t`. */
  lemma BelowSkippedHead(m: Match, t: seq<Match>, r: seq<Match>)
    requires DateDesc(t) && t != [] && !LexLe(t[0].date, m.date)
    requires multiset(r) == multiset(t[1..]) + multiset{m}
    ensures forall k :: 0 <= k < |r| ==> LexLe(r[k].date, t[0].date)
  {
    LexLeTotal(t[0].date, m.date);
    forall k | 0 <= k < |r| ensures LexLe(r[k].date, t[0].date) {
      assert r[k] in multiset(r);
      if r[k] != m {
        assert r[k] in multiset(t[1..]);
        var j :| 0 <= j < |t[1..]| && t[1..][j] == r[k];
        assert t[j + 1] == r[k];
      }
    }
  }

  /** Places `m` in front of the first row not newer than it. */
  function InsertByDateDesc(m: Match, t: seq<Match>): (r: seq<Match>)
    requires DateDesc(t)
    ensures DateDesc(r)
    ensures multiset(r) == multiset(t) + multiset{m}
    ensures |r| == |t| + 1
    decreases |t|
  {
    if t == [] || LexLe(t[0].date, m.date) then
      BelowHead(m, t);
      ConsDesc(m, t);
      [m] + t
    else
      var rest := InsertByDateDesc(m, t[1..]);
      BelowSkippedHead(m, t, rest);
      ConsDesc(t[0], rest);
      assert t == [t[0]] + t[1..];
      [t[0]] + rest
  }

  /** `ORDER BY date DESC`: a newest-first permutation of `rows`. */
  function SortByDateDesc(rows: seq<Match>): (r: seq<Match>)
    ensures DateDesc(r)
    ensures multiset(r) == multiset(rows)
    ensures |r| == |rows|
  {
    if rows == [] then []
    else
      assert rows == [rows[0]] + rows[1..];
      InsertByDateDesc(rows[0], SortByDateDesc(rows[1..]))
  }

  /** SQL `LIMIT n`: the first `n` rows; SQLite reads a negative limit as "no limit". */
  function Limit(rows: seq<Match>, n: int): (r: seq<Match>)
    ensures |r| == if 0 <= n <= |rows| then n else |rows|
    ensures r == rows[..|r|]
  {
    if 0 <= n <= |rows| then rows[..n] else rows
  }

  /**
   * A prefix of a newest-first sequence holds its newest rows: any row left
   * out is no newer than any row kept.
   */
  lemma PrefixIsNewest(t: seq<Match>, k: nat)
    requires DateDesc(t) && k <= |t|
    ensures DateDesc(t[..k])
    ensures multiset(t[..k]) <= multiset(t)
    ensures forall x, y :: x in t[..k] && y in multiset(t) - multiset(t[..k]) ==> LexLe(y.date, x.date)
  {
    assert forall i :: 0 <= i < k ==> t[..k][i] == t[i];
    SplitMultiset(t, k);
    PrefixBeforeSuffix(t, k);
  }

  /** Cutting a sequence at `k` splits its multiset in two. */
  lemma SplitMultiset(t: seq<Match>, k: nat)
    requires k <= |t|
    ensures multiset(t) - multiset(t[..k]) == multiset(t[k..])
    ensures multiset(t[..k]) <= multiset(t)
  {
    assert t == t[..k] + t[k..];
  }

  /** On a newest-first sequence every row after `k` is no newer than any row before it. */
  lemma PrefixBeforeSuffix(t: seq<Match>, k: nat)
    requires DateDesc(t) && k <= |t|
    ensures forall x, y :: x in t[..k] && y in t[k..] ==> LexLe(y.date, x.date)
  {
    forall x, y | x in t[..k] && y in t[k..] ensures LexLe(y.date, x.date) {
      var i :| 0 <= i < k && t[..k][i] == x;
      var j :| 0 <= j < |t| - k && t[k..][j] == y;
      assert t[i] == x && t[k + j] == y;
    }
  }

  /** The rows in reverse order. */
  function Reverse(s: seq<Match>): (r: seq<Match>)
    ensures |r| == |s|
    ensures forall i :: 0 <= i < |s| ==> r[i] == s[|s| - 1 - i]
    ensures multiset(r) == multiset(s)
  {
    if s == [] then []
    else
      assert s == [s[0]] + s[1..];
      Reverse(s[1..]) + [s[0]]
  }

  lemma ReverseOfDescIsAsc(d: seq<Match>)
    requires DateDesc(d)
    ensures DateAsc(Reverse(d))
  {
    var r := Reverse(d);
    forall i, j | 0 <= i < j < |r| ensures LexLe(r[i].date, r[j].date) {
      assert r[i] == d[|d| - 1 - i] && r[j] == d[|d| - 1 - j];
    }
  }

  /** `sort_values('date')`: an oldest-first permutation of `rows`. */
  function SortByDateAsc(rows: seq<Match>): (r: seq<Match>)
    ensures DateAsc(r)
    ensures multiset(r) == multiset(rows)
    ensures |r| == |rows|
  {
    ReverseOfDescIsAsc(SortByDateDesc(rows));
    Reverse(SortByDateDesc(rows))
  }
}

/**
 * `SELECT DISTINCT competition, COUNT(*) AS matches FROM matches
 *  GROUP BY competition ORDER BY matches DESC`: a histogram of the
 * competition column, most frequent first. The grouping is built by one
 * pass over the rows; the order among competitions with equal counts is
 * left open by SQL and is not part of any contract below.
 */
module Competitions {
  import opened Types
  import opened Aggregates

  /** No competition is listed twice. */
  predicate NamesDistinct(h: seq<Competition>) {
    forall i, j :: 0 <= i < j < |h| ==> h[i].name != h[j].name
  }

  /** Every listed competition has at least one match. */
  predicate Positive(h: seq<Competition>) {
    forall i :: 0 <= i < |h| ==> h[i].matches > 0
  }

  predicate HasName(h: seq<Competition>, name: string) {
    exists i :: 0 <= i < |h| && h[i].name == name
  }

  /** Reordering a list keeps the names it holds. */
  lemma HasNameKept(a: seq<Competition>, b: seq<Competition>, name: string)
    requires multiset(a) == multiset(b)
    ensures HasName(a, name) ==> HasName(b, name)
  {
    if HasName(a, name) {
      var j :| 0 <= j < |a| && a[j].name == name;
      assert a[j] in multiset(b);
      assert a[j] in b;
    }
  }

  /** Counts never increase along the list. */
  predicate CountsDesc(h: seq<Competition>) {
    forall i, j :: 0 <= i < j < |h| ==> h[j].matches <= h[i].matches
  }

  /** The count listed for `name` (the first entry with that name), or 0. */
  function CountOf(h: seq<Competition>, name: string): nat {
    if h == [] then 0 else if h[0].name == name then h[0].matches else CountOf(h[1..], name)
  }

  /** The sum of the listed counts. */
  function Total(h: seq<Competition>): nat {
    if h == [] then 0 else h[0].matches + Total(h[1..])
  }

  lemma {:induction false} CountOfEntry(h: seq<Competition>, i: nat)
    requires NamesDistinct(h) && i < |h|
    ensures CountOf(h, h[i].name) == h[i].matches
  {
    if i > 0 {
      assert h[1..][i - 1] == h[i];
      CountOfEntry(h[1..], i - 1);
    }
  }

  lemma {:induction false} CountOfPositive(h: seq<Competition>, name: string)
    requires Positive(h)
    ensures CountOf(h, name) > 0 <==> HasName(h, name)
  {
    if h != [] && h[0].name != name {
      CountOfPositive(h[1..], name);
      if HasName(h, name) {
        var i :| 0 <= i < |h| && h[i].name == name;
        assert h[1..][i - 1].name == name;
      }
      if HasName(h[1..], name) {
        var i :| 0 <= i < |h[1..]| && h[1..][i].name == name;
        assert h[i + 1].name == name;
      }
    }
  }

  /** Every name of the tail is a name of the list. */
  lemma HasNameTail(h: seq<Competition>)
    requires h != []
    ensures forall x :: HasName(h[1..], x) ==> HasName(h, x)
  {
    forall x | HasName(h[1..], x) ensures HasName(h, x) {
      var j :| 0 <= j < |h[1..]| && h[1..][j].name == x;
      assert h[j + 1].name == x;
    }
  }

  /** The tail of a list with distinct positive entries keeps both, and lacks the head's name. */
  lemma TailOfDistinct(h: seq<Competition>)
    requires h != [] && NamesDistinct(h) && Positive(h)
    ensures NamesDistinct(h[1..]) && Positive(h[1..])
    ensures forall k :: 0 <= k < |h[1..]| ==> h[1..][k].name != h[0].name
  {
    assert forall k :: 0 <= k < |h[1..]| ==> h[1..][k] == h[k + 1];
  }

  /** Counts one more match of competition `c`. */
  function Bump(h: seq<Competition>, c: string): (r: seq<Competition>)
    requires NamesDistinct(h) && Positive(h)
    ensures NamesDistinct(r) && Positive(r)
    ensures forall x :: CountOf(r, x) == CountOf(h, x) + (if x == c then 1 else 0)
    ensures forall i :: 0 <= i < |r| ==> r[i].name == c || HasName(h, r[i].name)
    ensures Total(r) == Total(h) + 1
  {
    if h == [] then [Competition(c, 1)]
    else if h[0].name == c then
      var r := [Competition(c, h[0].matches + 1)] + h[1..];
      assert r[1..] == h[1..];
      assert forall i :: 1 <= i < |r| ==> r[i] == h[i];
      r
    else
      var t := h[1..];
      TailOfDistinct(h);
      HasNameTail(h);
      var rest := Bump(t, c);
      assert forall i :: 0 <= i < |rest| ==> rest[i].name != h[0].name;
      ConsNamesDistinct(h[0], rest);
      var r := [h[0]] + rest;
      assert r[1..] == rest;
      assert forall i :: 0 <= i < |rest| ==> r[i + 1] == rest[i];
      r
  }

  /** The group-by pass: one entry per distinct competition with its count. */
  function Tally(rows: seq<Match>): (h: seq<Competition>)
    ensures NamesDistinct(h) && Positive(h)
    ensures forall x :: CountOf(h, x) == CountWhere(rows, InCompetition(x))
    ensures Total(h) == |rows|
  {
    if rows == [] then []
    else
      assert rows == [rows[0]] + rows[1..];
      assert forall x :: CountWhere(rows, InCompetition(x))
                         == (if rows[0].competition == x then 1 else 0) + CountWhere(rows[1..], InCompetition(x));
      Bump(Tally(rows[1..]), rows[0].competition)
  }

  lemma ConsCountsDesc(h: Competition, t: seq<Competition>)
    requires CountsDesc(t)
    requires forall k :: 0 <= k < |t| ==> t[k].matches <= h.matches
    ensures CountsDesc([h] + t)
  {
    var r := [h] + t;
    forall i, j | 0 <= i < j < |r| ensures r[j].matches <= r[i].matches {
      if i > 0 {
        assert r[i] == t[i - 1] && r[j] == t[j - 1];
      }
    }
  }

  lemma ConsNamesDistinct(h: Competition, t: seq<Competition>)
    ensures NamesDistinct(t) && (forall k :: 0 <= k < |t| ==> t[k].name != h.name)
            ==> NamesDistinct([h] + t)
  {
    var r := [h] + t;
    if NamesDistinct(t) && (forall k :: 0 <= k < |t| ==> t[k].name != h.name) {
      forall i, j | 0 <= i < j < |r| ensures r[i].name != r[j].name {
        assert r[j] == t[j - 1];
        if i > 0 {
          assert r[i] == t[i - 1];
        }
      }
    }
  }

  /** The rows `InsertByCount(e, t[1..])` returns all sit below the head of `t`. */
  lemma BelowSkippedHead(e: Competition, t: seq<Competition>, rest: seq<Competition>)
    requires CountsDesc(t) && t != [] && e.matches < t[0].matches
    requires multiset(rest) == multiset(t[1..]) + multiset{e}
    ensures forall k :: 0 <= k < |rest| ==> rest[k].matches <= t[0].matches
    ensures NamesDistinct(t) && (forall k :: 0 <= k < |t| ==> t[k].name != e.name)
            ==> forall k :: 0 <= k < |rest| ==> rest[k].name != t[0].name
  {
    forall k | 0 <= k < |rest|
      ensures rest[k].matches <= t[0].matches
      ensures NamesDistinct(t) && (forall k :: 0 <= k < |t| ==> t[k].name != e.name)
              ==> rest[k].name != t[0].name
    {
      assert rest[k] in multiset(rest);
      if rest[k] != e {
        assert rest[k] in multiset(t[1..]);
        var j :| 0 <= j < |t[1..]| && t[1..][j] == rest[k];
        assert t[j + 1] == rest[k];
      }
    }
  }

  /** Places `e` in front of the first entry with no more matches than it. */
  function InsertByCount(e: Competition, t: seq<Competition>): (r: seq<Competition>)
    requires CountsDesc(t)
    ensures CountsDesc(r)
    ensures multiset(r) == multiset(t) + multiset{e}
    ensures |r| == |t| + 1
    decreases |t|
  {
    if t == [] || t[0].matches <= e.matches then
      ConsCountsDesc(e, t);
      [e] + t
    else
      TailCountsDesc(t);
      var rest := InsertByCount(e, t[1..]);
      BelowSkippedHead(e, t, rest);
      ConsCountsDesc(t[0], rest);
      assert t == [t[0]] + t[1..];
      assert multiset([t[0]] + rest) == multiset{t[0]} + multiset(rest);
      [t[0]] + rest
  }

  lemma TailCountsDesc(t: seq<Competition>)
    requires t != [] && CountsDesc(t)
    ensures CountsDesc(t[1..])
  {
    assert forall k :: 0 <= k < |t[1..]| ==> t[1..][k] == t[k + 1];
  }

  lemma {:induction false} InsertByCountTotal(e: Competition, t: seq<Competition>)
    requires CountsDesc(t)
    ensures Total(InsertByCount(e, t)) == Total(t) + e.matches
    decreases |t|
  {
    if !(t == [] || t[0].matches <= e.matches) {
      InsertByCountTotal(e, t[1..]);
      var r := InsertByCount(e, t);
      assert r[1..] == InsertByCount(e, t[1..]);
    } else {
      assert ([e] + t)[1..] == t;
    }
  }

  lemma {:induction false} InsertByCountDistinct(e: Competition, t: seq<Competition>)
    requires CountsDesc(t) && NamesDistinct(t)
    requires forall k :: 0 <= k < |t| ==> t[k].name != e.name
    ensures NamesDistinct(InsertByCount(e, t))
    decreases |t|
  {
    if t == [] || t[0].matches <= e.matches {
      ConsNamesDistinct(e, t);
    } else {
      var rest := InsertByCount(e, t[1..]);
      assert forall i, j :: 0 <= i < j < |t[1..]| ==> t[1..][i] == t[i + 1] && t[1..][j] == t[j + 1];
      InsertByCountDistinct(e, t[1..]);
      BelowSkippedHead(e, t, rest);
      ConsNamesDistinct(t[0], rest);
    }
  }

  /** `ORDER BY matches DESC`: a most-frequent-first permutation of `h`. */
  function SortByCount(h: seq<Competition>): (r: seq<Competition>)
    ensures CountsDesc(r)
    ensures multiset(r) == multiset(h)
    ensures |r| == |h|
  {
    if h == [] then []
    else
      assert h == [h[0]] + h[1..];
      InsertByCount(h[0], SortByCount(h[1..]))
  }

  /** Sorting keeps the total of the counts. */
  lemma {:induction false} SortByCountTotal(h: seq<Competition>)
    ensures Total(SortByCount(h)) == Total(h)
  {
    if h != [] {
      SortByCountTotal(h[1..]);
      InsertByCountTotal(h[0], SortByCount(h[1..]));
    }
  }

  /** Sorting keeps the names distinct. */
  lemma {:induction false} SortByCountDistinct(h: seq<Competition>)
    requires NamesDistinct(h)
    ensures NamesDistinct(SortByCount(h))
  {
    if h != [] {
      var t := h[1..];
      var rest := SortByCount(t);
      assert forall i, j :: 0 <= i < j < |t| ==> t[i] == h[i + 1] && t[j] == h[j + 1];
      SortByCountDistinct(t);
      assert forall j :: 0 <= j < |t| ==> t[j].name != h[0].name;
      HasNameKept(rest, t, h[0].name);
      assert forall k :: 0 <= k < |rest| ==> rest[k].name != h[0].name;
      InsertByCountDistinct(h[0], rest);
    }
  }
}

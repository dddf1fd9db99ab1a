/** Counting answers: the GROUP BY queries of activityResult. */
module Tallies {
  import opened Prelude

  /** count(*) GROUP BY value: values that do not occur have no row. */
  function Tally<T(==)>(values: seq<T>): map<T, nat> {
    if values == [] then map[]
    else
      var front, last := Tally(values[..|values| - 1]), values[|values| - 1];
      front[last := (if last in front then front[last] else 0) + 1]
  }

  lemma {:induction false} TallyCounts<T>(values: seq<T>)
    ensures forall x :: x in Tally(values) <==> x in values
    ensures forall x <- values :: x in Tally(values) && Tally(values)[x] == multiset(values)[x]
    decreases |values|
  {
    if values != [] {
      var n := |values| - 1;
      TallyCounts(values[..n]);
      assert values == values[..n] + [values[n]];
    }
  }

  datatype TermCount = TermCount(text: string, count: nat)

  /** Lexicographic by code point. */
  predicate Before(a: string, b: string) {
    if b == "" then false
    else if a == "" then true
    else a[0] < b[0] || (a[0] == b[0] && Before(a[1..], b[1..]))
  }

  /** ORDER BY count DESC, value. */
  predicate Outranks(a: TermCount, b: TermCount) {
    a.count > b.count || (a.count == b.count && Before(a.text, b.text))
  }

  function Insert(row: TermCount, rows: seq<TermCount>): seq<TermCount> {
    if rows == [] || Outranks(row, rows[0]) then [row] + rows else [rows[0]] + Insert(row, rows[1..])
  }

  /** Every different value once, with its count, best first. */
  function Ranked(values: seq<string>): seq<TermCount> {
    RankedUpTo(values, Tally(values))
  }

  function RankedUpTo(values: seq<string>, tally: map<string, nat>): seq<TermCount> {
    if values == [] then []
    else
      var n := |values| - 1;
      var front := RankedUpTo(values[..n], tally);
      if values[n] in values[..n] || values[n] !in tally then front else Insert(TermCount(values[n], tally[values[n]]), front)
  }

  const TERM_LIMIT: nat := 100

  function TopTerms(values: seq<string>): seq<TermCount> {
    var rows := Ranked(values);
    if |rows| <= TERM_LIMIT then rows else rows[..TERM_LIMIT]
  }

  // --- The order of the rows ------------------------------------------------------------

  /** a and b begin alike; then a ends, or has the smaller code point. */
  ghost predicate Alphabetical(a: string, b: string) {
    exists k :: PartAt(a, b, k)
  }

  ghost predicate PartAt(a: string, b: string, k: int) {
    0 <= k <= |a| && k < |b| && a[..k] == b[..k] && (k == |a| || a[k] < b[k])
  }

  lemma {:induction false} BeforeIs(a: string, b: string)
    ensures Before(a, b) <==> Alphabetical(a, b)
    decreases |a|
  {
    if b != "" && a == "" {
      assert PartAt(a, b, 0);
    } else if b != "" && a[0] == b[0] {
      BeforeIs(a[1..], b[1..]);
      OneFurther(a, b);
    } else if b != "" && a[0] < b[0] {
      assert PartAt(a, b, 0);
    }
  }

  lemma OneFurther(a: string, b: string)
    requires a != "" && b != "" && a[0] == b[0]
    ensures Alphabetical(a, b) <==> Alphabetical(a[1..], b[1..])
  {
    forall k: int ensures k >= 0 ==> (PartAt(a, b, k + 1) <==> PartAt(a[1..], b[1..], k)) {
      if 0 <= k && k < |a| && k < |b| {
        assert a[..k + 1] == [a[0]] + a[1..][..k] && b[..k + 1] == [b[0]] + b[1..][..k];
        assert a[1..][..k] == a[..k + 1][1..] && b[1..][..k] == b[..k + 1][1..];
      }
    }
    if Alphabetical(a, b) {
      var k :| PartAt(a, b, k);
      assert PartAt(a[1..], b[1..], k - 1);
    }
    if Alphabetical(a[1..], b[1..]) {
      var k :| PartAt(a[1..], b[1..], k);
      assert PartAt(a, b, k + 1);
    }
  }

  lemma {:induction false} BeforeDecides(a: string, b: string)
    ensures a != b ==> Before(a, b) || Before(b, a)
    decreases |a|
  {
    if a != "" && b != "" && a[0] == b[0] {
      BeforeDecides(a[1..], b[1..]);
      assert a == [a[0]] + a[1..] && b == [b[0]] + b[1..];
    }
  }

  lemma {:induction false} BeforeChains(a: string, b: string, c: string)
    ensures Before(a, b) && Before(b, c) ==> Before(a, c)
    decreases |a|
  {
    if a != "" && b != "" && c != "" {
      BeforeChains(a[1..], b[1..], c[1..]);
    }
  }

  lemma OutranksChains(a: TermCount, b: TermCount, c: TermCount)
    ensures Outranks(a, b) && Outranks(b, c) ==> Outranks(a, c)
  {
    BeforeChains(a.text, b.text, c.text);
  }

  ghost predicate InOrder(rows: seq<TermCount>) {
    forall i, j :: 0 <= i < j < |rows| ==> Outranks(rows[i], rows[j])
  }

  lemma {:induction false} InsertKeepsOrder(row: TermCount, rows: seq<TermCount>)
    requires InOrder(rows) && forall r <- rows :: r.text != row.text
    ensures InOrder(Insert(row, rows)) && multiset(Insert(row, rows)) == multiset(rows) + multiset{row}
    decreases |rows|
  {
    if rows == [] || Outranks(row, rows[0]) {
      forall j | 0 <= j < |rows| ensures Outranks(row, rows[j]) {
        OutranksChains(row, rows[0], rows[j]);
      }
      assert [row] + rows == Insert(row, rows);
    } else {
      var tail := Insert(row, rows[1..]);
      InsertKeepsOrder(row, rows[1..]);
      BeforeDecides(rows[0].text, row.text);
      assert rows == [rows[0]] + rows[1..];
      forall i | 0 <= i < |tail| ensures Outranks(rows[0], tail[i]) {
        assert tail[i] in multiset(tail);
        assert tail[i] in multiset(rows[1..]) || tail[i] == row;
      }
    }
  }

  lemma {:induction false} RankedRows(values: seq<string>, tally: map<string, nat>)
    requires forall x <- values :: x in tally
    ensures var rows := RankedUpTo(values, tally);
      && InOrder(rows)
      && (forall row :: multiset(rows)[row] == if row.text in values && row.count == tally[row.text] then 1 else 0)
    decreases |values|
  {
    if values != [] {
      var n := |values| - 1;
      var front := RankedUpTo(values[..n], tally);
      RankedRows(values[..n], tally);
      assert forall x :: x in values <==> x in values[..n] || x == values[n];
      if values[n] !in values[..n] {
        assert forall r <- front :: r in multiset(front) && r.text != values[n];
        InsertKeepsOrder(TermCount(values[n], tally[values[n]]), front);
      }
    }
  }

  /** Every different value has one row, with its true count. */
  lemma RankedIsComplete(values: seq<string>)
    ensures var rows := Ranked(values);
      && InOrder(rows)
      && (forall i, j :: 0 <= i < j < |rows| ==> rows[i].text != rows[j].text)
      && (forall row <- rows :: row.text in values && row.count == multiset(values)[row.text])
      && (forall t <- values :: TermCount(t, multiset(values)[t]) in rows)
  {
    TallyCounts(values);
    var rows := Ranked(values);
    RankedRows(values, Tally(values));
    forall row <- rows ensures row.text in values && row.count == multiset(values)[row.text] {
      assert row in multiset(rows);
    }
    forall t <- values ensures TermCount(t, multiset(values)[t]) in rows {
      assert TermCount(t, multiset(values)[t]) in multiset(rows);
    }
    forall i, j | 0 <= i < j < |rows| ensures rows[i].text != rows[j].text {
      OnceInMultiset(rows, i, j);
      assert rows[i] in rows && rows[j] in rows;
    }
  }

  /** Used more often, or as often and first in the alphabet. */
  ghost predicate Ahead(a: TermCount, b: TermCount) {
    a.count > b.count || (a.count == b.count && Alphabetical(a.text, b.text))
  }

  lemma OutranksIs(a: TermCount, b: TermCount)
    ensures Outranks(a, b) <==> Ahead(a, b)
  {
    BeforeIs(a.text, b.text);
  }

  /** The rows kept are true counts, each term once, most used first and in alphabetical order where used as often; only
      with a hundred of them is any term left off, and then it comes after all of them. */
  lemma TopTermsAreTop(values: seq<string>)
    ensures var top := TopTerms(values);
      && |top| <= 100
      && (forall row <- top :: row.text in values && row.count == multiset(values)[row.text])
      && (forall i, j :: 0 <= i < j < |top| ==> top[i].text != top[j].text && Ahead(top[i], top[j]))
      && (forall t <- values :: TermCount(t, multiset(values)[t]) in top || (|top| == 100 && AllAhead(top, TermCount(t, multiset(values)[t]))))
  {
    RankedIsComplete(values);
    var rows, top := Ranked(values), TopTerms(values);
    assert forall i :: 0 <= i < |top| ==> top[i] == rows[i];
    forall i, j | 0 <= i < j < |top| ensures Ahead(top[i], top[j]) {
      OutranksIs(rows[i], rows[j]);
    }
    forall t <- values | TermCount(t, multiset(values)[t]) !in top ensures |top| == 100 && AllAhead(top, TermCount(t, multiset(values)[t])) {
      LeftOff(rows, top, TermCount(t, multiset(values)[t]));
    }
  }

  ghost predicate AllAhead(rows: seq<TermCount>, row: TermCount) {
    forall r <- rows :: Ahead(r, row)
  }

  lemma LeftOff(rows: seq<TermCount>, top: seq<TermCount>, row: TermCount)
    requires InOrder(rows) && row in rows && row !in top && top == if |rows| <= TERM_LIMIT then rows else rows[..TERM_LIMIT]
    ensures |top| == TERM_LIMIT && AllAhead(top, row)
  {
    var k :| 0 <= k < |rows| && rows[k] == row;
    forall r <- top ensures Ahead(r, row) {
      var i :| 0 <= i < |top| && top[i] == r;
      assert rows[i] == r && |top| <= k;
      OutranksIs(rows[i], rows[k]);
    }
  }

  lemma OnceInMultiset<T>(rows: seq<T>, i: nat, j: nat)
    requires i < j < |rows| && multiset(rows)[rows[i]] <= 1
    ensures rows[i] != rows[j]
  {
    assert rows == rows[..i] + [rows[i]] + rows[i + 1..j] + [rows[j]] + rows[j + 1..];
  }
}

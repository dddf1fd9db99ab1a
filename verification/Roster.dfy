/** Keyset pages over a session's participants: the Roster query of live/postgres_store.go, the cursor
    live/service.go makes of a page, and the Ranking query of reports/postgres_store.go. */
module Roster {
  import opened Prelude

  datatype Entry = Entry(id: Uuid, joinedAt: int, score: int, name: string)

  datatype Order = ByJoin | ByScore

  /** What a next_cursor holds: the ordering columns of the last row of a page. */
  datatype Key = Key(score: int, joinedAt: int, id: Uuid)

  datatype Page = Page(items: seq<Entry>, hasMore: bool)

  function KeyOf(e: Entry): Key {
    Key(e.score, e.joinedAt, e.id)
  }

  /** (joined_at, id), or score descending before that. */
  predicate Precedes(order: Order, a: Key, b: Key) {
    if order == ByScore && a.score != b.score then a.score > b.score
    else a.joinedAt < b.joinedAt || (a.joinedAt == b.joinedAt && a.id < b.id)
  }

  // --- ORDER BY --------------------------------------------------------------------

  function Place(order: Order, e: Entry, rows: seq<Entry>): seq<Entry> {
    if rows == [] || Precedes(order, KeyOf(e), KeyOf(rows[0])) then [e] + rows
    else [rows[0]] + Place(order, e, rows[1..])
  }

  function Listing(order: Order, table: seq<Entry>): seq<Entry> {
    if table == [] then [] else Place(order, table[0], Listing(order, table[1..]))
  }

  ghost predicate Sorted(order: Order, rows: seq<Entry>) {
    forall i, j :: 0 <= i < j < |rows| ==> Precedes(order, KeyOf(rows[i]), KeyOf(rows[j]))
  }

  /** Rows of a table have different ids. */
  ghost predicate Table(table: seq<Entry>) {
    forall i, j :: 0 <= i < j < |table| ==> table[i].id != table[j].id
  }

  lemma {:induction false} PlaceSorts(order: Order, e: Entry, rows: seq<Entry>)
    requires Sorted(order, rows) && forall r <- rows :: r.id != e.id
    ensures Sorted(order, Place(order, e, rows))
    ensures multiset(Place(order, e, rows)) == multiset(rows) + multiset{e}
    decreases |rows|
  {
    if rows == [] || Precedes(order, KeyOf(e), KeyOf(rows[0])) {
      assert forall i :: 0 <= i < |rows| ==> Precedes(order, KeyOf(e), KeyOf(rows[i]));
    } else {
      var rest := Place(order, e, rows[1..]);
      PlaceSorts(order, e, rows[1..]);
      assert rows == [rows[0]] + rows[1..];
      PlacedAfter(order, e, rows, rest);
    }
  }

  lemma PlacedAfter(order: Order, e: Entry, rows: seq<Entry>, rest: seq<Entry>)
    requires rows != [] && Sorted(order, rows) && Precedes(order, KeyOf(rows[0]), KeyOf(e))
    requires multiset(rest) == multiset(rows[1..]) + multiset{e}
    ensures forall i :: 0 <= i < |rest| ==> Precedes(order, KeyOf(rows[0]), KeyOf(rest[i]))
  {
    forall i | 0 <= i < |rest| ensures Precedes(order, KeyOf(rows[0]), KeyOf(rest[i])) {
      assert rest[i] in multiset(rest);
      assert rest[i] in multiset(rows[1..]) || rest[i] == e;
      if rest[i] in rows[1..] {
        var j :| 1 <= j < |rows| && rows[j] == rest[i];
      }
    }
  }

  /** Who joined first comes first, the smaller id where two joined at once; by score, the higher score before that. */
  ghost predicate ComesFirst(order: Order, a: Entry, b: Entry) {
    match order
    case ByJoin => JoinedFirst(a, b)
    case ByScore => a.score >= b.score && (a.score == b.score ==> JoinedFirst(a, b))
  }

  ghost predicate JoinedFirst(a: Entry, b: Entry) {
    a.joinedAt <= b.joinedAt && (a.joinedAt == b.joinedAt ==> a.id < b.id)
  }

  /** The listing is the table, in the order of its columns. */
  lemma ListingSorts(order: Order, table: seq<Entry>)
    requires Table(table)
    ensures multiset(Listing(order, table)) == multiset(table) && Sorted(order, Listing(order, table))
    ensures var rows := Listing(order, table); forall i, j :: 0 <= i < j < |rows| ==> ComesFirst(order, rows[i], rows[j])
  {
    ListingIsSorted(order, table);
    var rows := Listing(order, table);
    forall i, j | 0 <= i < j < |rows| ensures ComesFirst(order, rows[i], rows[j]) {
      assert Precedes(order, KeyOf(rows[i]), KeyOf(rows[j]));
    }
  }

  lemma {:induction false} ListingIsSorted(order: Order, table: seq<Entry>)
    requires Table(table)
    ensures Sorted(order, Listing(order, table))
    ensures multiset(Listing(order, table)) == multiset(table)
    decreases |table|
  {
    if table != [] {
      var rest := table[1..];
      ListingIsSorted(order, rest);
      assert table == [table[0]] + rest;
      forall r <- Listing(order, rest) ensures r.id != table[0].id {
        assert r in multiset(rest);
      }
      PlaceSorts(order, table[0], Listing(order, rest));
    }
  }

  // --- One page ------------------------------------------------------------------------

  /** WHERE the row comes after the cursor. */
  function Past(order: Order, rows: seq<Entry>, cursor: Option<Key>): seq<Entry> {
    if cursor.None? || rows == [] then rows
    else if Precedes(order, cursor.value, KeyOf(rows[0])) then [rows[0]] + Past(order, rows[1..], cursor)
    else Past(order, rows[1..], cursor)
  }

  /** LIMIT limit + 1, and the extra row cut off again. */
  function Cut(rows: seq<Entry>, limit: nat): Page {
    if |rows| > limit then Page(rows[..limit], true) else Page(rows, false)
  }

  function GetPage(order: Order, table: seq<Entry>, cursor: Option<Key>, limit: nat): Page {
    Cut(Past(order, Listing(order, table), cursor), limit)
  }

  function NextCursor(page: Page): Option<Key> {
    if page.hasMore && page.items != [] then Some(KeyOf(page.items[|page.items| - 1])) else None
  }

  lemma {:induction false} PastAll(order: Order, rows: seq<Entry>, cursor: Key)
    requires forall i :: 0 <= i < |rows| ==> Precedes(order, cursor, KeyOf(rows[i]))
    ensures Past(order, rows, Some(cursor)) == rows
    decreases |rows|
  {
    if rows != [] {
      PastAll(order, rows[1..], cursor);
    }
  }

  /** In a sorted listing, the rows after the k-th are the rows past its key: ties in score included. */
  lemma {:induction false} PastKey(order: Order, rows: seq<Entry>, k: nat)
    requires Sorted(order, rows) && 0 < k <= |rows|
    ensures Past(order, rows, Some(KeyOf(rows[k - 1]))) == rows[k..]
    decreases |rows|
  {
    var key := KeyOf(rows[k - 1]);
    if k == 1 {
      PastAll(order, rows[1..], key);
    } else {
      PastKey(order, rows[1..], k - 1);
      assert rows[1..][k - 2] == rows[k - 1] && rows[1..][k - 1..] == rows[k..];
    }
  }

  lemma PrecedesChains(order: Order, a: Key, b: Key, c: Key)
    ensures Precedes(order, a, b) && Precedes(order, b, c) ==> Precedes(order, a, c)
  {
  }

  /** Whatever key a cursor holds, the rows past it are the rest of the listing from the first row it precedes. */
  lemma {:induction false} PastIsSuffix(order: Order, rows: seq<Entry>, cursor: Key) returns (k: nat)
    requires Sorted(order, rows)
    ensures k <= |rows| && Past(order, rows, Some(cursor)) == rows[k..]
    ensures forall i :: 0 <= i < |rows| ==> (Precedes(order, cursor, KeyOf(rows[i])) <==> k <= i)
    decreases |rows|
  {
    k := 0;
    if rows != [] {
      if Precedes(order, cursor, KeyOf(rows[0])) {
        forall i | 0 <= i < |rows| ensures Precedes(order, cursor, KeyOf(rows[i])) {
          PrecedesChains(order, cursor, KeyOf(rows[0]), KeyOf(rows[i]));
        }
        PastAll(order, rows[1..], cursor);
      } else {
        var j := PastIsSuffix(order, rows[1..], cursor);
        k := j + 1;
        assert rows[1..][j..] == rows[k..];
      }
    }
  }

  /** A page from any cursor whatever: the rows past it in listing order, at most limit of them, and whether there are more. */
  lemma PageFromAnyCursor(order: Order, table: seq<Entry>, cursor: Key, limit: nat) returns (k: nat)
    requires Table(table)
    ensures var rows, page := Listing(order, table), GetPage(order, table, Some(cursor), limit);
      && k + |page.items| <= |rows| && |page.items| <= limit
      && (forall i :: 0 <= i < |rows| ==> (Precedes(order, cursor, KeyOf(rows[i])) <==> k <= i))
      && page.items == rows[k..k + |page.items|]
      && (page.hasMore <==> k + |page.items| < |rows|)
  {
    ListingIsSorted(order, table);
    var rows := Listing(order, table);
    k := PastIsSuffix(order, rows, cursor);
    CutSuffix(rows, k, limit);
  }

  lemma CutSuffix(rows: seq<Entry>, k: nat, limit: nat)
    requires k <= |rows|
    ensures var page := Cut(rows[k..], limit);
      && k + |page.items| <= |rows| && |page.items| <= limit
      && page.items == rows[k..k + |page.items|]
      && (page.hasMore <==> k + |page.items| < |rows|)
  {
  }

  // --- Following the cursors ---------------------------------------------------------------

  /** A cursor that stands at position k of the listing: none at the start, the key of the row before after that. */
  ghost predicate At(order: Order, rows: seq<Entry>, cursor: Option<Key>, k: nat) {
    k <= |rows| && cursor == if k == 0 then None else Some(KeyOf(rows[k - 1]))
  }

  /** A page from position k is the next rows of the listing, says truly whether any are left, and hands on the
      cursor for what follows. */
  lemma PageFrom(order: Order, table: seq<Entry>, cursor: Option<Key>, limit: nat, k: nat)
    requires Table(table) && limit > 0 && At(order, Listing(order, table), cursor, k)
    ensures var rows, page := Listing(order, table), GetPage(order, table, cursor, limit);
      && |page.items| <= limit && k + |page.items| <= |rows|
      && page.items == rows[k..k + |page.items|]
      && (page.hasMore <==> k + |page.items| < |rows|)
      && (page.hasMore ==> page.items != [] && At(order, rows, NextCursor(page), k + |page.items|))
      && (!page.hasMore ==> NextCursor(page) == None)
  {
    var rows := Listing(order, table);
    ListingIsSorted(order, table);
    if k > 0 {
      PastKey(order, rows, k);
    }
    assert Past(order, rows, cursor) == rows[k..];
  }

  /** Loading page after page until there is no next cursor gives the whole listing, each row once, for any limit. */
  method Follow(order: Order, table: seq<Entry>, limit: nat) returns (all: seq<Entry>)
    requires Table(table) && limit > 0
    ensures all == Listing(order, table)
  {
    ghost var rows := Listing(order, table);
    var page := GetPage(order, table, None, limit);
    PageFrom(order, table, None, limit, 0);
    all := page.items;
    while page.hasMore
      invariant |all| <= |rows| && all == rows[..|all|]
      invariant page.hasMore <==> |all| < |rows|
      invariant page.hasMore ==> At(order, rows, NextCursor(page), |all|)
      decreases |rows| - |all|
    {
      var cursor := NextCursor(page);
      PageFrom(order, table, cursor, limit, |all|);
      page := GetPage(order, table, cursor, limit);
      NextRows(rows, all, page.items);
      all := all + page.items;
    }
  }

  lemma NextRows<T>(rows: seq<T>, all: seq<T>, items: seq<T>)
    requires all <= rows && |all| + |items| <= |rows| && items == rows[|all|..|all| + |items|]
    ensures all + items == rows[..|all| + |items|]
  {
  }

  // --- Ranks ----------------------------------------------------------------------------------

  /** RANK() OVER (ORDER BY score DESC): a row ranks where its block of equal scores begins. */
  function RankAt(rows: seq<Entry>, i: nat): nat
    requires i < |rows|
  {
    if i > 0 && rows[i - 1].score == rows[i].score then RankAt(rows, i - 1) else i + 1
  }

  /** The count in a participant's snapshot: how many scored strictly more. */
  function Higher(table: seq<Entry>, score: int): nat {
    if table == [] then 0 else (if table[0].score > score then 1 else 0) + Higher(table[1..], score)
  }

  lemma {:induction false} HigherSplits(a: seq<Entry>, b: seq<Entry>, score: int)
    ensures Higher(a + b, score) == Higher(a, score) + Higher(b, score)
    decreases |a|
  {
    if a == [] {
      assert a + b == b;
    } else {
      HigherSplits(a[1..], b, score);
      assert (a + b)[1..] == a[1..] + b;
    }
  }

  lemma {:induction false} AllOrNone(rows: seq<Entry>, score: int)
    ensures (forall j :: 0 <= j < |rows| ==> rows[j].score > score) ==> Higher(rows, score) == |rows|
    ensures (forall j :: 0 <= j < |rows| ==> rows[j].score <= score) ==> Higher(rows, score) == 0
    decreases |rows|
  {
    if rows != [] {
      AllOrNone(rows[1..], score);
    }
  }

  lemma {:induction false} HigherOfPlaced(e: Entry, rows: seq<Entry>, score: int)
    ensures Higher(Place(ByScore, e, rows), score) == Higher(rows, score) + if e.score > score then 1 else 0
    decreases |rows|
  {
    if rows == [] || Precedes(ByScore, KeyOf(e), KeyOf(rows[0])) {
      assert ([e] + rows)[1..] == rows;
    } else {
      HigherOfPlaced(e, rows[1..], score);
    }
  }

  /** Counting does not depend on the order of the rows. */
  lemma {:induction false} HigherInListing(table: seq<Entry>, score: int)
    ensures Higher(Listing(ByScore, table), score) == Higher(table, score)
    decreases |table|
  {
    if table != [] {
      HigherInListing(table[1..], score);
      HigherOfPlaced(table[0], Listing(ByScore, table[1..]), score);
    }
  }

  ghost predicate Descending(rows: seq<Entry>) {
    forall i, j :: 0 <= i <= j < |rows| ==> rows[i].score >= rows[j].score
  }

  lemma SortedDescends(rows: seq<Entry>)
    requires Sorted(ByScore, rows)
    ensures Descending(rows)
  {
    forall i, j | 0 <= i <= j < |rows| ensures rows[i].score >= rows[j].score {
      assert i < j ==> Precedes(ByScore, KeyOf(rows[i]), KeyOf(rows[j]));
    }
  }

  lemma {:induction false} RankInListing(rows: seq<Entry>, i: nat)
    requires Descending(rows) && i < |rows|
    ensures RankAt(rows, i) == 1 + Higher(rows, rows[i].score)
    decreases i
  {
    if i > 0 && rows[i - 1].score == rows[i].score {
      RankInListing(rows, i - 1);
    } else {
      assert i > 0 ==> rows[i - 1].score > rows[i].score;
      BlockStart(rows, i, rows[i].score, rows[..i], rows[i..]);
    }
  }

  lemma BlockStart(rows: seq<Entry>, i: nat, score: int, above: seq<Entry>, below: seq<Entry>)
    requires i < |rows| && rows == above + below && |above| == i
    requires forall j :: 0 <= j < |above| ==> above[j].score > score
    requires forall j :: 0 <= j < |below| ==> below[j].score <= score
    ensures Higher(rows, score) == i
  {
    HigherSplits(above, below, score);
    AllOrNone(above, score);
    AllOrNone(below, score);
  }

  /** The rows that scored strictly more, by their places in the table. */
  ghost function Above(table: seq<Entry>, score: int): set<int> {
    set i | 0 <= i < |table| && table[i].score > score
  }

  lemma {:induction false} HigherIsAbove(table: seq<Entry>, score: int)
    ensures Higher(table, score) == |Above(table, score)|
    decreases |table|
  {
    if table != [] {
      var n := |table| - 1;
      var before, after := Above(table[..n], score), Above(table, score);
      HigherIsAbove(table[..n], score);
      assert table == table[..n] + [table[n]];
      HigherSplits(table[..n], [table[n]], score);
      assert forall i :: i in after <==> i in before || (i == n && table[n].score > score);
      assert after == if table[n].score > score then before + {n} else before;
    }
  }

  /** The rank a page shows for a row, wherever pages cut the ties, is one more than the number of strictly higher
      scores in the session: the rank the participant's own snapshot shows. */
  lemma RanksAgree(table: seq<Entry>, i: nat)
    requires Table(table) && i < |Listing(ByScore, table)|
    ensures RankAt(Listing(ByScore, table), i) == 1 + Higher(table, Listing(ByScore, table)[i].score)
    ensures RankAt(Listing(ByScore, table), i) == 1 + |Above(table, Listing(ByScore, table)[i].score)|
  {
    HigherIsAbove(table, Listing(ByScore, table)[i].score);
    ListingIsSorted(ByScore, table);
    SortedDescends(Listing(ByScore, table));
    RankInListing(Listing(ByScore, table), i);
    HigherInListing(table, Listing(ByScore, table)[i].score);
  }

  lemma RankOf(table: seq<Entry>, i: nat)
    requires Table(table) && i < |Listing(ByScore, table)|
    ensures RankAt(Listing(ByScore, table), i) == 1 + |Above(table, Listing(ByScore, table)[i].score)|
  {
    RanksAgree(table, i);
  }

  // --- The report's ranking -----------------------------------------------------------------------

  /** The slice of the ranking that was selected, the rank of each of its rows, and whether more may be asked for. */
  datatype RankingPage = NotFound | RankingPage(page: Page, ranks: seq<nat>)

  /** A running session's scores still move, so its report shows one bounded slice and never a next page. Ranks
      count over the whole session, wherever the page is cut. */
  method Ranking(table: seq<Entry>, owned: bool, hasScoring: bool, ended: bool, cursor: Option<Key>, limit: nat) returns (r: RankingPage)
    requires Table(table) && limit > 0
    ensures r.NotFound? <==> !owned
    ensures owned && !hasScoring ==> r.page == Page([], false)
    ensures owned && hasScoring && ended ==> r.page == GetPage(ByScore, table, cursor, limit)
    ensures owned && hasScoring && !ended ==> NextCursor(r.page) == None && r.page.items <= Listing(ByScore, table)
    ensures owned && hasScoring && !ended ==> |r.page.items| == if |table| < limit then |table| else limit
    ensures owned ==> |r.ranks| == |r.page.items|
    ensures owned ==> forall i :: 0 <= i < |r.ranks| ==> r.ranks[i] == 1 + |Above(table, r.page.items[i].score)|
  {
    if !owned {
      return NotFound;
    }
    if !hasScoring {
      return RankingPage(Page([], false), []);
    }
    var from := cursor;
    if !ended {
      from := None;
    }
    var listing := Listing(ByScore, table);
    var selected := Past(ByScore, listing, from);
    SelectedIsSuffix(table, from);
    SameLength(ByScore, table);
    var items, ranks := ScanRows(table, listing, |listing| - |selected|, limit + 1);
    var page := Page(items, false);
    if |items| > limit {
      page := Page(items[..limit], ended);
      ranks := ranks[..limit];
    }
    CutPrefix(selected, items, limit);
    r := RankingPage(page, ranks);
  }

  lemma SelectedIsSuffix(table: seq<Entry>, cursor: Option<Key>)
    requires Table(table)
    ensures var listing, selected := Listing(ByScore, table), Past(ByScore, Listing(ByScore, table), cursor);
            |selected| <= |listing| && selected == listing[|listing| - |selected|..]
  {
    ListingIsSorted(ByScore, table);
    if cursor.Some? {
      var k := PastIsSuffix(ByScore, Listing(ByScore, table), cursor.value);
    }
  }

  ghost predicate RanksOk(table: seq<Entry>, items: seq<Entry>, ranks: seq<nat>) {
    |ranks| == |items| && forall i :: 0 <= i < |ranks| ==> ranks[i] == 1 + |Above(table, items[i].score)|
  }

  lemma OneRankMore(table: seq<Entry>, items: seq<Entry>, ranks: seq<nat>, e: Entry, rank: nat)
    requires RanksOk(table, items, ranks) && rank == 1 + |Above(table, e.score)|
    ensures RanksOk(table, items + [e], ranks + [rank])
  {
  }

  /** The scan loop over the selected rows, each with its rank. */
  method ScanRows(ghost table: seq<Entry>, listing: seq<Entry>, first: nat, limit: nat) returns (items: seq<Entry>, ranks: seq<nat>)
    requires Table(table) && listing == Listing(ByScore, table) && first <= |listing|
    ensures items == if |listing| - first > limit then listing[first..first + limit] else listing[first..]
    ensures |ranks| == |items| && forall i :: 0 <= i < |ranks| ==> ranks[i] == 1 + |Above(table, items[i].score)|
  {
    items, ranks := [], [];
    var n := first;
    while n < |listing| && n - first < limit
      invariant first <= n <= |listing| && n - first <= limit
      invariant items == listing[first..n] && RanksOk(table, items, ranks)
    {
      RankOf(table, n);
      OneRankMore(table, items, ranks, listing[n], RankAt(listing, n));
      items := items + [listing[n]];
      ranks := ranks + [RankAt(listing, n)];
      n := n + 1;
    }
  }

  lemma CutPrefix(selected: seq<Entry>, items: seq<Entry>, limit: nat)
    requires items == if |selected| > limit + 1 then selected[..limit + 1] else selected
    ensures |items| > limit <==> |selected| > limit
    ensures |items| > limit ==> items[..limit] == selected[..limit]
    ensures |items| <= limit ==> items == selected
  {
  }

  lemma SameLength(order: Order, table: seq<Entry>)
    requires Table(table)
    ensures |Listing(order, table)| == |table|
  {
    ListingIsSorted(order, table);
    assert |multiset(Listing(order, table))| == |multiset(table)|;
  }
}

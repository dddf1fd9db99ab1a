/** The append-only event ledger of one session as readers see it, and the
    presence compaction applied to every page read from it. */
module EventLog {
  import opened Prelude
  import opened LiveEvents

  const PAGE_SIZE: nat := 200

  // --- Reading by id ---------------------------------------------------------

  /** How many rows of the ledger have an id of at most a. */
  function CountUpTo(log: seq<Event>, a: int): (n: nat)
    ensures n <= |log|
  {
    if log == [] then 0
    else if log[|log| - 1].id <= a then |log|
    else CountUpTo(log[..|log| - 1], a)
  }

  lemma {:induction false} CountUpToSplits(log: seq<Event>, a: int)
    requires Increasing(log)
    ensures forall i :: 0 <= i < |log| ==> (log[i].id <= a <==> i < CountUpTo(log, a))
  {
    if log != [] && log[|log| - 1].id > a {
      CountUpToSplits(log[..|log| - 1], a);
    }
  }

  lemma CountUpToIs(log: seq<Event>, a: int, n: nat)
    requires Increasing(log) && n <= |log|
    requires n > 0 ==> log[n - 1].id <= a
    requires n < |log| ==> a < log[n].id
    ensures CountUpTo(log, a) == n
  {
    CountUpToSplits(log, a);
  }

  lemma CountUpToMonotone(log: seq<Event>, a: int, b: int)
    requires Increasing(log) && a <= b
    ensures CountUpTo(log, a) <= CountUpTo(log, b)
  {
    CountUpToSplits(log, a);
    CountUpToSplits(log, b);
  }

  lemma CountUpToAppend(log: seq<Event>, e: Event, a: int)
    ensures CountUpTo(log + [e], a) == if e.id <= a then |log| + 1 else CountUpTo(log, a)
  {
    var longer := log + [e];
    assert longer[..|longer| - 1] == log;
  }

  /** The rows with event_id > after, in id order. */
  function Above(log: seq<Event>, after: int): seq<Event> {
    log[CountUpTo(log, after)..]
  }

  /** One store.Events call: WHERE event_id > after ORDER BY event_id LIMIT 200. */
  function Page(log: seq<Event>, after: int): (page: seq<Event>)
    ensures |page| <= PAGE_SIZE
  {
    var rows := Above(log, after);
    if |rows| <= PAGE_SIZE then rows else rows[..PAGE_SIZE]
  }

  /** Moving the cursor to the last id of a page steps over exactly that page. */
  lemma PageAdvances(log: seq<Event>, after: int)
    requires Increasing(log) && Page(log, after) != []
    ensures var page := Page(log, after);
            var last := page[|page| - 1].id;
            && after < last <= LatestId(log)
            && CountUpTo(log, last) == CountUpTo(log, after) + |page|
            && page == log[CountUpTo(log, after)..CountUpTo(log, last)]
  {
    var page := Page(log, after);
    var n := CountUpTo(log, after);
    CountUpToSplits(log, after);
    var k := n + |page|;
    assert page[|page| - 1] == log[k - 1];
    CountUpToIs(log, log[k - 1].id, k);
  }

  /** A page shorter than the limit leaves nothing behind. */
  lemma ShortPageExhausts(log: seq<Event>, after: int)
    requires |Page(log, after)| < PAGE_SIZE
    ensures CountUpTo(log, after) + |Page(log, after)| == |log|
  {
  }

  lemma LatestBelow(log: seq<Event>, e: Event)
    requires Increasing(log + [e])
    ensures Increasing(log) && LatestId(log) < e.id == LatestId(log + [e])
  {
    var longer := log + [e];
    assert forall i :: 0 <= i < |log| ==> log[i] == longer[i];
    assert longer[|log|] == e;
  }

  /** A reading of the ledger, and the ledger later on: a cursor within the reading stands at the same place in both. */
  lemma CountUpToPrefix(log: seq<Event>, longer: seq<Event>, a: int)
    requires Increasing(longer) && log <= longer
    ensures Increasing(log) && CountUpTo(log, a) <= CountUpTo(longer, a)
    ensures CountUpTo(log, a) < |log| || a <= LatestId(log) ==> CountUpTo(longer, a) == CountUpTo(log, a)
  {
    assert forall i :: 0 <= i < |log| ==> log[i] == longer[i];
    CountUpToSplits(log, a);
    CountUpToSplits(longer, a);
  }

  /** Where a page's reader stands before and after it, in the ledger later on. */
  lemma PagePlaces(log: seq<Event>, longer: seq<Event>, after: int)
    requires Increasing(longer) && log <= longer && Page(log, after) != []
    ensures var page := Page(log, after);
      && CountUpTo(longer, after) == CountUpTo(log, after)
      && CountUpTo(longer, page[|page| - 1].id) == CountUpTo(log, page[|page| - 1].id)
  {
    CountUpToPrefix(log, longer, after);
    PageAdvances(log, after);
    CountUpToPrefix(log, longer, Page(log, after)[|Page(log, after)| - 1].id);
  }

  /** Where reading a page leaves a cursor. */
  function PageEnd(log: seq<Event>, after: int): int {
    var page := Page(log, after);
    if page == [] then after else page[|page| - 1].id
  }

  /** The last of these readings holds nothing beyond the cursor. */
  predicate UpToDate(readings: seq<Option<seq<Event>>>, turns: nat, cursor: int) {
    && 0 < turns <= |readings|
    && readings[turns - 1].Some?
    && CountUpTo(readings[turns - 1].value, cursor) == |readings[turns - 1].value|
  }

  lemma AllUpToLatest(log: seq<Event>)
    ensures CountUpTo(log, LatestId(log)) == |log|
  {
  }

  // --- Compaction ------------------------------------------------------------

  function Merged(last: Event, run: nat): Event {
    last.(payload := PresenceUpdated(run))
  }

  /** Rows already settled, and the length of the run of joins still open at the end. */
  datatype Scanned = Scanned(settled: seq<Event>, run: nat)

  function Scan(events: seq<Event>): (r: Scanned)
    ensures r.run <= |events|
  {
    if events == [] then Scanned([], 0)
    else
      var before, e := events[..|events| - 1], events[|events| - 1];
      var r := Scan(before);
      if IsPresence(e) then Scanned(r.settled, r.run + 1)
      else Scanned(Flush(r, before) + [e], 0)
  }

  function Flush(r: Scanned, events: seq<Event>): seq<Event>
    requires r.run <= |events|
  {
    if r.run == 0 then r.settled else r.settled + [Merged(events[|events| - 1], r.run)]
  }

  /** Every maximal run of presence rows becomes one row: the last of the run, with the run's length. */
  function Compact(events: seq<Event>): seq<Event> {
    Flush(Scan(events), events)
  }

  /** compactEvents as the source runs it: one pass, flushing the pending run before each other row. */
  method CompactEvents(events: seq<Event>) returns (out: seq<Event>)
    ensures out == Compact(events)
  {
    out := [];
    var pendingPresence: Option<Event> := None;
    var presenceDelta := 0;
    for index := 0 to |events|
      invariant Scan(events[..index]) == Scanned(out, presenceDelta)
      invariant presenceDelta <= index
      invariant pendingPresence == if presenceDelta > 0 then Some(events[index - 1]) else None
    {
      ghost var soFar := events[..index + 1];
      assert soFar[..index] == events[..index];
      if IsPresence(events[index]) {
        pendingPresence := Some(events[index]);
        presenceDelta := presenceDelta + 1;
        continue;
      }
      if pendingPresence.Some? {
        out := out + [Merged(pendingPresence.value, presenceDelta)];
        pendingPresence, presenceDelta := None, 0;
      }
      out := out + [events[index]];
    }
    assert events[..|events|] == events;
    if pendingPresence.Some? {
      out := out + [Merged(pendingPresence.value, presenceDelta)];
    }
  }

  // --- What a compacted row stands for --------------------------------------

  /** How many ledger rows a delivered row stands for. */
  function Width(item: Event): nat {
    if item.payload.PresenceUpdated? then (if item.payload.delta > 0 then item.payload.delta else 0) else 1
  }

  /** item stands for the ledger rows at positions [i, i + Width(item)): the one row itself,
      or a run of joins summed up under the id of the last of them. */
  ghost predicate Tile(log: seq<Event>, i: nat, item: Event) {
    var w := Width(item);
    && 0 < w
    && i + w <= |log|
    && (if IsPresence(item)
        then (forall k :: i <= k < i + w ==> IsPresence(log[k])) && item == Merged(log[i + w - 1], w)
        else item == log[i])
  }

  /** The items, left to right, account for the ledger from position i on, row by row, with nothing left out. */
  ghost predicate Tiles(log: seq<Event>, i: nat, items: seq<Event>)
    decreases |items|
  {
    items == [] || (Tile(log, i, items[0]) && Tiles(log, i + Width(items[0]), items[1..]))
  }

  function TotalWidth(items: seq<Event>): nat {
    if items == [] then 0 else Width(items[0]) + TotalWidth(items[1..])
  }

  lemma {:induction false} TilesSnoc(log: seq<Event>, i: nat, items: seq<Event>, e: Event, longer: seq<Event>)
    requires Tiles(log, i, items) && Tile(log, i + TotalWidth(items), e)
    requires longer == items + [e]
    ensures Tiles(log, i, longer) && TotalWidth(longer) == TotalWidth(items) + Width(e)
    decreases |items|
  {
    if items == [] {
      assert longer[1..] == [];
    } else {
      TilesSnoc(log, i + Width(items[0]), items[1..], e, longer[1..]);
    }
  }

  lemma {:induction false} TilesJoin(log: seq<Event>, i: nat, a: seq<Event>, b: seq<Event>, both: seq<Event>)
    requires Tiles(log, i, a) && Tiles(log, i + TotalWidth(a), b) && both == a + b
    ensures Tiles(log, i, both) && TotalWidth(both) == TotalWidth(a) + TotalWidth(b)
    decreases |a|
  {
    if a == [] {
      assert both == b;
    } else {
      TilesJoin(log, i + Width(a[0]), a[1..], b, both[1..]);
    }
  }

  lemma {:induction false} TilesOfLongerLog(log: seq<Event>, longer: seq<Event>, i: nat, items: seq<Event>)
    requires log <= longer && Tiles(log, i, items)
    ensures Tiles(longer, i, items)
    decreases items
  {
    if items != [] {
      TilesOfLongerLog(log, longer, i + Width(items[0]), items[1..]);
    }
  }

  /** After scanning n rows from position i, the settled rows tile the ledger up to the open run, which is all joins. */
  lemma {:induction false} ScanTiles(log: seq<Event>, i: nat, n: nat, rows: seq<Event>)
    requires i + n <= |log| && rows == log[i..i + n]
    ensures var r := Scan(rows);
            && Tiles(log, i, r.settled)
            && TotalWidth(r.settled) + r.run == n
            && forall k :: i + n - r.run <= k < i + n ==> IsPresence(log[k])
    decreases n
  {
    if n > 0 {
      var before, e := rows[..n - 1], log[i + n - 1];
      var r := Scan(before);
      ScanTiles(log, i, n - 1, before);
      if !IsPresence(e) {
        FlushTiles(log, i, n - 1, before);
        TilesSnoc(log, i, Flush(r, before), e, Flush(r, before) + [e]);
      }
    }
  }

  /** A page read at some time, against the ledger at any later time. */
  lemma PageTiles(log: seq<Event>, longer: seq<Event>, after: int, page: seq<Event>)
    requires Increasing(longer) && log <= longer && page == Page(log, after)
    ensures Tiles(longer, CountUpTo(longer, after), Compact(page))
    ensures CountUpTo(longer, after) + TotalWidth(Compact(page)) == CountUpTo(longer, PageEnd(log, after))
    ensures |page| < PAGE_SIZE ==> CountUpTo(log, PageEnd(log, after)) == |log|
  {
    CountUpToPrefix(log, longer, after);
    if |page| < PAGE_SIZE {
      ShortPageExhausts(log, after);
    }
    if page != [] {
      var at := CountUpTo(log, after);
      PageAdvances(log, after);
      PagePlaces(log, longer, after);
      CompactTiles(log, at, |page|, page);
      TilesOfLongerLog(log, longer, at, Compact(page));
    }
  }

  /** Compacting any stretch of the ledger yields a tiling of exactly that stretch. */
  lemma {:induction false} FlushTiles(log: seq<Event>, i: nat, n: nat, rows: seq<Event>)
    requires i + n <= |log| && rows == log[i..i + n]
    requires var r := Scan(rows);
            && Tiles(log, i, r.settled)
            && TotalWidth(r.settled) + r.run == n
            && forall k :: i + n - r.run <= k < i + n ==> IsPresence(log[k])
    ensures Tiles(log, i, Compact(rows)) && TotalWidth(Compact(rows)) == n
  {
    var r := Scan(rows);
    if r.run > 0 {
      var item := Merged(rows[n - 1], r.run);
      assert log[i + n - 1] == rows[n - 1];
      TilesSnoc(log, i, r.settled, item, Compact(rows));
    }
  }

  lemma CompactTiles(log: seq<Event>, i: nat, n: nat, rows: seq<Event>)
    requires i + n <= |log| && rows == log[i..i + n]
    ensures Tiles(log, i, Compact(rows)) && TotalWidth(Compact(rows)) == n
  {
    ScanTiles(log, i, n, rows);
    FlushTiles(log, i, n, rows);
  }

  /** No two rows side by side are joins. */
  ghost predicate RunsMerged(items: seq<Event>) {
    forall i :: 0 <= i < |items| - 1 ==> !(IsPresence(items[i]) && IsPresence(items[i + 1]))
  }

  /** No run of joins is still open and none has just been settled side by side with another. */
  lemma {:induction false} ScanMerges(events: seq<Event>)
    ensures RunsMerged(Scan(events).settled)
    ensures Scan(events).settled != [] ==> !IsPresence(Scan(events).settled[|Scan(events).settled| - 1])
    decreases |events|
  {
    if events != [] {
      var before, e := events[..|events| - 1], events[|events| - 1];
      ScanMerges(before);
      if !IsPresence(e) {
        FlushMerges(Scan(before), before, Flush(Scan(before), before) + [e]);
      }
    }
  }

  lemma FlushMerges(r: Scanned, events: seq<Event>, longer: seq<Event>)
    requires r.run <= |events| && RunsMerged(r.settled) && (r.settled != [] ==> !IsPresence(r.settled[|r.settled| - 1]))
    requires Flush(r, events) <= longer && |longer| == |Flush(r, events)| + 1 && !IsPresence(longer[|longer| - 1])
    ensures RunsMerged(longer) && RunsMerged(Flush(r, events))
  {
    var flushed := Flush(r, events);
    assert forall i :: 0 <= i < |r.settled| ==> flushed[i] == r.settled[i];
    assert forall i :: 0 <= i < |flushed| ==> longer[i] == flushed[i];
  }

  /** Compaction leaves no two joins side by side: each of its joins stands for a whole run. */
  lemma CompactMergesRuns(events: seq<Event>)
    ensures var items := Compact(events); forall i :: 0 <= i < |items| - 1 ==> !(IsPresence(items[i]) && IsPresence(items[i + 1]))
  {
    ScanMerges(events);
    var r := Scan(events);
    var flushed := Flush(r, events);
    assert forall i :: 0 <= i < |r.settled| ==> flushed[i] == r.settled[i];
  }

  /** A page is the first two hundred rows with an id above the cursor, or all of them if they are fewer. */
  lemma PageIs(log: seq<Event>, after: int) returns (rest: seq<Event>)
    requires Increasing(log)
    ensures var n := CountUpTo(log, after);
      && (forall i :: 0 <= i < |log| ==> (i < n <==> log[i].id <= after))
      && log[n..] == Page(log, after) + rest && |Page(log, after)| <= 200 && (|Page(log, after)| < 200 ==> rest == [])
  {
    CountUpToSplits(log, after);
    rest := log[CountUpTo(log, after)..][|Page(log, after)|..];
  }
}

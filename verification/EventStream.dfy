/** The events handler of apps/api/internal/live/http.go: what one connection does with the rows
    it replays and the rows its channel hands it. */
module EventStream {
  import opened Prelude
  import opened LiveEvents
  import opened EventLog

  datatype Role = Manager | ParticipantViewer

  /** Activity results are withheld from participants until the revealed snapshot shows them. */
  predicate VisibleTo(role: Role, e: Event) {
    !role.ParticipantViewer? || !e.payload.ResultUpdated?
  }

  function Visible(role: Role, s: seq<Event>): seq<Event> {
    if s == [] then []
    else if VisibleTo(role, s[|s| - 1]) then Visible(role, s[..|s| - 1]) + [s[|s| - 1]]
    else Visible(role, s[..|s| - 1])
  }

  predicate IsKey(role: Role, e: Event) {
    !IsPresence(e) && VisibleTo(role, e)
  }

  /** The rows that must arrive exactly once and unchanged: everything the role may see except presence counts. */
  ghost function Key(role: Role, s: seq<Event>): seq<Event> {
    if s == [] then []
    else if IsKey(role, s[|s| - 1]) then Key(role, s[..|s| - 1]) + [s[|s| - 1]]
    else Key(role, s[..|s| - 1])
  }

  /** Joins announced by the rows of s. */
  ghost function Deltas(s: seq<Event>): nat {
    if s == [] then 0
    else Deltas(s[..|s| - 1]) + if IsPresence(s[|s| - 1]) then Width(s[|s| - 1]) else 0
  }

  /** Joins recorded by the ledger rows of s: one each. */
  ghost function Joins(s: seq<Event>): nat {
    if s == [] then 0
    else Joins(s[..|s| - 1]) + if IsPresence(s[|s| - 1]) then 1 else 0
  }

  /** One connection. base and overcount are history: the ledger position its channel has been consumed
      to, and how many joins have been announced on it a second time. The handler reads neither. */
  datatype Conn = Conn(
    session: Uuid,
    role: Role,
    last: int,
    stream: nat,
    after: int,
    live: bool,
    ended: bool,
    queue: seq<Event>,
    written: seq<Event>,
    base: nat,
    overcount: nat)

  function Output(c: Conn): seq<Event> {
    c.written + c.queue
  }

  /** One turn of the replay loop: what is written, where the cursor goes, whether the loop goes on. */
  function ReplayPage(c: Conn, page: seq<Event>): Conn {
    c.(queue := c.queue + Visible(c.role, Compact(page)),
       after := if page == [] then c.after else page[|page| - 1].id,
       live := |page| < PAGE_SIZE)
  }

  /** How many of the joins behind item the connection had already passed when it was at `after`. */
  function Repeated(log: seq<Event>, base: nat, item: Event, after: int): nat {
    var passed := CountUpTo(log, after);
    if !IsPresence(item) || passed <= base then 0 else passed - base
  }

  /** One row taken from the channel in the live loop. */
  function ReceiveRow(c: Conn, item: Event, log: seq<Event>): Conn {
    if item.id <= c.after then c.(base := c.base + Width(item))
    else c.(after := item.id,
            queue := c.queue + Visible(c.role, [item]),
            base := c.base + Width(item),
            overcount := c.overcount + Repeated(log, c.base, item, c.after))
  }

  function WriteRow(c: Conn): Conn
    requires c.queue != []
  {
    c.(written := c.written + [c.queue[0]], queue := c.queue[1..])
  }

  // --- Filters over stretches ------------------------------------------------

  lemma {:induction false} KeyConcat(role: Role, a: seq<Event>, b: seq<Event>, both: seq<Event>)
    requires both == a + b
    ensures Key(role, both) == Key(role, a) + Key(role, b)
    decreases |b|
  {
    if b == [] {
      assert both == a;
    } else {
      KeyConcat(role, a, b[..|b| - 1], both[..|both| - 1]);
      assert both[|both| - 1] == b[|b| - 1];
    }
  }

  lemma {:induction false} DeltasConcat(a: seq<Event>, b: seq<Event>, both: seq<Event>)
    requires both == a + b
    ensures Deltas(both) == Deltas(a) + Deltas(b)
    decreases |b|
  {
    if b == [] {
      assert both == a;
    } else {
      DeltasConcat(a, b[..|b| - 1], both[..|both| - 1]);
      assert both[|both| - 1] == b[|b| - 1];
    }
  }

  lemma {:induction false} JoinsConcat(a: seq<Event>, b: seq<Event>, both: seq<Event>)
    requires both == a + b
    ensures Joins(both) == Joins(a) + Joins(b)
    decreases |b|
  {
    if b == [] {
      assert both == a;
    } else {
      JoinsConcat(a, b[..|b| - 1], both[..|both| - 1]);
      assert both[|both| - 1] == b[|b| - 1];
    }
  }

  lemma {:induction false} VisibleKeepsKey(role: Role, s: seq<Event>, out: seq<Event>)
    requires out == Visible(role, s)
    ensures Key(role, out) == Key(role, s) && Deltas(out) == Deltas(s)
    decreases |s|
  {
    if s != [] {
      var front := s[..|s| - 1];
      VisibleKeepsKey(role, front, Visible(role, front));
      if VisibleTo(role, s[|s| - 1]) {
        assert out[..|out| - 1] == Visible(role, front);
      }
    }
  }

  lemma {:induction false} VisibleIsPart(role: Role, s: seq<Event>)
    ensures forall e <- Visible(role, s) :: e in s
    decreases |s|
  {
    if s != [] {
      VisibleIsPart(role, s[..|s| - 1]);
    }
  }

  lemma {:induction false} AllJoins(role: Role, s: seq<Event>)
    requires forall e <- s :: IsPresence(e)
    ensures Key(role, s) == [] && Joins(s) == |s|
    decreases |s|
  {
    if s != [] {
      AllJoins(role, s[..|s| - 1]);
    }
  }

  /** A tile carries exactly the key rows and the joins of its stretch. */
  lemma TileContent(role: Role, log: seq<Event>, i: nat, item: Event, seg: seq<Event>)
    requires Tile(log, i, item) && seg == log[i..i + Width(item)]
    ensures Key(role, [item]) == Key(role, seg) && Deltas([item]) == Joins(seg)
  {
    if IsPresence(item) {
      AllJoins(role, seg);
    } else {
      assert seg == [item];
    }
  }

  lemma {:induction false} TilesContent(role: Role, log: seq<Event>, i: nat, items: seq<Event>, seg: seq<Event>)
    requires Tiles(log, i, items) && i + TotalWidth(items) <= |log| && seg == log[i..i + TotalWidth(items)]
    ensures Key(role, items) == Key(role, seg) && Deltas(items) == Joins(seg)
    decreases |items|
  {
    if items == [] {
      assert seg == [];
    } else {
      var w := Width(items[0]);
      var head, tail := Cut(log, i, w, TotalWidth(items[1..]), seg);
      TileContent(role, log, i, items[0], head);
      TilesContent(role, log, i + w, items[1..], tail);
      ContentConcat(role, [items[0]], items[1..], items, head, tail, seg);
    }
  }

  /** A stretch of the ledger in two. */
  lemma Cut(log: seq<Event>, i: nat, w: nat, rest: nat, seg: seq<Event>) returns (head: seq<Event>, tail: seq<Event>)
    requires i + w + rest <= |log| && seg == log[i..i + w + rest]
    ensures head == log[i..i + w] && tail == log[i + w..i + w + rest] && seg == head + tail
  {
    head, tail := log[i..i + w], log[i + w..i + w + rest];
  }

  lemma ContentConcat(role: Role, a: seq<Event>, b: seq<Event>, both: seq<Event>, x: seq<Event>, y: seq<Event>, seg: seq<Event>)
    requires both == a + b && seg == x + y
    requires Key(role, a) == Key(role, x) && Deltas(a) == Joins(x) && Key(role, b) == Key(role, y) && Deltas(b) == Joins(y)
    ensures Key(role, both) == Key(role, seg) && Deltas(both) == Joins(seg)
  {
    KeyConcat(role, a, b, both);
    KeyConcat(role, x, y, seg);
    DeltasConcat(a, b, both);
    JoinsConcat(x, y, seg);
  }

  // --- What one connection keeps ----------------------------------------------

  /** The ledger rows the connection's cursor has moved over. */
  ghost function Covered(log: seq<Event>, c: Conn): seq<Event> {
    var i, j := CountUpTo(log, c.last), CountUpTo(log, c.after);
    if i <= j then log[i..j] else []
  }

  ghost predicate CursorOk(log: seq<Event>, c: Conn) {
    && c.last <= c.after
    && (c.after == c.last || c.after <= LatestId(log))
  }

  /** What has been written and what is about to be, against the ledger rows passed. */
  ghost predicate Faithful(log: seq<Event>, c: Conn) {
    && Key(c.role, Output(c)) == Key(c.role, Covered(log, c))
    && Deltas(Output(c)) == Joins(Covered(log, c)) + c.overcount
  }

  /** The cursor moves over `more` ledger rows while `shown` is added to the output, and the two carry the
      same key rows and the same joins, up to `again` repeats. */
  lemma ConnGrows(log: seq<Event>, c: Conn, c': Conn, shown: seq<Event>, more: seq<Event>, again: nat)
    requires Increasing(log) && CursorOk(log, c) && Faithful(log, c)
    requires c'.role == c.role && c'.last == c.last && c'.overcount == c.overcount + again
    requires c'.written == c.written && c'.queue == c.queue + shown
    requires c.after < c'.after <= LatestId(log)
    requires CountUpTo(log, c.after) <= CountUpTo(log, c'.after)
    requires more == log[CountUpTo(log, c.after)..CountUpTo(log, c'.after)]
    requires Key(c.role, shown) == Key(c.role, more) && Deltas(shown) == Joins(more) + again
    ensures CursorOk(log, c') && Faithful(log, c')
  {
    CoveredGrows(log, c, c', more);
    OutputGrows(c, c', shown);
    SameContentGrows(c.role, Output(c), shown, Output(c'), Covered(log, c), more, Covered(log, c'), c.overcount, again);
  }

  lemma OutputGrows(c: Conn, c': Conn, shown: seq<Event>)
    requires c'.written == c.written && c'.queue == c.queue + shown
    ensures Output(c') == Output(c) + shown
  {
  }

  lemma CoveredGrows(log: seq<Event>, c: Conn, c': Conn, more: seq<Event>)
    requires Increasing(log) && c.last <= c.after <= c'.after && c'.last == c.last
    requires CountUpTo(log, c.after) <= CountUpTo(log, c'.after)
    requires more == log[CountUpTo(log, c.after)..CountUpTo(log, c'.after)]
    ensures Covered(log, c') == Covered(log, c) + more
  {
    CountUpToMonotone(log, c.last, c.after);
  }

  lemma SameContentGrows(role: Role, out: seq<Event>, shown: seq<Event>, out': seq<Event>,
                         rows: seq<Event>, more: seq<Event>, rows': seq<Event>, excess: nat, again: nat)
    requires out' == out + shown && rows' == rows + more
    requires Key(role, out) == Key(role, rows) && Deltas(out) == Joins(rows) + excess
    requires Key(role, shown) == Key(role, more) && Deltas(shown) == Joins(more) + again
    ensures Key(role, out') == Key(role, rows') && Deltas(out') == Joins(rows') + excess + again
  {
    KeyConcat(role, out, shown, out');
    KeyConcat(role, rows, more, rows');
    DeltasConcat(out, shown, out');
    JoinsConcat(rows, more, rows');
  }

  /** A replayed page, compacted and filtered for the role, carries what its ledger rows carry. */
  lemma PageContent(log: seq<Event>, role: Role, i: nat, page: seq<Event>, shown: seq<Event>)
    requires i + |page| <= |log| && page == log[i..i + |page|] && shown == Visible(role, Compact(page))
    ensures Key(role, shown) == Key(role, page) && Deltas(shown) == Joins(page)
  {
    CompactTiles(log, i, |page|, page);
    TilesContent(role, log, i, Compact(page), page);
    VisibleKeepsKey(role, Compact(page), shown);
  }

  /** Compaction keeps every other row as it was and in order, and keeps the number of joins. */
  lemma CompactionKeepsContent(role: Role, events: seq<Event>)
    ensures Key(role, Compact(events)) == Key(role, events) && Deltas(Compact(events)) == Joins(events)
  {
    assert events[0..0 + |events|] == events;
    CompactTiles(events, 0, |events|, events);
    TilesContent(role, events, 0, Compact(events), events);
  }

  lemma ReplayKeeps(log: seq<Event>, c: Conn, page: seq<Event>, shown: seq<Event>, c': Conn)
    requires Increasing(log) && CursorOk(log, c) && Faithful(log, c)
    requires page == Page(log, c.after) && page != []
    requires shown == Visible(c.role, Compact(page))
    requires c' == c.(queue := c.queue + shown, after := page[|page| - 1].id, live := c'.live)
    ensures CursorOk(log, c') && Faithful(log, c')
  {
    PageAdvances(log, c.after);
    PageContent(log, c.role, CountUpTo(log, c.after), page, shown);
    ConnGrows(log, c, c', shown, page, 0);
  }

  /** When the replay loop ends, the cursor has passed every row the ledger held. */
  lemma ReplayEnds(log: seq<Event>, after: int, page: seq<Event>, after': int)
    requires Increasing(log) && page == Page(log, after) && |page| < PAGE_SIZE
    requires after' == if page == [] then after else page[|page| - 1].id
    ensures CountUpTo(log, after') == |log|
  {
    ShortPageExhausts(log, after);
    if page != [] {
      PageAdvances(log, after);
    }
  }

  /** The rows behind a tile that are still ahead of the cursor. */
  lemma ReceiveContent(log: seq<Event>, role: Role, base: nat, item: Event, after: int, more: seq<Event>)
    requires Increasing(log) && Tile(log, base, item) && base <= CountUpTo(log, after) && item.id > after
    requires CountUpTo(log, after) <= base + Width(item) ==> more == log[CountUpTo(log, after)..base + Width(item)]
    ensures CountUpTo(log, after) < base + Width(item) == CountUpTo(log, item.id)
    ensures item.id <= LatestId(log)
    ensures Key(role, [item]) == Key(role, more)
    ensures Deltas([item]) == Joins(more) + Repeated(log, base, item, after)
  {
    var end := base + Width(item);
    CountUpToSplits(log, after);
    assert log[end - 1].id == item.id;
    CountUpToIs(log, item.id, end);
    if IsPresence(item) {
      AllJoins(role, more);
    } else {
      assert more == [item];
    }
  }

  /** A row from the channel moves the cursor by exactly the rows behind it that were still ahead. */
  lemma ReceiveKeeps(log: seq<Event>, c: Conn, item: Event, shown: seq<Event>, again: nat, c': Conn)
    requires Increasing(log) && CursorOk(log, c) && Faithful(log, c)
    requires Tile(log, c.base, item) && c.base <= CountUpTo(log, c.after) && item.id > c.after
    requires shown == Visible(c.role, [item]) && again == Repeated(log, c.base, item, c.after)
    requires c' == c.(after := item.id, queue := c.queue + shown, base := c.base + Width(item), overcount := c.overcount + again)
    ensures CursorOk(log, c') && Faithful(log, c') && c'.base == CountUpTo(log, c'.after)
  {
    var at, end := CountUpTo(log, c.after), c.base + Width(item);
    var more := if at <= end <= |log| then log[at..end] else [];
    ReceiveContent(log, c.role, c.base, item, c.after, more);
    VisibleKeepsKey(c.role, [item], shown);
    ConnGrows(log, c, c', shown, more, again);
  }

  /** A row at or below the cursor is skipped; the channel is still only consumed up to the cursor. */
  lemma SkipKeeps(log: seq<Event>, c: Conn, item: Event)
    requires Increasing(log) && Tile(log, c.base, item) && item.id <= c.after
    ensures c.base + Width(item) <= CountUpTo(log, c.after)
  {
    CountUpToSplits(log, c.after);
    assert log[c.base + Width(item) - 1].id == item.id;
  }

  // --- Ids on the wire only go up ---------------------------------------------

  /** Ids strictly increase and stay in (lo, hi]. */
  ghost predicate Ascending(lo: int, hi: int, s: seq<Event>) {
    && (forall i :: 0 <= i < |s| ==> lo < s[i].id <= hi)
    && (forall i, j :: 0 <= i < j < |s| ==> s[i].id < s[j].id)
  }

  lemma {:induction false} TilesAscending(log: seq<Event>, i: nat, items: seq<Event>, lo: int)
    requires Increasing(log) && Tiles(log, i, items) && i <= |log|
    requires i < |log| ==> lo < log[i].id
    ensures Ascending(lo, LatestId(log), items)
    ensures items != [] ==> 0 < TotalWidth(items) <= |log| - i && items[|items| - 1].id == log[i + TotalWidth(items) - 1].id
    decreases |items|
  {
    if items != [] {
      var end := i + Width(items[0]);
      var rest := items[1..];
      assert items[0].id == log[end - 1].id;
      TilesAscending(log, end, rest, items[0].id);
      forall j | 0 <= j < |items| ensures lo < items[j].id <= LatestId(log) {
        if j > 0 { assert items[j] == rest[j - 1]; }
      }
      forall j, k | 0 <= j < k < |items| ensures items[j].id < items[k].id {
        assert items[k] == rest[k - 1];
        if j > 0 { assert items[j] == rest[j - 1]; }
      }
    }
  }

  lemma {:induction false} VisibleAscending(role: Role, lo: int, hi: int, s: seq<Event>)
    requires Ascending(lo, hi, s)
    ensures Ascending(lo, hi, Visible(role, s))
    decreases |s|
  {
    if s != [] {
      var front := s[..|s| - 1];
      VisibleAscending(role, lo, hi, front);
      VisibleIsPart(role, front);
      forall e <- Visible(role, front) ensures e.id < s[|s| - 1].id {
        var i :| 0 <= i < |front| && front[i] == e;
      }
    }
  }

  lemma AscendingConcat(lo: int, mid: int, hi: int, a: seq<Event>, b: seq<Event>, both: seq<Event>)
    requires Ascending(lo, mid, a) && Ascending(mid, hi, b) && lo <= mid <= hi && both == a + b
    ensures Ascending(lo, hi, both)
  {
  }

  lemma PageAscending(log: seq<Event>, role: Role, after: int, page: seq<Event>)
    requires Increasing(log) && page == Page(log, after) && page != []
    ensures Ascending(after, page[|page| - 1].id, Visible(role, Compact(page)))
  {
    var i := CountUpTo(log, after);
    PageAdvances(log, after);
    CountUpToSplits(log, after);
    CompactTiles(log, i, |page|, page);
    var items := Compact(page);
    TilesAscending(log, i, items, after);
    var last := page[|page| - 1].id;
    assert last == log[i + |page| - 1].id;
    assert items != [];
    assert Ascending(after, last, items);
    VisibleAscending(role, after, last, items);
  }

  /** The rows but for activity results. */
  ghost function WithoutResults(s: seq<Event>): seq<Event> {
    if s == [] then []
    else if s[|s| - 1].payload.ResultUpdated? then WithoutResults(s[..|s| - 1])
    else WithoutResults(s[..|s| - 1]) + [s[|s| - 1]]
  }

  lemma {:induction false} VisibleIs(role: Role, s: seq<Event>)
    ensures Visible(role, s) == if role == ParticipantViewer then WithoutResults(s) else s
    decreases |s|
  {
    if s != [] {
      VisibleIs(role, s[..|s| - 1]);
    }
  }

  // --- The handler as the source runs it ----------------------------------------

  class Handler {
    const role: Role
    var after: int
    var sent: seq<Event>

    constructor (role: Role, lastEventId: int)
      ensures this.role == role && after == lastEventId && sent == []
    {
      this.role, after, sent := role, lastEventId, [];
    }

    /** The inner loop: writeEvent for every row the role may see. */
    method WriteVisible(rows: seq<Event>)
      modifies this`sent
      ensures sent == old(sent) + Visible(role, rows)
      ensures Visible(role, rows) == if role == ParticipantViewer then WithoutResults(rows) else rows
    {
      VisibleIs(role, rows);
      for n := 0 to |rows|
        invariant sent == old(sent) + Visible(role, rows[..n])
      {
        assert rows[..n + 1][..n] == rows[..n];
        if VisibleTo(role, rows[n]) {
          sent := sent + [rows[n]];
        }
      }
      assert rows[..|rows|] == rows;
    }

    /** One turn of the replay loop: write a page, without its results for a participant, and step over it, as ReplayPage does. */
    method ReplayTurn(log: seq<Event>) returns (more: bool)
      requires Increasing(log)
      modifies this
      ensures after == PageEnd(log, old(after)) && sent == old(sent) + Visible(role, Compact(Page(log, old(after))))
      ensures var items := Compact(Page(log, old(after)));
        sent == old(sent) + if role == ParticipantViewer then WithoutResults(items) else items
      ensures more <==> |Page(log, old(after))| == PAGE_SIZE
      ensures forall c: Conn :: StandsAt(c, role, old(after), old(sent)) ==>
        var c' := ReplayPage(c, Page(log, old(after))); StandsAt(c', role, after, sent) && c'.live == !more
    {
      ghost var from, before := after, sent;
      more := WritePage(log);
      forall c: Conn | StandsAt(c, role, from, before)
        ensures var c' := ReplayPage(c, Page(log, from)); StandsAt(c', role, after, sent) && c'.live == !more
      {
        TurnStands(c, Page(log, from), role, from, before, after, sent);
      }
    }

    method WritePage(log: seq<Event>) returns (more: bool)
      requires Increasing(log)
      modifies this
      ensures after == PageEnd(log, old(after)) && sent == old(sent) + Visible(role, Compact(Page(log, old(after))))
      ensures var items := Compact(Page(log, old(after)));
        Visible(role, items) == if role == ParticipantViewer then WithoutResults(items) else items
      ensures more <==> |Page(log, old(after))| == PAGE_SIZE
    {
      var page := Page(log, after);
      var items := CompactEvents(page);
      WriteVisible(items);
      more := |page| == PAGE_SIZE;
      if |page| > 0 {
        after := page[|page| - 1].id;
      }
    }

    method AnotherTurn(reading: seq<Event>, ghost ledger: seq<Event>, ghost from: int, ghost before: seq<Event>) returns (last: bool)
      requires Increasing(ledger) && reading <= ledger && Replayed(role, ledger, from, before, after, sent)
      modifies this
      ensures Replayed(role, ledger, from, before, after, sent)
      ensures last ==> CountUpTo(reading, after) == |reading|
    {
      ghost var was, at := sent, after;
      CountUpToPrefix(reading, ledger, after);
      var more := ReplayTurn(reading);
      TurnCarriesOn(role, reading, ledger, from, before, at, was, sent);
      last := !more;
    }

    /** The replay loop, each turn of it reading the ledger as it then is, until a page is short or a read fails. Against the
        ledger at any later time: every key row the cursor has passed is written once, every join passed is announced
        once; and when the loop has ended by itself the cursor has passed all that its last read could see. */
    method Replay(readings: seq<Option<seq<Event>>>, ghost ledger: seq<Event>) returns (live: bool, turns: nat)
      requires Increasing(ledger) && forall n :: 0 <= n < |readings| && readings[n].Some? ==> readings[n].value <= ledger
      modifies this
      ensures Replayed(role, ledger, old(after), old(sent), after, sent)
      ensures turns <= |readings| && forall n :: 0 <= n < turns ==> readings[n].Some?
      ensures live ==> UpToDate(readings, turns, after)
      ensures !live ==> turns == |readings| || readings[turns].None?
    {
      ghost var from, before := after, sent;
      CarriesNothing(role, sent, ledger, CountUpTo(ledger, from));
      live, turns := false, 0;
      while !live && turns < |readings| && readings[turns].Some?
        invariant turns <= |readings| && forall n :: 0 <= n < turns ==> readings[n].Some?
        invariant Replayed(role, ledger, from, before, after, sent)
        invariant live ==> UpToDate(readings, turns, after)
        decreases !live, |readings| - turns
      {
        live := AnotherTurn(readings[turns].value, ledger, from, before);
        turns := turns + 1;
      }
    }

    /** One row from the subscription, as ReceiveRow takes it. */
    method Receive(item: Event)
      modifies this
      ensures after == if item.id <= old(after) then old(after) else item.id
      ensures sent == if item.id <= old(after) || (role == ParticipantViewer && item.payload.ResultUpdated?) then old(sent) else old(sent) + [item]
      ensures forall c: Conn, log :: StandsAt(c, role, old(after), old(sent)) ==> StandsAt(ReceiveRow(c, item, log), role, after, sent)
    {
      if item.id <= after {
        return;
      }
      after := item.id;
      assert [item][..0] == [] && Visible(role, [item]) == if VisibleTo(role, item) then [item] else [];
      if !VisibleTo(role, item) {
        return;
      }
      sent := sent + [item];
    }
  }

  /** The handler's fields are those of a connection of the delivery machine. */
  ghost predicate StandsAt(c: Conn, role: Role, after: int, sent: seq<Event>) {
    c.role == role && c.after == after && Output(c) == sent
  }

  lemma TurnStands(c: Conn, page: seq<Event>, role: Role, from: int, before: seq<Event>, after: int, now: seq<Event>)
    requires StandsAt(c, role, from, before) && now == before + Visible(role, Compact(page))
    requires after == if page == [] then from else page[|page| - 1].id
    ensures StandsAt(ReplayPage(c, page), role, after, now)
  {
  }

  /** One turn, seen from the ledger at a later time. */
  lemma TurnCarries(role: Role, log: seq<Event>, ledger: seq<Event>, after: int, before: seq<Event>, now: seq<Event>)
    requires Increasing(ledger) && log <= ledger && now == before + Visible(role, Compact(Page(log, after)))
    ensures after <= PageEnd(log, after) && CountUpTo(ledger, after) <= CountUpTo(ledger, PageEnd(log, after))
    ensures Carries(role, before, now, ledger, CountUpTo(ledger, after), CountUpTo(ledger, PageEnd(log, after)))
    ensures |Page(log, after)| < PAGE_SIZE ==> CountUpTo(log, PageEnd(log, after)) == |log|
  {
    var page := Page(log, after);
    CountUpToPrefix(log, ledger, after);
    var at, to := PageEnds(log, after, page);
    if page == [] {
      assert ledger[CountUpTo(ledger, after)..CountUpTo(ledger, after)] == [] && now == before;
    } else {
      PagePlaces(log, ledger, after);
      assert ledger[at..to] == page;
      PageCarries(ledger, role, at, page, before, now);
    }
  }

  /** What was written between before and now carries the key rows and the joins of ledger rows i..j, no more and no less. */
  ghost predicate Carries(role: Role, before: seq<Event>, now: seq<Event>, log: seq<Event>, i: nat, j: nat)
    requires i <= j <= |log|
  {
    && Key(role, now) == Key(role, before) + Key(role, log[i..j])
    && Deltas(now) == Deltas(before) + Joins(log[i..j])
  }

  lemma PageCarries(log: seq<Event>, role: Role, at: nat, page: seq<Event>, before: seq<Event>, now: seq<Event>)
    requires at + |page| <= |log| && page == log[at..at + |page|] && now == before + Visible(role, Compact(page))
    ensures Carries(role, before, now, log, at, at + |page|)
  {
    PageContent(log, role, at, page, Visible(role, Compact(page)));
    KeyConcat(role, before, Visible(role, Compact(page)), now);
    DeltasConcat(before, Visible(role, Compact(page)), now);
  }

  /** Where in the ledger a page begins and ends. */
  lemma PageEnds(log: seq<Event>, after: int, page: seq<Event>) returns (at: nat, to: nat)
    requires Increasing(log) && page == Page(log, after)
    ensures at == CountUpTo(log, after) && to == at + |page| <= |log| && page == log[at..to]
    ensures page != [] ==> after < page[|page| - 1].id && to == CountUpTo(log, page[|page| - 1].id)
    ensures |page| < PAGE_SIZE ==> to == |log|
  {
    at := CountUpTo(log, after);
    to := at + |page|;
    if page != [] {
      PageAdvances(log, after);
    }
  }

  lemma CarriesNothing(role: Role, sent: seq<Event>, log: seq<Event>, i: nat)
    requires i <= |log|
    ensures Carries(role, sent, sent, log, i, i)
  {
    assert log[i..i] == [];
  }

  /** Between two cursors, what was written carries the ledger rows in between. */
  ghost predicate Replayed(role: Role, ledger: seq<Event>, from: int, before: seq<Event>, to: int, now: seq<Event>) {
    && from <= to
    && CountUpTo(ledger, from) <= CountUpTo(ledger, to)
    && Carries(role, before, now, ledger, CountUpTo(ledger, from), CountUpTo(ledger, to))
  }

  /** A turn after others. */
  lemma TurnCarriesOn(role: Role, log: seq<Event>, ledger: seq<Event>, from: int, before: seq<Event>, after: int, was: seq<Event>, now: seq<Event>)
    requires Increasing(ledger) && log <= ledger && now == was + Visible(role, Compact(Page(log, after)))
    requires Replayed(role, ledger, from, before, after, was)
    ensures Replayed(role, ledger, from, before, PageEnd(log, after), now)
    ensures |Page(log, after)| < PAGE_SIZE ==> CountUpTo(log, PageEnd(log, after)) == |log|
  {
    TurnCarries(role, log, ledger, after, was, now);
    CarriesOn(role, before, was, now, ledger, CountUpTo(ledger, from), CountUpTo(ledger, after), CountUpTo(ledger, PageEnd(log, after)));
  }

  lemma CarriesOn(role: Role, a: seq<Event>, b: seq<Event>, c: seq<Event>, log: seq<Event>, i: nat, j: nat, k: nat)
    requires i <= j <= k <= |log| && Carries(role, a, b, log, i, j) && Carries(role, b, c, log, j, k)
    ensures Carries(role, a, c, log, i, k)
  {
    var both := log[i..k];
    var x, y := Cut(log, i, j - i, k - j, both);
    RowsConcat(role, x, y, both);
    Chain(Key(role, a), Key(role, x), Key(role, y), Key(role, b), Key(role, c));
  }

  lemma Chain<T>(a: seq<T>, x: seq<T>, y: seq<T>, b: seq<T>, c: seq<T>)
    requires b == a + x && c == b + y
    ensures c == a + (x + y)
  {
  }

  lemma RowsConcat(role: Role, a: seq<Event>, b: seq<Event>, both: seq<Event>)
    requires both == a + b
    ensures Key(role, both) == Key(role, a) + Key(role, b) && Joins(both) == Joins(a) + Joins(b)
  {
    KeyConcat(role, a, b, both);
    JoinsConcat(a, b, both);
  }
}

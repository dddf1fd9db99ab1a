/** Logs whose joins may become visible late: a join that drew its id early can commit after rows with greater ids are
    already being read. What the delivery protocol then still guarantees is stated by ids, not by ledger positions. */
module LateJoins {
  import opened Prelude
  import opened LiveEvents
  import opened EventLog
  import opened EventStream
  import opened Delivery
  import opened DeliverySteps
  import DeliveryTheorems
  import B = BrokerModel

  /** A join that may still become visible: its id is nobody else's. */
  ghost predicate MayArrive(log: seq<Event>, e: Event) {
    IsPresence(e) && 1 <= e.id && forall r <- log :: r.id != e.id
  }

  /** The ledger with one row more, in its place by id. */
  function Inserted(log: seq<Event>, e: Event): seq<Event> {
    log[..CountUpTo(log, e.id)] + [e] + log[CountUpTo(log, e.id)..]
  }

  lemma InsertedRows(log: seq<Event>, e: Event)
    ensures forall x :: x in Inserted(log, e) <==> x in log || x == e
  {
    var n := CountUpTo(log, e.id);
    assert log == log[..n] + log[n..];
  }

  /** The rows with lo < event_id <= hi. */
  function Stretch(log: seq<Event>, lo: int, hi: int): seq<Event> {
    var i, j := CountUpTo(log, lo), CountUpTo(log, hi);
    if i <= j then log[i..j] else []
  }

  lemma InsertedPlaces(log: seq<Event>, e: Event, longer: seq<Event>, a: int)
    requires Increasing(log) && MayArrive(log, e) && longer == Inserted(log, e)
    ensures CountUpTo(longer, a) == CountUpTo(log, a) + if e.id <= a then 1 else 0
    ensures e.id <= a ==> CountUpTo(log, e.id) <= CountUpTo(log, a)
    ensures a < e.id ==> CountUpTo(log, a) <= CountUpTo(log, e.id)
  {
    InsertedIncreases(log, e, longer);
    var n := CountUpTo(log, e.id);
    CountUpToSplits(log, a);
    CountUpToSplits(log, e.id);
    var m := CountUpTo(log, a) + if e.id <= a then 1 else 0;
    assert m > 0 ==> longer[m - 1].id <= a;
    assert m < |longer| ==> a < longer[m].id;
    CountUpToIs(longer, a, m);
  }

  lemma InsertedIncreases(log: seq<Event>, e: Event, longer: seq<Event>)
    requires Increasing(log) && MayArrive(log, e) && longer == Inserted(log, e)
    ensures Increasing(longer) && LatestId(log) <= LatestId(longer)
  {
    var n := CountUpTo(log, e.id);
    CountUpToSplits(log, e.id);
    assert forall i :: 0 <= i < |log| ==> log[i].id != e.id by {
      assert forall i :: 0 <= i < |log| ==> log[i] in log;
    }
    assert forall i :: 0 <= i < |longer| ==> longer[i] == if i < n then log[i] else if i == n then e else log[i - 1];
  }

  /** A late join changes nothing about the other rows of a stretch. */
  lemma InsertedStretch(role: Role, log: seq<Event>, e: Event, longer: seq<Event>, lo: int, hi: int)
    requires Increasing(log) && MayArrive(log, e) && longer == Inserted(log, e) && lo <= hi
    ensures Key(role, Stretch(longer, lo, hi)) == Key(role, Stretch(log, lo, hi))
  {
    var i, n, j, before, upTo := InsertedEnds(log, e, longer, lo, hi);
    InsertedKeys(role, log, e, longer, i, n, j, before, upTo);
  }

  /** Where a stretch lies before and after. */
  lemma InsertedEnds(log: seq<Event>, e: Event, longer: seq<Event>, lo: int, hi: int)
    returns (i: nat, n: nat, j: nat, before: bool, upTo: bool)
    requires Increasing(log) && MayArrive(log, e) && longer == Inserted(log, e) && lo <= hi
    ensures i <= j <= |log| && n <= |log| && longer == log[..n] + [e] + log[n..] && (before ==> upTo)
    ensures (if before then n <= i else i <= n) && (if upTo then n <= j else j <= n)
    ensures (before <==> e.id <= lo) && (upTo <==> e.id <= hi)
    ensures Stretch(log, lo, hi) == log[i..j]
    ensures Stretch(longer, lo, hi) == longer[i + (if before then 1 else 0)..j + if upTo then 1 else 0]
  {
    i, n, j, before, upTo := CountUpTo(log, lo), CountUpTo(log, e.id), CountUpTo(log, hi), e.id <= lo, e.id <= hi;
    InsertedPlaces(log, e, longer, lo);
    InsertedPlaces(log, e, longer, hi);
    StretchPlaces(log, lo, hi);
    InsertedIncreases(log, e, longer);
    StretchPlaces(longer, lo, hi);
  }

  lemma StretchPlaces(log: seq<Event>, lo: int, hi: int)
    requires Increasing(log) && lo <= hi
    ensures CountUpTo(log, lo) <= CountUpTo(log, hi) && Stretch(log, lo, hi) == log[CountUpTo(log, lo)..CountUpTo(log, hi)]
  {
    CountUpToMonotone(log, lo, hi);
  }

  lemma InsertedKeys(role: Role, log: seq<Event>, e: Event, longer: seq<Event>, i: nat, n: nat, j: nat, before: bool, upTo: bool)
    requires IsPresence(e) && i <= j <= |log| && n <= |log| && longer == log[..n] + [e] + log[n..] && (before ==> upTo)
    requires (if before then n <= i else i <= n) && (if upTo then n <= j else j <= n)
    ensures Key(role, longer[i + (if before then 1 else 0)..j + if upTo then 1 else 0]) == Key(role, log[i..j])
  {
    if upTo && !before {
      InsertedWithin(log, e, longer, i, n, j);
      KeyWithJoin(role, log[i..n], e, log[n..j], log[i..j], longer[i..j + 1]);
    } else {
      InsertedOutside(log, e, longer, i, n, j);
    }
  }

  lemma InsertedWithin(log: seq<Event>, e: Event, longer: seq<Event>, i: nat, n: nat, j: nat)
    requires i <= n <= j <= |log| && longer == log[..n] + [e] + log[n..]
    ensures longer[i..j + 1] == log[i..n] + [e] + log[n..j] && log[i..j] == log[i..n] + log[n..j]
  {
  }

  lemma InsertedOutside(log: seq<Event>, e: Event, longer: seq<Event>, i: nat, n: nat, j: nat)
    requires i <= j <= |log| && n <= |log| && longer == log[..n] + [e] + log[n..]
    ensures n <= i ==> longer[i + 1..j + 1] == log[i..j]
    ensures j <= n ==> longer[i..j] == log[i..j]
  {
  }

  lemma KeyWithJoin(role: Role, a: seq<Event>, e: Event, b: seq<Event>, both: seq<Event>, more: seq<Event>)
    requires IsPresence(e) && both == a + b && more == a + [e] + b
    ensures Key(role, more) == Key(role, both)
  {
    assert [e][..0] == [];
    assert Key(role, [e]) == [];
    KeyConcat(role, a, b, both);
    KeyConcat(role, a, [e], a + [e]);
    KeyConcat(role, a + [e], b, more);
  }

  // --- Stretches by id ----------------------------------------------------------------------------

  lemma StretchSplits(role: Role, log: seq<Event>, lo: int, mid: int, hi: int)
    requires Increasing(log) && lo <= mid <= hi
    ensures Key(role, Stretch(log, lo, hi)) == Key(role, Stretch(log, lo, mid)) + Key(role, Stretch(log, mid, hi))
  {
    CountUpToMonotone(log, lo, mid);
    CountUpToMonotone(log, mid, hi);
    KeyConcat(role, Stretch(log, lo, mid), Stretch(log, mid, hi), Stretch(log, lo, hi));
  }

  lemma StretchIds(role: Role, log: seq<Event>, lo: int, hi: int)
    requires Increasing(log)
    ensures forall e <- Key(role, Stretch(log, lo, hi)) :: lo < e.id <= hi
  {
    CountUpToSplits(log, lo);
    CountUpToSplits(log, hi);
    DeliveryTheorems.KeyIsPart(role, Stretch(log, lo, hi));
  }

  lemma StretchAppend(log: seq<Event>, e: Event, longer: seq<Event>, lo: int, hi: int)
    requires Increasing(longer) && longer == log + [e] && hi <= LatestId(log)
    ensures Stretch(longer, lo, hi) == Stretch(log, lo, hi) && hi <= LatestId(longer)
  {
    LatestBelow(log, e);
    CountUpToAppend(log, e, lo);
    CountUpToAppend(log, e, hi);
  }

  /** items, ids rising from lo to hi, hold the rows of that stretch of the log, joins aside. */
  ghost predicate Part(log: seq<Event>, lo: int, hi: int, items: seq<Event>) {
    && lo <= hi <= LatestId(log)
    && Ascending(lo, hi, items)
    && Key(Manager, items) == Key(Manager, Stretch(log, lo, hi))
  }

  lemma PartAppend(log: seq<Event>, e: Event, longer: seq<Event>, lo: int, hi: int, items: seq<Event>)
    requires Increasing(longer) && longer == log + [e] && Part(log, lo, hi, items)
    ensures Part(longer, lo, hi, items)
  {
    StretchAppend(log, e, longer, lo, hi);
  }

  lemma PartInserted(log: seq<Event>, e: Event, longer: seq<Event>, lo: int, hi: int, items: seq<Event>)
    requires Increasing(log) && MayArrive(log, e) && longer == Inserted(log, e) && Part(log, lo, hi, items)
    ensures Part(longer, lo, hi, items)
  {
    InsertedIncreases(log, e, longer);
    InsertedStretch(Manager, log, e, longer, lo, hi);
  }

  lemma PartJoin(log: seq<Event>, lo: int, mid: int, hi: int, a: seq<Event>, b: seq<Event>, both: seq<Event>)
    requires Increasing(log) && Part(log, lo, mid, a) && Part(log, mid, hi, b) && both == a + b
    ensures Part(log, lo, hi, both)
  {
    StretchSplits(Manager, log, lo, mid, hi);
    KeyConcat(Manager, a, b, both);
    AscendingConcat(lo, mid, hi, a, b, both);
  }

  /** The first of the items by itself, and the rest. */
  lemma PartHead(log: seq<Event>, lo: int, hi: int, items: seq<Event>)
    requires Increasing(log) && Part(log, lo, hi, items) && items != []
    ensures Part(log, lo, items[0].id, [items[0]]) && Part(log, items[0].id, hi, items[1..])
  {
    var x, head, tail := items[0].id, [items[0]], items[1..];
    assert items == head + tail;
    KeyConcat(Manager, head, tail, items);
    StretchSplits(Manager, log, lo, x, hi);
    StretchIds(Manager, log, lo, x);
    StretchIds(Manager, log, x, hi);
    DeliveryTheorems.KeyIsPart(Manager, head);
    DeliveryTheorems.KeyIsPart(Manager, tail);
    TailIds(items, lo, hi);
    DeliveryTheorems.SameCut(Key(Manager, head), Key(Manager, tail), Key(Manager, Stretch(log, lo, x)), Key(Manager, Stretch(log, x, hi)), x);
    SameTail(Key(Manager, head), Key(Manager, tail), Key(Manager, Stretch(log, x, hi)));
  }

  lemma TailIds(items: seq<Event>, lo: int, hi: int)
    requires Ascending(lo, hi, items) && items != []
    ensures Ascending(lo, items[0].id, [items[0]]) && Ascending(items[0].id, hi, items[1..]) && items[0].id <= hi
    ensures forall e <- items[1..] :: items[0].id < e.id
  {
    var tail := items[1..];
    assert forall i :: 0 <= i < |tail| ==> tail[i] == items[i + 1];
  }

  lemma SameTail<T>(a: seq<T>, b: seq<T>, c: seq<T>)
    requires a + b == a + c
    ensures b == c
  {
    assert (a + b)[|a|..] == b && (a + c)[|a|..] == c;
  }

  /** A compacted page, against the stretch it was read from. */
  lemma PartPage(log: seq<Event>, after: int, page: seq<Event>)
    requires Increasing(log) && page == Page(log, after) && page != []
    ensures Part(log, after, page[|page| - 1].id, Compact(page))
  {
    PageAdvances(log, after);
    PageAscending(log, Manager, after, page);
    VisibleIs(Manager, Compact(page));
    CompactionKeepsContent(Manager, page);
  }

  // --- The rules ---------------------------------------------------------------------------------------

  /** What a connection has put out is what its role may see of the rows its cursor has passed, joins aside. */
  ghost predicate KeyOk(log: seq<Event>, c: Conn) {
    && CursorOk(log, c)
    && Ascending(c.last, c.after, Output(c))
    && Key(c.role, Output(c)) == Key(c.role, Stretch(log, c.last, c.after))
  }

  /** The channel goes on from b, where its connection has read to, up to e; the outbox from there to the poller's cursor. */
  ghost predicate FedFrom(log: seq<Event>, c: Conn, ch: B.Channel, cursor: int, outbox: seq<Event>, b: int, e: int) {
    && Part(log, b, e, ch.buffer)
    && (ch.open ==> Part(log, e, cursor, outbox))
    && (c.live ==> b <= c.after)
  }

  ghost predicate Fed(log: seq<Event>, c: Conn, ch: B.Channel, cursor: int, outbox: seq<Event>) {
    KeyOk(log, c) && exists b, e :: FedFrom(log, c, ch, cursor, outbox, b, e)
  }

  ghost predicate Owed(log: seq<Event>, cursor: int, outbox: seq<Event>) {
    exists p :: Part(log, p, cursor, outbox)
  }

  // --- A ledger that grows ---------------------------------------------------------------------------------

  lemma KeyAppend(log: seq<Event>, e: Event, longer: seq<Event>, c: Conn)
    requires Increasing(longer) && longer == log + [e] && KeyOk(log, c)
    ensures KeyOk(longer, c)
  {
    CoveredAppend(log, e, longer, c);
  }

  lemma KeyInserted(log: seq<Event>, e: Event, longer: seq<Event>, c: Conn)
    requires Increasing(log) && MayArrive(log, e) && longer == Inserted(log, e) && KeyOk(log, c)
    ensures KeyOk(longer, c)
  {
    InsertedIncreases(log, e, longer);
    InsertedStretch(c.role, log, e, longer, c.last, c.after);
  }

  lemma FedAppend(log: seq<Event>, e: Event, longer: seq<Event>, c: Conn, ch: B.Channel, cursor: int, outbox: seq<Event>)
    requires Increasing(longer) && longer == log + [e] && Fed(log, c, ch, cursor, outbox)
    ensures Fed(longer, c, ch, cursor, outbox)
  {
    var b, x :| FedFrom(log, c, ch, cursor, outbox, b, x);
    KeyAppend(log, e, longer, c);
    PartAppend(log, e, longer, b, x, ch.buffer);
    if ch.open { PartAppend(log, e, longer, x, cursor, outbox); }
    assert FedFrom(longer, c, ch, cursor, outbox, b, x);
  }

  lemma FedInserted(log: seq<Event>, e: Event, longer: seq<Event>, c: Conn, ch: B.Channel, cursor: int, outbox: seq<Event>)
    requires Increasing(log) && MayArrive(log, e) && longer == Inserted(log, e) && Fed(log, c, ch, cursor, outbox)
    ensures Fed(longer, c, ch, cursor, outbox)
  {
    var b, x :| FedFrom(log, c, ch, cursor, outbox, b, x);
    KeyInserted(log, e, longer, c);
    PartInserted(log, e, longer, b, x, ch.buffer);
    if ch.open { PartInserted(log, e, longer, x, cursor, outbox); }
    assert FedFrom(longer, c, ch, cursor, outbox, b, x);
  }

  lemma OwedAppend(log: seq<Event>, e: Event, longer: seq<Event>, cursor: int, outbox: seq<Event>)
    requires Increasing(longer) && longer == log + [e] && Owed(log, cursor, outbox)
    ensures Owed(longer, cursor, outbox)
  {
    var p :| Part(log, p, cursor, outbox);
    PartAppend(log, e, longer, p, cursor, outbox);
  }

  lemma OwedInserted(log: seq<Event>, e: Event, longer: seq<Event>, cursor: int, outbox: seq<Event>)
    requires Increasing(log) && MayArrive(log, e) && longer == Inserted(log, e) && Owed(log, cursor, outbox)
    ensures Owed(longer, cursor, outbox)
  {
    var p :| Part(log, p, cursor, outbox);
    PartInserted(log, e, longer, p, cursor, outbox);
  }

  // --- The poller and the channels ------------------------------------------------------------------------

  lemma FedCloses(log: seq<Event>, c: Conn, ch: B.Channel, cursor: int, outbox: seq<Event>, cursor': int, outbox': seq<Event>)
    requires Fed(log, c, ch, cursor, outbox)
    ensures Fed(log, c, ch.(open := false), cursor', outbox')
  {
    var b, e :| FedFrom(log, c, ch, cursor, outbox, b, e);
    assert FedFrom(log, c, ch.(open := false), cursor', outbox', b, e);
  }

  lemma FedPoll(log: seq<Event>, c: Conn, ch: B.Channel, cursor: int, page: seq<Event>)
    requires Increasing(log) && Fed(log, c, ch, cursor, []) && page == Page(log, cursor) && page != []
    ensures Fed(log, c, ch, page[|page| - 1].id, Compact(page))
  {
    var b, e :| FedFrom(log, c, ch, cursor, [], b, e);
    if ch.open {
      PartPage(log, cursor, page);
      PartJoin(log, e, cursor, page[|page| - 1].id, [], Compact(page), Compact(page));
    }
    assert FedFrom(log, c, ch, page[|page| - 1].id, Compact(page), b, e);
  }

  lemma OwedPoll(log: seq<Event>, cursor: int, page: seq<Event>)
    requires Increasing(log) && page == Page(log, cursor) && page != []
    ensures Owed(log, page[|page| - 1].id, Compact(page))
  {
    PartPage(log, cursor, page);
  }

  lemma OwedPublish(log: seq<Event>, cursor: int, outbox: seq<Event>)
    requires Increasing(log) && Owed(log, cursor, outbox) && outbox != []
    ensures Owed(log, cursor, outbox[1..])
  {
    var p :| Part(log, p, cursor, outbox);
    PartHead(log, p, cursor, outbox);
  }

  /** The row goes from the outbox into the channel. */
  lemma FedPublish(log: seq<Event>, c: Conn, ch: B.Channel, cursor: int, outbox: seq<Event>, ch': B.Channel)
    requires Increasing(log) && Fed(log, c, ch, cursor, outbox) && outbox != [] && ch.open
    requires ch' == ch.(buffer := ch.buffer + [outbox[0]])
    ensures Fed(log, c, ch', cursor, outbox[1..])
  {
    var b, e :| FedFrom(log, c, ch, cursor, outbox, b, e);
    PartHead(log, e, cursor, outbox);
    PartJoin(log, b, e, outbox[0].id, ch.buffer, [outbox[0]], ch'.buffer);
    assert FedFrom(log, c, ch', cursor, outbox[1..], b, outbox[0].id);
  }

  lemma FedNew(log: seq<Event>, session: Uuid, role: Role, last: int, k: nat, n: nat, cursor: int, outbox: seq<Event>)
    requires Increasing(log) && Owed(log, cursor, outbox)
    ensures Fed(log, NewConn(session, role, last, k, n), B.Channel(k, [], true), cursor, outbox)
  {
    var c, ch := NewConn(session, role, last, k, n), B.Channel(k, [], true);
    var p :| Part(log, p, cursor, outbox);
    assert Output(c) == [] && Stretch(log, last, last) == [] && Stretch(log, p, p) == [];
    assert FedFrom(log, c, ch, cursor, outbox, p, p);
  }

  lemma OwedNew(log: seq<Event>, cursor: int)
    requires cursor <= LatestId(log)
    ensures Owed(log, cursor, [])
  {
    assert Stretch(log, cursor, cursor) == [];
    assert Part(log, cursor, cursor, []);
  }

  // --- The connection ----------------------------------------------------------------------------------------

  /** The cursor moves on while the output grows by what the role may see in between. */
  lemma KeyGrows(log: seq<Event>, c: Conn, c': Conn, shown: seq<Event>)
    requires Increasing(log) && KeyOk(log, c) && c'.role == c.role && c'.last == c.last
    requires c'.written == c.written && c'.queue == c.queue + shown && c.after <= c'.after
    requires c'.after == c.after || c'.after <= LatestId(log)
    requires Ascending(c.after, c'.after, shown) && Key(c.role, shown) == Key(c.role, Stretch(log, c.after, c'.after))
    ensures KeyOk(log, c')
  {
    OutputGrows(c, c', shown);
    StretchSplits(c.role, log, c.last, c.after, c'.after);
    KeyConcat(c.role, Output(c), shown, Output(c'));
    AscendingConcat(c.last, c.after, c'.after, Output(c), shown, Output(c'));
  }

  /** What a page shows is what its stretch holds for the role. */
  lemma PageShows(log: seq<Event>, role: Role, after: int, page: seq<Event>, shown: seq<Event>)
    requires Increasing(log) && page == Page(log, after) && page != [] && shown == Visible(role, Compact(page))
    ensures after < page[|page| - 1].id <= LatestId(log) && Ascending(after, page[|page| - 1].id, shown)
    ensures Key(role, shown) == Key(role, Stretch(log, after, page[|page| - 1].id))
  {
    PageAdvances(log, after);
    PageAscending(log, role, after, page);
    PageContent(log, role, CountUpTo(log, after), page, shown);
  }

  lemma KeyReplay(log: seq<Event>, c: Conn, page: seq<Event>, c': Conn)
    requires Increasing(log) && KeyOk(log, c) && page == Page(log, c.after) && c' == ReplayPage(c, page)
    ensures KeyOk(log, c')
  {
    var shown := Visible(c.role, Compact(page));
    if page == [] {
      assert Output(c') == Output(c);
    } else {
      PageShows(log, c.role, c.after, page, shown);
      KeyGrows(log, c, c', shown);
    }
  }

  /** After the last page everything visible is behind the cursor, so the channel starts no later. */
  lemma ReplayEndsPast(log: seq<Event>, after: int, page: seq<Event>, b: int, e: int, items: seq<Event>)
    returns (b': int)
    requires Increasing(log) && page == Page(log, after) && |page| < PAGE_SIZE && Part(log, b, e, items)
    ensures b' <= PageEnd(log, after) && Part(log, b', e, items)
  {
    var end := PageEnd(log, after);
    ReplayEnds(log, after, page, end);
    CountUpToSplits(log, end);
    assert log != [] ==> LatestId(log) <= end;
    b' := if b <= end then b else end;
  }

  lemma FedReplay(log: seq<Event>, c: Conn, ch: B.Channel, cursor: int, outbox: seq<Event>, page: seq<Event>)
    requires Increasing(log) && Fed(log, c, ch, cursor, outbox) && page == Page(log, c.after)
    ensures Fed(log, ReplayPage(c, page), ch, cursor, outbox)
  {
    var c' := ReplayPage(c, page);
    KeyReplay(log, c, page, c');
    var b, e :| FedFrom(log, c, ch, cursor, outbox, b, e);
    if |page| < PAGE_SIZE {
      var b' := ReplayEndsPast(log, c.after, page, b, e, ch.buffer);
      assert FedFrom(log, c', ch, cursor, outbox, b', e);
    } else {
      assert FedFrom(log, c', ch, cursor, outbox, b, e);
    }
  }

  /** A row from the channel, ahead of the cursor, is all there is between the cursor and its id, joins aside. */
  lemma RowIsNext(log: seq<Event>, role: Role, b: int, item: Event, after: int)
    requires Increasing(log) && Part(log, b, item.id, [item]) && b <= after < item.id
    ensures Key(role, [item]) == Key(role, Stretch(log, after, item.id))
  {
    StretchSplits(Manager, log, b, after, item.id);
    StretchIds(Manager, log, b, after);
    StretchIds(Manager, log, after, item.id);
    var early, late := Key(Manager, Stretch(log, b, after)), Key(Manager, Stretch(log, after, item.id));
    DeliveryTheorems.KeyIsPart(Manager, [item]);
    DeliveryTheorems.SameCut([], Key(Manager, [item]), early, late, after);
    SameTail([], Key(Manager, [item]), late);
    KeyOfKey(role, [item]);
    KeyOfKey(role, Stretch(log, after, item.id));
  }

  /** Every role sees a part of what a manager sees. */
  lemma {:induction false} KeyOfKey(role: Role, s: seq<Event>)
    ensures Key(role, Key(Manager, s)) == Key(role, s)
    decreases |s|
  {
    if s != [] {
      var front, e := s[..|s| - 1], s[|s| - 1];
      KeyOfKey(role, front);
      if IsKey(Manager, e) {
        var more := Key(Manager, front) + [e];
        assert more[..|more| - 1] == Key(Manager, front);
      }
    }
  }

  /** What such a row shows. */
  lemma RowShows(log: seq<Event>, role: Role, b: int, item: Event, after: int, shown: seq<Event>)
    requires Increasing(log) && Part(log, b, item.id, [item]) && b <= after < item.id && shown == Visible(role, [item])
    ensures Ascending(after, item.id, shown) && Key(role, shown) == Key(role, Stretch(log, after, item.id))
  {
    RowIsNext(log, role, b, item, after);
    VisibleKeepsKey(role, [item], shown);
    VisibleAscending(role, after, item.id, [item]);
  }

  lemma KeyReceive(log: seq<Event>, c: Conn, item: Event, b: int, c': Conn)
    requires Increasing(log) && KeyOk(log, c) && Part(log, b, item.id, [item]) && b <= c.after
    requires c' == ReceiveRow(c, item, log)
    ensures KeyOk(log, c')
  {
    if item.id <= c.after {
      assert Output(c') == Output(c);
    } else {
      var shown := Visible(c.role, [item]);
      RowShows(log, c.role, b, item, c.after, shown);
      KeyGrows(log, c, c', shown);
    }
  }

  lemma FedReceive(log: seq<Event>, c: Conn, ch: B.Channel, cursor: int, outbox: seq<Event>, ch': B.Channel)
    requires Increasing(log) && Fed(log, c, ch, cursor, outbox) && c.live && ch.buffer != []
    requires ch' == ch.(buffer := ch.buffer[1..])
    ensures Fed(log, ReceiveRow(c, ch.buffer[0], log), ch', cursor, outbox)
  {
    var item, c' := ch.buffer[0], ReceiveRow(c, ch.buffer[0], log);
    var b, e :| FedFrom(log, c, ch, cursor, outbox, b, e);
    PartHead(log, b, e, ch.buffer);
    KeyReceive(log, c, item, b, c');
    assert FedFrom(log, c', ch', cursor, outbox, item.id, e);
  }

  lemma FedWrite(log: seq<Event>, c: Conn, ch: B.Channel, cursor: int, outbox: seq<Event>, c': Conn)
    requires Fed(log, c, ch, cursor, outbox) && Output(c') == Output(c)
    requires c'.role == c.role && c'.last == c.last && c'.after == c.after && c'.live == c.live
    ensures Fed(log, c', ch, cursor, outbox)
  {
    var b, e :| FedFrom(log, c, ch, cursor, outbox, b, e);
    assert FedFrom(log, c', ch, cursor, outbox, b, e);
  }
}

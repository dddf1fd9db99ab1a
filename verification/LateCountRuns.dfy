/** What a connection announces of the joins, over logs whose joins may become visible late. */
module LateCountRuns {
  import opened Prelude
  import opened LiveEvents
  import opened EventLog
  import opened EventStream
  import opened Delivery
  import opened LateJoins
  import opened LateCounts
  import opened LateRuns
  import DeliverySteps
  import B = BrokerModel

  /** The outbox goes on from what has been published to the poller's cursor. */
  ghost predicate FeedOk(log: seq<Event>, cursor: int, outbox: seq<Event>, f: Feed) {
    && cursor <= LatestId(log)
    && Laid(log, f.late, f.sent, outbox, Zeros(|outbox|), cursor)
    && forall x <- f.late :: 1 <= x <= cursor
  }

  /** The channel goes on from what has been taken out of it up to e: while it is open, up to what has been published. */
  ghost predicate ChannelUpTo(log: seq<Event>, ch: B.Channel, cursor: int, f: Feed, p: Pass, e: int) {
    && e <= cursor <= LatestId(log)
    && Laid(log, f.late, p.base, ch.buffer, Zeros(|ch.buffer|), e)
    && (ch.open ==> e == f.sent)
  }

  /** A live connection has read past what was taken out of its channel, and ahead of its cursor it shares its poller's
      history; another has only its own. */
  ghost predicate Shares(c: Conn, f: Feed, p: Pass) {
    if c.live then Behind(p.base, c.after) && forall x: int :: c.after < x ==> (x in p.late <==> x in f.late)
    else forall x <- p.late :: x <= c.after
  }

  ghost predicate OutputLaid(log: seq<Event>, c: Conn, p: Pass) {
    CursorOk(log, c) && Laid(log, p.late, c.last, Output(c), p.agains, c.after)
  }

  ghost predicate PassOk(log: seq<Event>, c: Conn, ch: B.Channel, cursor: int, outbox: seq<Event>, f: Feed, p: Pass) {
    && OutputLaid(log, c, p)
    && Shares(c, f, p)
    && exists e: int :: ChannelUpTo(log, ch, cursor, f, p, e)
  }

  // --- A log that grows -----------------------------------------------------------------------------

  lemma FeedGrows(log: seq<Event>, e: Event, longer: seq<Event>, i: int, o: seq<Event>, f: Feed)
    requires Increasing(longer) && longer == log + [e] && FeedOk(log, i, o, f)
    ensures FeedOk(longer, i, o, f)
  {
    LatestBelow(log, e);
    LaidAppend(log, e, longer, f.late, f.sent, o, Zeros(|o|), i);
  }

  lemma OutputGrowsOld(log: seq<Event>, e: Event, longer: seq<Event>, c: Conn, p: Pass)
    requires Increasing(longer) && longer == log + [e] && OutputLaid(log, c, p)
    ensures OutputLaid(longer, c, p)
  {
    DeliverySteps.CoveredAppend(log, e, longer, c);
    if c.after <= LatestId(log) {
      LaidAppend(log, e, longer, p.late, c.last, Output(c), p.agains, c.after);
    } else {
      LaidUp(log, p.late, c.last, Output(c), p.agains, c.after);
      assert Output(c) == [];
      CountNone(longer, p.late, c.last);
    }
  }

  lemma PassGrows(log: seq<Event>, e: Event, longer: seq<Event>, c: Conn, ch: B.Channel, i: int, o: seq<Event>, f: Feed, p: Pass)
    requires Increasing(longer) && longer == log + [e] && PassOk(log, c, ch, i, o, f, p)
    ensures PassOk(longer, c, ch, i, o, f, p)
  {
    LatestBelow(log, e);
    OutputGrowsOld(log, e, longer, c, p);
    var x: int :| ChannelUpTo(log, ch, i, f, p, x);
    LaidAppend(log, e, longer, f.late, p.base, ch.buffer, Zeros(|ch.buffer|), x);
    assert ChannelUpTo(longer, ch, i, f, p, x);
  }

  lemma CountsGrow()
    ensures GrowClosed(PassOk, FeedOk)
  {
    forall log: seq<Event>, e: Event | Increasing(log + [e])
      ensures forall c, ch, i, o, f, p :: PassOk(log, c, ch, i, o, f, p) ==> PassOk(log + [e], c, ch, i, o, f, p)
      ensures forall i, o, f :: FeedOk(log, i, o, f) ==> FeedOk(log + [e], i, o, f)
    {
      var longer := log + [e];
      forall c: Conn, ch: B.Channel, i: int, o: seq<Event>, f: Feed, p: Pass | PassOk(log, c, ch, i, o, f, p) ensures PassOk(longer, c, ch, i, o, f, p) {
        PassGrows(log, e, longer, c, ch, i, o, f, p);
      }
      forall i: int, o: seq<Event>, f: Feed | FeedOk(log, i, o, f) ensures FeedOk(longer, i, o, f) {
        FeedGrows(log, e, longer, i, o, f);
      }
    }
  }

  // --- A join that becomes visible late -----------------------------------------------------------------

  lemma FeedLate(log: seq<Event>, e: Event, longer: seq<Event>, i: int, o: seq<Event>, f: Feed)
    requires Increasing(log) && MayArrive(log, e) && longer == Inserted(log, e) && FeedOk(log, i, o, f)
    ensures FeedOk(longer, i, o, LateFeed(f, i, e))
  {
    InsertedIncreases(log, e, longer);
    LaidInserted(log, e, longer, f.late, LateFeed(f, i, e).late, f.sent, o, Zeros(|o|), i);
  }

  lemma OutputLate(log: seq<Event>, e: Event, longer: seq<Event>, c: Conn, i: int, p: Pass)
    requires Increasing(log) && MayArrive(log, e) && longer == Inserted(log, e) && OutputLaid(log, c, p)
    ensures OutputLaid(longer, c, LatePass(p, c, i, e))
  {
    InsertedIncreases(log, e, longer);
    LaidInserted(log, e, longer, p.late, LatePass(p, c, i, e).late, c.last, Output(c), p.agains, c.after);
  }

  lemma SharesLate(c: Conn, i: int, e: Event, f: Feed, p: Pass)
    requires Shares(c, f, p)
    ensures Shares(c, LateFeed(f, i, e), LatePass(p, c, i, e))
  {
  }

  lemma ChannelLate(log: seq<Event>, e: Event, longer: seq<Event>, ch: B.Channel, i: int, f: Feed, p: Pass, x: int, p': Pass)
    requires Increasing(log) && MayArrive(log, e) && longer == Inserted(log, e) && ChannelUpTo(log, ch, i, f, p, x) && p'.base == p.base
    ensures ChannelUpTo(longer, ch, i, LateFeed(f, i, e), p', x)
  {
    InsertedIncreases(log, e, longer);
    LaidInserted(log, e, longer, f.late, LateFeed(f, i, e).late, p.base, ch.buffer, Zeros(|ch.buffer|), x);
  }

  lemma PassLate(log: seq<Event>, e: Event, longer: seq<Event>, c: Conn, ch: B.Channel, i: int, o: seq<Event>, f: Feed, p: Pass)
    requires Increasing(log) && MayArrive(log, e) && longer == Inserted(log, e) && PassOk(log, c, ch, i, o, f, p)
    ensures PassOk(longer, c, ch, i, o, LateFeed(f, i, e), LatePass(p, c, i, e))
  {
    OutputLate(log, e, longer, c, i, p);
    SharesLate(c, i, e, f, p);
    var x: int :| ChannelUpTo(log, ch, i, f, p, x);
    ChannelLate(log, e, longer, ch, i, f, p, x, LatePass(p, c, i, e));
  }

  lemma CountsLate()
    ensures LateClosed(PassOk, FeedOk)
  {
    forall log: seq<Event>, e: Event | Increasing(log) && MayArrive(log, e)
      ensures forall c, ch, i, o, f, p :: PassOk(log, c, ch, i, o, f, p) ==> PassOk(Inserted(log, e), c, ch, i, o, LateFeed(f, i, e), LatePass(p, c, i, e))
      ensures forall i, o, f :: FeedOk(log, i, o, f) ==> FeedOk(Inserted(log, e), i, o, LateFeed(f, i, e))
    {
      var longer := Inserted(log, e);
      forall c: Conn, ch: B.Channel, i: int, o: seq<Event>, f: Feed, p: Pass | PassOk(log, c, ch, i, o, f, p)
        ensures PassOk(longer, c, ch, i, o, LateFeed(f, i, e), LatePass(p, c, i, e))
      {
        PassLate(log, e, longer, c, ch, i, o, f, p);
      }
      forall i: int, o: seq<Event>, f: Feed | FeedOk(log, i, o, f) ensures FeedOk(longer, i, o, LateFeed(f, i, e)) {
        FeedLate(log, e, longer, i, o, f);
      }
    }
  }

  // --- The poller and the channels ------------------------------------------------------------------------

  lemma CountsClose()
    ensures CloseClosed(PassOk)
  {
    forall l: seq<Event>, c: Conn, ch: B.Channel, i: int, o: seq<Event>, f: Feed, p: Pass | PassOk(l, c, ch, i, o, f, p)
      ensures PassOk(l, c, ch.(open := false), i, o, f, p)
    {
      var x: int :| ChannelUpTo(l, ch, i, f, p, x);
      assert ChannelUpTo(l, ch.(open := false), i, f, p, x);
    }
  }

  /** A compacted page lies over what it was read from. */
  lemma PageLaid(log: seq<Event>, late: set<int>, after: int, page: seq<Event>)
    requires Increasing(log) && page == Page(log, after) && page != [] && forall x <- late :: x <= after
    ensures Laid(log, late, after, Compact(page), Zeros(|Compact(page)|), page[|page| - 1].id)
    ensures after < page[|page| - 1].id <= LatestId(log)
  {
    var at, items := CountUpTo(log, after), Compact(page);
    PageAdvances(log, after);
    CompactTiles(log, at, |page|, page);
    CountUpToSplits(log, after);
    TilesAscending(log, at, items, after);
    LaidTiles(log, late, after, at, items, Zeros(|items|), page[|page| - 1].id);
  }

  lemma FeedPolls(log: seq<Event>, i: int, f: Feed, page: seq<Event>)
    requires Increasing(log) && FeedOk(log, i, [], f) && page == Page(log, i) && page != []
    ensures FeedOk(log, page[|page| - 1].id, Compact(page), f)
  {
    PageLaid(log, f.late, i, page);
    LaidBefore(log, f.late, f.sent, i, Compact(page), Zeros(|Compact(page)|), page[|page| - 1].id);
  }

  lemma CountsPoll()
    ensures PollClosed(PassOk, FeedOk)
  {
    forall log: seq<Event>, i: int, f: Feed | Increasing(log) && FeedOk(log, i, [], f) && Page(log, i) != []
      ensures FeedOk(log, PageEnd(log, i), Compact(Page(log, i)), f)
      ensures forall c, ch, p :: PassOk(log, c, ch, i, [], f, p) ==> PassOk(log, c, ch, PageEnd(log, i), Compact(Page(log, i)), f, p)
    {
      FeedPolls(log, i, f, Page(log, i));
      PageAdvances(log, i);
      var o, end := Compact(Page(log, i)), PageEnd(log, i);
      forall c: Conn, ch: B.Channel, p: Pass | PassOk(log, c, ch, i, [], f, p) ensures PassOk(log, c, ch, end, o, f, p) {
        var x: int :| ChannelUpTo(log, ch, i, f, p, x);
        assert ChannelUpTo(log, ch, end, f, p, x);
      }
    }
  }

  /** The first of the rows by itself, and the rest. */
  lemma LaidFirst(log: seq<Event>, late: set<int>, lo: int, items: seq<Event>, hi: int)
    requires items != [] && Laid(log, late, lo, items, Zeros(|items|), hi)
    ensures Laid(log, late, lo, [items[0]], Zeros(1), items[0].id)
    ensures lo < items[0].id <= hi && Laid(log, late, items[0].id, items[1..], Zeros(|items[1..]|), hi)
  {
    assert Zeros(|items|)[1..] == Zeros(|items[1..]|) && Zeros(1)[1..] == [] && [items[0]][1..] == [];
    CountNone(log, late, items[0].id);
    assert Laid(log, late, items[0].id, [], [], items[0].id);
  }

  lemma FeedPublishes(log: seq<Event>, i: int, o: seq<Event>, f: Feed)
    requires FeedOk(log, i, o, f) && o != []
    ensures FeedOk(log, i, o[1..], f.(sent := o[0].id))
  {
    LaidFirst(log, f.late, f.sent, o, i);
  }

  lemma PassPublishes(log: seq<Event>, c: Conn, ch: B.Channel, i: int, o: seq<Event>, f: Feed, p: Pass, ch': B.Channel, f': Feed)
    requires Increasing(log) && FeedOk(log, i, o, f) && PassOk(log, c, ch, i, o, f, p) && o != [] && f' == f.(sent := o[0].id)
    requires ch' == ch.(open := false) || (ch.open && ch' == ch.(buffer := ch.buffer + [o[0]]))
    ensures PassOk(log, c, ch', i, o[1..], f', p)
  {
    var x: int :| ChannelUpTo(log, ch, i, f, p, x);
    if ch' == ch.(open := false) {
      assert ChannelUpTo(log, ch', i, f', p, x);
    } else {
      LaidFirst(log, f.late, f.sent, o, i);
      assert Zeros(|ch'.buffer|) == Zeros(|ch.buffer|) + Zeros(1);
      LaidJoin(log, f.late, p.base, ch.buffer, Zeros(|ch.buffer|), x, [o[0]], Zeros(1), o[0].id, ch'.buffer, Zeros(|ch'.buffer|));
      assert ChannelUpTo(log, ch', i, f', p, o[0].id);
    }
  }

  lemma CountsPublish()
    ensures PublishClosed(PassOk, FeedOk)
  {
    forall log: seq<Event>, i: int, o: seq<Event>, f: Feed | Increasing(log) && FeedOk(log, i, o, f) && o != []
      ensures FeedOk(log, i, o[1..], f.(sent := o[0].id))
      ensures forall c, ch, p :: PassOk(log, c, ch, i, o, f, p) ==>
        && PassOk(log, c, ch.(open := false), i, o[1..], f.(sent := o[0].id), p)
        && (ch.open ==> PassOk(log, c, ch.(buffer := ch.buffer + [o[0]]), i, o[1..], f.(sent := o[0].id), p))
    {
      FeedPublishes(log, i, o, f);
      var f' := f.(sent := o[0].id);
      forall c: Conn, ch: B.Channel, p: Pass | PassOk(log, c, ch, i, o, f, p)
        ensures PassOk(log, c, ch.(open := false), i, o[1..], f', p)
        ensures ch.open ==> PassOk(log, c, ch.(buffer := ch.buffer + [o[0]]), i, o[1..], f', p)
      {
        PassPublishes(log, c, ch, i, o, f, p, ch.(open := false), f');
        if ch.open { PassPublishes(log, c, ch, i, o, f, p, ch.(buffer := ch.buffer + [o[0]]), f'); }
      }
    }
  }

  lemma NewPassOk(log: seq<Event>, i: int, o: seq<Event>, f: Feed, n: nat, k: nat, session: Uuid, role: Role, last: int)
    requires Increasing(log) && FeedOk(log, i, o, f)
    ensures PassOk(log, NewConn(session, role, last, k, n), B.Channel(k, [], true), i, o, f, Pass(f.sent, {}, []))
  {
    var c, ch, p := NewConn(session, role, last, k, n), B.Channel(k, [], true), Pass(f.sent, {}, []);
    assert Output(c) == [];
    CountNone(log, {}, last);
    CountNone(log, f.late, f.sent);
    LaidUp(log, f.late, f.sent, o, Zeros(|o|), i);
    assert Zeros(0) == [];
    assert ChannelUpTo(log, ch, i, f, p, f.sent);
  }

  lemma CountsFresh()
    ensures FreshClosed(PassOk, FeedOk)
  {
    forall log: seq<Event>, i: int, o: seq<Event>, f: Feed, n: nat, k: nat, session: Uuid, role: Role, last: int | Increasing(log) && FeedOk(log, i, o, f)
      ensures PassOk(log, NewConn(session, role, last, k, n), B.Channel(k, [], true), i, o, f, Pass(f.sent, {}, []))
    {
      NewPassOk(log, i, o, f, n, k, session, role, last);
    }
    forall log: seq<Event>, i: int | Increasing(log) && i <= LatestId(log) ensures FeedOk(log, i, [], Feed(i, {})) {
      CountNone(log, {}, i);
      assert Zeros(0) == [];
    }
  }

  // --- The connection ------------------------------------------------------------------------------------------

  /** The cursor moves on while the output grows by rows that lie over what is in between. */
  lemma OutputMoves(log: seq<Event>, c: Conn, c': Conn, p: Pass, p': Pass, shown: seq<Event>, agains: seq<nat>)
    requires Increasing(log) && OutputLaid(log, c, p) && c'.last == c.last && c'.written == c.written && c'.queue == c.queue + shown
    requires p'.late == p.late && p'.agains == p.agains + agains && c.after < c'.after <= LatestId(log)
    requires Laid(log, p.late, c.after, shown, agains, c'.after)
    ensures OutputLaid(log, c', p')
  {
    OutputGrows(c, c', shown);
    LaidJoin(log, p.late, c.last, Output(c), p.agains, c.after, shown, agains, c'.after, Output(c'), p'.agains);
  }

  lemma OutputReplays(log: seq<Event>, c: Conn, p: Pass, page: seq<Event>)
    requires Increasing(log) && OutputLaid(log, c, p) && page == Page(log, c.after) && forall x <- p.late :: x <= c.after
    ensures OutputLaid(log, ReplayPage(c, page), ReplayedPass(p, c, page)) && c.after <= ReplayPage(c, page).after
  {
    var items, c', p' := Compact(page), ReplayPage(c, page), ReplayedPass(p, c, page);
    var shown := Visible(c.role, items);
    if page == [] {
      assert shown == [] && Output(c') == Output(c) && p'.agains == p.agains;
    } else {
      PageLaid(log, p.late, c.after, page);
      LaidVisible(c.role, log, p.late, c.after, items, Zeros(|items|), c'.after, shown, Zeros(|shown|));
      OutputMoves(log, c, c', p, p', shown, Zeros(|shown|));
    }
  }

  /** When the replay ends there is nothing left above the cursor, for the poller neither. */
  lemma SharesAtLast(log: seq<Event>, c: Conn, f: Feed, p: Pass, cursor: int, c': Conn, p': Pass)
    requires Increasing(log) && CountUpTo(log, c'.after) == |log| && c'.live && c.after <= c'.after
    requires p.base <= cursor <= LatestId(log) && (forall x <- f.late :: 1 <= x <= cursor) && forall x <- p.late :: x <= c.after
    requires p'.base == p.base && p'.late == p.late
    ensures Shares(c', f, p')
  {
    CountUpToSplits(log, c'.after);
    assert log != [] ==> LatestId(log) <= c'.after;
    forall x: int | c'.after < x ensures x in p'.late <==> x in f.late {
      assert x !in p.late && x !in f.late;
    }
  }

  lemma PassReplays(log: seq<Event>, c: Conn, ch: B.Channel, i: int, o: seq<Event>, f: Feed, p: Pass, page: seq<Event>)
    requires Increasing(log) && FeedOk(log, i, o, f) && PassOk(log, c, ch, i, o, f, p) && !c.live && page == Page(log, c.after)
    ensures PassOk(log, ReplayPage(c, page), ch, i, o, f, ReplayedPass(p, c, page))
  {
    var c', p' := ReplayPage(c, page), ReplayedPass(p, c, page);
    OutputReplays(log, c, p, page);
    var x: int :| ChannelUpTo(log, ch, i, f, p, x);
    LaidUp(log, f.late, p.base, ch.buffer, Zeros(|ch.buffer|), x);
    if c'.live {
      ReplayEnds(log, c.after, page, c'.after);
      SharesAtLast(log, c, f, p, i, c', p');
    }
    assert ChannelUpTo(log, ch, i, f, p', x);
  }

  lemma CountsReplay()
    ensures ReplayClosed(PassOk, FeedOk)
  {
    forall log: seq<Event>, c: Conn, ch: B.Channel, i: int, o: seq<Event>, f: Feed, p: Pass |
      Increasing(log) && FeedOk(log, i, o, f) && PassOk(log, c, ch, i, o, f, p) && !c.live && c.queue == []
      ensures PassOk(log, ReplayPage(c, Page(log, c.after)), ch, i, o, f, ReplayedPass(p, c, Page(log, c.after)))
    {
      PassReplays(log, c, ch, i, o, f, p, Page(log, c.after));
    }
  }

  /** A row ahead of the cursor announces the joins ahead of the cursor, and those between where it begins and the cursor again. */
  lemma AheadAndAgain(log: seq<Event>, c: Conn, f: Feed, p: Pass, item: Event)
    requires Increasing(log) && c.live && Shares(c, f, p) && p.base < item.id && c.after < item.id
    requires Told(item) == Count(log, f.late, p.base, item.id)
    ensures Told(item) == Count(log, p.late, c.after, item.id) + Again(log, f, p, c, item)
  {
    CountSplits(log, f.late, p.base, c.after, item.id);
    CountSame(log, f.late, p.late, c.after, item.id);
  }

  lemma OutputReceives(log: seq<Event>, c: Conn, f: Feed, p: Pass, item: Event)
    requires Increasing(log) && OutputLaid(log, c, p) && c.live && Shares(c, f, p) && p.base < item.id <= LatestId(log) && Stamped(log, item)
    requires Told(item) == Count(log, f.late, p.base, item.id)
    ensures OutputLaid(log, ReceiveRow(c, item, log), ReceivedPass(log, f, p, c, item))
  {
    var c', p' := ReceiveRow(c, item, log), ReceivedPass(log, f, p, c, item);
    if item.id <= c.after {
      assert Output(c') == Output(c);
    } else {
      var shown := Visible(c.role, [item]);
      var again := Again(log, f, p, c, item);
      assert [item][..0] == [];
      AheadAndAgain(log, c, f, p, item);
      LaidOne(c.role, log, p.late, c.after, item, again, shown, if shown == [] then [] else [again]);
      OutputMoves(log, c, c', p, p', shown, if shown == [] then [] else [again]);
    }
  }

  lemma PassReceives(log: seq<Event>, c: Conn, ch: B.Channel, i: int, o: seq<Event>, f: Feed, p: Pass, ch': B.Channel)
    requires Increasing(log) && PassOk(log, c, ch, i, o, f, p) && c.live && ch.buffer != [] && ch' == ch.(buffer := ch.buffer[1..])
    ensures PassOk(log, ReceiveRow(c, ch.buffer[0], log), ch', i, o, f, ReceivedPass(log, f, p, c, ch.buffer[0]))
  {
    var item := ch.buffer[0];
    var c', p' := ReceiveRow(c, item, log), ReceivedPass(log, f, p, c, item);
    var x: int :| ChannelUpTo(log, ch, i, f, p, x);
    LaidFirst(log, f.late, p.base, ch.buffer, x);
    OutputReceives(log, c, f, p, item);
    assert Shares(c', f, p');
    assert ChannelUpTo(log, ch', i, f, p', x);
  }

  lemma CountsReceive()
    ensures ReceiveClosed(PassOk, FeedOk)
  {
    forall log: seq<Event>, c: Conn, ch: B.Channel, i: int, o: seq<Event>, f: Feed, p: Pass |
      Increasing(log) && FeedOk(log, i, o, f) && PassOk(log, c, ch, i, o, f, p) && c.live && ch.buffer != []
      ensures PassOk(log, ReceiveRow(c, ch.buffer[0], log), ch.(buffer := ch.buffer[1..]), i, o, f, ReceivedPass(log, f, p, c, ch.buffer[0]))
    {
      PassReceives(log, c, ch, i, o, f, p, ch.(buffer := ch.buffer[1..]));
    }
  }

  lemma CountsWrite()
    ensures WriteClosed(PassOk)
  {
    forall log: seq<Event>, c: Conn, ch: B.Channel, i: int, o: seq<Event>, f: Feed, p: Pass | PassOk(log, c, ch, i, o, f, p) && c.queue != []
      ensures PassOk(log, WriteRow(c), ch, i, o, f, p)
    {
      assert Output(WriteRow(c)) == Output(c);
    }
    forall log: seq<Event>, c: Conn, ch: B.Channel, i: int, o: seq<Event>, f: Feed, p: Pass | PassOk(log, c, ch, i, o, f, p)
      ensures PassOk(log, c.(ended := true), ch, i, o, f, p)
    {
      assert Output(c.(ended := true)) == Output(c);
    }
  }

  lemma CountsClosed()
    ensures Closed(PassOk, FeedOk)
  {
    CountsGrow();
    CountsLate();
    CountsClose();
    CountsPoll();
    CountsPublish();
    CountsFresh();
    CountsReplay();
    CountsReceive();
    CountsWrite();
  }

  // --- In every run ---------------------------------------------------------------------------------------------

  /** What has been put out on a connection always lies over its session's log, as the log stands now. */
  lemma AlwaysLaid(capacity: nat, moves: seq<Move>, c: nat)
    requires Run(Begin(capacity), moves) && c < |End(Begin(capacity), moves).s.conns|
    ensures var t := End(Begin(capacity), moves);
      && Increasing(Log(t.s, t.s.conns[c].session)) && c < |t.passes|
      && OutputLaid(Log(t.s, t.s.conns[c].session), t.s.conns[c], t.passes[c])
  {
    BeginOk(capacity, PassOk, FeedOk);
    CountsClosed();
    RunKeeps(Begin(capacity), moves, PassOk, FeedOk);
    RuleFor(End(Begin(capacity), moves), c, PassOk, FeedOk);
  }

  /** However late joins become visible: what a connection announces falls short of the joins its cursor has passed by
      exactly those that became visible at or below what had been read for it, and is ahead of them by exactly those it
      had already passed when it announced them. */
  lemma JoinsAccounted(capacity: nat, moves: seq<Move>, c: nat)
    requires Run(Begin(capacity), moves) && c < |End(Begin(capacity), moves).s.conns|
    ensures var t := End(Begin(capacity), moves);
      && c < |t.passes|
      && var conn, p, log := t.s.conns[c], t.passes[c], Log(t.s, t.s.conns[c].session);
      var passed := Stretch(log, conn.last, conn.after);
      Deltas(Output(conn)) + JoinsIn(p.late, passed) == Joins(passed) + Sum(p.agains)
  {
    var t := End(Begin(capacity), moves);
    AlwaysLaid(capacity, moves, c);
    var conn, p, log := t.s.conns[c], t.passes[c], Log(t.s, t.s.conns[c].session);
    LaidSum(log, p.late, conn.last, Output(conn), p.agains, conn.after);
    ButAndIn(p.late, Stretch(log, conn.last, conn.after));
  }
}

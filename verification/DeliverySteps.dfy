/** Every step keeps the invariant; so every run does. */
module DeliverySteps {
  import opened Prelude
  import opened LiveEvents
  import opened EventLog
  import opened EventStream
  import opened Delivery
  import opened DeliveryFrames
  import B = BrokerModel

  // --- The rules under each step -------------------------------------------------

  lemma PollerAppend(log: seq<Event>, e: Event, longer: seq<Event>, cursor: int, outbox: seq<Event>, published: nat)
    requires Increasing(longer) && longer == log + [e] && PollerOk(log, cursor, outbox, published)
    ensures PollerOk(longer, cursor, outbox, published)
  {
    LatestBelow(log, e);
    CountUpToAppend(log, e, cursor);
    TilesOfLongerLog(log, longer, published, outbox);
  }

  /** A row past everything else changes no stretch that was there before it. */
  lemma SliceAppend(log: seq<Event>, e: Event, longer: seq<Event>, i: nat, j: nat)
    requires longer == log + [e] && i <= j <= |log|
    ensures longer[i..j] == log[i..j]
  {
  }

  lemma CoveredAppend(log: seq<Event>, e: Event, longer: seq<Event>, c: Conn)
    requires Increasing(longer) && longer == log + [e] && CursorOk(log, c)
    ensures CursorOk(longer, c) && Covered(longer, c) == Covered(log, c)
    ensures CountUpTo(log, c.after) <= CountUpTo(longer, c.after)
  {
    LatestBelow(log, e);
    CountUpToAppend(log, e, c.last);
    CountUpToAppend(log, e, c.after);
    var i, j := CountUpTo(log, c.last), CountUpTo(log, c.after);
    if i <= j { SliceAppend(log, e, longer, i, j); }
  }

  lemma ConnAppend(log: seq<Event>, e: Event, longer: seq<Event>, c: Conn)
    requires Increasing(longer) && longer == log + [e] && ConnOk(log, c)
    ensures ConnOk(longer, c)
  {
    CoveredAppend(log, e, longer, c);
  }

  lemma RulesSurviveAppend(log: seq<Event>, e: Event, longer: seq<Event>)
    requires Increasing(longer) && longer == log + [e]
    ensures forall c, ch, n :: GoodConn(log, c, ch, n) ==> GoodConn(longer, c, ch, n)
    ensures forall i, o, n :: PollerOk(log, i, o, n) ==> PollerOk(longer, i, o, n)
  {
    forall c: Conn, ch: B.Channel, n: nat | GoodConn(log, c, ch, n) ensures GoodConn(longer, c, ch, n) {
      ConnAppend(log, e, longer, c);
      TilesOfLongerLog(log, longer, c.base, ch.buffer);
    }
    forall i: int, o: seq<Event>, n: nat | PollerOk(log, i, o, n) ensures PollerOk(longer, i, o, n) {
      PollerAppend(log, e, longer, i, o, n);
    }
  }

  lemma RuleSurvivesClose()
    ensures forall l, c, ch, n :: GoodConn(l, c, ch, n) ==> GoodConn(l, c, ch.(open := false), n)
  {
  }

  lemma NewConnGood(log: seq<Event>, session: Uuid, role: Role, last: int, k: nat, base: nat)
    requires base <= |log|
    ensures GoodConn(log, NewConn(session, role, last, k, base), B.Channel(k, [], true), base)
  {
    var c := NewConn(session, role, last, k, base);
    assert Output(c) == [] && Covered(log, c) == [];
  }

  lemma PollReads(log: seq<Event>, cursor: int, published: nat, page: seq<Event>)
    requires Increasing(log) && PollerOk(log, cursor, [], published)
    requires page == Page(log, cursor) && page != []
    ensures PollerOk(log, page[|page| - 1].id, Compact(page), published)
  {
    PageAdvances(log, cursor);
    CompactTiles(log, published, |page|, page);
  }

  lemma PublishedTile(log: seq<Event>, cursor: int, outbox: seq<Event>, published: nat)
    requires PollerOk(log, cursor, outbox, published) && outbox != []
    ensures Tile(log, published, outbox[0])
    ensures PollerOk(log, cursor, outbox[1..], published + Width(outbox[0]))
  {
  }

  lemma RuleSurvivesPublish(log: seq<Event>, published: nat, item: Event)
    requires Tile(log, published, item)
    ensures forall c, ch :: GoodConn(log, c, ch, published) ==>
        && GoodConn(log, c, ch.(open := false), published + Width(item))
        && (ch.open ==> GoodConn(log, c, ch.(buffer := ch.buffer + [item]), published + Width(item)))
  {
    forall c: Conn, ch: B.Channel | GoodConn(log, c, ch, published)
      ensures GoodConn(log, c, ch.(open := false), published + Width(item))
      ensures ch.open ==> GoodConn(log, c, ch.(buffer := ch.buffer + [item]), published + Width(item))
    {
      assert ConnOk(log, c) && ChannelOk(log, c.base, ch, published);
      ChannelGrows(log, c.base, ch, published, item);
    }
  }

  lemma ChannelGrows(log: seq<Event>, base: nat, ch: B.Channel, published: nat, item: Event)
    requires ChannelOk(log, base, ch, published) && Tile(log, published, item)
    ensures ChannelOk(log, base, ch.(open := false), published + Width(item))
    ensures ch.open ==> ChannelOk(log, base, ch.(buffer := ch.buffer + [item]), published + Width(item))
  {
    if ch.open {
      TilesSnoc(log, base, ch.buffer, item, ch.buffer + [item]);
    }
  }

  lemma ReplayGood(log: seq<Event>, c: Conn, ch: B.Channel, published: nat, page: seq<Event>)
    requires Increasing(log) && GoodConn(log, c, ch, published) && c.queue == [] && page == Page(log, c.after)
    ensures GoodConn(log, ReplayPage(c, page), ch, published)
  {
    var c' := ReplayPage(c, page);
    var shown := Visible(c.role, Compact(page));
    if |page| < PAGE_SIZE {
      ReplayEnds(log, c.after, page, c'.after);
    }
    if page == [] {
      assert shown == [] && c'.queue == c.queue;
    } else {
      ReplayKeeps(log, c, page, shown, c');
      ReplayAscends(log, c, page, shown, c');
    }
  }

  lemma ReplayAscends(log: seq<Event>, c: Conn, page: seq<Event>, shown: seq<Event>, c': Conn)
    requires Increasing(log) && Ascending(c.last, c.after, Output(c)) && c.last <= c.after
    requires page == Page(log, c.after) && page != [] && shown == Visible(c.role, Compact(page))
    requires c'.written == c.written && c'.queue == c.queue + shown && c'.last == c.last && c'.after == page[|page| - 1].id
    ensures Ascending(c'.last, c'.after, Output(c'))
  {
    PageAdvances(log, c.after);
    PageAscending(log, c.role, c.after, page);
    assert Output(c') == Output(c) + shown;
    AscendingConcat(c.last, c.after, c'.after, Output(c), shown, Output(c'));
  }

  lemma WriteGood(log: seq<Event>, c: Conn, ch: B.Channel, published: nat)
    requires GoodConn(log, c, ch, published) && c.queue != []
    ensures GoodConn(log, WriteRow(c), ch, published)
  {
    assert Output(WriteRow(c)) == Output(c);
  }

  lemma ReceiveGood(log: seq<Event>, c: Conn, ch: B.Channel, published: nat, item: Event)
    requires Increasing(log) && GoodConn(log, c, ch, published) && c.live && ch.buffer != [] && item == ch.buffer[0]
    ensures GoodConn(log, ReceiveRow(c, item, log), ch.(buffer := ch.buffer[1..]), published)
  {
    Received(log, c, ch, published, item, ReceiveRow(c, item, log), ch.(buffer := ch.buffer[1..]));
  }

  lemma Received(log: seq<Event>, c: Conn, ch: B.Channel, published: nat, item: Event, c': Conn, ch': B.Channel)
    requires Increasing(log) && ConnOk(log, c) && ChannelOk(log, c.base, ch, published) && c.live
    requires ch.buffer != [] && item == ch.buffer[0] && c' == ReceiveRow(c, item, log) && ch' == ch.(buffer := ch.buffer[1..])
    ensures GoodConn(log, c', ch', published)
  {
    ChannelTakes(log, c.base, ch, ch', published);
    ReceiveConn(log, c, item, c');
    GoodFromParts(log, c', ch', published);
  }

  lemma GoodFromParts(log: seq<Event>, c: Conn, ch: B.Channel, published: nat)
    requires ConnOk(log, c) && ChannelOk(log, c.base, ch, published)
    ensures GoodConn(log, c, ch, published)
  {
  }

  lemma ReceiveConn(log: seq<Event>, c: Conn, item: Event, c': Conn)
    requires Increasing(log) && ConnOk(log, c) && c.live && Tile(log, c.base, item) && c' == ReceiveRow(c, item, log)
    ensures ConnOk(log, c') && c'.base == c.base + Width(item)
  {
    if item.id <= c.after {
      ReceiveSkips(log, c, item);
    } else {
      ReceiveNew(log, c, item, c');
    }
  }

  lemma ChannelTakes(log: seq<Event>, base: nat, ch: B.Channel, ch': B.Channel, published: nat)
    requires ChannelOk(log, base, ch, published) && ch.buffer != [] && ch' == ch.(buffer := ch.buffer[1..])
    ensures Tile(log, base, ch.buffer[0])
    ensures ChannelOk(log, base + Width(ch.buffer[0]), ch', published)
  {
  }

  lemma ReceiveSkips(log: seq<Event>, c: Conn, item: Event)
    requires Increasing(log) && ConnOk(log, c) && Tile(log, c.base, item) && item.id <= c.after
    ensures ConnOk(log, ReceiveRow(c, item, log)) && ReceiveRow(c, item, log).base == c.base + Width(item)
  {
    var c' := ReceiveRow(c, item, log);
    SkipKeeps(log, c, item);
    assert Output(c') == Output(c) && Covered(log, c') == Covered(log, c);
  }

  lemma ReceiveNew(log: seq<Event>, c: Conn, item: Event, c': Conn)
    requires Increasing(log) && ConnOk(log, c) && Tile(log, c.base, item) && c.base <= CountUpTo(log, c.after)
    requires c.after < item.id && c' == ReceiveRow(c, item, log)
    ensures ConnOk(log, c') && c'.base == c.base + Width(item)
  {
    var shown := Visible(c.role, [item]);
    EventStream.ReceiveKeeps(log, c, item, shown, Repeated(log, c.base, item, c.after), c');
    ReceiveAscends(c, item, shown, c');
  }

  lemma ReceiveAscends(c: Conn, item: Event, shown: seq<Event>, c': Conn)
    requires Ascending(c.last, c.after, Output(c)) && c.last <= c.after < item.id && shown == Visible(c.role, [item])
    requires c'.written == c.written && c'.queue == c.queue + shown && c'.last == c.last && c'.after == item.id
    ensures Ascending(c'.last, c'.after, Output(c'))
  {
    VisibleAscending(c.role, c.after, item.id, [item]);
    assert Output(c') == Output(c) + shown;
    AscendingConcat(c.last, c.after, c'.after, Output(c), shown, Output(c'));
  }

  // --- The rules are closed under everything that can happen ------------------------

  lemma RulesClosed()
    ensures Closed(GoodConn, PollerOk)
  {
    RuleSurvivesClose();
    forall log: seq<Event>, e: Event | Increasing(log + [e])
      ensures forall c, ch, n :: GoodConn(log, c, ch, n) ==> GoodConn(log + [e], c, ch, n)
      ensures forall i, o, n :: PollerOk(log, i, o, n) ==> PollerOk(log + [e], i, o, n)
    {
      RulesSurviveAppend(log, e, log + [e]);
    }
    PublishingClosed();
    PollingClosed();
    FreshClosedHolds();
    ReplayClosedHolds();
    ReceiveClosedHolds();
    WriteClosedHolds();
  }

  lemma PublishingClosed()
    ensures PublishClosed(GoodConn, PollerOk)
  {
    forall log: seq<Event>, i: int, o: seq<Event>, n: nat | PollerOk(log, i, o, n) && o != []
      ensures PollerOk(log, i, o[1..], n + Width(o[0]))
      ensures forall c, ch :: GoodConn(log, c, ch, n) ==>
        && GoodConn(log, c, ch.(open := false), n + Width(o[0]))
        && (ch.open ==> GoodConn(log, c, ch.(buffer := ch.buffer + [o[0]]), n + Width(o[0])))
    {
      PublishedTile(log, i, o, n);
      RuleSurvivesPublish(log, n, o[0]);
    }
  }

  lemma PollingClosed()
    ensures PollClosed(PollerOk)
  {
    forall log: seq<Event>, i: int, n: nat | Increasing(log) && PollerOk(log, i, [], n) && Page(log, i) != []
      ensures PollerOk(log, Page(log, i)[|Page(log, i)| - 1].id, Compact(Page(log, i)), n)
    {
      PollReads(log, i, n, Page(log, i));
    }
  }

  lemma FreshClosedHolds()
    ensures FreshClosed(GoodConn, PollerOk)
  {
    forall log: seq<Event>, i: int, o: seq<Event>, n: nat, k: nat, session: Uuid, role: Role, last: int | PollerOk(log, i, o, n)
      ensures GoodConn(log, NewConn(session, role, last, k, n), B.Channel(k, [], true), n)
    {
      NewConnGood(log, session, role, last, k, n);
    }
  }

  lemma ReplayClosedHolds()
    ensures ReplayClosed(GoodConn)
  {
    forall log: seq<Event>, c: Conn, ch: B.Channel, n: nat | Increasing(log) && GoodConn(log, c, ch, n) && c.queue == []
      ensures GoodConn(log, ReplayPage(c, Page(log, c.after)), ch, n)
    {
      ReplayGood(log, c, ch, n, Page(log, c.after));
    }
  }

  lemma ReceiveClosedHolds()
    ensures ReceiveClosed(GoodConn)
  {
    forall log: seq<Event>, c: Conn, ch: B.Channel, n: nat | Increasing(log) && GoodConn(log, c, ch, n) && c.live && ch.buffer != []
      ensures GoodConn(log, ReceiveRow(c, ch.buffer[0], log), ch.(buffer := ch.buffer[1..]), n)
    {
      ReceiveGood(log, c, ch, n, ch.buffer[0]);
    }
  }

  lemma LeaveGood(log: seq<Event>, c: Conn, ch: B.Channel, n: nat)
    requires GoodConn(log, c, ch, n)
    ensures GoodConn(log, c.(ended := true), ch, n)
  {
    var c' := c.(ended := true);
    assert Output(c') == Output(c) && Covered(log, c') == Covered(log, c);
  }

  lemma WriteClosedHolds()
    ensures WriteClosed(GoodConn)
  {
    forall log: seq<Event>, c: Conn, ch: B.Channel, n: nat | GoodConn(log, c, ch, n)
      ensures c.queue != [] ==> GoodConn(log, WriteRow(c), ch, n)
      ensures GoodConn(log, c.(ended := true), ch, n)
    {
      if c.queue != [] {
        WriteGood(log, c, ch, n);
      }
      LeaveGood(log, c, ch, n);
    }
  }

  // --- Every step ----------------------------------------------------------------

  lemma BrokerKeeps(s: System, step: Step)
    requires B.Valid(s.broker, s.capacity) && Enabled(s, step)
    ensures B.Valid(Apply(s, step).broker, s.capacity)
  {
    match step
    case Append(_, _) =>
    case BeginInit(session) => B.BeginInitValid(s.broker, session, s.capacity);
    case ReadLatest(_) =>
    case FinishInit(session, failed, _, _) =>
      B.FinishInitValid(s.broker, session, s.broker.initializing[session], if failed then None else Some(s.latest[session]), s.capacity);
    case Subscribe(session, _, _) => B.AddSubscriberValid(s.broker, session, s.broker.sessions[session], s.capacity);
    case Poll(k) => B.MoveCursorValid(s.broker, k, PollStep(s, k).broker.streams[k].cursor, s.capacity, PollStep(s, k).broker);
    case PollFails(k) => B.FailValid(s.broker, s.broker.streams[k].session, k, s.capacity);
    case PublishNext(k) => B.PublishValid(s.broker, s.broker.streams[k].session, k, s.outbox[k][0], s.capacity);
    case Replay(_) =>
    case Write(_) =>
    case Receive(c) => B.TakeRowValid(s.broker, c, s.capacity, ReceiveStep(s, c).broker);
    case Leave(c) => B.UnsubscribeValid(s.broker, s.conns[c].session, s.conns[c].stream, c, s.capacity);
    case Shutdown => B.ShutdownValid(s.broker, s.capacity);
  }

  lemma LogsKeep(s: System, step: Step)
    requires LogsOk(s) && Enabled(s, step)
    ensures LogsOk(Apply(s, step)) && Apply(s, step).capacity == s.capacity
  {
    if step.Append? {
      LatestBelow(Log(s, step.session), step.event);
    }
  }

  lemma StepKeeps(s: System, step: Step)
    requires Inv(s) && Enabled(s, step)
    ensures Inv(Apply(s, step))
  {
    BrokerKeeps(s, step);
    LogsKeep(s, step);
    RulesClosed();
    FactsHold(s, step);
    RulesKeep(s, step, GoodConn, PollerOk);
  }
}

/** What a connection writes beside joins, over logs whose joins may become visible late. */
module LateJoinRuns {
  import opened Prelude
  import opened LiveEvents
  import opened EventLog
  import opened EventStream
  import opened Delivery
  import opened LateJoins
  import opened LateRuns
  import DeliveryTheorems
  import B = BrokerModel

  ghost predicate FedNow(log: seq<Event>, c: Conn, ch: B.Channel, cursor: int, outbox: seq<Event>, f: Feed, p: Pass) {
    Fed(log, c, ch, cursor, outbox)
  }

  ghost predicate OwedNow(log: seq<Event>, cursor: int, outbox: seq<Event>, f: Feed) {
    Owed(log, cursor, outbox)
  }

  lemma KeysGrow()
    ensures GrowClosed(FedNow, OwedNow)
  {
    forall log: seq<Event>, e: Event | Increasing(log + [e])
      ensures forall c, ch, i, o, f, p :: FedNow(log, c, ch, i, o, f, p) ==> FedNow(log + [e], c, ch, i, o, f, p)
      ensures forall i, o, f :: OwedNow(log, i, o, f) ==> OwedNow(log + [e], i, o, f)
    {
      var longer := log + [e];
      forall c: Conn, ch: B.Channel, i: int, o: seq<Event> | Fed(log, c, ch, i, o) ensures Fed(longer, c, ch, i, o) {
        FedAppend(log, e, longer, c, ch, i, o);
      }
      forall i: int, o: seq<Event> | Owed(log, i, o) ensures Owed(longer, i, o) {
        OwedAppend(log, e, longer, i, o);
      }
    }
  }

  lemma KeysLate()
    ensures LateClosed(FedNow, OwedNow)
  {
    forall log: seq<Event>, e: Event | Increasing(log) && MayArrive(log, e)
      ensures forall c, ch, i, o, f, p :: FedNow(log, c, ch, i, o, f, p) ==> FedNow(Inserted(log, e), c, ch, i, o, LateFeed(f, i, e), LatePass(p, c, i, e))
      ensures forall i, o, f :: OwedNow(log, i, o, f) ==> OwedNow(Inserted(log, e), i, o, LateFeed(f, i, e))
    {
      var longer := Inserted(log, e);
      forall c: Conn, ch: B.Channel, i: int, o: seq<Event> | Fed(log, c, ch, i, o) ensures Fed(longer, c, ch, i, o) {
        FedInserted(log, e, longer, c, ch, i, o);
      }
      forall i: int, o: seq<Event> | Owed(log, i, o) ensures Owed(longer, i, o) {
        OwedInserted(log, e, longer, i, o);
      }
    }
  }

  lemma KeysClose()
    ensures CloseClosed(FedNow)
  {
    forall l: seq<Event>, c: Conn, ch: B.Channel, i: int, o: seq<Event> | Fed(l, c, ch, i, o) ensures Fed(l, c, ch.(open := false), i, o) {
      FedCloses(l, c, ch, i, o, i, o);
    }
  }

  lemma KeysPoll()
    ensures PollClosed(FedNow, OwedNow)
  {
    forall log: seq<Event>, i: int, f: Feed | Increasing(log) && OwedNow(log, i, [], f) && Page(log, i) != []
      ensures OwedNow(log, PageEnd(log, i), Compact(Page(log, i)), f)
      ensures forall c, ch, p :: FedNow(log, c, ch, i, [], f, p) ==> FedNow(log, c, ch, PageEnd(log, i), Compact(Page(log, i)), f, p)
    {
      OwedPoll(log, i, Page(log, i));
      forall c: Conn, ch: B.Channel | Fed(log, c, ch, i, []) ensures Fed(log, c, ch, PageEnd(log, i), Compact(Page(log, i))) {
        FedPoll(log, c, ch, i, Page(log, i));
      }
    }
  }

  lemma KeysPublish()
    ensures PublishClosed(FedNow, OwedNow)
  {
    forall log: seq<Event>, i: int, o: seq<Event>, f: Feed | Increasing(log) && OwedNow(log, i, o, f) && o != []
      ensures OwedNow(log, i, o[1..], f.(sent := o[0].id))
      ensures forall c, ch, p :: FedNow(log, c, ch, i, o, f, p) ==>
        && FedNow(log, c, ch.(open := false), i, o[1..], f.(sent := o[0].id), p)
        && (ch.open ==> FedNow(log, c, ch.(buffer := ch.buffer + [o[0]]), i, o[1..], f.(sent := o[0].id), p))
    {
      OwedPublish(log, i, o);
      forall c: Conn, ch: B.Channel | Fed(log, c, ch, i, o)
        ensures Fed(log, c, ch.(open := false), i, o[1..])
        ensures ch.open ==> Fed(log, c, ch.(buffer := ch.buffer + [o[0]]), i, o[1..])
      {
        FedCloses(log, c, ch, i, o, i, o[1..]);
        if ch.open { FedPublish(log, c, ch, i, o, ch.(buffer := ch.buffer + [o[0]])); }
      }
    }
  }

  lemma KeysFresh()
    ensures FreshClosed(FedNow, OwedNow)
  {
    forall log: seq<Event>, i: int, o: seq<Event>, f: Feed, n: nat, k: nat, session: Uuid, role: Role, last: int | Increasing(log) && OwedNow(log, i, o, f)
      ensures FedNow(log, NewConn(session, role, last, k, n), B.Channel(k, [], true), i, o, f, Pass(f.sent, {}, []))
    {
      FedNew(log, session, role, last, k, n, i, o);
    }
    forall log: seq<Event>, i: int | Increasing(log) && i <= LatestId(log) ensures OwedNow(log, i, [], Feed(i, {})) {
      OwedNew(log, i);
    }
  }

  lemma KeysReplay()
    ensures ReplayClosed(FedNow, OwedNow)
  {
    forall log: seq<Event>, c: Conn, ch: B.Channel, i: int, o: seq<Event>, f: Feed, p: Pass | Increasing(log) && FedNow(log, c, ch, i, o, f, p)
      ensures FedNow(log, ReplayPage(c, Page(log, c.after)), ch, i, o, f, ReplayedPass(p, c, Page(log, c.after)))
    {
      FedReplay(log, c, ch, i, o, Page(log, c.after));
    }
  }

  lemma KeysReceive()
    ensures ReceiveClosed(FedNow, OwedNow)
  {
    forall log: seq<Event>, c: Conn, ch: B.Channel, i: int, o: seq<Event>, f: Feed, p: Pass |
      Increasing(log) && FedNow(log, c, ch, i, o, f, p) && c.live && ch.buffer != []
      ensures FedNow(log, ReceiveRow(c, ch.buffer[0], log), ch.(buffer := ch.buffer[1..]), i, o, f, ReceivedPass(log, f, p, c, ch.buffer[0]))
    {
      FedReceive(log, c, ch, i, o, ch.(buffer := ch.buffer[1..]));
    }
  }

  lemma KeysWrite()
    ensures WriteClosed(FedNow)
  {
    forall log: seq<Event>, c: Conn, ch: B.Channel, i: int, o: seq<Event>, f: Feed, p: Pass | FedNow(log, c, ch, i, o, f, p) && c.queue != []
      ensures FedNow(log, WriteRow(c), ch, i, o, f, p)
    {
      assert Output(WriteRow(c)) == Output(c);
      FedWrite(log, c, ch, i, o, WriteRow(c));
    }
    forall log: seq<Event>, c: Conn, ch: B.Channel, i: int, o: seq<Event>, f: Feed, p: Pass | FedNow(log, c, ch, i, o, f, p)
      ensures FedNow(log, c.(ended := true), ch, i, o, f, p)
    {
      assert Output(c.(ended := true)) == Output(c);
      FedWrite(log, c, ch, i, o, c.(ended := true));
    }
  }

  lemma KeysClosed()
    ensures Closed(FedNow, OwedNow)
  {
    KeysGrow();
    KeysLate();
    KeysClose();
    KeysPoll();
    KeysPublish();
    KeysFresh();
    KeysReplay();
    KeysReceive();
    KeysWrite();
  }

  /** In every run a connection is fed as its ledger, poller and channel say. */
  lemma KeysHold(capacity: nat, moves: seq<Move>, c: nat)
    requires Run(Begin(capacity), moves) && c < |End(Begin(capacity), moves).s.conns|
    ensures var s := End(Begin(capacity), moves).s;
      && c < |s.broker.channels| && s.conns[c].stream < |s.broker.streams| && s.conns[c].stream < |s.outbox|
      && Increasing(Log(s, s.conns[c].session))
      && Fed(Log(s, s.conns[c].session), s.conns[c], s.broker.channels[c], s.broker.streams[s.conns[c].stream].cursor, s.outbox[s.conns[c].stream])
  {
    BeginOk(capacity, FedNow, OwedNow);
    KeysClosed();
    LateRuns.RunKeeps(Begin(capacity), moves, FedNow, OwedNow);
    LateRuns.RuleFor(End(Begin(capacity), moves), c, FedNow, OwedNow);
  }

  /** However late joins become visible, and however often: what a connection has written, presence counts aside, is a
      prefix of the ledger past its Last-Event-ID as its role may see it, as the ledger stands now. */
  lemma NoGapNoRepeat(capacity: nat, moves: seq<Move>, c: nat)
    requires Run(Begin(capacity), moves) && c < |End(Begin(capacity), moves).s.conns|
    ensures var s := End(Begin(capacity), moves).s;
      var conn := s.conns[c];
      && Key(conn.role, conn.written) <= Key(conn.role, Above(Log(s, conn.session), conn.last))
      && Ascending(conn.last, conn.after, conn.written)
  {
    var s := End(Begin(capacity), moves).s;
    KeysHold(capacity, moves, c);
    WrittenIsPrefix(Log(s, s.conns[c].session), s.conns[c]);
  }

  lemma WrittenIsPrefix(log: seq<Event>, conn: Conn)
    requires Increasing(log) && KeyOk(log, conn)
    ensures Key(conn.role, conn.written) <= Key(conn.role, Above(log, conn.last))
    ensures Ascending(conn.last, conn.after, conn.written)
  {
    CountUpToMonotone(log, conn.last, conn.after);
    var covered, rest := Stretch(log, conn.last, conn.after), log[CountUpTo(log, conn.after)..];
    assert Above(log, conn.last) == covered + rest;
    DeliveryTheorems.KeyPrefix(conn.role, conn.written, conn.queue, Output(conn));
    DeliveryTheorems.KeyPrefix(conn.role, covered, rest, Above(log, conn.last));
    DeliveryTheorems.PrefixOfOutput(conn);
  }

  /** A live connection whose channel is open and whose pipeline is drained has written every row due but joins. */
  lemma NothingWithheld(capacity: nat, moves: seq<Move>, c: nat)
    requires Run(Begin(capacity), moves) && c < |End(Begin(capacity), moves).s.conns|
    requires var s := End(Begin(capacity), moves).s;
      c < |s.broker.channels|
      && var conn, ch := s.conns[c], s.broker.channels[c];
      && conn.live && ch.open && conn.queue == [] && ch.buffer == []
      && conn.stream < |s.outbox| && s.outbox[conn.stream] == []
      && conn.stream < |s.broker.streams| && s.broker.streams[conn.stream].cursor == LatestId(Log(s, conn.session))
    ensures var s := End(Begin(capacity), moves).s;
      var conn := s.conns[c];
      Key(conn.role, conn.written) == Key(conn.role, Above(Log(s, conn.session), conn.last))
  {
    var s := End(Begin(capacity), moves).s;
    KeysHold(capacity, moves, c);
    var conn, k := s.conns[c], s.conns[c].stream;
    Drained(Log(s, conn.session), conn, s.broker.channels[c], s.broker.streams[k].cursor);
  }

  lemma Drained(log: seq<Event>, conn: Conn, ch: B.Channel, cursor: int)
    requires Increasing(log) && Fed(log, conn, ch, cursor, []) && conn.live && ch.open && conn.queue == [] && ch.buffer == []
    requires cursor == LatestId(log)
    ensures Key(conn.role, conn.written) == Key(conn.role, Above(log, conn.last))
  {
    var b, e :| FedFrom(log, conn, ch, cursor, [], b, e);
    PartJoin(log, b, e, cursor, [], [], []);
    var rest := log[CountUpTo(log, conn.after)..];
    NothingAhead(log, conn.role, b, conn.after, cursor, rest);
    assert Output(conn) == conn.written;
    AboveSplits(log, conn.role, conn.last, conn.after, rest);
  }

  lemma AboveSplits(log: seq<Event>, role: Role, last: int, after: int, rest: seq<Event>)
    requires Increasing(log) && last <= after && rest == log[CountUpTo(log, after)..]
    ensures Key(role, Above(log, last)) == Key(role, Stretch(log, last, after)) + Key(role, rest)
  {
    CountUpToMonotone(log, last, after);
    KeyConcat(role, Stretch(log, last, after), rest, Above(log, last));
  }

  /** With nothing but joins past b, there is nothing for anybody past a later cursor. */
  lemma NothingAhead(log: seq<Event>, role: Role, b: int, after: int, latest: int, rest: seq<Event>)
    requires Increasing(log) && Part(log, b, latest, []) && b <= after && latest == LatestId(log)
    requires rest == log[CountUpTo(log, after)..]
    ensures Key(role, rest) == []
  {
    if after < latest {
      StretchSplits(Manager, log, b, after, latest);
      RestIsStretch(log, after, latest, rest);
      KeyOfKey(role, rest);
    } else {
      AllUpToLatest(log);
      CountUpToMonotone(log, latest, after);
      assert rest == [];
    }
  }

  lemma RestIsStretch(log: seq<Event>, after: int, latest: int, rest: seq<Event>)
    requires Increasing(log) && latest == LatestId(log) && after < latest && rest == log[CountUpTo(log, after)..]
    ensures Stretch(log, after, latest) == rest
  {
    AllUpToLatest(log);
  }

  // --- Reconnecting ---------------------------------------------------------------------------------------------

  /** Everything due up to the last id on the wire, joins aside, is on the wire. */
  lemma WrittenUpToLastId(log: seq<Event>, conn: Conn, cut: int)
    requires Increasing(log) && KeyOk(log, conn) && conn.written != [] && cut == conn.written[|conn.written| - 1].id
    ensures conn.last < cut <= conn.after && Key(conn.role, conn.written) == Key(conn.role, Stretch(log, conn.last, cut))
  {
    DeliveryTheorems.OutputIds(conn);
    StretchSplits(conn.role, log, conn.last, cut, conn.after);
    KeyConcat(conn.role, conn.written, conn.queue, Output(conn));
    DeliveryTheorems.KeyIsPart(conn.role, conn.written);
    DeliveryTheorems.KeyIsPart(conn.role, conn.queue);
    StretchIds(conn.role, log, conn.last, cut);
    StretchIds(conn.role, log, cut, conn.after);
    DeliveryTheorems.SameCut(Key(conn.role, conn.written), Key(conn.role, conn.queue),
      Key(conn.role, Stretch(log, conn.last, cut)), Key(conn.role, Stretch(log, cut, conn.after)), cut);
  }

  /** A client that comes back with the last id it saw goes on exactly where its previous connection was cut, also when
      joins became visible behind that id in between. */
  lemma ResumeIsSeamless(capacity: nat, moves: seq<Move>, first: nat, second: nat)
    requires Run(Begin(capacity), moves)
    requires first < |End(Begin(capacity), moves).s.conns| && second < |End(Begin(capacity), moves).s.conns|
    requires var s := End(Begin(capacity), moves).s;
      var c1, c2 := s.conns[first], s.conns[second];
      && c2.session == c1.session && c2.role == c1.role
      && c1.written != [] && c2.last == c1.written[|c1.written| - 1].id
    ensures var s := End(Begin(capacity), moves).s;
      var c1, c2 := s.conns[first], s.conns[second];
      Key(c1.role, c1.written) + Key(c1.role, c2.written) <= Key(c1.role, Above(Log(s, c1.session), c1.last))
  {
    var s := End(Begin(capacity), moves).s;
    var c1, c2 := s.conns[first], s.conns[second];
    var log := Log(s, c1.session);
    KeysHold(capacity, moves, first);
    WrittenUpToLastId(log, c1, c2.last);
    NoGapNoRepeat(capacity, moves, second);
    AboveSplits(log, c1.role, c1.last, c2.last, Above(log, c2.last));
    DeliveryTheorems.PrefixAfter(Key(c1.role, c1.written), Key(c1.role, c2.written), Key(c1.role, Above(log, c2.last)));
  }
}

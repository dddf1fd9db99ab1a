/** How each step moves the pieces of the system, for any rule at all that the pieces obey: kept apart from
    the rules themselves so that neither side needs the other's definitions. */
module DeliveryFrames {
  import opened Prelude
  import opened LiveEvents
  import opened EventLog
  import opened EventStream
  import opened Delivery
  import B = BrokerModel

  lemma AppendFrame(s: System, session: Uuid, e: Event, s': System, p: ConnRule, q: PollerRule)
    requires ConnsObey(s, p) && PollersObey(s, q)
    requires s' == s.(logs := s.logs[session := Log(s, session) + [e]])
    requires forall c, ch, n :: p(Log(s, session), c, ch, n) ==> p(Log(s, session) + [e], c, ch, n)
    requires forall i, o, n :: q(Log(s, session), i, o, n) ==> q(Log(s, session) + [e], i, o, n)
    ensures ConnsObey(s', p) && PollersObey(s', q)
  {
    forall c: nat | c < |s'.conns| ensures Linked(s', c) && Obeys(s', c, p) {
      assert Linked(s, c) && Obeys(s, c, p);
    }
  }

  /** A connection whose own row, channel, stream and ledger are as before still obeys what it obeyed. */
  lemma Unmoved(s: System, s': System, c: nat, p: ConnRule)
    requires c < |s.conns| && Linked(s, c) && Obeys(s, c, p)
    requires s'.logs == s.logs && c < |s'.conns| && s'.conns[c] == s.conns[c]
    requires c < |s'.broker.channels| && s'.broker.channels[c] == s.broker.channels[c]
    requires var k := s.conns[c].stream;
      && k < |s'.broker.streams| && s'.broker.streams[k].session == s.broker.streams[k].session
      && k < |s'.published| && s'.published[k] == s.published[k]
    ensures Linked(s', c) && Obeys(s', c, p)
  {
  }

  lemma SameTables(s: System, s': System, p: ConnRule, q: PollerRule)
    requires ConnsObey(s, p) && PollersObey(s, q)
    requires s'.logs == s.logs && s'.conns == s.conns && s'.outbox == s.outbox && s'.published == s.published
    requires s'.broker.streams == s.broker.streams && s'.broker.channels == s.broker.channels
    ensures ConnsObey(s', p) && PollersObey(s', q)
  {
    forall c: nat | c < |s'.conns| ensures Linked(s', c) && Obeys(s', c, p) {
      assert Linked(s, c);
      Unmoved(s, s', c, p);
    }
  }

  lemma NewStreamConns(s: System, session: Uuid, k: nat, conn: Conn, cursor: int, base: nat, s': System, p: ConnRule)
    requires ConnsObey(s, p) && k == |s.broker.streams| == |s.published|
    requires s'.logs == s.logs && s'.published == s.published + [base]
    requires s'.conns == s.conns + [conn] && conn.stream == k && conn.session == session
    requires s'.broker.streams == s.broker.streams + [B.Stream(session, cursor, {|s.broker.channels|}, false)]
    requires s'.broker.channels == s.broker.channels + [B.Channel(k, [], true)]
    requires p(Log(s, session), conn, B.Channel(k, [], true), base)
    ensures ConnsObey(s', p)
  {
    forall c: nat | c < |s'.conns| ensures Linked(s', c) && Obeys(s', c, p) {
      if c < |s.conns| {
        assert Linked(s, c);
        Unmoved(s, s', c, p);
      }
    }
  }

  lemma NewStreamPollers(s: System, session: Uuid, cursor: int, base: nat, s': System, q: PollerRule)
    requires PollersObey(s, q)
    requires s'.logs == s.logs && s'.outbox == s.outbox + [[]] && s'.published == s.published + [base]
    requires s'.broker.streams == s.broker.streams + [B.Stream(session, cursor, {|s.broker.channels|}, false)]
    requires q(Log(s, session), cursor, [], base)
    ensures PollersObey(s', q)
  {
  }

  lemma NewSubscriberConns(s: System, k: nat, conn: Conn, s': System, p: ConnRule)
    requires ConnsObey(s, p) && k < |s.broker.streams|
    requires s'.logs == s.logs && s'.published == s.published
    requires s'.conns == s.conns + [conn] && conn.stream == k && conn.session == s.broker.streams[k].session
    requires s'.broker.streams == s.broker.streams[k := s.broker.streams[k].(subscribers := s.broker.streams[k].subscribers + {|s.broker.channels|})]
    requires s'.broker.channels == s.broker.channels + [B.Channel(k, [], true)]
    requires k < |s.published| && p(Log(s, conn.session), conn, B.Channel(k, [], true), s.published[k])
    ensures ConnsObey(s', p)
  {
    forall c: nat | c < |s'.conns| ensures Linked(s', c) && Obeys(s', c, p) {
      if c < |s.conns| {
        assert Linked(s, c);
        Unmoved(s, s', c, p);
      }
    }
  }

  lemma NewSubscriberPollers(s: System, k: nat, s': System, q: PollerRule)
    requires PollersObey(s, q) && k < |s.broker.streams|
    requires s'.logs == s.logs && s'.outbox == s.outbox && s'.published == s.published
    requires s'.broker.streams == s.broker.streams[k := s.broker.streams[k].(subscribers := s.broker.streams[k].subscribers + {|s.broker.channels|})]
    ensures PollersObey(s', q)
  {
  }

  lemma PollFrame(s: System, k: nat, cursor: int, outbox: seq<Event>, s': System, p: ConnRule, q: PollerRule)
    requires ConnsObey(s, p) && PollersObey(s, q) && k < |s.broker.streams|
    requires s' == s.(broker := s.broker.(streams := s.broker.streams[k := s.broker.streams[k].(cursor := cursor)]),
                      outbox := s.outbox[k := outbox])
    requires q(Log(s, s.broker.streams[k].session), cursor, outbox, s.published[k])
    ensures ConnsObey(s', p) && PollersObey(s', q)
  {
    forall c: nat | c < |s'.conns| ensures Linked(s', c) && Obeys(s', c, p) {
      assert Linked(s, c) && Obeys(s, c, p);
    }
  }

  lemma CloseFrame(s: System, s': System, p: ConnRule, q: PollerRule)
    requires ConnsObey(s, p) && PollersObey(s, q)
    requires s' == s.(broker := s'.broker) && B.OnlyCloses(s.broker, s'.broker)
    requires forall l, c, ch, n :: p(l, c, ch, n) ==> p(l, c, ch.(open := false), n)
    ensures ConnsObey(s', p) && PollersObey(s', q)
  {
    forall c: nat | c < |s'.conns| ensures Linked(s', c) && Obeys(s', c, p) {
      assert Linked(s, c) && Obeys(s, c, p);
    }
  }

  lemma PublishConns(s: System, k: nat, item: Event, published: nat, s': System, p: ConnRule)
    requires ConnsObey(s, p) && k < |s.broker.streams| && k < |s.published|
    requires s'.logs == s.logs && s'.conns == s.conns && s'.published == s.published[k := published]
    requires B.Sends(s.broker, s'.broker, k, item)
    requires var log := Log(s, s.broker.streams[k].session);
      forall c, ch :: p(log, c, ch, s.published[k]) ==>
        && p(log, c, ch.(open := false), published)
        && (ch.open ==> p(log, c, ch.(buffer := ch.buffer + [item]), published))
    ensures ConnsObey(s', p)
  {
    forall c: nat | c < |s'.conns| ensures Linked(s', c) && Obeys(s', c, p) {
      assert Linked(s, c) && Obeys(s, c, p);
      if s.conns[c].stream != k {
        Unmoved(s, s', c, p);
      }
    }
  }

  lemma PublishPollers(s: System, k: nat, item: Event, outbox: seq<Event>, published: nat, s': System, q: PollerRule)
    requires PollersObey(s, q) && k < |s.broker.streams|
    requires s'.logs == s.logs && s'.outbox == s.outbox[k := outbox] && s'.published == s.published[k := published]
    requires B.Sends(s.broker, s'.broker, k, item)
    requires q(Log(s, s.broker.streams[k].session), s.broker.streams[k].cursor, outbox, published)
    ensures PollersObey(s', q)
  {
  }

  lemma ConnFrame(s: System, c: nat, conn: Conn, ch: B.Channel, s': System, p: ConnRule, q: PollerRule)
    requires ConnsObey(s, p) && PollersObey(s, q) && c < |s.conns| && c < |s.broker.channels|
    requires conn.stream == s.conns[c].stream && conn.session == s.conns[c].session && ch.owner == s.broker.channels[c].owner
    requires s' == s.(conns := s.conns[c := conn], broker := s.broker.(channels := s.broker.channels[c := ch]))
    requires Linked(s, c) ==> p(Log(s, conn.session), conn, ch, s.published[conn.stream])
    ensures ConnsObey(s', p) && PollersObey(s', q)
  {
    forall c': nat | c' < |s'.conns| ensures Linked(s', c') && Obeys(s', c', p) {
      assert Linked(s, c') && Obeys(s, c', p);
    }
  }

  // --- What the rules have to survive ------------------------------------------------

  ghost predicate AppendClosed(p: ConnRule, q: PollerRule) {
    forall log, e :: Increasing(log + [e]) ==>
      && (forall c, ch, n :: p(log, c, ch, n) ==> p(log + [e], c, ch, n))
      && (forall i, o, n :: q(log, i, o, n) ==> q(log + [e], i, o, n))
  }

  ghost predicate CloseClosed(p: ConnRule) {
    forall log, c, ch, n :: p(log, c, ch, n) ==> p(log, c, ch.(open := false), n)
  }

  ghost predicate PublishClosed(p: ConnRule, q: PollerRule) {
    forall log, i, o, n: nat :: q(log, i, o, n) && o != [] ==>
      && q(log, i, o[1..], n + Width(o[0]))
      && forall c, ch :: p(log, c, ch, n) ==>
           && p(log, c, ch.(open := false), n + Width(o[0]))
           && (ch.open ==> p(log, c, ch.(buffer := ch.buffer + [o[0]]), n + Width(o[0])))
  }

  ghost predicate PollClosed(q: PollerRule) {
    forall log, i, n :: Increasing(log) && q(log, i, [], n) && Page(log, i) != [] ==>
      q(log, Page(log, i)[|Page(log, i)| - 1].id, Compact(Page(log, i)), n)
  }

  /** A new connection may start wherever a poller stands; a new poller may start from any LatestEventID answer. */
  ghost predicate FreshClosed(p: ConnRule, q: PollerRule) {
    && (forall log, i, o, n: nat, k: nat, session: Uuid, role: Role, last: int :: q(log, i, o, n) ==>
          p(log, NewConn(session, role, last, k, n), B.Channel(k, [], true), n))
    && (forall log, i :: i <= LatestId(log) ==> q(log, i, [], CountUpTo(log, i)))
  }

  ghost predicate ReplayClosed(p: ConnRule) {
    forall log, c, ch, n :: Increasing(log) && p(log, c, ch, n) && c.queue == [] ==>
      p(log, ReplayPage(c, Page(log, c.after)), ch, n)
  }

  ghost predicate ReceiveClosed(p: ConnRule) {
    forall log, c, ch, n :: Increasing(log) && p(log, c, ch, n) && c.live && ch.buffer != [] ==>
      p(log, ReceiveRow(c, ch.buffer[0], log), ch.(buffer := ch.buffer[1..]), n)
  }

  ghost predicate WriteClosed(p: ConnRule) {
    forall log, c, ch, n :: p(log, c, ch, n) ==>
      && (c.queue != [] ==> p(log, WriteRow(c), ch, n))
      && p(log, c.(ended := true), ch, n)
  }

  ghost predicate Closed(p: ConnRule, q: PollerRule) {
    && AppendClosed(p, q)
    && CloseClosed(p)
    && PublishClosed(p, q)
    && PollClosed(q)
    && FreshClosed(p, q)
    && ReplayClosed(p)
    && ReceiveClosed(p)
    && WriteClosed(p)
  }

  // --- Each step, for any such rules --------------------------------------------------

  ghost predicate Both(s: System, p: ConnRule, q: PollerRule) {
    ConnsObey(s, p) && PollersObey(s, q)
  }

  lemma SubscribeKeeps(s: System, session: Uuid, role: Role, last: int, p: ConnRule, q: PollerRule)
    requires Both(s, p, q) && FreshClosed(p, q) && Enabled(s, Step.Subscribe(session, role, last))
    requires s.broker.streams[s.broker.sessions[session]].session == session
    ensures Both(Apply(s, Step.Subscribe(session, role, last)), p, q)
  {
    var s' := Apply(s, Step.Subscribe(session, role, last));
    var k := s.broker.sessions[session];
    assert q(Log(s, session), s.broker.streams[k].cursor, s.outbox[k], s.published[k]);
    NewSubscriberConns(s, k, NewConn(session, role, last, k, s.published[k]), s', p);
    NewSubscriberPollers(s, k, s', q);
  }

  lemma FinishInitKeeps(s: System, session: Uuid, failed: bool, role: Role, last: int, p: ConnRule, q: PollerRule)
    requires Both(s, p, q) && FreshClosed(p, q) && Enabled(s, FinishInit(session, failed, role, last))
    requires !failed ==> s.latest[session] <= LatestId(Log(s, session))
    ensures Both(FinishInitStep(s, session, failed, role, last), p, q)
  {
    var s' := FinishInitStep(s, session, failed, role, last);
    if !failed && !s.broker.closed {
      var log := Log(s, session);
      var k, cursor := |s.broker.streams|, s.latest[session];
      var base := CountUpTo(log, cursor);
      assert q(log, cursor, [], base);
      NewStreamConns(s, session, k, NewConn(session, role, last, k, base), cursor, base, s', p);
      NewStreamPollers(s, session, cursor, base, s', q);
    } else {
      SameTables(s, s', p, q);
    }
  }

  lemma PollKeeps(s: System, k: nat, p: ConnRule, q: PollerRule)
    requires Both(s, p, q) && PollClosed(q) && LogsOk(s) && Enabled(s, Poll(k))
    ensures Both(PollStep(s, k), p, q)
  {
    var log, cursor := Log(s, s.broker.streams[k].session), s.broker.streams[k].cursor;
    var page := Page(log, cursor);
    assert q(log, cursor, [], s.published[k]);
    PollFrame(s, k, page[|page| - 1].id, Compact(page), PollStep(s, k), p, q);
  }

  lemma PublishKeeps(s: System, k: nat, p: ConnRule, q: PollerRule)
    requires Both(s, p, q) && PublishClosed(p, q) && Enabled(s, PublishNext(k))
    requires B.Sends(s.broker, PublishStep(s, k).broker, k, s.outbox[k][0])
    ensures Both(PublishStep(s, k), p, q)
  {
    var s', item := PublishStep(s, k), s.outbox[k][0];
    assert q(Log(s, s.broker.streams[k].session), s.broker.streams[k].cursor, s.outbox[k], s.published[k]);
    PublishConns(s, k, item, s.published[k] + Width(item), s', p);
    PublishPollers(s, k, item, s.outbox[k][1..], s.published[k] + Width(item), s', q);
  }

  /** The rule as it stands for one connection. */
  lemma RuleFor(s: System, c: nat, p: ConnRule)
    requires ConnsObey(s, p) && c < |s.conns|
    ensures Linked(s, c)
    ensures p(Log(s, s.conns[c].session), s.conns[c], s.broker.channels[c], s.published[s.conns[c].stream])
  {
    assert Obeys(s, c, p);
  }

  lemma ConnStepKeeps(s: System, c: nat, step: Step, p: ConnRule, q: PollerRule)
    requires Both(s, p, q) && ReplayClosed(p) && WriteClosed(p) && LogsOk(s)
    requires (step == Replay(c) || step == Write(c)) && Enabled(s, step)
    ensures Both(Apply(s, step), p, q)
  {
    var conn, ch := s.conns[c], s.broker.channels[c];
    RuleFor(s, c, p);
    assert s.broker.channels[c := ch] == s.broker.channels;
    ConnFrame(s, c, Apply(s, step).conns[c], ch, Apply(s, step), p, q);
  }

  lemma ReceiveKeeps(s: System, c: nat, p: ConnRule, q: PollerRule)
    requires Both(s, p, q) && ReceiveClosed(p) && LogsOk(s) && Enabled(s, Receive(c))
    ensures Both(ReceiveStep(s, c), p, q)
  {
    var conn, ch := s.conns[c], s.broker.channels[c];
    RuleFor(s, c, p);
    ConnFrame(s, c, ReceiveRow(conn, ch.buffer[0], Log(s, conn.session)), ch.(buffer := ch.buffer[1..]), ReceiveStep(s, c), p, q);
  }

  lemma LeaveKeeps(s: System, c: nat, p: ConnRule, q: PollerRule)
    requires Both(s, p, q) && WriteClosed(p) && CloseClosed(p) && Enabled(s, Leave(c))
    ensures Both(Apply(s, Leave(c)), p, q)
  {
    var conn, ch := s.conns[c], s.broker.channels[c];
    RuleFor(s, c, p);
    var mid := s.(conns := s.conns[c := conn.(ended := true)]);
    assert s.broker.channels[c := ch] == s.broker.channels;
    ConnFrame(s, c, conn.(ended := true), ch, mid, p, q);
    B.UnsubscribeOnlyCloses(s.broker, conn.session, conn.stream, c);
    CloseFrame(mid, Apply(s, Leave(c)), p, q);
  }

  lemma OffAirKeeps(s: System, step: Step, p: ConnRule, q: PollerRule)
    requires Both(s, p, q) && CloseClosed(p) && (step.PollFails? || step.Shutdown?) && Enabled(s, step)
    ensures Both(Apply(s, step), p, q)
  {
    if step.PollFails? {
      B.FailOnlyCloses(s.broker, s.broker.streams[step.stream].session, step.stream);
    } else {
      B.ShutdownOnlyCloses(s.broker);
    }
    CloseFrame(s, Apply(s, step), p, q);
  }

  /** What the broker's own rule and the ledgers contribute to a step. */
  ghost predicate Facts(s: System, step: Step)
    requires Enabled(s, step)
  {
    match step
    case FinishInit(session, failed, _, _) => failed || s.latest[session] <= LatestId(Log(s, session))
    case Subscribe(session, _, _) => s.broker.streams[s.broker.sessions[session]].session == session
    case PublishNext(k) => B.Sends(s.broker, PublishStep(s, k).broker, k, s.outbox[k][0])
    case _ => true
  }

  lemma FactsHold(s: System, step: Step)
    requires B.Valid(s.broker, s.capacity) && LogsOk(s) && Enabled(s, step)
    ensures Facts(s, step)
  {
    if step.PublishNext? {
      var k := step.stream;
      B.PublishSends(s.broker, s.broker.streams[k].session, k, s.outbox[k][0], s.capacity);
    }
  }

  lemma RulesKeep(s: System, step: Step, p: ConnRule, q: PollerRule)
    requires Enabled(s, step) && Facts(s, step) && LogsOk(s)
    requires Both(s, p, q) && Closed(p, q)
    ensures Both(Apply(s, step), p, q)
  {
    match step
    case Append(session, event) => AppendFrame(s, session, event, Apply(s, step), p, q);
    case BeginInit(_) => SameTables(s, Apply(s, step), p, q);
    case ReadLatest(_) => SameTables(s, Apply(s, step), p, q);
    case FinishInit(session, failed, role, last) => FinishInitKeeps(s, session, failed, role, last, p, q);
    case Subscribe(session, role, last) => SubscribeKeeps(s, session, role, last, p, q);
    case Poll(k) => PollKeeps(s, k, p, q);
    case PublishNext(k) => PublishKeeps(s, k, p, q);
    case Replay(c) => ConnStepKeeps(s, c, step, p, q);
    case Write(c) => ConnStepKeeps(s, c, step, p, q);
    case Receive(c) => ReceiveKeeps(s, c, p, q);
    case Leave(c) => LeaveKeeps(s, c, p, q);
    case _ => OffAirKeeps(s, step, p, q);
  }
}

/** The whole delivery protocol as a state machine: ledgers that grow, the broker, its pollers, and any
    number of connections, interleaved in every order. */
module Delivery {
  import opened Prelude
  import opened LiveEvents
  import opened EventLog
  import opened EventStream
  import B = BrokerModel

  /** outbox is what a poller has read but not yet published; published is history: the ledger position
      it has published up to. latest holds LatestEventID answers of initialisations still in flight.
      The tables run in step with the broker's: one outbox a stream, one connection a channel. */
  datatype System = System(
    capacity: nat,
    logs: map<Uuid, seq<Event>>,
    broker: B.Broker,
    outbox: seq<seq<Event>>,
    published: seq<nat>,
    latest: map<Uuid, int>,
    conns: seq<Conn>)

  datatype Step =
    | Append(session: Uuid, event: Event)
    | BeginInit(session: Uuid)
    | ReadLatest(session: Uuid)
    | FinishInit(session: Uuid, failed: bool, role: Role, last: int)
    | Subscribe(session: Uuid, role: Role, last: int)
    | Poll(stream: nat)
    | PollFails(stream: nat)
    | PublishNext(stream: nat)
    | Replay(conn: nat)
    | Write(conn: nat)
    | Receive(conn: nat)
    | Leave(conn: nat)
    | Shutdown

  function Log(s: System, session: Uuid): seq<Event> {
    if session in s.logs then s.logs[session] else []
  }

  function Start(capacity: nat): System {
    System(capacity, map[], B.EMPTY, [], [], map[], [])
  }

  predicate Active(s: System, c: nat) {
    c < |s.conns| && c < |s.broker.channels| && !s.conns[c].ended
  }

  ghost predicate Enabled(s: System, step: Step) {
    match step
    case Append(session, event) =>
      // Rows of one session become visible in id order.
      Increasing(Log(s, session) + [event])
    case BeginInit(session) =>
      !s.broker.closed && session !in s.broker.sessions && session !in s.broker.initializing
    case ReadLatest(session) =>
      session in s.broker.initializing && session !in s.latest
    case FinishInit(session, failed, _, _) =>
      session in s.broker.initializing && s.broker.initializing[session] < |s.broker.outcomes|
        && (failed || session in s.latest)
    case Subscribe(session, _, _) =>
      session in s.broker.sessions && s.broker.sessions[session] < |s.published|
        && s.broker.sessions[session] < |s.broker.streams|
    case Poll(k) =>
      k < |s.broker.streams| && k < |s.outbox| && s.outbox[k] == []
        && Page(Log(s, s.broker.streams[k].session), s.broker.streams[k].cursor) != []
    case PollFails(k) =>
      k < |s.broker.streams| && k < |s.outbox| && s.outbox[k] == []
    case PublishNext(k) =>
      k < |s.broker.streams| && k < |s.outbox| && k < |s.published| && s.outbox[k] != []
    case Replay(c) =>
      Active(s, c) && !s.conns[c].live && s.conns[c].queue == []
    case Write(c) =>
      Active(s, c) && s.conns[c].queue != []
    case Receive(c) =>
      Active(s, c) && s.conns[c].live && s.conns[c].queue == [] && s.broker.channels[c].buffer != []
    case Leave(c) =>
      Active(s, c) && s.conns[c].stream < |s.broker.streams|
    case Shutdown => true
  }

  function NewConn(session: Uuid, role: Role, last: int, stream: nat, base: nat): Conn {
    Conn(session, role, last, stream, last, false, false, [], [], base, 0)
  }

  /** run reads a page and moves its cursor to the last id before publishing any of it. */
  function PollStep(s: System, k: nat): System
    requires k < |s.broker.streams| && k < |s.outbox| && Page(Log(s, s.broker.streams[k].session), s.broker.streams[k].cursor) != []
  {
    var stream := s.broker.streams[k];
    var page := Page(Log(s, stream.session), stream.cursor);
    s.(broker := s.broker.(streams := s.broker.streams[k := stream.(cursor := page[|page| - 1].id)]),
       outbox := s.outbox[k := Compact(page)])
  }

  function PublishStep(s: System, k: nat): System
    requires k < |s.broker.streams| && k < |s.outbox| && k < |s.published| && s.outbox[k] != []
  {
    var item := s.outbox[k][0];
    s.(broker := B.Publish(s.broker, s.broker.streams[k].session, k, item, s.capacity),
       outbox := s.outbox[k := s.outbox[k][1..]],
       published := s.published[k := s.published[k] + Width(item)])
  }

  function ReceiveStep(s: System, c: nat): System
    requires c < |s.conns| && c < |s.broker.channels| && s.broker.channels[c].buffer != []
  {
    var conn, ch := s.conns[c], s.broker.channels[c];
    s.(broker := s.broker.(channels := s.broker.channels[c := ch.(buffer := ch.buffer[1..])]),
       conns := s.conns[c := ReceiveRow(conn, ch.buffer[0], Log(s, conn.session))])
  }

  function FinishInitStep(s: System, session: Uuid, failed: bool, role: Role, last: int): System
    requires session in s.broker.initializing && s.broker.initializing[session] < |s.broker.outcomes|
    requires failed || session in s.latest
  {
    var answer := if failed then None else Some(s.latest[session]);
    var k := |s.broker.streams|;
    var broker := B.FinishInit(s.broker, session, s.broker.initializing[session], answer);
    var settled := s.(broker := broker, latest := s.latest - {session});
    if failed || s.broker.closed then settled
    else
      var base := CountUpTo(Log(s, session), s.latest[session]);
      settled.(outbox := s.outbox + [[]],
               published := s.published + [base],
               conns := s.conns + [NewConn(session, role, last, k, base)])
  }

  ghost function Apply(s: System, step: Step): System
    requires Enabled(s, step)
  {
    match step
    case Append(session, event) => s.(logs := s.logs[session := Log(s, session) + [event]])
    case BeginInit(session) => s.(broker := B.BeginInit(s.broker, session), latest := s.latest - {session})
    case ReadLatest(session) => s.(latest := s.latest[session := LatestId(Log(s, session))])
    case FinishInit(session, failed, role, last) => FinishInitStep(s, session, failed, role, last)
    case Subscribe(session, role, last) =>
      var k := s.broker.sessions[session];
      s.(broker := B.AddSubscriber(s.broker, k), conns := s.conns + [NewConn(session, role, last, k, s.published[k])])
    case Poll(k) => PollStep(s, k)
    case PollFails(k) => s.(broker := B.Fail(s.broker, s.broker.streams[k].session, k))
    case PublishNext(k) => PublishStep(s, k)
    case Replay(c) =>
      var conn := s.conns[c];
      s.(conns := s.conns[c := ReplayPage(conn, Page(Log(s, conn.session), conn.after))])
    case Write(c) => s.(conns := s.conns[c := WriteRow(s.conns[c])])
    case Receive(c) => ReceiveStep(s, c)
    case Leave(c) =>
      var conn := s.conns[c];
      s.(broker := B.Unsubscribe(s.broker, conn.session, conn.stream, c), conns := s.conns[c := conn.(ended := true)])
    case Shutdown => s.(broker := B.Shutdown(s.broker))
  }

  // --- The invariant -----------------------------------------------------------

  /** A poller has read the ledger up to its cursor, and its outbox is exactly the part not yet published. */
  ghost predicate PollerOk(log: seq<Event>, cursor: int, outbox: seq<Event>, published: nat) {
    && cursor <= LatestId(log)
    && Tiles(log, published, outbox)
    && published + TotalWidth(outbox) == CountUpTo(log, cursor)
  }

  /** A channel continues the ledger from the point it was consumed to; while it is open it reaches as far
      as its poller has published. */
  ghost predicate ChannelOk(log: seq<Event>, base: nat, ch: B.Channel, published: nat) {
    && base <= |log|
    && Tiles(log, base, ch.buffer)
    && (ch.open ==> base + TotalWidth(ch.buffer) == published)
  }

  ghost predicate ConnOk(log: seq<Event>, c: Conn) {
    && CursorOk(log, c)
    && Faithful(log, c)
    && Ascending(c.last, c.after, Output(c))
    && (c.live ==> c.base <= CountUpTo(log, c.after))
  }

  ghost predicate GoodConn(log: seq<Event>, c: Conn, ch: B.Channel, published: nat) {
    ConnOk(log, c) && ChannelOk(log, c.base, ch, published)
  }

  type ConnRule = (seq<Event>, Conn, B.Channel, nat) -> bool
  type PollerRule = (seq<Event>, int, seq<Event>, nat) -> bool

  ghost predicate Linked(s: System, c: nat)
    requires c < |s.conns|
  {
    var conn := s.conns[c];
    && c < |s.broker.channels|
    && s.broker.channels[c].owner == conn.stream
    && conn.stream < |s.broker.streams|
    && conn.stream < |s.published|
    && s.broker.streams[conn.stream].session == conn.session
  }

  ghost predicate Obeys(s: System, c: nat, p: ConnRule)
    requires c < |s.conns| && Linked(s, c)
  {
    p(Log(s, s.conns[c].session), s.conns[c], s.broker.channels[c], s.published[s.conns[c].stream])
  }

  ghost predicate ConnsObey(s: System, p: ConnRule) {
    && |s.conns| == |s.broker.channels|
    && forall c: nat :: c < |s.conns| ==> Linked(s, c) && Obeys(s, c, p)
  }

  ghost predicate PollersObey(s: System, q: PollerRule) {
    && |s.outbox| == |s.broker.streams|
    && |s.published| == |s.broker.streams|
    && forall k: nat :: k < |s.broker.streams| ==>
         q(Log(s, s.broker.streams[k].session), s.broker.streams[k].cursor, s.outbox[k], s.published[k])
  }

  ghost predicate LogsOk(s: System) {
    && (forall session <- s.logs :: Increasing(s.logs[session]))
    && (forall session <- s.latest :: s.latest[session] <= LatestId(Log(s, session)))
  }

  ghost predicate Inv(s: System) {
    && B.Valid(s.broker, s.capacity)
    && LogsOk(s)
    && ConnsObey(s, GoodConn)
    && PollersObey(s, PollerOk)
  }

  lemma StartOk(capacity: nat)
    ensures Inv(Start(capacity))
  {
  }
}

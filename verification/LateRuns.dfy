/** The delivery protocol over logs whose joins may become visible late: every step of Delivery, and late joins, in any
    order; and what any rules about its pollers and connections have to survive to hold in every run. */
module LateRuns {
  import opened Prelude
  import opened LiveEvents
  import opened EventLog
  import opened EventStream
  import opened Delivery
  import opened LateJoins
  import opened LateCounts
  import DeliveryFrames
  import DeliverySteps
  import B = BrokerModel

  datatype Move = Usual(step: Step) | LateJoin(session: Uuid, event: Event)

  /** History of a poller: the id it has published up to, and the joins that became visible at or below its cursor. */
  datatype Feed = Feed(sent: int, late: set<int>)

  /** History of a connection: the id its channel has been consumed to; the joins that became visible at or below what
      had then been read for it; and, for each row put out, how many of the joins it announces it had already passed. */
  datatype Pass = Pass(base: int, late: set<int>, agains: seq<nat>)

  /** The system with its history, which no step reads. */
  datatype Tracked = Tracked(s: System, feeds: seq<Feed>, passes: seq<Pass>)

  function Begin(capacity: nat): Tracked {
    Tracked(Start(capacity), [], [])
  }

  ghost predicate CanMove(s: System, move: Move) {
    match move
    case Usual(step) => Enabled(s, step)
    case LateJoin(session, e) => MayArrive(Log(s, session), e)
  }

  ghost function Moved(s: System, move: Move): System
    requires CanMove(s, move)
  {
    match move
    case Usual(step) => Apply(s, step)
    case LateJoin(session, e) => s.(logs := s.logs[session := Inserted(Log(s, session), e)])
  }

  // --- History --------------------------------------------------------------------------------------------

  /** How far has been read for a connection: by itself, and once it is live, by its poller. */
  function Front(c: Conn, cursor: int): int {
    if c.live && cursor > c.after then cursor else c.after
  }

  function LateFeed(f: Feed, cursor: int, e: Event): Feed {
    if e.id <= cursor then f.(late := f.late + {e.id}) else f
  }

  function LatePass(p: Pass, c: Conn, cursor: int, e: Event): Pass {
    if e.id <= Front(c, cursor) then p.(late := p.late + {e.id}) else p
  }

  function ReplayedPass(p: Pass, c: Conn, page: seq<Event>): Pass {
    p.(agains := p.agains + Zeros(|Visible(c.role, Compact(page))|))
  }

  /** The joins the row stands for that the connection has already passed. */
  function Again(log: seq<Event>, f: Feed, p: Pass, c: Conn, item: Event): nat {
    if IsPresence(item) then Count(log, f.late, p.base, c.after) else 0
  }

  function ReceivedPass(log: seq<Event>, f: Feed, p: Pass, c: Conn, item: Event): Pass {
    if item.id <= c.after || !VisibleTo(c.role, item) then p.(base := item.id)
    else p.(base := item.id, agains := p.agains + [Again(log, f, p, c, item)])
  }

  function LateFeeds(t: Tracked, session: Uuid, e: Event): (r: seq<Feed>)
    ensures |r| == |t.feeds|
  {
    seq(|t.feeds|, k requires 0 <= k < |t.feeds| =>
      if k < |t.s.broker.streams| && t.s.broker.streams[k].session == session
      then LateFeed(t.feeds[k], t.s.broker.streams[k].cursor, e) else t.feeds[k])
  }

  function LatePasses(t: Tracked, session: Uuid, e: Event): (r: seq<Pass>)
    ensures |r| == |t.passes|
  {
    seq(|t.passes|, c requires 0 <= c < |t.passes| =>
      if c < |t.s.conns| && t.s.conns[c].session == session && t.s.conns[c].stream < |t.s.broker.streams|
      then LatePass(t.passes[c], t.s.conns[c], t.s.broker.streams[t.s.conns[c].stream].cursor, e) else t.passes[c])
  }

  ghost function Next(t: Tracked, move: Move): Tracked
    requires CanMove(t.s, move)
  {
    var s := t.s;
    var after := Moved(s, move);
    match move
    case LateJoin(session, e) => Tracked(after, LateFeeds(t, session, e), LatePasses(t, session, e))
    case Usual(FinishInit(session, failed, role, last)) =>
      if failed || s.broker.closed then Tracked(after, t.feeds, t.passes)
      else Tracked(after, t.feeds + [Feed(s.latest[session], {})], t.passes + [Pass(s.latest[session], {}, [])])
    case Usual(Subscribe(session, _, _)) =>
      var k := s.broker.sessions[session];
      Tracked(after, t.feeds, t.passes + [Pass(if k < |t.feeds| then t.feeds[k].sent else 0, {}, [])])
    case Usual(PublishNext(k)) =>
      Tracked(after, if k < |t.feeds| then t.feeds[k := t.feeds[k].(sent := s.outbox[k][0].id)] else t.feeds, t.passes)
    case Usual(Replay(c)) =>
      var conn := s.conns[c];
      Tracked(after, t.feeds, if c < |t.passes| then t.passes[c := ReplayedPass(t.passes[c], conn, Page(Log(s, conn.session), conn.after))] else t.passes)
    case Usual(Receive(c)) =>
      var conn := s.conns[c];
      Tracked(after, t.feeds,
        if c < |t.passes| && conn.stream < |t.feeds|
        then t.passes[c := ReceivedPass(Log(s, conn.session), t.feeds[conn.stream], t.passes[c], conn, s.broker.channels[c].buffer[0])]
        else t.passes)
    case _ => Tracked(after, t.feeds, t.passes)
  }

  // --- The pieces of the system, for any rules at all ---------------------------------------------------------

  type PassRule = (seq<Event>, Conn, B.Channel, int, seq<Event>, Feed, Pass) -> bool
  type FeedRule = (seq<Event>, int, seq<Event>, Feed) -> bool

  ghost predicate Joined(t: Tracked, c: nat)
    requires c < |t.s.conns|
  {
    Linked(t.s, c) && t.s.conns[c].stream < |t.s.outbox| && t.s.conns[c].stream < |t.feeds|
  }

  ghost predicate Holds(t: Tracked, c: nat, r: PassRule)
    requires c < |t.s.conns| && c < |t.passes| && Joined(t, c)
  {
    var s, k := t.s, t.s.conns[c].stream;
    r(Log(s, s.conns[c].session), s.conns[c], s.broker.channels[c], s.broker.streams[k].cursor, s.outbox[k], t.feeds[k], t.passes[c])
  }

  ghost predicate AllPasses(t: Tracked, r: PassRule) {
    && |t.s.conns| == |t.s.broker.channels| == |t.passes|
    && forall c: nat :: c < |t.s.conns| ==> Joined(t, c) && Holds(t, c, r)
  }

  ghost predicate FeedHolds(t: Tracked, k: nat, q: FeedRule)
    requires k < |t.s.broker.streams| && k < |t.s.outbox| && k < |t.feeds|
  {
    q(Log(t.s, t.s.broker.streams[k].session), t.s.broker.streams[k].cursor, t.s.outbox[k], t.feeds[k])
  }

  ghost predicate AllFeeds(t: Tracked, q: FeedRule) {
    && |t.s.outbox| == |t.s.published| == |t.s.broker.streams| == |t.feeds|
    && forall k: nat :: k < |t.s.broker.streams| ==> FeedHolds(t, k, q)
  }

  ghost predicate All(t: Tracked, r: PassRule, q: FeedRule) {
    AllPasses(t, r) && AllFeeds(t, q)
  }

  /** A connection with nothing about it moved. */
  lemma Unmoved(t: Tracked, t': Tracked, c: nat, r: PassRule)
    requires c < |t.s.conns| && c < |t.passes| && Joined(t, c) && Holds(t, c, r)
    requires t'.s.logs == t.s.logs && c < |t'.s.conns| && t'.s.conns[c] == t.s.conns[c] && c < |t'.passes| && t'.passes[c] == t.passes[c]
    requires c < |t'.s.broker.channels| && t'.s.broker.channels[c] == t.s.broker.channels[c]
    requires var k := t.s.conns[c].stream;
      && k < |t'.s.broker.streams| && t'.s.broker.streams[k].session == t.s.broker.streams[k].session
      && t'.s.broker.streams[k].cursor == t.s.broker.streams[k].cursor
      && k < |t'.s.published| && k < |t'.s.outbox| && t'.s.outbox[k] == t.s.outbox[k]
      && k < |t'.feeds| && t'.feeds[k] == t.feeds[k]
    ensures Joined(t', c) && Holds(t', c, r)
  {
  }

  lemma AppendFrame(t: Tracked, session: Uuid, longer: seq<Event>, t': Tracked, r: PassRule, q: FeedRule)
    requires All(t, r, q) && t' == t.(s := t.s.(logs := t.s.logs[session := longer]))
    requires forall c, ch, i, o, f, p :: r(Log(t.s, session), c, ch, i, o, f, p) ==> r(longer, c, ch, i, o, f, p)
    requires forall i, o, f :: q(Log(t.s, session), i, o, f) ==> q(longer, i, o, f)
    ensures All(t', r, q)
  {
    forall c: nat | c < |t'.s.conns| ensures Joined(t', c) && Holds(t', c, r) {
      assert Joined(t, c) && Holds(t, c, r);
    }
    forall k: nat | k < |t'.s.broker.streams| ensures FeedHolds(t', k, q) {
      assert FeedHolds(t, k, q);
    }
  }

  lemma LateFrame(t: Tracked, session: Uuid, e: Event, longer: seq<Event>, t': Tracked, r: PassRule, q: FeedRule)
    requires All(t, r, q)
    requires t' == Tracked(t.s.(logs := t.s.logs[session := longer]), LateFeeds(t, session, e), LatePasses(t, session, e))
    requires forall c, ch, i, o, f, p :: r(Log(t.s, session), c, ch, i, o, f, p) ==> r(longer, c, ch, i, o, LateFeed(f, i, e), LatePass(p, c, i, e))
    requires forall i, o, f :: q(Log(t.s, session), i, o, f) ==> q(longer, i, o, LateFeed(f, i, e))
    ensures All(t', r, q)
  {
    forall c: nat | c < |t'.s.conns| ensures Joined(t', c) && Holds(t', c, r) {
      assert Joined(t, c) && Holds(t, c, r);
    }
    forall k: nat | k < |t'.s.broker.streams| ensures FeedHolds(t', k, q) {
      assert FeedHolds(t, k, q);
    }
  }

  lemma SameTables(t: Tracked, t': Tracked, r: PassRule, q: FeedRule)
    requires All(t, r, q) && t'.feeds == t.feeds && t'.passes == t.passes
    requires t'.s.logs == t.s.logs && t'.s.conns == t.s.conns && t'.s.outbox == t.s.outbox && t'.s.published == t.s.published
    requires t'.s.broker.streams == t.s.broker.streams && t'.s.broker.channels == t.s.broker.channels
    ensures All(t', r, q)
  {
    forall c: nat | c < |t'.s.conns| ensures Joined(t', c) && Holds(t', c, r) {
      assert Joined(t, c) && Holds(t, c, r);
      Unmoved(t, t', c, r);
    }
    forall k: nat | k < |t'.s.broker.streams| ensures FeedHolds(t', k, q) {
      assert FeedHolds(t, k, q);
    }
  }

  lemma NewStreamFrame(t: Tracked, session: Uuid, conn: Conn, cursor: int, base: nat, f: Feed, p: Pass, t': Tracked, r: PassRule, q: FeedRule)
    requires All(t, r, q) && conn.stream == |t.s.broker.streams| && conn.session == session
    requires t'.s.logs == t.s.logs && t'.s.published == t.s.published + [base] && t'.s.outbox == t.s.outbox + [[]]
    requires t'.s.conns == t.s.conns + [conn] && t'.feeds == t.feeds + [f] && t'.passes == t.passes + [p]
    requires t'.s.broker.streams == t.s.broker.streams + [B.Stream(session, cursor, {|t.s.broker.channels|}, false)]
    requires t'.s.broker.channels == t.s.broker.channels + [B.Channel(conn.stream, [], true)]
    requires r(Log(t.s, session), conn, B.Channel(conn.stream, [], true), cursor, [], f, p) && q(Log(t.s, session), cursor, [], f)
    ensures All(t', r, q)
  {
    forall c: nat | c < |t'.s.conns| ensures Joined(t', c) && Holds(t', c, r) {
      if c < |t.s.conns| {
        assert Joined(t, c) && Holds(t, c, r);
        Unmoved(t, t', c, r);
      }
    }
    forall k: nat | k < |t'.s.broker.streams| ensures FeedHolds(t', k, q) {
      if k < |t.s.broker.streams| { assert FeedHolds(t, k, q); }
    }
  }

  lemma NewSubscriberFrame(t: Tracked, k: nat, conn: Conn, p: Pass, t': Tracked, r: PassRule, q: FeedRule)
    requires All(t, r, q) && k < |t.s.broker.streams| && conn.stream == k && conn.session == t.s.broker.streams[k].session
    requires t'.s.logs == t.s.logs && t'.s.published == t.s.published && t'.s.outbox == t.s.outbox && t'.s.conns == t.s.conns + [conn]
    requires t'.feeds == t.feeds && t'.passes == t.passes + [p]
    requires t'.s.broker.streams == t.s.broker.streams[k := t.s.broker.streams[k].(subscribers := t.s.broker.streams[k].subscribers + {|t.s.broker.channels|})]
    requires t'.s.broker.channels == t.s.broker.channels + [B.Channel(k, [], true)]
    requires r(Log(t.s, conn.session), conn, B.Channel(k, [], true), t.s.broker.streams[k].cursor, t.s.outbox[k], t.feeds[k], p)
    ensures All(t', r, q)
  {
    forall c: nat | c < |t'.s.conns| ensures Joined(t', c) && Holds(t', c, r) {
      if c < |t.s.conns| {
        assert Joined(t, c) && Holds(t, c, r);
        Unmoved(t, t', c, r);
      }
    }
    forall j: nat | j < |t'.s.broker.streams| ensures FeedHolds(t', j, q) {
      assert FeedHolds(t, j, q);
    }
  }

  lemma PollFrame(t: Tracked, k: nat, cursor: int, outbox: seq<Event>, t': Tracked, r: PassRule, q: FeedRule)
    requires All(t, r, q) && k < |t.s.broker.streams|
    requires t' == t.(s := t.s.(broker := t.s.broker.(streams := t.s.broker.streams[k := t.s.broker.streams[k].(cursor := cursor)]),
                                outbox := t.s.outbox[k := outbox]))
    requires var log := Log(t.s, t.s.broker.streams[k].session);
      && q(log, cursor, outbox, t.feeds[k])
      && forall c, ch, p :: r(log, c, ch, t.s.broker.streams[k].cursor, t.s.outbox[k], t.feeds[k], p) ==> r(log, c, ch, cursor, outbox, t.feeds[k], p)
    ensures All(t', r, q)
  {
    forall c: nat | c < |t'.s.conns| ensures Joined(t', c) && Holds(t', c, r) {
      assert Joined(t, c) && Holds(t, c, r);
      if t.s.conns[c].stream != k { Unmoved(t, t', c, r); }
    }
    forall j: nat | j < |t'.s.broker.streams| ensures FeedHolds(t', j, q) {
      assert FeedHolds(t, j, q);
    }
  }

  lemma CloseFrame(t: Tracked, t': Tracked, r: PassRule, q: FeedRule)
    requires All(t, r, q) && t' == t.(s := t.s.(broker := t'.s.broker)) && B.OnlyCloses(t.s.broker, t'.s.broker)
    requires forall l, c, ch, i, o, f, p :: r(l, c, ch, i, o, f, p) ==> r(l, c, ch.(open := false), i, o, f, p)
    ensures All(t', r, q)
  {
    forall c: nat | c < |t'.s.conns| ensures Joined(t', c) && Holds(t', c, r) {
      assert Joined(t, c) && Holds(t, c, r);
    }
    forall j: nat | j < |t'.s.broker.streams| ensures FeedHolds(t', j, q) {
      assert FeedHolds(t, j, q);
    }
  }

  lemma PublishFrame(t: Tracked, k: nat, item: Event, outbox: seq<Event>, published: nat, f: Feed, t': Tracked, r: PassRule, q: FeedRule)
    requires All(t, r, q) && k < |t.s.broker.streams| && t'.passes == t.passes && t'.feeds == t.feeds[k := f]
    requires t'.s.logs == t.s.logs && t'.s.conns == t.s.conns && t'.s.outbox == t.s.outbox[k := outbox] && t'.s.published == t.s.published[k := published]
    requires B.Sends(t.s.broker, t'.s.broker, k, item)
    requires var log, cursor := Log(t.s, t.s.broker.streams[k].session), t.s.broker.streams[k].cursor;
      && q(log, cursor, outbox, f)
      && forall c, ch, p :: r(log, c, ch, cursor, t.s.outbox[k], t.feeds[k], p) ==>
           && r(log, c, ch.(open := false), cursor, outbox, f, p)
           && (ch.open ==> r(log, c, ch.(buffer := ch.buffer + [item]), cursor, outbox, f, p))
    ensures All(t', r, q)
  {
    forall c: nat | c < |t'.s.conns| ensures Joined(t', c) && Holds(t', c, r) {
      assert Joined(t, c) && Holds(t, c, r);
      if t.s.conns[c].stream != k { Unmoved(t, t', c, r); }
    }
    forall j: nat | j < |t'.s.broker.streams| ensures FeedHolds(t', j, q) {
      assert FeedHolds(t, j, q);
    }
  }

  lemma ConnFrame(t: Tracked, c: nat, conn: Conn, ch: B.Channel, p: Pass, t': Tracked, r: PassRule, q: FeedRule)
    requires All(t, r, q) && c < |t.s.conns| && c < |t.s.broker.channels|
    requires conn.stream == t.s.conns[c].stream && conn.session == t.s.conns[c].session && ch.owner == t.s.broker.channels[c].owner
    requires t' == Tracked(t.s.(conns := t.s.conns[c := conn], broker := t.s.broker.(channels := t.s.broker.channels[c := ch])), t.feeds, t.passes[c := p])
    requires Joined(t, c) ==>
      r(Log(t.s, conn.session), conn, ch, t.s.broker.streams[conn.stream].cursor, t.s.outbox[conn.stream], t.feeds[conn.stream], p)
    ensures All(t', r, q)
  {
    forall c': nat | c' < |t'.s.conns| ensures Joined(t', c') && Holds(t', c', r) {
      assert Joined(t, c') && Holds(t, c', r);
    }
    forall j: nat | j < |t'.s.broker.streams| ensures FeedHolds(t', j, q) {
      assert FeedHolds(t, j, q);
    }
  }

  lemma RuleFor(t: Tracked, c: nat, r: PassRule, q: FeedRule)
    requires All(t, r, q) && c < |t.s.conns|
    ensures Joined(t, c)
    ensures var s, k := t.s, t.s.conns[c].stream;
      && r(Log(s, s.conns[c].session), s.conns[c], s.broker.channels[c], s.broker.streams[k].cursor, s.outbox[k], t.feeds[k], t.passes[c])
      && q(Log(s, s.conns[c].session), s.broker.streams[k].cursor, s.outbox[k], t.feeds[k])
  {
    assert Joined(t, c) && Holds(t, c, r) && FeedHolds(t, t.s.conns[c].stream, q);
  }

  // --- What the rules have to survive ---------------------------------------------------------------------------

  ghost predicate GrowClosed(r: PassRule, q: FeedRule) {
    forall log, e :: Increasing(log + [e]) ==>
      && (forall c, ch, i, o, f, p :: r(log, c, ch, i, o, f, p) ==> r(log + [e], c, ch, i, o, f, p))
      && (forall i, o, f :: q(log, i, o, f) ==> q(log + [e], i, o, f))
  }

  ghost predicate LateClosed(r: PassRule, q: FeedRule) {
    forall log, e :: Increasing(log) && MayArrive(log, e) ==>
      && (forall c, ch, i, o, f, p :: r(log, c, ch, i, o, f, p) ==> r(Inserted(log, e), c, ch, i, o, LateFeed(f, i, e), LatePass(p, c, i, e)))
      && (forall i, o, f :: q(log, i, o, f) ==> q(Inserted(log, e), i, o, LateFeed(f, i, e)))
  }

  ghost predicate CloseClosed(r: PassRule) {
    forall l, c, ch, i, o, f, p :: r(l, c, ch, i, o, f, p) ==> r(l, c, ch.(open := false), i, o, f, p)
  }

  ghost predicate PollClosed(r: PassRule, q: FeedRule) {
    forall log, i, f :: Increasing(log) && q(log, i, [], f) && Page(log, i) != [] ==>
      && q(log, PageEnd(log, i), Compact(Page(log, i)), f)
      && forall c, ch, p :: r(log, c, ch, i, [], f, p) ==> r(log, c, ch, PageEnd(log, i), Compact(Page(log, i)), f, p)
  }

  ghost predicate PublishClosed(r: PassRule, q: FeedRule) {
    forall log, i, o: seq<Event>, f: Feed :: Increasing(log) && q(log, i, o, f) && o != [] ==>
      && q(log, i, o[1..], f.(sent := o[0].id))
      && forall c, ch, p :: r(log, c, ch, i, o, f, p) ==>
           && r(log, c, ch.(open := false), i, o[1..], f.(sent := o[0].id), p)
           && (ch.open ==> r(log, c, ch.(buffer := ch.buffer + [o[0]]), i, o[1..], f.(sent := o[0].id), p))
  }

  ghost predicate FreshClosed(r: PassRule, q: FeedRule) {
    && (forall log, i, o, f, n: nat, k: nat, session: Uuid, role: Role, last: int :: Increasing(log) && q(log, i, o, f) ==>
          r(log, NewConn(session, role, last, k, n), B.Channel(k, [], true), i, o, f, Pass(f.sent, {}, [])))
    && (forall log, i :: Increasing(log) && i <= LatestId(log) ==> q(log, i, [], Feed(i, {})))
  }

  ghost predicate ReplayClosed(r: PassRule, q: FeedRule) {
    forall log, c, ch, i, o, f, p :: Increasing(log) && q(log, i, o, f) && r(log, c, ch, i, o, f, p) && !c.live && c.queue == [] ==>
      r(log, ReplayPage(c, Page(log, c.after)), ch, i, o, f, ReplayedPass(p, c, Page(log, c.after)))
  }

  ghost predicate ReceiveClosed(r: PassRule, q: FeedRule) {
    forall log, c, ch, i, o, f, p :: Increasing(log) && q(log, i, o, f) && r(log, c, ch, i, o, f, p) && c.live && ch.buffer != [] ==>
      r(log, ReceiveRow(c, ch.buffer[0], log), ch.(buffer := ch.buffer[1..]), i, o, f, ReceivedPass(log, f, p, c, ch.buffer[0]))
  }

  ghost predicate WriteClosed(r: PassRule) {
    && (forall log, c, ch, i, o, f, p :: r(log, c, ch, i, o, f, p) && c.queue != [] ==> r(log, WriteRow(c), ch, i, o, f, p))
    && (forall log, c, ch, i, o, f, p :: r(log, c, ch, i, o, f, p) ==> r(log, c.(ended := true), ch, i, o, f, p))
  }

  ghost predicate Closed(r: PassRule, q: FeedRule) {
    && GrowClosed(r, q) && LateClosed(r, q) && CloseClosed(r) && PollClosed(r, q) && PublishClosed(r, q)
    && FreshClosed(r, q) && ReplayClosed(r, q) && ReceiveClosed(r, q) && WriteClosed(r)
  }

  // --- Each move, for any such rules --------------------------------------------------------------------------------

  /** What the broker's own rule and the ledgers contribute. */
  ghost predicate Sound(s: System) {
    B.Valid(s.broker, s.capacity) && LogsOk(s)
  }

  lemma SoundMove(s: System, move: Move)
    requires Sound(s) && CanMove(s, move)
    ensures Sound(Moved(s, move))
  {
    match move
    case Usual(step) =>
      DeliverySteps.BrokerKeeps(s, step);
      DeliverySteps.LogsKeep(s, step);
    case LateJoin(session, e) =>
      if session !in s.logs { assert Increasing([]); }
      InsertedIncreases(Log(s, session), e, Inserted(Log(s, session), e));
  }

  lemma SubscribeKeeps(t: Tracked, session: Uuid, role: Role, last: int, r: PassRule, q: FeedRule)
    requires All(t, r, q) && LogsOk(t.s) && FreshClosed(r, q) && CanMove(t.s, Usual(Step.Subscribe(session, role, last)))
    requires t.s.broker.streams[t.s.broker.sessions[session]].session == session
    ensures All(Next(t, Usual(Step.Subscribe(session, role, last))), r, q)
  {
    var k := t.s.broker.sessions[session];
    assert FeedHolds(t, k, q);
    NewSubscriberFrame(t, k, NewConn(session, role, last, k, t.s.published[k]), Pass(t.feeds[k].sent, {}, []),
      Next(t, Usual(Step.Subscribe(session, role, last))), r, q);
  }

  lemma FinishInitKeeps(t: Tracked, session: Uuid, failed: bool, role: Role, last: int, r: PassRule, q: FeedRule)
    requires All(t, r, q) && LogsOk(t.s) && FreshClosed(r, q) && CanMove(t.s, Usual(FinishInit(session, failed, role, last)))
    ensures All(Next(t, Usual(FinishInit(session, failed, role, last))), r, q)
  {
    var t' := Next(t, Usual(FinishInit(session, failed, role, last)));
    if !failed && !t.s.broker.closed {
      var log, cursor := Log(t.s, session), t.s.latest[session];
      var k, base := |t.s.broker.streams|, CountUpTo(log, cursor);
      assert q(log, cursor, [], Feed(cursor, {}));
      NewStreamFrame(t, session, NewConn(session, role, last, k, base), cursor, base, Feed(cursor, {}), Pass(cursor, {}, []), t', r, q);
    } else {
      SameTables(t, t', r, q);
    }
  }

  lemma PollKeeps(t: Tracked, k: nat, r: PassRule, q: FeedRule)
    requires All(t, r, q) && LogsOk(t.s) && PollClosed(r, q) && CanMove(t.s, Usual(Poll(k)))
    ensures All(Next(t, Usual(Poll(k))), r, q)
  {
    var log, cursor := Log(t.s, t.s.broker.streams[k].session), t.s.broker.streams[k].cursor;
    assert FeedHolds(t, k, q);
    PollFrame(t, k, PageEnd(log, cursor), Compact(Page(log, cursor)), Next(t, Usual(Poll(k))), r, q);
  }

  lemma PublishKeeps(t: Tracked, k: nat, r: PassRule, q: FeedRule)
    requires All(t, r, q) && LogsOk(t.s) && PublishClosed(r, q) && CanMove(t.s, Usual(PublishNext(k)))
    requires B.Sends(t.s.broker, PublishStep(t.s, k).broker, k, t.s.outbox[k][0])
    ensures All(Next(t, Usual(PublishNext(k))), r, q)
  {
    assert FeedHolds(t, k, q);
    var item := t.s.outbox[k][0];
    PublishFrame(t, k, item, t.s.outbox[k][1..], t.s.published[k] + Width(item), t.feeds[k].(sent := item.id),
      Next(t, Usual(PublishNext(k))), r, q);
  }

  lemma ReplayKeeps(t: Tracked, c: nat, r: PassRule, q: FeedRule)
    requires All(t, r, q) && LogsOk(t.s) && ReplayClosed(r, q) && CanMove(t.s, Usual(Replay(c)))
    ensures All(Next(t, Usual(Replay(c))), r, q)
  {
    var t' := Next(t, Usual(Replay(c)));
    var ch := t.s.broker.channels[c];
    RuleFor(t, c, r, q);
    assert t.s.broker.channels[c := ch] == t.s.broker.channels;
    ConnFrame(t, c, t'.s.conns[c], ch, t'.passes[c], t', r, q);
  }

  lemma WriteKeeps(t: Tracked, c: nat, r: PassRule, q: FeedRule)
    requires All(t, r, q) && WriteClosed(r) && CanMove(t.s, Usual(Write(c)))
    ensures All(Next(t, Usual(Write(c))), r, q)
  {
    var t' := Next(t, Usual(Write(c)));
    var ch := t.s.broker.channels[c];
    RuleFor(t, c, r, q);
    assert t.s.broker.channels[c := ch] == t.s.broker.channels && t.passes[c := t.passes[c]] == t.passes;
    ConnFrame(t, c, t'.s.conns[c], ch, t.passes[c], t', r, q);
  }

  lemma ReceiveKeeps(t: Tracked, c: nat, r: PassRule, q: FeedRule)
    requires All(t, r, q) && LogsOk(t.s) && ReceiveClosed(r, q) && CanMove(t.s, Usual(Receive(c)))
    ensures All(Next(t, Usual(Receive(c))), r, q)
  {
    var t' := Next(t, Usual(Receive(c)));
    var conn, ch := t.s.conns[c], t.s.broker.channels[c];
    RuleFor(t, c, r, q);
    ConnFrame(t, c, ReceiveRow(conn, ch.buffer[0], Log(t.s, conn.session)), ch.(buffer := ch.buffer[1..]), t'.passes[c], t', r, q);
  }

  lemma LeaveKeeps(t: Tracked, c: nat, r: PassRule, q: FeedRule)
    requires All(t, r, q) && WriteClosed(r) && CloseClosed(r) && CanMove(t.s, Usual(Leave(c)))
    ensures All(Next(t, Usual(Leave(c))), r, q)
  {
    var conn, ch := t.s.conns[c], t.s.broker.channels[c];
    RuleFor(t, c, r, q);
    var mid := t.(s := t.s.(conns := t.s.conns[c := conn.(ended := true)]));
    assert t.s.broker.channels[c := ch] == t.s.broker.channels && t.passes[c := t.passes[c]] == t.passes;
    ConnFrame(t, c, conn.(ended := true), ch, t.passes[c], mid, r, q);
    B.UnsubscribeOnlyCloses(t.s.broker, conn.session, conn.stream, c);
    CloseFrame(mid, Next(t, Usual(Leave(c))), r, q);
  }

  lemma OffAirKeeps(t: Tracked, step: Step, r: PassRule, q: FeedRule)
    requires All(t, r, q) && CloseClosed(r) && (step.PollFails? || step.Shutdown?) && Enabled(t.s, step)
    ensures All(Next(t, Usual(step)), r, q)
  {
    if step.PollFails? {
      B.FailOnlyCloses(t.s.broker, t.s.broker.streams[step.stream].session, step.stream);
    } else {
      B.ShutdownOnlyCloses(t.s.broker);
    }
    CloseFrame(t, Next(t, Usual(step)), r, q);
  }

  lemma MoveKeeps(t: Tracked, move: Move, r: PassRule, q: FeedRule)
    requires Sound(t.s) && All(t, r, q) && Closed(r, q) && CanMove(t.s, move)
    ensures All(Next(t, move), r, q)
  {
    match move
    case LateJoin(session, e) => LateFrame(t, session, e, Inserted(Log(t.s, session), e), Next(t, move), r, q);
    case Usual(step) =>
      DeliveryFrames.FactsHold(t.s, step);
      match step
      case Append(session, e) => AppendFrame(t, session, Log(t.s, session) + [e], Next(t, move), r, q);
      case BeginInit(_) => SameTables(t, Next(t, move), r, q);
      case ReadLatest(_) => SameTables(t, Next(t, move), r, q);
      case FinishInit(session, failed, role, last) => FinishInitKeeps(t, session, failed, role, last, r, q);
      case Subscribe(session, role, last) => SubscribeKeeps(t, session, role, last, r, q);
      case Poll(k) => PollKeeps(t, k, r, q);
      case PublishNext(k) => PublishKeeps(t, k, r, q);
      case Replay(c) => ReplayKeeps(t, c, r, q);
      case Write(c) => WriteKeeps(t, c, r, q);
      case Receive(c) => ReceiveKeeps(t, c, r, q);
      case Leave(c) => LeaveKeeps(t, c, r, q);
      case _ => OffAirKeeps(t, step, r, q);
  }

  // --- Runs -------------------------------------------------------------------------------------------------------------

  ghost predicate Run(t: Tracked, moves: seq<Move>)
    decreases |moves|
  {
    moves == [] || (CanMove(t.s, moves[0]) && Run(Next(t, moves[0]), moves[1..]))
  }

  ghost function End(t: Tracked, moves: seq<Move>): Tracked
    requires Run(t, moves)
    decreases |moves|
  {
    if moves == [] then t else End(Next(t, moves[0]), moves[1..])
  }

  lemma {:induction false} RunKeeps(t: Tracked, moves: seq<Move>, r: PassRule, q: FeedRule)
    requires Sound(t.s) && All(t, r, q) && Closed(r, q) && Run(t, moves)
    ensures Sound(End(t, moves).s) && All(End(t, moves), r, q)
    decreases |moves|
  {
    if moves != [] {
      MoveKeeps(t, moves[0], r, q);
      SoundMove(t.s, moves[0]);
      RunKeeps(Next(t, moves[0]), moves[1..], r, q);
    }
  }

  lemma BeginOk(capacity: nat, r: PassRule, q: FeedRule)
    ensures Sound(Start(capacity)) && All(Begin(capacity), r, q)
  {
    StartOk(capacity);
  }
}

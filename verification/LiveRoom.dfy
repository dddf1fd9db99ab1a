/** Servers and a browser in one machine: the logs, pollers and connections move, and the browser connects, takes rows,
    fetches and sends commands, in any order; joins may become visible late. */
module LiveRoom {
  import opened Prelude
  import opened LiveState
  import opened LiveEvents
  import opened EventLog
  import opened EventStream
  import opened LiveClient
  import opened LateJoins
  import opened LateCounts
  import opened LateRuns
  import opened LateCountRuns
  import CR = LiveClientRuns
  import D = Delivery

  /** History of a head count: the id it was taken at, the joins up to there it does not hold, and how many it holds twice. */
  datatype Tally = Tally(upTo: int, late: set<int>, again: nat)

  /** A snapshot read but not yet arrived, or captured by a command in flight. */
  datatype Held = Held(snapshot: Snapshot, tally: Tally)

  /** asked is the Last-Event-ID of the stream, taken how many of its rows have been handled. */
  datatype Browser = Browser(session: Uuid, client: Client, tally: Tally, asked: int, stream: Option<nat>, taken: nat,
                             fetched: set<Held>, sent: set<Held>)

  datatype Room = Room(t: Tracked, b: Browser)

  datatype Step =
    | Serve(move: Move)
    | Connect
    | Open(conn: nat)
    | Take
    | Read(snapshot: Snapshot)
    | Arrive(held: Held)
    | Act
    | Answered(from: Held, view: SessionView, version: int)

  function LogOf(r: Room): seq<Event> {
    D.Log(r.t.s, r.b.session)
  }

  /** The stream has another row on the wire. */
  predicate HasRow(r: Room) {
    && r.b.stream.Some? && r.b.stream.value < |r.t.s.conns| && r.b.stream.value < |r.t.passes|
    && r.b.taken < |r.t.s.conns[r.b.stream.value].written|
  }

  function NextRow(r: Room): Event
    requires HasRow(r)
  {
    r.t.s.conns[r.b.stream.value].written[r.b.taken]
  }

  ghost predicate Enabled(r: Room, step: Step) {
    match step
    // Versions never decrease with the id, however rows become visible.
    case Serve(move) => CanMove(r.t.s, move) && CR.ServerLog(D.Log(Moved(r.t.s, move), r.b.session))
    case Connect => true
    case Open(c) =>
      r.b.stream.None? && c < |r.t.s.conns| && r.t.s.conns[c].session == r.b.session && r.t.s.conns[c].last == r.b.asked
    case Take => HasRow(r)
    case Read(s) => CR.Honest(LogOf(r), |LogOf(r)|, s)
    case Arrive(h) => h in r.b.fetched
    case Act => r.b.client.snapshot.Some?
    case Answered(from, view, version) => from in r.b.sent && CR.IsReply(LogOf(r), from.snapshot, view, version)
  }

  // --- Effects ----------------------------------------------------------------------------

  function LateTally(y: Tally, e: Event): Tally {
    if e.id <= y.upTo then y.(late := y.late + {e.id}) else y
  }

  function LateHelds(s: set<Held>, e: Event): set<Held> {
    set h | h in s :: h.(tally := LateTally(h.tally, e))
  }

  function LateBrowser(b: Browser, e: Event): Browser {
    b.(tally := LateTally(b.tally, e), fetched := LateHelds(b.fetched, e), sent := LateHelds(b.sent, e))
  }

  function Served(b: Browser, move: Move): Browser {
    if move.LateJoin? && move.session == b.session then LateBrowser(b, move.event) else b
  }

  /** The joins a row announces that the cursor has passed: those its connection had passed, and those between the row
      before it and the cursor. */
  function Twice(r: Room): nat
    requires HasRow(r)
  {
    var conn, p := r.t.s.conns[r.b.stream.value], r.t.passes[r.b.stream.value];
    if !IsPresence(NextRow(r)) || |p.agains| <= r.b.taken then 0
    else p.agains[r.b.taken] + Count(LogOf(r), p.late, IdAt(conn.last, conn.written, r.b.taken), r.b.client.cursor.eventId)
  }

  function Between(late: set<int>, lo: int, hi: int): set<int> {
    set x | x in late && lo < x <= hi
  }

  function TakeTally(r: Room): Tally
    requires HasRow(r)
  {
    var b, item := r.b, NextRow(r);
    if !ShouldApply(b.client.cursor, item) then b.tally
    else Tally(item.id, b.tally.late + Between(r.t.passes[b.stream.value].late, b.client.cursor.eventId, item.id), b.tally.again + Twice(r))
  }

  function JoinIds(s: seq<Event>): set<int> {
    set e | e in s && IsPresence(e) :: e.id
  }

  /** The captured head count lacks every join the cursor has passed since. */
  function AnswerTally(log: seq<Event>, from: Tally, upTo: int): Tally {
    Tally(upTo, from.late + JoinIds(Stretch(log, from.upTo, upTo)), from.again)
  }

  ghost function Apply(r: Room, step: Step): Room
    requires Enabled(r, step)
  {
    var b := r.b;
    match step
    case Serve(move) => Room(Next(r.t, move), Served(b, move))
    case Connect => r.(b := b.(asked := b.client.cursor.eventId, stream := None, taken := 0))
    case Open(c) => r.(b := b.(stream := Some(c), taken := 0))
    case Take => r.(b := b.(client := Handle(b.client, NextRow(r)), tally := TakeTally(r), taken := b.taken + 1))
    case Read(s) => r.(b := b.(fetched := b.fetched + {Held(s, Tally(s.lastEventId, {}, 0))}))
    case Arrive(h) =>
      r.(b := b.(client := StoreSnapshot(b.client, h.snapshot), tally := if Stale(b.client.cursor, h.snapshot) then b.tally else h.tally,
                 fetched := b.fetched - {h}))
    case Act => r.(b := b.(sent := b.sent + {Held(b.client.snapshot.value, b.tally)}))
    case Answered(from, view, version) =>
      r.(b := b.(client := WriteBack(b.client, from.snapshot, view, version),
                 tally := AnswerTally(LogOf(r), from.tally, b.client.cursor.eventId), sent := b.sent - {from}))
  }

  // --- The invariant ------------------------------------------------------------------------

  ghost predicate TallyOk(log: seq<Event>, y: Tally) {
    0 <= y.upTo <= LatestId(log) && forall x <- y.late :: x <= y.upTo
  }

  /** The head count is what its history says. */
  ghost predicate Fits(log: seq<Event>, s: Snapshot, y: Tally) {
    TallyOk(log, y) && s.count == Count(log, y.late, 0, y.upTo) + y.again
  }

  /** Some row at or below the cursor carries a version at least as high. */
  ghost predicate Known(log: seq<Event>, c: Cursor) {
    c.stateVersion <= 0 || exists q <- log :: q.id <= c.eventId && c.stateVersion <= q.version
  }

  ghost predicate ReadOk(log: seq<Event>, h: Held) {
    && Fits(log, h.snapshot, h.tally) && h.tally.again == 0
    && h.tally.upTo == h.snapshot.lastEventId && Known(log, Cursor(h.snapshot.lastEventId, h.snapshot.version))
  }

  ghost predicate SentOk(log: seq<Event>, h: Held, cursor: int) {
    Fits(log, h.snapshot, h.tally) && h.tally.upTo <= cursor
  }

  ghost predicate CountOk(log: seq<Event>, b: Browser) {
    && TallyOk(log, b.tally) && b.tally.upTo == b.client.cursor.eventId && Known(log, b.client.cursor)
    && (b.client.snapshot.Some? ==> Fits(log, b.client.snapshot.value, b.tally))
    && (forall h <- b.fetched :: ReadOk(log, h))
    && (forall h <- b.sent :: SentOk(log, h, b.client.cursor.eventId))
  }

  /** The browser's cursor is past every row it has taken from the stream. */
  ghost predicate StreamOk(s: D.System, b: Browser) {
    && b.asked <= b.client.cursor.eventId
    && (b.stream.Some? ==>
          && b.stream.value < |s.conns|
          && var conn := s.conns[b.stream.value];
          && conn.session == b.session && conn.last == b.asked && b.taken <= |conn.written|
          && IdAt(conn.last, conn.written, b.taken) <= b.client.cursor.eventId)
  }

  ghost predicate Inv(r: Room) {
    && Sound(r.t.s) && All(r.t, PassOk, FeedOk)
    && CR.ServerLog(LogOf(r))
    && CountOk(LogOf(r), r.b)
    && StreamOk(r.t.s, r.b)
  }

  // --- The log grows --------------------------------------------------------------------------

  lemma FitsAppend(log: seq<Event>, e: Event, longer: seq<Event>, s: Snapshot, y: Tally)
    requires Increasing(longer) && longer == log + [e] && Fits(log, s, y)
    ensures Fits(longer, s, y)
  {
    LatestBelow(log, e);
    CountAppend(log, e, longer, y.late, 0, y.upTo);
  }

  lemma FitsLate(log: seq<Event>, e: Event, longer: seq<Event>, s: Snapshot, y: Tally)
    requires Increasing(log) && MayArrive(log, e) && longer == Inserted(log, e) && Fits(log, s, y)
    ensures Fits(longer, s, LateTally(y, e))
  {
    InsertedIncreases(log, e, longer);
    CountInserted(log, e, longer, y.late, LateTally(y, e).late, 0, y.upTo);
  }

  lemma KnownLater(log: seq<Event>, longer: seq<Event>, c: Cursor)
    requires Known(log, c) && forall q <- log :: q in longer
    ensures Known(longer, c)
  {
    if c.stateVersion > 0 {
      var q :| q in log && q.id <= c.eventId && c.stateVersion <= q.version;
      assert q in longer;
    }
  }

  lemma CountAppends(log: seq<Event>, e: Event, longer: seq<Event>, b: Browser)
    requires Increasing(longer) && longer == log + [e] && CountOk(log, b)
    ensures CountOk(longer, b)
  {
    LatestBelow(log, e);
    KnownLater(log, longer, b.client.cursor);
    if b.client.snapshot.Some? { FitsAppend(log, e, longer, b.client.snapshot.value, b.tally); }
    forall h <- b.fetched ensures ReadOk(longer, h) {
      FitsAppend(log, e, longer, h.snapshot, h.tally);
      KnownLater(log, longer, Cursor(h.snapshot.lastEventId, h.snapshot.version));
    }
    forall h <- b.sent ensures SentOk(longer, h, b.client.cursor.eventId) {
      FitsAppend(log, e, longer, h.snapshot, h.tally);
    }
  }

  lemma CountLate(log: seq<Event>, e: Event, longer: seq<Event>, b: Browser)
    requires Increasing(log) && MayArrive(log, e) && longer == Inserted(log, e) && CountOk(log, b)
    ensures CountOk(longer, LateBrowser(b, e))
  {
    var b' := LateBrowser(b, e);
    InsertedIncreases(log, e, longer);
    InsertedRows(log, e);
    KnownLater(log, longer, b.client.cursor);
    if b.client.snapshot.Some? { FitsLate(log, e, longer, b.client.snapshot.value, b.tally); }
    forall h' <- b'.fetched ensures ReadOk(longer, h') {
      var h :| h in b.fetched && h' == h.(tally := LateTally(h.tally, e));
      FitsLate(log, e, longer, h.snapshot, h.tally);
      KnownLater(log, longer, Cursor(h.snapshot.lastEventId, h.snapshot.version));
    }
    forall h' <- b'.sent ensures SentOk(longer, h', b.client.cursor.eventId) {
      var h :| h in b.sent && h' == h.(tally := LateTally(h.tally, e));
      FitsLate(log, e, longer, h.snapshot, h.tally);
    }
  }

  /** What any move does to the browser's log. */
  lemma MoveLog(s: D.System, move: Move, session: Uuid)
    requires CanMove(s, move)
    ensures var log, longer := D.Log(s, session), D.Log(Moved(s, move), session);
      if move.LateJoin? && move.session == session then longer == Inserted(log, move.event)
      else if move.Usual? && move.step.Append? && move.step.session == session then longer == log + [move.step.event]
      else longer == log
  {
  }

  /** It serves whom it served and takes back nothing it has written. */
  predicate GoesOn(c: Conn, c': Conn) {
    c'.session == c.session && c'.last == c.last && c.written <= c'.written
  }

  lemma StepConns(s: D.System, step: D.Step, c: nat)
    requires D.Enabled(s, step) && c < |s.conns|
    ensures c < |D.Apply(s, step).conns| && GoesOn(s.conns[c], D.Apply(s, step).conns[c])
  {
    match step
    case Replay(_) =>
    case Write(_) =>
    case Receive(_) =>
    case Leave(_) =>
    case _ => assert s.conns <= D.Apply(s, step).conns;
  }

  lemma MoveConns(s: D.System, move: Move, c: nat)
    requires CanMove(s, move) && c < |s.conns|
    ensures c < |Moved(s, move).conns| && GoesOn(s.conns[c], Moved(s, move).conns[c])
  {
    if move.Usual? { StepConns(s, move.step, c); }
  }

  lemma ServeCounts(r: Room, move: Move)
    requires Inv(r) && Enabled(r, Serve(move))
    ensures CountOk(D.Log(Moved(r.t.s, move), r.b.session), Served(r.b, move))
  {
    var log, longer := LogOf(r), D.Log(Moved(r.t.s, move), r.b.session);
    MoveLog(r.t.s, move, r.b.session);
    if move.LateJoin? && move.session == r.b.session {
      CountLate(log, move.event, longer, r.b);
    } else if move.Usual? && move.step.Append? && move.step.session == r.b.session {
      CountAppends(log, move.step.event, longer, r.b);
    }
  }

  lemma ServeStream(s: D.System, move: Move, b: Browser)
    requires CanMove(s, move) && StreamOk(s, b)
    ensures StreamOk(Moved(s, move), Served(b, move))
  {
    if b.stream.Some? {
      MoveConns(s, move, b.stream.value);
      var conn, conn' := s.conns[b.stream.value], Moved(s, move).conns[b.stream.value];
      assert b.taken > 0 ==> conn'.written[b.taken - 1] == conn.written[b.taken - 1];
    }
  }

  lemma ServeServers(t: Tracked, move: Move)
    requires Sound(t.s) && All(t, PassOk, FeedOk) && CanMove(t.s, move)
    ensures Next(t, move).s == Moved(t.s, move) && Sound(Next(t, move).s) && All(Next(t, move), PassOk, FeedOk)
  {
    CountsClosed();
    MoveKeeps(t, move, PassOk, FeedOk);
    SoundMove(t.s, move);
    NextIs(t, move);
  }

  lemma ServeKeeps(r: Room, move: Move)
    requires Inv(r) && Enabled(r, Serve(move))
    ensures Inv(Apply(r, Serve(move)))
  {
    ServeServers(r.t, move);
    ServeCounts(r, move);
    ServeStream(r.t.s, move, r.b);
  }

  lemma NextIs(t: Tracked, move: Move)
    requires CanMove(t.s, move)
    ensures Next(t, move).s == Moved(t.s, move)
  {
  }

  // --- A row from the stream -----------------------------------------------------------------------

  /** Versions go up with the ids. */
  lemma VersionsById(log: seq<Event>, q: Event, x: Event)
    requires CR.ServerLog(log) && q in log && x in log && q.id <= x.id
    ensures q.version <= x.version
  {
    var i: nat :| i < |log| && log[i] == q;
    var j: nat :| j < |log| && log[j] == x;
    assert i <= j;
  }

  /** Against such a log the test on a row is a test on its id. */
  lemma AcceptsAbove(log: seq<Event>, c: Cursor, item: Event)
    requires CR.ServerLog(log) && Known(log, c) && Stamped(log, item)
    ensures ShouldApply(c, item) <==> c.eventId < item.id
    ensures Known(log, Advance(c, item))
  {
    var x :| x in log && x.id == item.id && x.version == item.version;
    if c.eventId < item.id && c.stateVersion > 0 {
      var q :| q in log && q.id <= c.eventId && c.stateVersion <= q.version;
      VersionsById(log, q, x);
    }
    if c.eventId < item.id && c.stateVersion <= 0 {
      var i: nat :| i < |log| && log[i] == x;
      assert 0 <= log[i].version;
    }
  }

  /** What is laid out around the next row of the stream. */
  lemma RowFacts(r: Room)
    requires Inv(r) && HasRow(r)
    ensures var item, p, conn := NextRow(r), r.t.passes[r.b.stream.value], r.t.s.conns[r.b.stream.value];
      var prev := IdAt(conn.last, conn.written, r.b.taken);
      && r.b.taken < |p.agains| && Stamped(LogOf(r), item)
      && conn.last <= prev < item.id <= LatestId(LogOf(r)) && prev <= r.b.client.cursor.eventId
      && Told(item) == Count(LogOf(r), p.late, prev, item.id) + p.agains[r.b.taken]
  {
    var c, n := r.b.stream.value, r.b.taken;
    var conn, p, log := r.t.s.conns[c], r.t.passes[c], LogOf(r);
    RuleFor(r.t, c, PassOk, FeedOk);
    OutputAt(conn, n);
    LaidAt(log, p.late, conn.last, Output(conn), p.agains, conn.after, n);
  }

  lemma OutputAt(conn: Conn, n: nat)
    requires n < |conn.written|
    ensures n < |Output(conn)| && Output(conn)[n] == conn.written[n]
    ensures IdAt(conn.last, Output(conn), n) == IdAt(conn.last, conn.written, n)
  {
  }

  /** A join counted behind the cursor and ahead of it. */
  lemma TakeCounts(log: seq<Event>, y: Tally, late: set<int>, prev: int, item: Event, again: nat, twice: nat, y': Tally)
    requires Increasing(log) && TallyOk(log, y) && prev <= y.upTo < item.id <= LatestId(log)
    requires Told(item) == Count(log, late, prev, item.id) + again
    requires twice == if IsPresence(item) then again + Count(log, late, prev, y.upTo) else 0
    requires y' == Tally(item.id, y.late + Between(late, y.upTo, item.id), y.again + twice)
    ensures TallyOk(log, y')
    ensures Count(log, y'.late, 0, item.id) + y'.again == Count(log, y.late, 0, y.upTo) + y.again + Told(item)
  {
    CountSplits(log, late, prev, y.upTo, item.id);
    CountSplits(log, y'.late, 0, y.upTo, item.id);
    CountSame(log, y.late, y'.late, 0, y.upTo);
    CountSame(log, late, y'.late, y.upTo, item.id);
  }

  /** What accepting a row does to the head count. */
  lemma HandleCounts(c: Client, item: Event)
    requires ShouldApply(c.cursor, item) && 0 < Width(item)
    ensures var c' := Handle(c, item);
      && c'.cursor == Advance(c.cursor, item) && c'.cursor.eventId == item.id && (c'.snapshot.Some? <==> c.snapshot.Some?)
      && (c'.snapshot.Some? && 0 <= c.snapshot.value.count ==> c'.snapshot.value.count == c.snapshot.value.count + Told(item))
  {
  }

  lemma TakeFits(log: seq<Event>, b: Browser, late: set<int>, prev: int, item: Event, again: nat, twice: nat, b': Browser)
    requires CR.ServerLog(log) && CountOk(log, b) && Stamped(log, item) && prev <= b.client.cursor.eventId && item.id <= LatestId(log)
    requires Told(item) == Count(log, late, prev, item.id) + again && ShouldApply(b.client.cursor, item)
    requires twice == if IsPresence(item) then again + Count(log, late, prev, b.client.cursor.eventId) else 0
    requires b'.tally == Tally(item.id, b.tally.late + Between(late, b.client.cursor.eventId, item.id), b.tally.again + twice)
    requires b'.client == Handle(b.client, item) && b'.fetched == b.fetched && b'.sent == b.sent
    ensures CountOk(log, b') && b'.client.cursor.eventId == item.id
  {
    AcceptsAbove(log, b.client.cursor, item);
    TakeCounts(log, b.tally, late, prev, item, again, twice, b'.tally);
    HandleCounts(b.client, item);
  }

  lemma TakeKeeps(r: Room)
    requires Inv(r) && Enabled(r, Take)
    ensures Inv(Apply(r, Take))
  {
    var b, log, item := r.b, LogOf(r), NextRow(r);
    var conn, p := r.t.s.conns[b.stream.value], r.t.passes[b.stream.value];
    RowFacts(r);
    AcceptsAbove(log, b.client.cursor, item);
    if ShouldApply(b.client.cursor, item) {
      TakeFits(log, b, p.late, IdAt(conn.last, conn.written, b.taken), item, p.agains[b.taken], Twice(r), Apply(r, Take).b);
    }
  }

  // --- Fetches and commands --------------------------------------------------------------------------

  lemma {:induction false} NoneIn(s: seq<Event>)
    ensures JoinsIn({}, s) == 0
    decreases |s|
  {
    if s != [] {
      NoneIn(s[..|s| - 1]);
    }
  }

  lemma WholeLog(log: seq<Event>)
    requires Increasing(log)
    ensures Stretch(log, 0, LatestId(log)) == log && Count(log, {}, 0, LatestId(log)) == Joins(log)
  {
    CountUpToIs(log, 0, 0);
    AllUpToLatest(log);
    ButAndIn({}, log);
    NoneIn(log);
  }

  lemma ReadFits(log: seq<Event>, s: Snapshot)
    requires Increasing(log) && CR.Honest(log, |log|, s)
    ensures ReadOk(log, Held(s, Tally(s.lastEventId, {}, 0)))
  {
    WholeLog(log);
    assert log[..|log|] == log && log[|log| - 1] in log;
  }

  lemma ReadKeeps(r: Room, s: Snapshot)
    requires Inv(r) && Enabled(r, Read(s))
    ensures Inv(Apply(r, Read(s)))
  {
    ReadFits(LogOf(r), s);
  }

  lemma ArriveKeeps(r: Room, h: Held)
    requires Inv(r) && Enabled(r, Arrive(h))
    ensures Inv(Apply(r, Arrive(h)))
  {
    assert ReadOk(LogOf(r), h);
  }

  lemma ActKeeps(r: Room)
    requires Inv(r) && Enabled(r, Act)
    ensures Inv(Apply(r, Act))
  {
  }

  /** With all its joins put aside there is nothing to count. */
  lemma {:induction false} NothingBut(late: set<int>, s: seq<Event>)
    requires forall e <- s :: IsPresence(e) ==> e.id in late
    ensures JoinsBut(late, s) == 0
    decreases |s|
  {
    if s != [] {
      assert s[|s| - 1] in s;
      NothingBut(late, s[..|s| - 1]);
    }
  }

  lemma AnswerFits(log: seq<Event>, s: Snapshot, y: Tally, upTo: int)
    requires Increasing(log) && Fits(log, s, y) && y.upTo <= upTo <= LatestId(log)
    ensures Fits(log, s, AnswerTally(log, y, upTo))
  {
    var y' := AnswerTally(log, y, upTo);
    var since := Stretch(log, y.upTo, upTo);
    StretchRows(log, y.upTo, upTo);
    assert forall e <- since :: IsPresence(e) ==> e.id in JoinIds(since);
    NothingBut(y'.late, since);
    CountSplits(log, y'.late, 0, y.upTo, upTo);
    CountSame(log, y.late, y'.late, 0, y.upTo);
  }

  lemma AnsweredKeeps(r: Room, from: Held, view: SessionView, version: int)
    requires Inv(r) && Enabled(r, Answered(from, view, version))
    ensures Inv(Apply(r, Answered(from, view, version)))
  {
    var b := r.b;
    assert SentOk(LogOf(r), from, b.client.cursor.eventId);
    AnswerFits(LogOf(r), from.snapshot, from.tally, b.client.cursor.eventId);
  }

  lemma ConnectKeeps(r: Room, step: Step)
    requires Inv(r) && Enabled(r, step) && (step.Connect? || step.Open?)
    ensures Inv(Apply(r, step))
  {
  }

  lemma StepKeeps(r: Room, step: Step)
    requires Inv(r) && Enabled(r, step)
    ensures Inv(Apply(r, step))
  {
    match step
    case Serve(move) => ServeKeeps(r, move);
    case Take => TakeKeeps(r);
    case Read(s) => ReadKeeps(r, s);
    case Arrive(h) => ArriveKeeps(r, h);
    case Act => ActKeeps(r);
    case Answered(from, view, version) => AnsweredKeeps(r, from, view, version);
    case _ => ConnectKeeps(r, step);
  }

  // --- Runs -------------------------------------------------------------------------------------------

  /** A browser that has just selected the session. */
  function Enter(capacity: nat, session: Uuid): Room {
    Room(Begin(capacity), Browser(session, Client(Some(session), INITIAL, None), Tally(0, {}, 0), 0, None, 0, {}, {}))
  }

  ghost predicate RoomRun(r: Room, steps: seq<Step>)
    decreases |steps|
  {
    steps == [] || (Enabled(r, steps[0]) && RoomRun(Apply(r, steps[0]), steps[1..]))
  }

  ghost function RoomEnd(r: Room, steps: seq<Step>): Room
    requires RoomRun(r, steps)
    decreases |steps|
  {
    if steps == [] then r else RoomEnd(Apply(r, steps[0]), steps[1..])
  }

  ghost predicate Reachable(r: Room) {
    exists capacity: nat, session: Uuid, steps: seq<Step> ::
      RoomRun(Enter(capacity, session), steps) && r == RoomEnd(Enter(capacity, session), steps)
  }

  lemma EnterOk(capacity: nat, session: Uuid)
    ensures Inv(Enter(capacity, session))
  {
    BeginOk(capacity, PassOk, FeedOk);
  }

  lemma {:induction false} RunKeepsInv(r: Room, steps: seq<Step>)
    requires Inv(r) && RoomRun(r, steps)
    ensures Inv(RoomEnd(r, steps))
    decreases |steps|
  {
    if steps != [] {
      StepKeeps(r, steps[0]);
      RunKeepsInv(Apply(r, steps[0]), steps[1..]);
    }
  }

  lemma ReachableInv(r: Room)
    requires Reachable(r)
    ensures Inv(r)
  {
    var capacity: nat, session: Uuid, steps :| RoomRun(Enter(capacity, session), steps) && r == RoomEnd(Enter(capacity, session), steps);
    EnterOk(capacity, session);
    RunKeepsInv(Enter(capacity, session), steps);
  }

  // --- What the screen shows -----------------------------------------------------------------------------

  /** The rows of the log the browser's cursor has passed. */
  function Passed(r: Room): seq<Event> {
    Stretch(LogOf(r), 0, r.b.client.cursor.eventId)
  }

  /** Whatever the servers and the browser do in between, the head count shown falls short of the joins the cursor has
      passed by exactly those its history lacks, and is ahead by exactly those it holds twice. So it is exact if and
      only if the two are as many. */
  lemma HeadCountAccounted(r: Room)
    requires Reachable(r) && r.b.client.snapshot.Some?
    ensures r.b.client.snapshot.value.count + JoinsIn(r.b.tally.late, Passed(r)) == Joins(Passed(r)) + r.b.tally.again
    ensures r.b.client.snapshot.value.count == Joins(Passed(r)) <==> JoinsIn(r.b.tally.late, Passed(r)) == r.b.tally.again
  {
    ReachableInv(r);
    ButAndIn(r.b.tally.late, Passed(r));
  }

  /** A fetched snapshot that is stored leaves exactly the joins missing that have become visible behind it since. */
  lemma FetchedCount(r: Room, h: Held)
    requires Reachable(r) && h in r.b.fetched && !Stale(r.b.client.cursor, h.snapshot)
    ensures var r' := Apply(r, Arrive(h));
      && r'.b.client.snapshot == Some(h.snapshot)
      && h.snapshot.count + JoinsIn(h.tally.late, Passed(r')) == Joins(Passed(r'))
  {
    ReachableInv(r);
    var r' := Apply(r, Arrive(h));
    assert ReadOk(LogOf(r), h);
    ButAndIn(h.tally.late, Passed(r'));
  }

  /** The browser never falls behind its stream: every row on the wire it takes or has already passed, and it accepts
      exactly the rows above its cursor, so after taking a row it stands at or past that row. */
  lemma BrowserFollowsConnection(r: Room)
    requires Reachable(r) && HasRow(r)
    ensures ShouldApply(r.b.client.cursor, NextRow(r)) <==> r.b.client.cursor.eventId < NextRow(r).id
    ensures NextRow(r).id <= Apply(r, Take).b.client.cursor.eventId
  {
    ReachableInv(r);
    RowFacts(r);
    AcceptsAbove(LogOf(r), r.b.client.cursor, NextRow(r));
  }
}

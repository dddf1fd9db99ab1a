/** What each kind of viewer is sent, told by the payloads of the rows, in every run, with or without late joins. */
module DeliveryRoles {
  import opened Prelude
  import opened LiveEvents
  import opened EventLog
  import opened EventStream
  import opened Delivery
  import opened LateJoins
  import opened LateRuns
  import LateJoinRuns
  import DeliveryTheorems
  import B = BrokerModel

  /** A change every viewer is told of. */
  ghost predicate Public(e: Event) {
    e.payload.SessionCreated? || e.payload.StateChanged? || e.payload.RankingUpdated?
  }

  /** The changes among these rows, in order. */
  ghost function Changes(s: seq<Event>): seq<Event> {
    if s == [] then []
    else if Public(s[|s| - 1]) then Changes(s[..|s| - 1]) + [s[|s| - 1]]
    else Changes(s[..|s| - 1])
  }

  /** The changes and the results among these rows, in order. */
  ghost function ChangesAndResults(s: seq<Event>): seq<Event> {
    if s == [] then []
    else if Public(s[|s| - 1]) || s[|s| - 1].payload.ResultUpdated? then ChangesAndResults(s[..|s| - 1]) + [s[|s| - 1]]
    else ChangesAndResults(s[..|s| - 1])
  }

  ghost predicate NoResult(s: seq<Event>) {
    forall e <- s :: !e.payload.ResultUpdated?
  }

  lemma {:induction false} ParticipantsSeeChanges(s: seq<Event>)
    ensures Key(ParticipantViewer, s) == Changes(s)
    decreases |s|
  {
    if s != [] {
      ParticipantsSeeChanges(s[..|s| - 1]);
    }
  }

  lemma {:induction false} ManagersSeeAll(s: seq<Event>)
    ensures Key(Manager, s) == ChangesAndResults(s)
    decreases |s|
  {
    if s != [] {
      ManagersSeeAll(s[..|s| - 1]);
    }
  }

  lemma {:induction false} VisibleHoldsNoResult(s: seq<Event>)
    ensures NoResult(Visible(ParticipantViewer, s))
    decreases |s|
  {
    if s != [] {
      VisibleHoldsNoResult(s[..|s| - 1]);
    }
  }

  // --- No result reaches a participant --------------------------------------------------------------

  ghost predicate Withheld(log: seq<Event>, c: Conn, ch: B.Channel, cursor: int, outbox: seq<Event>, f: Feed, p: Pass) {
    c.role == ParticipantViewer ==> NoResult(c.written) && NoResult(c.queue)
  }

  ghost predicate AnyFeed(log: seq<Event>, cursor: int, outbox: seq<Event>, f: Feed) {
    true
  }

  lemma WithheldReplays()
    ensures ReplayClosed(Withheld, AnyFeed)
  {
    forall log: seq<Event>, c: Conn, ch: B.Channel, i: int, o: seq<Event>, f: Feed, p: Pass | Withheld(log, c, ch, i, o, f, p)
      ensures Withheld(log, ReplayPage(c, Page(log, c.after)), ch, i, o, f, ReplayedPass(p, c, Page(log, c.after)))
    {
      VisibleHoldsNoResult(Compact(Page(log, c.after)));
    }
  }

  lemma WithheldReceives()
    ensures ReceiveClosed(Withheld, AnyFeed)
  {
    forall log: seq<Event>, c: Conn, ch: B.Channel, i: int, o: seq<Event>, f: Feed, p: Pass |
      Withheld(log, c, ch, i, o, f, p) && c.live && ch.buffer != []
      ensures Withheld(log, ReceiveRow(c, ch.buffer[0], log), ch.(buffer := ch.buffer[1..]), i, o, f, ReceivedPass(log, f, p, c, ch.buffer[0]))
    {
      VisibleHoldsNoResult([ch.buffer[0]]);
    }
  }

  lemma WithheldWrites()
    ensures WriteClosed(Withheld)
  {
    forall log: seq<Event>, c: Conn, ch: B.Channel, i: int, o: seq<Event>, f: Feed, p: Pass | Withheld(log, c, ch, i, o, f, p) && c.queue != []
      ensures Withheld(log, WriteRow(c), ch, i, o, f, p)
    {
      assert c.queue[0] in c.queue;
    }
  }

  lemma WithheldClosed()
    ensures Closed(Withheld, AnyFeed)
  {
    WithheldReplays();
    WithheldReceives();
    WithheldWrites();
  }

  /** However late joins become visible: no result is ever written to a participant's connection, nor waits to be. */
  lemma NoResultReachesParticipants(capacity: nat, moves: seq<Move>, c: nat)
    requires Run(Begin(capacity), moves) && c < |End(Begin(capacity), moves).s.conns|
    requires End(Begin(capacity), moves).s.conns[c].role == ParticipantViewer
    ensures forall e <- End(Begin(capacity), moves).s.conns[c].written :: !e.payload.ResultUpdated?
    ensures forall e <- End(Begin(capacity), moves).s.conns[c].queue :: !e.payload.ResultUpdated?
  {
    BeginOk(capacity, Withheld, AnyFeed);
    WithheldClosed();
    LateRuns.RunKeeps(Begin(capacity), moves, Withheld, AnyFeed);
    LateRuns.RuleFor(End(Begin(capacity), moves), c, Withheld, AnyFeed);
  }

  // --- Everything else does --------------------------------------------------------------------------

  /** The changes written to a connection, and to a manager's the results too, are the first ones of its session's log past
      its Last-Event-ID, in order. */
  lemma ChangesArriveInOrder(capacity: nat, moves: seq<Move>, c: nat)
    requires Run(Begin(capacity), moves) && c < |End(Begin(capacity), moves).s.conns|
    ensures var s := End(Begin(capacity), moves).s;
      var conn, due := s.conns[c], Above(Log(s, s.conns[c].session), s.conns[c].last);
      if conn.role == Manager then ChangesAndResults(conn.written) <= ChangesAndResults(due) else Changes(conn.written) <= Changes(due)
  {
    var s := End(Begin(capacity), moves).s;
    LateJoinRuns.NoGapNoRepeat(capacity, moves, c);
    ByPayload(s.conns[c].written);
    ByPayload(Above(Log(s, s.conns[c].session), s.conns[c].last));
  }

  lemma ByPayload(s: seq<Event>)
    ensures Key(ParticipantViewer, s) == Changes(s) && Key(Manager, s) == ChangesAndResults(s)
  {
    ParticipantsSeeChanges(s);
    ManagersSeeAll(s);
  }

  /** A drained live connection has written all of them. */
  lemma DrainedHasWrittenAll(capacity: nat, moves: seq<Move>, c: nat)
    requires Run(Begin(capacity), moves) && c < |End(Begin(capacity), moves).s.conns|
    requires var s := End(Begin(capacity), moves).s;
      c < |s.broker.channels|
      && var conn, ch := s.conns[c], s.broker.channels[c];
      && conn.live && ch.open && conn.queue == [] && ch.buffer == []
      && conn.stream < |s.outbox| && s.outbox[conn.stream] == []
      && conn.stream < |s.broker.streams| && s.broker.streams[conn.stream].cursor == LatestId(Log(s, conn.session))
    ensures var s := End(Begin(capacity), moves).s;
      var conn, due := s.conns[c], Above(Log(s, s.conns[c].session), s.conns[c].last);
      if conn.role == Manager then ChangesAndResults(conn.written) == ChangesAndResults(due) else Changes(conn.written) == Changes(due)
  {
    var s := End(Begin(capacity), moves).s;
    LateJoinRuns.NothingWithheld(capacity, moves, c);
    ByPayload(s.conns[c].written);
    ByPayload(Above(Log(s, s.conns[c].session), s.conns[c].last));
  }

  // --- Runs without late joins -----------------------------------------------------------------------

  function Usually(steps: seq<Step>): (moves: seq<Move>)
    ensures |moves| == |steps| && forall i :: 0 <= i < |steps| ==> moves[i] == Usual(steps[i])
  {
    seq(|steps|, i requires 0 <= i < |steps| => Usual(steps[i]))
  }

  /** A run of the delivery protocol is one in which no join happens to be late. */
  lemma {:induction false} RunsAreMoves(t: Tracked, steps: seq<Step>)
    requires DeliveryTheorems.Run(t.s, steps)
    ensures Run(t, Usually(steps)) && End(t, Usually(steps)).s == DeliveryTheorems.End(t.s, steps)
    decreases |steps|
  {
    if steps != [] {
      var next := Next(t, Usual(steps[0]));
      NextIsApplied(t, steps[0]);
      RunsAreMoves(next, steps[1..]);
      assert Usually(steps)[1..] == Usually(steps[1..]);
    }
  }

  lemma NextIsApplied(t: Tracked, step: Step)
    requires Enabled(t.s, step)
    ensures CanMove(t.s, Usual(step)) && Next(t, Usual(step)).s == Apply(t.s, step)
  {
  }

  /** In every reachable state of the protocol, then: a participant's connection holds no result; what it has written beside
      join counts is the first changes of its log past its Last-Event-ID, in order. */
  lemma ParticipantsAreToldChangesOnly(s: System, c: nat)
    requires DeliveryTheorems.Reachable(s) && c < |s.conns| && s.conns[c].role == ParticipantViewer
    ensures forall e <- s.conns[c].written :: !e.payload.ResultUpdated?
    ensures forall e <- s.conns[c].queue :: !e.payload.ResultUpdated?
    ensures Changes(s.conns[c].written) <= Changes(Above(Log(s, s.conns[c].session), s.conns[c].last))
  {
    var capacity: nat, steps :| DeliveryTheorems.Run(Start(capacity), steps) && s == DeliveryTheorems.End(Start(capacity), steps);
    RunsAreMoves(Begin(capacity), steps);
    NoResultReachesParticipants(capacity, Usually(steps), c);
    ChangesArriveInOrder(capacity, Usually(steps), c);
  }
}

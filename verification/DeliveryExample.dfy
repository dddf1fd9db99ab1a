/** Joins can be announced twice: a run that does it, step by step. A manager's connection replays the first
    join while its poller still stands before it; the poller then reads both joins as one run. */
module DeliveryExample {
  import opened Prelude
  import opened LiveEvents
  import opened EventLog
  import opened EventStream
  import opened Delivery
  import opened DeliveryTheorems
  import opened LedgerExample
  import WordCloud
  import B = BrokerModel
  import L = Ledger
  import LT = LedgerTheorems

  lemma {:induction false} RunSnoc(s: System, steps: seq<Step>, step: Step)
    requires Run(s, steps) && Enabled(End(s, steps), step)
    ensures Run(s, steps + [step]) && End(s, steps + [step]) == Apply(End(s, steps), step)
    decreases |steps|
  {
    var longer := steps + [step];
    if steps == [] {
      assert longer[1..] == [];
    } else {
      RunSnoc(Apply(s, steps[0]), steps[1..], step);
      assert longer[1..] == steps[1..] + [step];
    }
  }

  /** A system reachable in one more step. */
  lemma ReachNext(s: System, step: Step, s': System)
    requires Reachable(s) && Enabled(s, step) && s' == Apply(s, step)
    ensures Reachable(s')
  {
    var capacity: nat, steps :| Run(Start(capacity), steps) && s == End(Start(capacity), steps);
    RunSnoc(Start(capacity), steps, step);
  }

  const BOTH: Event := Event(4, 2, PresenceUpdated(2))

  const QUIET: seq<Event> := [CREATED, STARTED]
  const ENTERED: seq<Event> := [CREATED, STARTED, JOINED]
  const FILLED: seq<Event> := [CREATED, STARTED, JOINED, JOINED_TOO]

  const FRESH: Conn := NewConn(7, Manager, 2, 0, 2)
  const REPLAYED: Conn := FRESH.(after := 3, live := true, queue := [JOINED])
  const WRITTEN: Conn := REPLAYED.(written := [JOINED], queue := [])
  const RECEIVED: Conn := WRITTEN.(after := 4, queue := [BOTH], base := 4, overcount := 1)

  function Opening(log: seq<Event>, initializing: map<Uuid, nat>, latest: map<Uuid, int>, outcomes: seq<B.Outcome>): System {
    System(1, map[7 := log], B.Broker(map[], initializing, false, [], [], outcomes), [], [], latest, [])
  }

  function Served(log: seq<Event>, cursor: int, buffer: seq<Event>, outbox: seq<Event>, published: nat, conn: Conn): System {
    System(1, map[7 := log],
           B.Broker(map[7 := 0], map[], false, [B.Stream(7, cursor, {0}, false)], [B.Channel(0, buffer, true)], [B.Ready]),
           [outbox], [published], map[], [conn])
  }

  lemma Rising(s: seq<Event>, e: Event, longer: seq<Event>)
    requires longer == s + [e] && Increasing(s) && 1 <= e.id && LatestId(s) < e.id
    ensures Increasing(longer)
  {
  }

  lemma Logs()
    ensures [] + [CREATED] == [CREATED] && [CREATED] + [STARTED] == QUIET && QUIET + [JOINED] == ENTERED && ENTERED + [JOINED_TOO] == FILLED
    ensures Increasing([CREATED]) && Increasing(QUIET) && Increasing(ENTERED) && Increasing(FILLED)
  {
    Rising([CREATED], STARTED, QUIET);
    Rising(QUIET, JOINED, ENTERED);
    Rising(ENTERED, JOINED_TOO, FILLED);
  }

  lemma CreatedOne()
    ensures Reachable(Opening([CREATED], map[], map[], []))
  {
    var s0 := Start(1);
    assert Run(s0, []) && s0 == End(s0, []);
    Logs();
    assert s0.logs[7 := [CREATED]] == map[7 := [CREATED]];
    ReachNext(s0, Append(7, CREATED), Opening([CREATED], map[], map[], []));
  }

  lemma Logged()
    ensures Reachable(Opening(QUIET, map[], map[], []))
  {
    CreatedOne();
    Logs();
    var s1 := Opening([CREATED], map[], map[], []);
    assert s1.logs[7 := QUIET] == map[7 := QUIET];
    ReachNext(s1, Append(7, STARTED), Opening(QUIET, map[], map[], []));
  }

  lemma Opened()
    ensures Reachable(Served(QUIET, 2, [], [], 2, FRESH))
  {
    Logged();
    var s0 := Opening(QUIET, map[], map[], []);
    var s1, s2 := Opening(QUIET, map[7 := 0], map[], [B.InProgress]), Opening(QUIET, map[7 := 0], map[7 := 2], [B.InProgress]);
    assert s0.latest - {7} == map[];
    ReachNext(s0, BeginInit(7), s1);
    ReachNext(s1, ReadLatest(7), s2);
    FirstSubscriber(s2);
    ReachNext(s2, FinishInit(7, false, Manager, 2), Served(QUIET, 2, [], [], 2, FRESH));
  }

  lemma FirstSubscriber(s2: System)
    requires s2 == Opening(QUIET, map[7 := 0], map[7 := 2], [B.InProgress])
    ensures FinishInitStep(s2, 7, false, Manager, 2) == Served(QUIET, 2, [], [], 2, FRESH)
  {
    var s3, goal := FinishInitStep(s2, 7, false, Manager, 2), Served(QUIET, 2, [], [], 2, FRESH);
    assert CountUpTo(QUIET, 2) == 2;
    assert s3.broker.initializing == goal.broker.initializing;
    assert s3.broker.streams == goal.broker.streams;
    assert s3.broker.outcomes == goal.broker.outcomes;
    assert s3.latest == goal.latest;
  }

  lemma OneJoin()
    ensures Page(ENTERED, 2) == [JOINED] && Visible(Manager, Compact([JOINED])) == [JOINED]
  {
    Logs();
    CountUpToIs(ENTERED, 2, 2);
    assert [JOINED][..0] == [];
    assert Scan([JOINED]) == Scanned([], 1);
  }

  lemma TwoJoins()
    ensures CountUpTo(FILLED, 2) == 2 && CountUpTo(FILLED, 3) == 3
    ensures Page(FILLED, 2) == [JOINED, JOINED_TOO] && Compact([JOINED, JOINED_TOO]) == [BOTH]
    ensures Visible(Manager, [BOTH]) == [BOTH]
  {
    Logs();
    CountUpToIs(FILLED, 2, 2);
    CountUpToIs(FILLED, 3, 3);
    var two := [JOINED, JOINED_TOO];
    assert two[..1] == [JOINED] && [JOINED][..0] == [];
    assert Scan([JOINED]) == Scanned([], 1);
    assert Scan(two) == Scanned([], 2);
    assert [BOTH][..0] == [];
  }

  lemma EnteredOne()
    ensures Reachable(Served(ENTERED, 2, [], [], 2, FRESH))
  {
    Opened();
    Logs();
    assert map[7 := QUIET][7 := ENTERED] == map[7 := ENTERED];
    ReachNext(Served(QUIET, 2, [], [], 2, FRESH), Append(7, JOINED), Served(ENTERED, 2, [], [], 2, FRESH));
  }

  lemma ReplayedOne()
    ensures Reachable(Served(ENTERED, 2, [], [], 2, REPLAYED))
  {
    EnteredOne();
    OneJoin();
    var s := Served(ENTERED, 2, [], [], 2, FRESH);
    assert ReplayPage(FRESH, [JOINED]) == REPLAYED;
    ReachNext(s, Replay(0), Served(ENTERED, 2, [], [], 2, REPLAYED));
  }

  lemma WrittenOne()
    ensures Reachable(Served(ENTERED, 2, [], [], 2, WRITTEN))
  {
    ReplayedOne();
    SameButFor(REPLAYED, WRITTEN);
    assert [JOINED][1..] == [] && REPLAYED.written + [JOINED] == WRITTEN.written;
    ReachNext(Served(ENTERED, 2, [], [], 2, REPLAYED), Write(0), Served(ENTERED, 2, [], [], 2, WRITTEN));
  }

  lemma SameButFor<T>(x: T, y: T)
    ensures [x][0 := y] == [y]
  {
  }

  lemma Polled()
    ensures Reachable(Served(FILLED, 4, [], [BOTH], 2, WRITTEN))
  {
    WrittenOne();
    Logs();
    TwoJoins();
    var s1 := Served(ENTERED, 2, [], [], 2, WRITTEN);
    var s2 := Served(FILLED, 2, [], [], 2, WRITTEN);
    assert s1.logs[7 := FILLED] == s2.logs;
    ReachNext(s1, Append(7, JOINED_TOO), s2);
    SameButFor<seq<Event>>([], [BOTH]);
    SameButFor(B.Stream(7, 2, {0}, false), B.Stream(7, 4, {0}, false));
    ReachNext(s2, Poll(0), Served(FILLED, 4, [], [BOTH], 2, WRITTEN));
  }

  lemma PublishedOne(s: System, s1: System)
    requires s == Served(FILLED, 4, [], [BOTH], 2, WRITTEN)
    requires s1 == Served(FILLED, 4, [BOTH], [], 4, WRITTEN)
    ensures B.Publish(s.broker, 7, 0, BOTH, 1) == s1.broker
  {
    var one: set<nat> := {0};
    var b := s.broker;
    var delivered := B.Deliver(b.channels, one, BOTH);
    assert B.Slow(b, 0, 1) == {};
    assert one - {} == one && one * {} == {};
    var empty: seq<Event> := [];
    assert empty + [BOTH] == [BOTH];
    assert delivered[0] == B.Channel(0, [BOTH], true);
    assert delivered == s1.broker.channels && B.CloseAll(delivered, {}) == delivered;
    assert b.streams[0 := b.streams[0].(subscribers := one - {}, cancelled := false)] == b.streams;
  }

  lemma Published()
    ensures Reachable(Served(FILLED, 4, [BOTH], [], 4, WRITTEN))
  {
    Polled();
    var s := Served(FILLED, 4, [], [BOTH], 2, WRITTEN);
    var s1 := Served(FILLED, 4, [BOTH], [], 4, WRITTEN);
    PublishedOne(s, s1);
    SameButFor<seq<Event>>([BOTH], []);
    SameButFor<nat>(2, 4);
    assert [BOTH][1..] == [];
    assert PublishStep(s, 0) == s1;
    ReachNext(s, PublishNext(0), s1);
  }

  lemma Delivered()
    ensures Reachable(Served(FILLED, 4, [], [], 4, RECEIVED))
  {
    Published();
    TwoJoins();
    assert ReceiveRow(WRITTEN, BOTH, FILLED) == RECEIVED;
    assert [BOTH][1..] == [];
    SameButFor(B.Channel(0, [BOTH], true), B.Channel(0, [], true));
    SameButFor(WRITTEN, RECEIVED);
    ReachNext(Served(FILLED, 4, [BOTH], [], 4, WRITTEN), Receive(0), Served(FILLED, 4, [], [], 4, RECEIVED));
  }

  ghost predicate AnnouncesThreeForTwo(s: System, c: nat)
    requires c < |s.conns|
  {
    Deltas(Output(s.conns[c])) == 3 && Joins(Covered(Log(s, s.conns[c].session), s.conns[c])) == 2
  }

  lemma ThreeAnnounced(out: seq<Event>)
    requires out == [JOINED] + [BOTH]
    ensures Deltas(out) == 3
  {
    var none: seq<Event> := [];
    assert Deltas(none) == 0 && none + [JOINED] == [JOINED] && none + [BOTH] == [BOTH];
    assert [JOINED][..0] == none && [BOTH][..0] == none;
    assert Width(JOINED) == 1 && Width(BOTH) == 2;
    assert Deltas([JOINED]) == 1 && Deltas([BOTH]) == 2;
    DeltasConcat([JOINED], [BOTH], out);
  }

  /** Two people have joined since the connection's Last-Event-ID and it has announced three; its log is that of a
      session two people have joined. */
  lemma JoinsCanBeAnnouncedTwice(unicode: WordCloud.Unicode) returns (s: System, c: nat, l: L.Ledger)
    ensures Reachable(s) && c < |s.conns| && AnnouncesThreeForTwo(s, c)
    ensures LT.Reachable(l) && Log(s, s.conns[c].session) == l.events
  {
    Delivered();
    s, c, l := Served(FILLED, 4, [], [], 4, RECEIVED), 0, Room(unicode, [ADA, BOB], FILLED);
    TwoJoined(unicode);
    JoinsConserved(s, 0);
    ThreeAnnounced(Output(RECEIVED));
    assert s.conns[0] == RECEIVED && s.logs[7] == FILLED;
  }
}

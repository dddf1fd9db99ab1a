/** A late join can be missing from the screen: a run that does it, from the selection of a session. A join has drawn the
    id 2 and not committed yet; the host starts the session under id 3; the browser fetches and shows nobody; the join
    becomes visible behind its cursor, where no stream will bring it. */
module LiveRoomExample {
  import opened Prelude
  import opened LiveEvents
  import opened EventLog
  import opened EventStream
  import opened LiveClient
  import opened LiveRoom
  import opened LiveRoomCounts
  import E = LedgerExample
  import J = LateJoins
  import R = LateRuns
  import D = Delivery
  import CR = LiveClientRuns

  lemma {:induction false} RunSnoc(r: Room, steps: seq<Step>, step: Step)
    requires RoomRun(r, steps) && Enabled(RoomEnd(r, steps), step)
    ensures RoomRun(r, steps + [step]) && RoomEnd(r, steps + [step]) == Apply(RoomEnd(r, steps), step)
    decreases |steps|
  {
    var longer := steps + [step];
    if steps == [] {
      assert longer[1..] == [];
    } else {
      RunSnoc(Apply(r, steps[0]), steps[1..], step);
      assert longer[1..] == steps[1..] + [step];
    }
  }

  lemma ReachNext(r: Room, step: Step, r': Room)
    requires Reachable(r) && Enabled(r, step) && r' == Apply(r, step)
    ensures Reachable(r')
  {
    var capacity: nat, session: Uuid, steps :| RoomRun(Enter(capacity, session), steps) && r == RoomEnd(Enter(capacity, session), steps);
    RunSnoc(Enter(capacity, session), steps, step);
  }

  const SESSION: Uuid := 7
  const STARTED: Event := Event(3, 2, E.STARTED.payload)
  const LATE: Event := Event(2, 1, PresenceUpdated(1))
  const EMPTY_ROOM: Snapshot := Snapshot(SESSION, E.WAITING, 2, 3, 0, None)
  const FETCHED: Held := Held(EMPTY_ROOM, Tally(3, {}, 0))

  const QUIET: seq<Event> := [E.CREATED, STARTED]
  const JOINED: seq<Event> := [E.CREATED, LATE, STARTED]

  const BEFORE: Client := Client(Some(SESSION), INITIAL, None)
  const AFTER: Client := Client(Some(SESSION), Cursor(3, 2), Some(EMPTY_ROOM))

  function At(log: seq<Event>, client: Client, tally: Tally, fetched: set<Held>): Room {
    Room(R.Tracked(D.Start(1).(logs := map[SESSION := log]), [], []), Browser(SESSION, client, tally, 0, None, 0, fetched, {}))
  }

  lemma Rising(log: seq<Event>, e: Event, longer: seq<Event>)
    requires longer == log + [e] && CR.ServerLog(log) && 1 <= e.id && LatestId(log) < e.id && 0 <= e.version
    requires log != [] ==> log[|log| - 1].version <= e.version
    ensures CR.ServerLog(longer)
  {
  }

  lemma Logs()
    ensures CR.ServerLog([E.CREATED]) && CR.ServerLog(QUIET) && CR.ServerLog(JOINED)
    ensures [] + [E.CREATED] == [E.CREATED] && [E.CREATED] + [STARTED] == QUIET
  {
    Rising([], E.CREATED, [E.CREATED]);
    Rising([E.CREATED], STARTED, QUIET);
    Rising([E.CREATED], LATE, [E.CREATED, LATE]);
    Rising([E.CREATED, LATE], STARTED, JOINED);
  }

  lemma LateFits()
    ensures J.MayArrive(QUIET, LATE) && J.Inserted(QUIET, LATE) == JOINED
  {
    CountUpToIs(QUIET, 2, 1) by { Logs(); }
    assert QUIET[..1] == [E.CREATED] && QUIET[1..] == [STARTED];
  }

  lemma JoinsHeld()
    ensures Joins(QUIET) == 0 && Joins(JOINED) == 1
  {
    var one, two := [E.CREATED], [E.CREATED, LATE];
    assert one[..0] == [] && QUIET[..1] == one && JOINED[..2] == two && two[..1] == one;
    assert Joins(one) == 0 && Joins(two) == 1;
  }

  /** A row is appended to the session's log, and the browser does nothing. */
  lemma ItAppends(r: Room, e: Event, longer: seq<Event>, r': Room)
    requires r.b.session == SESSION && longer == LogOf(r) + [e] && CR.ServerLog(longer)
    requires r' == r.(t := r.t.(s := r.t.s.(logs := r.t.s.logs[SESSION := longer])))
    ensures Enabled(r, Serve(R.Usual(D.Append(SESSION, e)))) && r' == Apply(r, Serve(R.Usual(D.Append(SESSION, e))))
  {
  }

  lemma ItIsCreated()
    ensures Reachable(At([E.CREATED], BEFORE, Tally(0, {}, 0), {}))
  {
    var r0, r1 := Enter(1, SESSION), At([E.CREATED], BEFORE, Tally(0, {}, 0), {});
    assert RoomRun(r0, []) && r0 == RoomEnd(r0, []);
    assert r1.t.s.logs == r0.t.s.logs[SESSION := [E.CREATED]];
    Logs();
    ItAppends(r0, E.CREATED, [E.CREATED], r1);
    ReachNext(r0, Serve(R.Usual(D.Append(SESSION, E.CREATED))), r1);
  }

  lemma ItStarts()
    ensures Reachable(At(QUIET, BEFORE, Tally(0, {}, 0), {}))
  {
    var r1, r2 := At([E.CREATED], BEFORE, Tally(0, {}, 0), {}), At(QUIET, BEFORE, Tally(0, {}, 0), {});
    ItIsCreated();
    assert r2.t.s.logs == r1.t.s.logs[SESSION := QUIET];
    Logs();
    ItAppends(r1, STARTED, QUIET, r2);
    ReachNext(r1, Serve(R.Usual(D.Append(SESSION, STARTED))), r2);
  }

  lemma ItFetches()
    ensures Reachable(At(QUIET, AFTER, Tally(3, {}, 0), {}))
  {
    var r2, r3, r4 := At(QUIET, BEFORE, Tally(0, {}, 0), {}), At(QUIET, BEFORE, Tally(0, {}, 0), {FETCHED}), At(QUIET, AFTER, Tally(3, {}, 0), {});
    ItStarts();
    JoinsHeld();
    assert QUIET[..|QUIET|] == QUIET;
    assert {} + {FETCHED} == {FETCHED} && {FETCHED} - {FETCHED} == {};
    ReachNext(r2, Read(EMPTY_ROOM), r3);
    ReachNext(r3, Arrive(FETCHED), r4);
  }

  lemma NobodyElse(t: R.Tracked, b: Browser)
    requires t.feeds == [] && t.passes == [] && b.fetched == {} && b.sent == {} && b.tally == Tally(3, {}, 0)
    ensures R.LateFeeds(t, SESSION, LATE) == [] && R.LatePasses(t, SESSION, LATE) == []
    ensures LateBrowser(b, LATE) == b.(tally := Tally(3, {2}, 0))
  {
    assert {} + {2} == {2} && LateHelds({}, LATE) == {};
  }

  /** The join becomes visible in a room where nothing else is under way. */
  lemma ItJoins(r: Room, r': Room)
    requires r.b.session == SESSION && LogOf(r) == QUIET && r.t.feeds == [] && r.t.passes == []
    requires r.b.fetched == {} && r.b.sent == {} && r.b.tally == Tally(3, {}, 0)
    requires r' == Room(r.t.(s := r.t.s.(logs := r.t.s.logs[SESSION := JOINED])), r.b.(tally := Tally(3, {2}, 0)))
    ensures Enabled(r, Serve(R.LateJoin(SESSION, LATE))) && r' == Apply(r, Serve(R.LateJoin(SESSION, LATE)))
  {
    LateFits();
    NobodyElse(r.t, r.b);
    assert CR.ServerLog(JOINED) by { Logs(); }
  }

  lemma ItIsMissing(r: Room)
    requires LogOf(r) == JOINED && r.b.client == AFTER
    ensures !Exact(r) && Passed(r) == LogOf(r) && Joins(LogOf(r)) == 1
  {
    Logs();
    JoinsHeld();
    WholeLog(JOINED);
  }

  lemma ItJoinsLate()
    ensures Reachable(At(JOINED, AFTER, Tally(3, {2}, 0), {}))
  {
    var before, r := At(QUIET, AFTER, Tally(3, {}, 0), {}), At(JOINED, AFTER, Tally(3, {2}, 0), {});
    ItFetches();
    assert before.t.s.logs[SESSION := JOINED] == r.t.s.logs;
    ItJoins(before, r);
    ReachNext(before, Serve(R.LateJoin(SESSION, LATE)), r);
  }

  /** One participant has joined, behind the cursor, and the head count shown is none. */
  lemma ALateJoinCanBeMissing() returns (r: Room)
    ensures Reachable(r) && !Exact(r) && r.b.client.snapshot == Some(EMPTY_ROOM) && Passed(r) == LogOf(r) && Joins(LogOf(r)) == 1
  {
    r := At(JOINED, AFTER, Tally(3, {2}, 0), {});
    ItJoinsLate();
    ItIsMissing(r);
  }
}

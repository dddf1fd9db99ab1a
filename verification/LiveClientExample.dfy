/** A command's answer can take a join back: a run that does it, from the selection of a session. A snapshot is
    fetched and a command sent; somebody joins and is counted; the command's answer puts the old count back. */
module LiveClientExample {
  import opened Prelude
  import opened LiveEvents
  import opened EventLog
  import opened LiveClient
  import opened LiveClientRuns
  import opened LedgerExample
  import EventStream
  import WordCloud
  import L = Ledger
  import LT = LedgerTheorems

  lemma {:induction false} RunSnoc(w: World, steps: seq<Step>, step: Step)
    requires Run(w, steps) && Enabled(End(w, steps), step)
    ensures Run(w, steps + [step]) && End(w, steps + [step]) == Apply(End(w, steps), step)
    decreases |steps|
  {
    var longer := steps + [step];
    if steps == [] {
      assert longer[1..] == [];
    } else {
      RunSnoc(Apply(w, steps[0]), steps[1..], step);
      assert longer[1..] == steps[1..] + [step];
    }
  }

  /** What a browser that has just selected the session, its log being QUIET, can come to. */
  ghost predicate Reachable(w: World) {
    exists steps :: Run(Selected(SESSION, QUIET), steps) && w == End(Selected(SESSION, QUIET), steps)
  }

  lemma ReachNext(w: World, step: Step, w': World)
    requires Reachable(w) && Enabled(w, step) && w' == Apply(w, step)
    ensures Reachable(w')
  {
    var steps :| Run(Selected(SESSION, QUIET), steps) && w == End(Selected(SESSION, QUIET), steps);
    RunSnoc(Selected(SESSION, QUIET), steps, step);
  }

  const SESSION: Uuid := 7
  const EMPTY_ROOM: Snapshot := Snapshot(SESSION, WAITING, 2, 2, 0, None)
  const SENT: Sent := Sent(EMPTY_ROOM, 2)

  const QUIET: seq<Event> := [CREATED, STARTED]
  const ENTERED: seq<Event> := [CREATED, STARTED, JOINED]
  const MOVED: seq<Event> := [CREATED, STARTED, JOINED, PRESENTED]

  function At(log: seq<Event>, cursor: Cursor, shown: Snapshot, at: nat, captured: set<Sent>): World {
    World(log, Client(Some(SESSION), cursor, Some(shown)), at, captured)
  }

  function States(): seq<World> {
    [
      Selected(SESSION, QUIET),
      At(QUIET, Cursor(2, 2), EMPTY_ROOM, 0, {}),
      At(QUIET, Cursor(2, 2), EMPTY_ROOM, 2, {}),
      At(QUIET, Cursor(2, 2), EMPTY_ROOM, 2, {SENT}),
      At(ENTERED, Cursor(2, 2), EMPTY_ROOM, 2, {SENT}),
      At(ENTERED, Cursor(3, 2), EMPTY_ROOM.(count := 1), 3, {SENT}),
      At(MOVED, Cursor(3, 2), EMPTY_ROOM.(count := 1), 3, {SENT}),
      At(MOVED, Cursor(3, 2), EMPTY_ROOM.(view := SHOWING, version := 3), 3, {})
    ]
  }

  function Steps(): seq<Step> {
    [Fetch(2, EMPTY_ROOM), Connect, Act, Append(JOINED), Deliver(2, JOINED), Append(PRESENTED), Answered(SENT, SHOWING, 3)]
  }

  lemma Logs()
    ensures ServerLog(QUIET) && ServerLog(ENTERED) && ServerLog(MOVED)
    ensures QUIET + [JOINED] == ENTERED && ENTERED + [PRESENTED] == MOVED
    ensures PRESENTED in MOVED && Tile(ENTERED, 2, JOINED)
  {
    assert MOVED[3] == PRESENTED;
  }

  lemma Places()
    ensures CountUpTo(QUIET, 2) == 2 && CountUpTo(MOVED, 3) == 3
    ensures EventStream.Joins(QUIET[..2]) == 0
  {
    var one := [CREATED];
    assert one[..0] == [] && EventStream.Joins(one) == 0;
    assert QUIET[..2] == QUIET && QUIET[..|QUIET| - 1] == one && QUIET[|QUIET| - 1] == STARTED;
    assert EventStream.Joins(QUIET) == 0;
    CountUpToIs(MOVED, 3, 3) by { Logs(); }
  }

  lemma SendsFromAnEmptyRoom(k: nat)
    requires k < 3
    ensures Enabled(States()[k], Steps()[k]) && States()[k + 1] == Apply(States()[k], Steps()[k])
  {
    Places();
    assert {} + {SENT} == {SENT};
  }

  lemma CountsTheJoin(k: nat)
    requires 3 <= k < 6
    ensures Enabled(States()[k], Steps()[k]) && States()[k + 1] == Apply(States()[k], Steps()[k])
  {
    Logs();
  }

  lemma IsAnswered()
    ensures Enabled(States()[6], Steps()[6]) && States()[7] == Apply(States()[6], Steps()[6])
  {
    Logs();
    assert {SENT} - {SENT} == {};
    assert IsReply(MOVED, EMPTY_ROOM, SHOWING, 3);
  }

  lemma StatesGo(k: nat)
    requires k < 7
    ensures Enabled(States()[k], Steps()[k]) && States()[k + 1] == Apply(States()[k], Steps()[k])
  {
    if k < 3 { SendsFromAnEmptyRoom(k); } else if k < 6 { CountsTheJoin(k); } else { IsAnswered(); }
  }

  lemma {:induction false} StatesReached(k: nat)
    requires k <= 7
    ensures Reachable(States()[k])
  {
    if k == 0 {
      assert Run(States()[0], []) && States()[0] == End(States()[0], []);
    } else {
      StatesReached(k - 1);
      StatesGo(k - 1);
      ReachNext(States()[k - 1], Steps()[k - 1], States()[k]);
    }
  }

  lemma OneIsIn()
    ensures EventStream.Joins(MOVED[..3]) == 1
  {
    assert MOVED[..3] == ENTERED && ENTERED[..2] == QUIET && QUIET[..2] == QUIET;
    Places();
  }

  /** The log is a reachable session's; one join is behind the cursor and the answer has put back a count of none. */
  lemma AnAnswerCanTakeAJoinBack(unicode: WordCloud.Unicode) returns (w: World, l: L.Ledger)
    ensures ServerLog(QUIET) && Reachable(w) && !Exact(w)
    ensures LT.Reachable(l) && l.events == w.log
  {
    w := States()[7];
    l := Presented(unicode);
    Logs();
    Places();
    StatesReached(7);
    OneIsIn();
    assert Position(w) == 3;
  }
}

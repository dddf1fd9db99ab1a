/** Two runs in which the row lock is not enough, step by step, each from a session's creation. */
module RowLockExamples {
  import opened Prelude
  import opened LiveState
  import opened RowLocks
  import opened RowLockTheorems

  lemma {:induction false} RunSnoc(db: Db, steps: seq<Step>, step: Step)
    requires Run(db, steps) && Enabled(Final(db, steps), step)
    ensures Run(db, steps + [step]) && Final(db, steps + [step]) == Apply(Final(db, steps), step)
    decreases |steps|
  {
    var longer := steps + [step];
    if steps == [] {
      assert longer[1..] == [];
    } else {
      RunSnoc(Apply(db, steps[0]), steps[1..], step);
      assert longer[1..] == steps[1..] + [step];
    }
  }

  lemma ReachNext(db: Db, step: Step, db': Db)
    requires Reachable(db) && Enabled(db, step) && db' == Apply(db, step)
    ensures Reachable(db')
  {
    var steps :| Run(NewSession(), steps) && db == Final(NewSession(), steps);
    RunSnoc(NewSession(), steps, step);
  }

  lemma NewSessionReachable()
    ensures Reachable(NewSession())
  {
    assert Run(NewSession(), []) && Final(NewSession(), []) == NewSession();
  }

  // --- One change by itself -----------------------------------------------------------------

  /** A session nobody is working on, with these columns after these rows. */
  function Resting(version: int, columns: Columns, answers: set<Answer>, rows: seq<Row>): Db {
    Db(version, columns, answers, |answers|, Elements(rows), |rows| + 1, map[], {}, None, Reader(0, {}), Elements(rows))
  }

  /** A change that logs one row takes a resting session to the next. */
  lemma OneChange(version: int, columns: Columns, rows: seq<Row>, change: Change)
    requires Reachable(Resting(version, columns, {}, rows)) && !LogsTwo(change.action)
    requires CanApplyAction(columns.state, columns.phase, change.action)
    ensures Reachable(Resting(version + 1, Changed(columns, change), {}, rows + [Row(|rows| + 1, version + 1, StateChange)]))
  {
    var s0, row := Resting(version, columns, {}, rows), Row(|rows| + 1, version + 1, StateChange);
    var longer := rows + [row];
    ElementsSnoc(rows, row);
    var s1 := s0.(txs := map[1 := Changing(change, [], None)], holder := Some(1));
    ReachNext(s0, BeginChange(1, change), s1);
    var s2 := s1.(txs := map[1 := Changing(change, [row], None)], nextId := |longer| + 1, live := Elements(longer));
    FirstRow(row);
    Drew(s1, 1, [], row, s2);
    ReachNext(s1, LogChange(1), s2);
    var s3 := Resting(version + 1, Changed(columns, change), {}, longer);
    CommittedChange(s2, s3, rows, row);
    ReachNext(s2, Commit(1), s3);
  }

  lemma CommittedChange(s2: Db, s3: Db, rows: seq<Row>, row: Row)
    requires 1 in s2.txs && s2.txs == map[1 := s2.txs[1]] && s2.txs[1].Changing? && s2.txs[1].rows == [row]
    requires s2.visible == Elements(rows) && s2.sharers == {} && s2.holder == Some(1)
    requires s3 == s2.(version := s2.version + 1, columns := Changed(s2.columns, s2.txs[1].change), txs := map[], holder := None,
                       visible := Elements(rows + [row]))
    ensures Committed(s2, 1) == s3
  {
    ElementsSnoc(rows, row);
    FirstRow(row);
    assert s2.txs - {1} == map[] && s2.sharers - {1} == {};
  }

  lemma ElementsSnoc(rows: seq<Row>, row: Row)
    ensures Elements(rows + [row]) == Elements(rows) + {row}
  {
  }

  lemma FirstRow(row: Row)
    ensures [] + [row] == [row] && Elements([row]) == {row} && Elements<Row>([]) == {}
  {
  }

  lemma Drew(db: Db, t: nat, rows: seq<Row>, row: Row, db': Db)
    requires t in db.txs && Rows(db.txs[t]) == rows && (db.txs[t].Joining? || db.txs[t].Changing?) && row.id == db.nextId
    requires db' == db.(nextId := db'.nextId, live := db'.live, txs := db'.txs) && db'.nextId == db.nextId + 1
    requires forall r :: r in db'.live <==> r in db.live || r == row
    requires db'.txs == db.txs[t := db.txs[t].(rows := rows + [row])]
    ensures Draw(db, t, db.txs[t], row.version, row.body) == db'
  {
    assert db.live + {row} == db'.live;
  }

  // --- In the lobby ---------------------------------------------------------------------------

  const LOBBY: Columns := Columns(Lobby, None, 0, false)
  const STARTED: Row := Row(2, 2, StateChange)

  lemma LobbyOpened()
    ensures Reachable(Resting(2, LOBBY, {}, [CREATED, STARTED]))
  {
    NewSessionReachable();
    var draft := Columns(Draft, None, 0, false);
    assert Elements([CREATED]) == {CREATED};
    assert Resting(1, draft, {}, [CREATED]) == NewSession();
    OneChange(1, draft, [CREATED], Change(Start, 0, false));
    assert [CREATED] + [STARTED] == [CREATED, STARTED];
  }

  // --- A join that is never read ----------------------------------------------------------------

  const JOIN1: Row := Row(3, 2, Presence)
  const JOIN2: Row := Row(4, 2, Presence)

  function Joiners(first: seq<Row>, second: seq<Row>): map<nat, Tx> {
    map[1 := Joining(first)][2 := Joining(second)]
  }

  function Lobbied(nextId: int, txs: map<nat, Tx>, sharers: set<nat>, live: set<Row>): Db {
    Resting(2, LOBBY, {}, [CREATED, STARTED]).(nextId := nextId, txs := txs, sharers := sharers, live := live)
  }

  lemma TwoBegin()
    ensures Reachable(Lobbied(3, Joiners([], []), {1, 2}, {CREATED, STARTED}))
  {
    LobbyOpened();
    assert Elements([CREATED, STARTED]) == {CREATED, STARTED};
    var s0 := Resting(2, LOBBY, {}, [CREATED, STARTED]);
    var s1 := Lobbied(3, map[1 := Joining([])], {1}, {CREATED, STARTED});
    ReachNext(s0, BeginJoin(1), s1);
    var s2 := Lobbied(3, Joiners([], []), {1, 2}, {CREATED, STARTED});
    ReachNext(s1, BeginJoin(2), s2);
  }

  /** Two joins in flight draw ids 3 and 4. */
  lemma TwoJoins()
    ensures Reachable(Lobbied(5, Joiners([JOIN1], [JOIN2]), {1, 2}, {CREATED, STARTED, JOIN1, JOIN2}))
  {
    TwoBegin();
    var s2 := Lobbied(3, Joiners([], []), {1, 2}, {CREATED, STARTED});
    var s3 := Lobbied(4, Joiners([JOIN1], []), {1, 2}, {CREATED, STARTED, JOIN1});
    FirstRow(JOIN1);
    assert s2.txs[1 := Joining([JOIN1])] == s3.txs;
    Drew(s2, 1, [], JOIN1, s3);
    ReachNext(s2, DrawPresence(1), s3);
    var s4 := Lobbied(5, Joiners([JOIN1], [JOIN2]), {1, 2}, {CREATED, STARTED, JOIN1, JOIN2});
    FirstRow(JOIN2);
    assert s3.txs[2 := Joining([JOIN2])] == s4.txs;
    Drew(s3, 2, [], JOIN2, s4);
    ReachNext(s3, DrawPresence(2), s4);
  }

  /** The second commits first and is read; the first then commits below the reader's cursor. */
  lemma AJoinCanBeMissed()
    ensures exists db :: Reachable(db) && JOIN1 in Missed(db)
  {
    TwoJoins();
    var s4 := Lobbied(5, Joiners([JOIN1], [JOIN2]), {1, 2}, {CREATED, STARTED, JOIN1, JOIN2});
    var s5 := Apply(s4, Commit(2));
    ReachNext(s4, Commit(2), s5);
    FirstRow(JOIN2);
    assert JOIN2 in s5.visible && JOIN1 !in s5.visible && s5.txs[1] == Joining([JOIN1]);
    var s6 := Apply(s5, Read(JOIN2));
    ReachNext(s5, Read(JOIN2), s6);
    var s7 := Apply(s6, Commit(1));
    ReachNext(s6, Commit(1), s7);
    FirstRow(JOIN1);
    assert JOIN1 in s7.visible && JOIN1 !in s6.reader.seen;
    assert JOIN1 in Missed(s7);
  }

  // --- A result that misses an answer ------------------------------------------------------------

  const TAKING: Columns := Columns(Presenting, Some(Accepting), 7, false)
  const ANSWER: Answer := Answer(7, 0)
  const OPENED: Row := Row(3, 3, StateChange)
  const CLOSED: Row := Row(4, 4, StateChange)
  const RESULT: Row := Row(5, 4, Result(7, {}, true))

  function Opened(due: bool, answers: set<Answer>, nextAnswer: nat, txs: map<nat, Tx>, sharers: set<nat>): Db {
    Resting(3, TAKING.(due := due), {}, [CREATED, STARTED, OPENED])
      .(answers := answers, nextAnswer := nextAnswer, txs := txs, sharers := sharers)
  }

  lemma ItemOpened()
    ensures Reachable(Opened(false, {}, 0, map[], {}))
  {
    LobbyOpened();
    OneChange(2, LOBBY, [CREATED, STARTED], Change(PresentItem, 7, true));
    assert [CREATED, STARTED] + [OPENED] == [CREATED, STARTED, OPENED];
  }

  lemma AnswerInserted()
    ensures Reachable(Opened(false, {}, 1, map[2 := Submitting(7, {ANSWER})], {2}))
  {
    ItemOpened();
    var s0 := Opened(false, {}, 0, map[], {});
    var s1 := Opened(false, {}, 0, map[2 := Submitting(7, {})], {2});
    ReachNext(s0, BeginSubmit(2), s1);
    var s2 := Opened(false, {}, 1, map[2 := Submitting(7, {ANSWER})], {2});
    assert s1.txs[2 := Submitting(7, {ANSWER})] == s2.txs;
    ReachNext(s1, InsertAnswer(2), s2);
  }

  /** The deadline passes and a close takes its snapshot while the answer is in flight; the answer then commits. */
  lemma AnswerOvertaken()
    ensures Reachable(Opened(true, {ANSWER}, 1, map[3 := Waiting({}, 3)], {}))
  {
    AnswerInserted();
    var s2 := Opened(false, {}, 1, map[2 := Submitting(7, {ANSWER})], {2});
    var s3 := Opened(true, {}, 1, s2.txs, {2});
    ReachNext(s2, DeadlinePasses, s3);
    var s4 := Opened(true, {}, 1, s2.txs[3 := Waiting({}, 3)], {2});
    ReachNext(s3, Snapshot(3), s4);
    var s5 := Opened(true, {ANSWER}, 1, map[3 := Waiting({}, 3)], {});
    assert s4.txs - {2} == s5.txs && s4.sharers - {2} == {};
    ReachNext(s4, Commit(2), s5);
  }

  function Closing(nextId: int, rows: seq<Row>, live: set<Row>): Db {
    Opened(true, {ANSWER}, 1, map[3 := Changing(Change(CloseActivity, 7, true), rows, Some({}))], {})
      .(nextId := nextId, holder := Some(3), live := live)
  }

  lemma CloseGranted()
    ensures Reachable(Closing(4, [], {CREATED, STARTED, OPENED}))
  {
    AnswerOvertaken();
    var s5, s6 := Opened(true, {ANSWER}, 1, map[3 := Waiting({}, 3)], {}), Closing(4, [], {CREATED, STARTED, OPENED});
    assert Elements([CREATED, STARTED, OPENED]) == {CREATED, STARTED, OPENED};
    assert s5.txs[3 := s6.txs[3]] == s6.txs;
    ReachNext(s5, Grant(3), s6);
  }

  lemma CloseLogged()
    ensures Reachable(Closing(6, [CLOSED, RESULT], {CREATED, STARTED, OPENED, CLOSED, RESULT}))
  {
    CloseGranted();
    var s6, s7 := Closing(4, [], {CREATED, STARTED, OPENED}), Closing(5, [CLOSED], {CREATED, STARTED, OPENED, CLOSED});
    FirstRow(CLOSED);
    assert s6.txs[3 := s7.txs[3]] == s7.txs;
    Drew(s6, 3, [], CLOSED, s7);
    ReachNext(s6, LogChange(3), s7);
    var s8 := Closing(6, [CLOSED, RESULT], {CREATED, STARTED, OPENED, CLOSED, RESULT});
    LastRow(s7, s8);
    ReachNext(s7, LogMore(3), s8);
  }

  lemma LastRow(s7: Db, s8: Db)
    requires s7 == Closing(5, [CLOSED], {CREATED, STARTED, OPENED, CLOSED})
    requires s8 == Closing(6, [CLOSED, RESULT], {CREATED, STARTED, OPENED, CLOSED, RESULT})
    ensures Draw(s7, 3, s7.txs[3], 4, Second(s7, s7.txs[3])) == s8
  {
    assert AnswersTo({}, 7) == {};
    assert [CLOSED] + [RESULT] == [CLOSED, RESULT];
    assert s7.txs[3 := s8.txs[3]] == s8.txs;
    Drew(s7, 3, [CLOSED], RESULT, s8);
  }

  ghost predicate Short(db: Db) {
    Latest(db.visible, 7, RESULT) && !Taking(db) && AnswersTo(db.answers, 7) == {ANSWER}
  }

  /** One answer was given in time and stored; the result logged at the close counts none. */
  lemma ARepeatableReadResultCanBeShort()
    ensures exists db :: Reachable(db) && Short(db)
  {
    CloseLogged();
    var s8 := Closing(6, [CLOSED, RESULT], {CREATED, STARTED, OPENED, CLOSED, RESULT});
    var s9 := Apply(s8, Commit(3));
    ReachNext(s8, Commit(3), s9);
    assert Elements([CLOSED, RESULT]) == {CLOSED, RESULT};
    assert s9.visible == {CREATED, STARTED, OPENED, CLOSED, RESULT};
    assert Short(s9);
  }
}

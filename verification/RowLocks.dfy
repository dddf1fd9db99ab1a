/** The row lock under the transactions of postgres_store.go, step by step. Joins and answers hold the session
    row shared until they commit, commands and deadline closes hold it exclusively; ids are drawn from a sequence
    before commit, so rows can become visible out of id order. */
module RowLocks {
  import opened Prelude
  import opened LiveState

  /** id is the answer's place in the order of insertion. */
  datatype Answer = Answer(item: Uuid, id: nat)

  /** repeatable: logged by a close that ran in REPEATABLE READ. */
  datatype Body = Created | Presence | StateChange | Result(item: Uuid, counted: set<Answer>, repeatable: bool) | Ranking

  datatype Row = Row(id: int, version: int, body: Body)

  /** A command or a deadline; item and activity say what PresentItem puts on stage. */
  datatype Change = Change(action: Action, item: Uuid, activity: bool)

  /** The columns of the session row; due once its deadline has passed, which it stays until the row changes. */
  datatype Columns = Columns(state: State, phase: Option<Phase>, active: Uuid, due: bool)

  /** Joining and Submitting hold the row FOR SHARE, Changing holds it FOR UPDATE. Waiting is a deadline close in
      REPEATABLE READ that has taken its snapshot and queues for the row. */
  datatype Tx =
    | Joining(rows: seq<Row>)
    | Submitting(item: Uuid, inserted: set<Answer>)
    | Waiting(seen: set<Answer>, seenVersion: int)
    | Changing(change: Change, rows: seq<Row>, snapshot: Option<set<Answer>>)

  /** A poller or a replay: it has read up to cursor. */
  datatype Reader = Reader(cursor: int, seen: set<Row>)

  /** sharers and holder are the row's lock table; live is history: the rows visible or still pending. */
  datatype Db = Db(
    version: int,
    columns: Columns,
    answers: set<Answer>,
    nextAnswer: nat,
    visible: set<Row>,
    nextId: int,
    txs: map<nat, Tx>,
    sharers: set<nat>,
    holder: Option<nat>,
    reader: Reader,
    live: set<Row>)

  datatype Step =
    | Elsewhere(drawn: nat)
    | DeadlinePasses
    | BeginJoin(t: nat)
    | DrawPresence(t: nat)
    | BeginSubmit(t: nat)
    | InsertAnswer(t: nat)
    | BeginChange(t: nat, change: Change)
    | Snapshot(t: nat)
    | Grant(t: nat)
    | LogChange(t: nat)
    | LogMore(t: nat)
    | Commit(t: nat)
    | Abort(t: nat)
    | Read(upTo: Row)

  const CREATED: Row := Row(1, 1, Created)

  function NewSession(): Db {
    Db(1, Columns(Draft, None, 0, false), {}, 0, {CREATED}, 2, map[], {}, None, Reader(0, {}), {CREATED})
  }

  function Rows(tx: Tx): seq<Row> {
    if tx.Joining? || tx.Changing? then tx.rows else []
  }

  function AnswersTo(answers: set<Answer>, item: Uuid): set<Answer> {
    set a | a in answers && a.item == item
  }

  /** Answers to the active item are being taken. */
  predicate Taking(db: Db) {
    db.columns.state == Presenting && db.columns.phase == Some(Accepting)
  }

  predicate Holds(db: Db, t: nat) {
    t in db.txs && db.txs[t].Changing? && db.holder == Some(t)
  }

  /** Changes that log a second row. */
  predicate LogsTwo(action: Action) {
    action == CloseActivity || action == ShowOverallRanking
  }

  /** A change that has logged everything it has to. */
  predicate Complete(tx: Tx)
    requires tx.Changing?
  {
    |tx.rows| == if LogsTwo(tx.change.action) then 2 else 1
  }

  predicate Done(db: Db, t: nat)
    requires t in db.txs
  {
    match db.txs[t]
    case Joining(rows) => rows != []
    case Submitting(_, inserted) => inserted != {}
    case Waiting(_, _) => false
    case Changing(_, _, _) => Holds(db, t) && Complete(db.txs[t])
  }

  /** A transaction begins once the row can be locked, and goes on if the row it then sees lets it. */
  ghost predicate Enabled(db: Db, step: Step) {
    match step
    case Elsewhere(_) => true
    case DeadlinePasses => Taking(db)
    case BeginJoin(t) => t !in db.txs && db.holder == None && db.columns.state != Draft && db.columns.state != Ended
    case DrawPresence(t) => t in db.txs && db.txs[t] == Joining([])
    case BeginSubmit(t) => t !in db.txs && db.holder == None && Taking(db) && !db.columns.due
    case InsertAnswer(t) => t in db.txs && db.txs[t].Submitting? && db.txs[t].inserted == {}
    case BeginChange(t, change) =>
      && t !in db.txs && db.holder == None && db.sharers == {}
      && CanApplyAction(db.columns.state, db.columns.phase, change.action)
    case Snapshot(t) => t !in db.txs && Taking(db) && db.columns.due
    case Grant(t) => t in db.txs && db.txs[t].Waiting? && db.holder == None && db.sharers == {}
    case LogChange(t) => Holds(db, t) && db.txs[t].rows == []
    case LogMore(t) => Holds(db, t) && |db.txs[t].rows| == 1 && LogsTwo(db.txs[t].change.action)
    case Commit(t) => t in db.txs && Done(db, t)
    case Abort(t) => t in db.txs
    case Read(upTo) => upTo in db.visible && db.reader.cursor < upTo.id
  }

  /** Insert a row: draw the next id and stamp the version the transaction sees. */
  function Draw(db: Db, t: nat, tx: Tx, version: int, body: Body): Db
    requires tx.Joining? || tx.Changing?
  {
    var row := Row(db.nextId, version, body);
    db.(nextId := db.nextId + 1, live := db.live + {row}, txs := db.txs[t := tx.(rows := tx.rows + [row])])
  }

  /** The second row a change logs. A READ COMMITTED close counts what is committed now, a REPEATABLE READ close
      what was committed when its snapshot was taken. */
  function Second(db: Db, tx: Tx): Body
    requires tx.Changing?
  {
    if tx.change.action == CloseActivity then
      var item := db.columns.active;
      Result(item, AnswersTo(if tx.snapshot.Some? then tx.snapshot.value else db.answers, item), tx.snapshot.Some?)
    else Ranking
  }

  /** The columns a change leaves. */
  function Changed(c: Columns, change: Change): Columns {
    match change.action
    case Start => Columns(Lobby, None, c.active, false)
    case PresentItem => Columns(Presenting, if change.activity then Some(Accepting) else None, change.item, false)
    case CloseActivity => c.(phase := Some(Closed), due := false)
    case RevealActivity => c.(phase := Some(Revealed), due := false)
    case ShowOverallRanking => c
    case End => Columns(Ended, None, c.active, false)
    case Unknown => c
  }

  function Release(db: Db, t: nat): Db {
    db.(txs := db.txs - {t}, sharers := db.sharers - {t}, holder := if db.holder == Some(t) then None else db.holder)
  }

  function Committed(db: Db, t: nat): Db
    requires t in db.txs
  {
    var tx := db.txs[t];
    var freed := Release(db, t).(visible := db.visible + Elements(Rows(tx)));
    match tx
    case Submitting(_, inserted) => freed.(answers := db.answers + inserted)
    case Changing(change, _, _) => freed.(version := db.version + 1, columns := Changed(db.columns, change))
    case _ => freed
  }

  function Apply(db: Db, step: Step): Db
    requires Enabled(db, step)
  {
    match step
    case Elsewhere(drawn) => db.(nextId := db.nextId + drawn)
    case BeginJoin(t) => db.(txs := db.txs[t := Joining([])], sharers := db.sharers + {t})
    case DrawPresence(t) => Draw(db, t, db.txs[t], db.version, Presence)
    case DeadlinePasses => db.(columns := db.columns.(due := true))
    case BeginSubmit(t) => db.(txs := db.txs[t := Submitting(db.columns.active, {})], sharers := db.sharers + {t})
    case InsertAnswer(t) =>
      var tx := db.txs[t].(inserted := {Answer(db.txs[t].item, db.nextAnswer)});
      db.(txs := db.txs[t := tx], nextAnswer := db.nextAnswer + 1)
    case BeginChange(t, change) => db.(txs := db.txs[t := Changing(change, [], None)], holder := Some(t))
    case Snapshot(t) => db.(txs := db.txs[t := Waiting(db.answers, db.version)])
    case Grant(t) =>
      // A row that changed since the snapshot is a serialization failure.
      if db.txs[t].seenVersion != db.version then Release(db, t)
      else db.(txs := db.txs[t := Changing(Change(CloseActivity, db.columns.active, true), [], Some(db.txs[t].seen))], holder := Some(t))
    case LogChange(t) => Draw(db, t, db.txs[t], db.version + 1, StateChange)
    case LogMore(t) => Draw(db, t, db.txs[t], db.version + 1, Second(db, db.txs[t]))
    case Commit(t) => Committed(db, t)
    case Abort(t) => Release(db, t).(live := db.live - Elements(Rows(db.txs[t])))
    case Read(upTo) =>
      var page := set row | row in db.visible && db.reader.cursor < row.id <= upTo.id;
      db.(reader := Reader(upTo.id, db.reader.seen + page))
  }

  // --- The invariant ---------------------------------------------------------------

  ghost predicate LocksOk(db: Db) {
    && (db.holder.Some? ==> db.sharers == {} && db.holder.value in db.txs)
    && (forall t <- db.txs :: db.txs[t].Changing? <==> db.holder == Some(t))
    && (forall t <- db.txs :: db.txs[t].Joining? || db.txs[t].Submitting? <==> t in db.sharers)
    && (forall t <- db.sharers :: t in db.txs)
  }

  ghost function Held(db: Db): seq<Row> {
    if db.holder.Some? && db.holder.value in db.txs then Rows(db.txs[db.holder.value]) else []
  }

  ghost predicate Before(r: Row, s: Row) {
    r.version <= s.version && (r.version == s.version && r.body.Presence? ==> s.body.Presence?)
  }

  /** Ids identify rows, and follow versions: within one version the change's own rows come before any join. */
  ghost predicate OrderOk(db: Db) {
    && (forall r, s :: r in db.live && s in db.live && r.id < s.id ==> Before(r, s))
    && (forall r, s :: r in db.live && s in db.live && r.id == s.id ==> r == s)
    && (forall r <- db.live :: r.id < db.nextId)
  }

  ghost predicate StampsOk(db: Db) {
    && (forall r <- db.live :: r in Held(db) || r.version <= db.version)
    && (forall r <- Held(db) :: r.version == db.version + 1 && !r.body.Presence?)
  }

  /** A transaction's rows are live but not yet visible, and a join's rows are joins at the present version. */
  ghost predicate OwnRowsOk(db: Db, t: nat)
    requires t in db.txs
  {
    && (forall r <- Rows(db.txs[t]) :: r in db.live && r !in db.visible)
    && (db.txs[t].Joining? ==> forall r <- db.txs[t].rows :: r.body.Presence? && r.version == db.version)
  }

  ghost predicate Apart(tx: Tx, other: Tx) {
    forall r <- Rows(tx) :: r !in Rows(other)
  }

  ghost predicate PendingOk(db: Db) {
    && db.visible <= db.live
    && (forall t <- db.txs :: OwnRowsOk(db, t))
    && (forall t, u :: t in db.txs && u in db.txs && t != u ==> Apart(db.txs[t], db.txs[u]))
  }

  ghost predicate ReaderOk(db: Db) {
    && db.reader.cursor < db.nextId
    && (forall r <- Held(db) :: db.reader.cursor < r.id)
    && (forall r <- db.visible :: r.id <= db.reader.cursor && !r.body.Presence? ==> r in db.reader.seen)
    && (forall r <- db.reader.seen :: r in db.visible && r.id <= db.reader.cursor)
  }

  ghost predicate Inv(db: Db) {
    LocksOk(db) && OrderOk(db) && StampsOk(db) && PendingOk(db) && ReaderOk(db)
  }

  lemma StartOk()
    ensures Inv(NewSession())
  {
  }

  // --- Every step keeps it ---------------------------------------------------------------

  lemma KeepsLocks(db: Db, step: Step)
    requires LocksOk(db) && Enabled(db, step)
    ensures LocksOk(Apply(db, step))
  {
  }

  /** A row drawn by t, at the version it sees. */
  ghost predicate Drawn(db: Db, t: nat, tx: Tx, version: int, body: Body, db': Db) {
    && t in db.txs && tx == db.txs[t] && (tx.Joining? || tx.Changing?)
    && (tx.Changing? ==> db.holder == Some(t)) && (tx.Joining? ==> db.holder == None)
    && (if tx.Joining? then version == db.version && body.Presence? else version == db.version + 1 && !body.Presence?)
    && db' == Draw(db, t, tx, version, body)
  }

  lemma DrawKeepsOrder(db: Db, t: nat, tx: Tx, version: int, body: Body, db': Db)
    requires OrderOk(db) && StampsOk(db) && Drawn(db, t, tx, version, body, db')
    ensures OrderOk(db')
  {
  }

  lemma DrawKeepsStamps(db: Db, t: nat, tx: Tx, version: int, body: Body, db': Db)
    requires StampsOk(db) && Drawn(db, t, tx, version, body, db')
    ensures StampsOk(db') && (if tx.Changing? then Held(db') == tx.rows + [Row(db.nextId, version, body)] else Held(db') == Held(db) == [])
  {
  }

  lemma DrawKeepsPending(db: Db, t: nat, tx: Tx, version: int, body: Body, db': Db)
    requires OrderOk(db) && PendingOk(db) && Drawn(db, t, tx, version, body, db')
    ensures PendingOk(db')
  {
    var row := Row(db.nextId, version, body);
    assert row !in db.live;
    forall u <- db'.txs ensures OwnRowsOk(db', u) {
      assert OwnRowsOk(db, u);
    }
    DrawKeepsApart(db, t, tx, version, body, db');
  }

  lemma DrawKeepsApart(db: Db, t: nat, tx: Tx, version: int, body: Body, db': Db)
    requires PendingOk(db) && Drawn(db, t, tx, version, body, db') && Row(db.nextId, version, body) !in db.live
    ensures forall u, v :: u in db'.txs && v in db'.txs && u != v ==> Apart(db'.txs[u], db'.txs[v])
  {
    forall u, v | u in db'.txs && v in db'.txs && u != v ensures Apart(db'.txs[u], db'.txs[v]) {
      assert Apart(db.txs[u], db.txs[v]) && OwnRowsOk(db, u) && OwnRowsOk(db, v);
    }
  }

  lemma DrawKeeps(db: Db, t: nat, tx: Tx, version: int, body: Body, db': Db)
    requires Inv(db) && Drawn(db, t, tx, version, body, db')
    ensures OrderOk(db') && StampsOk(db') && PendingOk(db') && ReaderOk(db')
  {
    DrawKeepsOrder(db, t, tx, version, body, db');
    DrawKeepsStamps(db, t, tx, version, body, db');
    DrawKeepsPending(db, t, tx, version, body, db');
  }

  /** Locks come and go, transactions begin, other sessions draw ids: no row of this session moves. */
  ghost predicate SameRows(db: Db, db': Db) {
    && db'.live == db.live && db'.visible == db.visible && db'.version == db.version && db'.reader == db.reader
    && db.nextId <= db'.nextId
    && (forall t <- db'.txs :: Rows(db'.txs[t]) == [] || (t in db.txs && db'.txs[t] == db.txs[t]))
    && Held(db') == Held(db)
  }

  lemma SameRowsKeeps(db: Db, db': Db)
    requires OrderOk(db) && StampsOk(db) && PendingOk(db) && ReaderOk(db) && SameRows(db, db')
    ensures OrderOk(db') && StampsOk(db') && PendingOk(db') && ReaderOk(db')
  {
    forall t <- db'.txs ensures OwnRowsOk(db', t) {
      assert t in db.txs ==> OwnRowsOk(db, t);
    }
    forall t, u | t in db'.txs && u in db'.txs && t != u ensures Apart(db'.txs[t], db'.txs[u]) {
      assert t in db.txs && u in db.txs ==> Apart(db.txs[t], db.txs[u]);
    }
  }

  lemma AbortKeeps(db: Db, t: nat)
    requires Inv(db) && t in db.txs
    ensures var db' := Apply(db, Abort(t)); OrderOk(db') && StampsOk(db') && PendingOk(db') && ReaderOk(db')
  {
    var db' := Apply(db, Abort(t));
    assert db.holder.Some? && db.holder.value != t ==> db.holder.value in db'.txs && Held(db') == Held(db);
    AbortKeepsPending(db, t, db');
  }

  lemma AbortKeepsPending(db: Db, t: nat, db': Db)
    requires PendingOk(db) && t in db.txs && db' == Apply(db, Abort(t))
    ensures PendingOk(db')
  {
    assert OwnRowsOk(db, t);
    forall u <- db'.txs ensures OwnRowsOk(db', u) {
      assert OwnRowsOk(db, u) && Apart(db.txs[u], db.txs[t]);
    }
    forall u, v | u in db'.txs && v in db'.txs && u != v ensures Apart(db'.txs[u], db'.txs[v]) {
      assert Apart(db.txs[u], db.txs[v]);
    }
  }

  lemma CommitKeepsPending(db: Db, t: nat, db': Db)
    requires PendingOk(db) && LocksOk(db) && Enabled(db, Commit(t)) && db' == Committed(db, t)
    ensures PendingOk(db')
  {
    assert OwnRowsOk(db, t);
    forall u <- db'.txs ensures OwnRowsOk(db', u) {
      assert OwnRowsOk(db, u) && Apart(db.txs[u], db.txs[t]);
    }
    forall u, v | u in db'.txs && v in db'.txs && u != v ensures Apart(db'.txs[u], db'.txs[v]) {
      assert Apart(db.txs[u], db.txs[v]);
    }
  }

  lemma CommitKeepsStamps(db: Db, t: nat, db': Db)
    requires StampsOk(db) && LocksOk(db) && Enabled(db, Commit(t)) && db' == Committed(db, t)
    ensures StampsOk(db') && (if db.txs[t].Changing? then Held(db) == db.txs[t].rows && Held(db') == [] else Held(db') == Held(db) == [])
  {
  }

  lemma CommitKeepsReader(db: Db, t: nat, db': Db)
    requires StampsOk(db) && LocksOk(db) && PendingOk(db) && ReaderOk(db) && Enabled(db, Commit(t)) && db' == Committed(db, t)
    ensures ReaderOk(db')
  {
    CommitKeepsStamps(db, t, db');
    forall r <- db'.visible | r.id <= db'.reader.cursor && !r.body.Presence? ensures r in db'.reader.seen {
      assert OwnRowsOk(db, t);
      assert r in db.visible;
    }
  }

  lemma CommitKeeps(db: Db, t: nat)
    requires Inv(db) && Enabled(db, Commit(t))
    ensures var db' := Committed(db, t); OrderOk(db') && StampsOk(db') && PendingOk(db') && ReaderOk(db')
  {
    var db' := Committed(db, t);
    CommitKeepsStamps(db, t, db');
    CommitKeepsPending(db, t, db');
    CommitKeepsReader(db, t, db');
  }

  /** A change's rows have higher ids than anything visible. */
  lemma HeldIsAhead(db: Db)
    requires OrderOk(db) && StampsOk(db) && PendingOk(db) && LocksOk(db)
    ensures forall r, s :: r in Held(db) && s in db.visible ==> s.id < r.id
  {
    forall r, s | r in Held(db) && s in db.visible ensures s.id < r.id {
      assert OwnRowsOk(db, db.holder.value);
      assert r in db.live && s in db.live && s !in Held(db);
    }
  }

  lemma ReadKeeps(db: Db, upTo: Row)
    requires Inv(db) && Enabled(db, Read(upTo))
    ensures var db' := Apply(db, Read(upTo)); OrderOk(db') && StampsOk(db') && PendingOk(db') && ReaderOk(db')
  {
    HeldIsAhead(db);
    var db' := Apply(db, Read(upTo));
    SameRowsExceptReader(db, db');
    assert Held(db') == Held(db);
    assert upTo in db.live;
  }

  lemma SameRowsExceptReader(db: Db, db': Db)
    requires OrderOk(db) && StampsOk(db) && PendingOk(db) && db' == db.(reader := db'.reader)
    ensures OrderOk(db') && StampsOk(db') && PendingOk(db')
  {
    assert Held(db') == Held(db);
  }

  lemma StepKeeps(db: Db, step: Step)
    requires Inv(db) && Enabled(db, step)
    ensures Inv(Apply(db, step))
  {
    KeepsLocks(db, step);
    var db' := Apply(db, step);
    match step
    case DrawPresence(t) => DrawKeeps(db, t, db.txs[t], db.version, Presence, db');
    case LogChange(t) => DrawKeeps(db, t, db.txs[t], db.version + 1, StateChange, db');
    case LogMore(t) => DrawKeeps(db, t, db.txs[t], db.version + 1, Second(db, db.txs[t]), db');
    case Commit(t) => CommitKeeps(db, t);
    case Abort(t) => AbortKeeps(db, t);
    case Read(upTo) => ReadKeeps(db, upTo);
    case _ => QuietKeeps(db, step);
  }

  predicate Quiet(step: Step) {
    || step.Elsewhere? || step.DeadlinePasses? || step.BeginJoin? || step.BeginSubmit? || step.InsertAnswer?
    || step.BeginChange? || step.Snapshot? || step.Grant?
  }

  lemma QuietKeeps(db: Db, step: Step)
    requires Inv(db) && Enabled(db, step)
    requires Quiet(step)
    ensures var db' := Apply(db, step); OrderOk(db') && StampsOk(db') && PendingOk(db') && ReaderOk(db')
  {
    QuietSteps(db, step);
    SameRowsKeeps(db, Apply(db, step));
  }

  lemma QuietSteps(db: Db, step: Step)
    requires LocksOk(db) && Enabled(db, step)
    requires Quiet(step)
    ensures SameRows(db, Apply(db, step))
  {
  }
}

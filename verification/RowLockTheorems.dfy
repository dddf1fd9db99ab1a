/** What the row lock gives every reader of the log, and every result logged at a close. */
module RowLockTheorems {
  import opened Prelude
  import opened LiveState
  import opened RowLocks

  ghost predicate Run(db: Db, steps: seq<Step>)
    decreases |steps|
  {
    steps == [] || (Enabled(db, steps[0]) && Run(Apply(db, steps[0]), steps[1..]))
  }

  ghost function Final(db: Db, steps: seq<Step>): Db
    requires Run(db, steps)
    decreases |steps|
  {
    if steps == [] then db else Final(Apply(db, steps[0]), steps[1..])
  }

  ghost predicate Reachable(db: Db) {
    exists steps :: Run(NewSession(), steps) && db == Final(NewSession(), steps)
  }

  lemma {:induction false} RunKeeps(db: Db, steps: seq<Step>)
    requires Inv(db) && CloseOk(db) && Run(db, steps)
    ensures Inv(Final(db, steps)) && CloseOk(Final(db, steps))
    decreases |steps|
  {
    if steps != [] {
      StepKeeps(db, steps[0]);
      CloseStepKeeps(db, steps[0]);
      RunKeeps(Apply(db, steps[0]), steps[1..]);
    }
  }

  lemma ReachableInv(db: Db)
    requires Reachable(db)
    ensures Inv(db) && CloseOk(db)
  {
    var steps :| Run(NewSession(), steps) && db == Final(NewSession(), steps);
    StartOk();
    StartCloseOk();
    RunKeeps(NewSession(), steps);
  }

  lemma StartCloseOk()
    ensures CloseOk(NewSession())
  {
  }

  // --- Readers -----------------------------------------------------------------------

  /** Rows a reader has stepped over without seeing them. */
  ghost function Missed(db: Db): set<Row> {
    set r | r in db.visible && r.id <= db.reader.cursor && r !in db.reader.seen
  }

  /** A reader that jumps its cursor to the last id seen never steps over a state change, a result or a
      ranking: it can only miss joins. */
  lemma NoChangeIsSkipped(db: Db)
    requires Reachable(db)
    ensures forall r <- db.visible :: r.id <= db.reader.cursor && !r.body.Presence? ==> r in db.reader.seen
    ensures forall r <- Missed(db) :: r.body.Presence?
  {
    ReachableInv(db);
  }

  /** A row that becomes visible below one that already is, is a join, and its id is its own: what the delivery
      protocol is then proved for. */
  lemma OnlyJoinsArriveLate(db: Db, t: nat)
    requires Reachable(db) && Enabled(db, Commit(t))
    ensures forall r, s :: r in Committed(db, t).visible - db.visible && s in db.visible && r.id <= s.id ==> r.id < s.id && r.body.Presence?
  {
    ReachableInv(db);
    HeldIsAhead(db);
    assert OwnRowsOk(db, t);
    forall r, s | r in Committed(db, t).visible - db.visible && s in db.visible && r.id <= s.id ensures r.id < s.id && r.body.Presence? {
      assert r in Rows(db.txs[t]) && r in db.live && s in db.live;
    }
  }

  /** Ids follow versions, however the transactions interleave. */
  lemma VersionsFollowIds(db: Db)
    requires Reachable(db)
    ensures forall r, s :: r in db.visible && s in db.visible && r.id < s.id ==> r.version <= s.version
  {
    ReachableInv(db);
    forall r, s | r in db.visible && s in db.visible && r.id < s.id ensures r.version <= s.version {
      assert r in db.live && s in db.live;
      assert Before(r, s);
    }
  }

  /** A row is missed exactly when it commits at or below the cursor, and stays missed: nothing else ever adds
      to or takes from what a reader has missed. */
  lemma MissedExactly(db: Db, step: Step)
    requires Reachable(db) && Enabled(db, step)
    ensures Missed(Apply(db, step)) ==
      if step.Commit? then Missed(db) + (set r | r in Rows(db.txs[step.t]) && r.id <= db.reader.cursor) else Missed(db)
  {
    ReachableInv(db);
    match step
    case Commit(t) => CommitMisses(db, t);
    case Read(upTo) => ReadMisses(db, upTo);
    case _ => OthersMissNothing(db, step);
  }

  lemma CommitMisses(db: Db, t: nat)
    requires PendingOk(db) && ReaderOk(db) && Enabled(db, Commit(t))
    ensures Missed(Committed(db, t)) == Missed(db) + (set r | r in Rows(db.txs[t]) && r.id <= db.reader.cursor)
  {
    assert OwnRowsOk(db, t);
    assert Committed(db, t).visible == db.visible + Elements(Rows(db.txs[t]));
    assert Committed(db, t).reader == db.reader;
  }

  lemma ReadMisses(db: Db, upTo: Row)
    requires Enabled(db, Read(upTo))
    ensures Missed(Apply(db, Read(upTo))) == Missed(db)
  {
  }

  lemma OthersMissNothing(db: Db, step: Step)
    requires Enabled(db, step) && !step.Commit? && !step.Read?
    ensures Missed(Apply(db, step)) == Missed(db)
  {
    assert Apply(db, step).visible == db.visible && Apply(db, step).reader == db.reader;
  }

  // --- Results at a close ---------------------------------------------------------------

  /** r is the last result logged for item that anybody can see. */
  ghost predicate Latest(visible: set<Row>, item: Uuid, r: Row) {
    && IsResult(r, item) && r in visible
    && forall s :: s in visible && IsResult(s, item) ==> s.id <= r.id
  }

  ghost predicate IsResult(r: Row, item: Uuid) {
    r.body.Result? && r.body.item == item
  }

  ghost predicate TxOk(db: Db, t: nat)
    requires t in db.txs
  {
    match db.txs[t]
    case Joining(_) => true
    case Submitting(item, inserted) => Taking(db) && db.columns.active == item && forall a <- inserted :: a.item == item
    case Waiting(seen, seenVersion) => seen <= db.answers && seenVersion <= db.version && (seenVersion == db.version ==> Taking(db))
    case Changing(change, rows, snapshot) =>
      && CanApplyAction(db.columns.state, db.columns.phase, change.action)
      && (snapshot.Some? ==> change.action == CloseActivity && snapshot.value <= db.answers)
      && |rows| <= 2
      && (|rows| > 0 ==> rows[0].body == StateChange)
      && (|rows| > 1 ==> rows[1].body == Second(db, db.txs[t]))
  }

  /** Unless answers to an item are being taken, the result last logged for it by a READ COMMITTED close is all of them. */
  ghost predicate Settled(db: Db, item: Uuid) {
    !(Taking(db) && db.columns.active == item) ==>
      forall r :: Latest(db.visible, item, r) && !r.body.repeatable ==> r.body.counted == AnswersTo(db.answers, item)
  }

  ghost predicate CloseOk(db: Db) {
    && (forall t <- db.txs :: TxOk(db, t))
    && (forall item :: Settled(db, item))
  }

  lemma TxStepKeeps(db: Db, step: Step)
    requires LocksOk(db) && Enabled(db, step) && forall t <- db.txs :: TxOk(db, t)
    ensures forall t <- Apply(db, step).txs :: TxOk(Apply(db, step), t)
  {
    forall t <- Apply(db, step).txs ensures TxOk(Apply(db, step), t) {
      OneTxKeeps(db, step, t);
    }
  }

  lemma OneTxKeeps(db: Db, step: Step, t: nat)
    requires LocksOk(db) && Enabled(db, step) && t in Apply(db, step).txs && (t in db.txs ==> TxOk(db, t))
    requires step.Commit? && step.t in db.txs ==> TxOk(db, step.t)
    ensures TxOk(Apply(db, step), t)
  {
  }

  /** Nothing but a commit moves what results are about. */
  lemma QuietKeepsSettled(db: Db, step: Step, item: Uuid)
    requires Settled(db, item) && Enabled(db, step) && !step.Commit?
    ensures Settled(Apply(db, step), item)
  {
    var db' := Apply(db, step);
    assert db'.visible == db.visible && db'.answers == db.answers && Taking(db') == Taking(db) && db'.columns.active == db.columns.active;
  }

  /** Rows that say nothing about item change nothing about its latest result. */
  lemma SameLatest(visible: set<Row>, more: set<Row>, item: Uuid, r: Row)
    requires forall s <- more :: !IsResult(s, item)
    ensures Latest(visible + more, item, r) <==> Latest(visible, item, r)
  {
    assert forall s :: s in visible ==> s in visible + more;
  }

  lemma CommitKeepsSettled(db: Db, t: nat, item: Uuid)
    requires Inv(db) && CloseOk(db) && Enabled(db, Commit(t))
    ensures Settled(Committed(db, t), item)
  {
    var db', tx := Committed(db, t), db.txs[t];
    assert TxOk(db, t) && OwnRowsOk(db, t) && Settled(db, item);
    match tx
    case Changing(_, rows, _) => ChangeKeepsSettled(db, t, rows, item);
    case Joining(rows) => JoinKeepsSettled(db, t, rows, item);
    case Submitting(_, inserted) =>
      assert db'.visible == db.visible;
      assert item != db.columns.active ==> AnswersTo(db'.answers, item) == AnswersTo(db.answers, item);
  }

  lemma JoinKeepsSettled(db: Db, t: nat, rows: seq<Row>, item: Uuid)
    requires Enabled(db, Commit(t)) && db.txs[t] == Joining(rows) && Settled(db, item)
    requires forall r <- rows :: r.body.Presence?
    ensures Settled(Committed(db, t), item)
  {
    forall r ensures Latest(db.visible + Elements(rows), item, r) <==> Latest(db.visible, item, r) {
      SameLatest(db.visible, Elements(rows), item, r);
    }
  }

  lemma ChangeKeepsSettled(db: Db, t: nat, rows: seq<Row>, item: Uuid)
    requires LocksOk(db) && OrderOk(db) && StampsOk(db) && PendingOk(db)
    requires Enabled(db, Commit(t)) && db.txs[t].Changing? && db.txs[t].rows == rows && TxOk(db, t) && Settled(db, item)
    ensures Settled(Committed(db, t), item)
  {
    var more, change := Elements(rows), db.txs[t].change;
    assert forall r <- more :: r == rows[0] || (|rows| == 2 && r == rows[1]);
    if change.action == CloseActivity && item == db.columns.active {
      HeldIsAhead(db);
      assert rows[1] in Held(db) && rows[1] in more;
      forall r | Latest(db.visible + more, item, r) ensures r == rows[1] {
        assert IsResult(rows[1], item) && rows[1] in db.visible + more;
      }
    } else {
      forall r ensures Latest(db.visible + more, item, r) <==> Latest(db.visible, item, r) {
        SameLatest(db.visible, more, item, r);
      }
    }
  }

  lemma CloseStepKeeps(db: Db, step: Step)
    requires Inv(db) && CloseOk(db) && Enabled(db, step)
    ensures CloseOk(Apply(db, step))
  {
    TxStepKeeps(db, step);
    forall item: Uuid ensures Settled(Apply(db, step), item) {
      if step.Commit? {
        CommitKeepsSettled(db, step.t, item);
      } else {
        QuietKeepsSettled(db, step, item);
      }
    }
  }

  /** When a change commits it still meets the state it was guarded by, whatever was under way at the same time; the columns
      move as the command says, and the rows that become visible are its own, at the next version. */
  lemma ChangeTakesEffect(db: Db, t: nat)
    requires Reachable(db) && Enabled(db, Commit(t)) && db.txs[t].Changing?
    ensures var change, rows, c, c' := db.txs[t].change, db.txs[t].rows, db.columns, Committed(db, t).columns;
      && (match change.action
          case Start => c.state == Draft && c' == Columns(Lobby, None, c.active, false)
          case PresentItem =>
            && (c.state == Lobby || (c.state == Presenting && c.phase != Some(Accepting) && c.phase != Some(Closed)))
            && c' == Columns(Presenting, if change.activity then Some(Accepting) else None, change.item, false)
          case CloseActivity => c.phase == Some(Accepting) && c' == Columns(Presenting, Some(Closed), c.active, false)
          case RevealActivity => c.phase == Some(Closed) && c' == Columns(Presenting, Some(Revealed), c.active, false)
          case ShowOverallRanking => c.phase == Some(Revealed) && c' == c
          case End => (c.state == Lobby || (c.state == Presenting && c.phase != Some(Accepting))) && c' == Columns(Ended, None, c.active, false)
          case Unknown => false)
      && Committed(db, t).version == db.version + 1 && Committed(db, t).visible == db.visible + Elements(rows)
      && |rows| == (if change.action == CloseActivity || change.action == ShowOverallRanking then 2 else 1)
      && rows[0].body == StateChange && (forall r <- rows :: r.version == db.version + 1)
      && (change.action == CloseActivity ==> rows[1].body.Result? && rows[1].body.item == c.active)
  {
    ReachableInv(db);
    assert TxOk(db, t) && Held(db) == db.txs[t].rows;
    match db.columns.phase
    case None =>
    case Some(Accepting) =>
    case Some(Closed) =>
    case Some(Revealed) =>
  }

  /** The result last logged for an item by a READ COMMITTED close counts every answer committed to it, then and
      in every later state until answers to it are taken again: the exclusive lock waits for answers in flight. */
  lemma ReadCommittedCloseIsComplete(db: Db, item: Uuid, r: Row)
    requires Reachable(db) && !(Taking(db) && db.columns.active == item)
    requires Latest(db.visible, item, r) && !r.body.repeatable
    ensures r.body.counted == AnswersTo(db.answers, item)
  {
    ReachableInv(db);
    assert Settled(db, item);
  }
}

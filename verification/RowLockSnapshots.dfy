/** What a deadline close inside a REPEATABLE READ snapshot can miss. */
module RowLockSnapshots {
  import opened Prelude
  import opened LiveState
  import opened RowLocks
  import opened RowLockTheorems

  // --- Answers are inserted once ---------------------------------------------------

  ghost function Pending(tx: Tx): set<Answer> {
    if tx.Submitting? then tx.inserted else {}
  }

  /** Answers are told apart by their ids; a pending answer is not stored, and belongs to one transaction. */
  ghost predicate AnswersOk(db: Db) {
    && (forall a <- db.answers :: a.id < db.nextAnswer)
    && (forall t <- db.txs :: forall a <- Pending(db.txs[t]) :: a.id < db.nextAnswer && a !in db.answers)
    && (forall t, u :: t in db.txs && u in db.txs && t != u ==> forall a <- Pending(db.txs[t]) :: a !in Pending(db.txs[u]))
  }

  lemma AnswersStepKeeps(db: Db, step: Step)
    requires AnswersOk(db) && Enabled(db, step)
    ensures AnswersOk(Apply(db, step))
  {
    var db' := Apply(db, step);
    assert db.answers <= db'.answers;
    forall t <- db'.txs ensures forall a <- Pending(db'.txs[t]) :: a.id < db'.nextAnswer && a !in db'.answers {
      OneTxAnswers(db, step, t);
    }
    forall t, u | t in db'.txs && u in db'.txs && t != u ensures forall a <- Pending(db'.txs[t]) :: a !in Pending(db'.txs[u]) {
      TwoTxAnswers(db, step, t, u);
    }
  }

  lemma OneTxAnswers(db: Db, step: Step, t: nat)
    requires AnswersOk(db) && Enabled(db, step) && t in Apply(db, step).txs
    ensures forall a <- Pending(Apply(db, step).txs[t]) :: a.id < Apply(db, step).nextAnswer && a !in Apply(db, step).answers
  {
  }

  lemma TwoTxAnswers(db: Db, step: Step, t: nat, u: nat)
    requires AnswersOk(db) && Enabled(db, step) && t in Apply(db, step).txs && u in Apply(db, step).txs && t != u
    ensures forall a <- Pending(Apply(db, step).txs[t]) :: a !in Pending(Apply(db, step).txs[u])
  {
  }

  /** The step commits an answer. */
  ghost predicate CommitsAnswer(db: Db, step: Step)
    requires Enabled(db, step)
  {
    step.Commit? && db.txs[step.t].Submitting?
  }

  /** A committed answer was not stored before. */
  lemma AnswerStep(db: Db, step: Step)
    requires AnswersOk(db) && Enabled(db, step)
    ensures db.answers <= Apply(db, step).answers
    ensures Apply(db, step).answers == db.answers <==> !CommitsAnswer(db, step)
  {
    if CommitsAnswer(db, step) {
      var a :| a in db.txs[step.t].inserted;
      assert a in Pending(db.txs[step.t]);
      assert a in Apply(db, step).answers;
    }
  }

  /** No step of the run commits an answer. */
  ghost predicate NoAnswerCommits(db: Db, steps: seq<Step>)
    requires Run(db, steps)
    decreases |steps|
  {
    steps == [] || (!CommitsAnswer(db, steps[0]) && NoAnswerCommits(Apply(db, steps[0]), steps[1..]))
  }

  lemma {:induction false} AnswersStayIff(db: Db, steps: seq<Step>)
    requires AnswersOk(db) && Run(db, steps)
    ensures db.answers <= Final(db, steps).answers
    ensures Final(db, steps).answers == db.answers <==> NoAnswerCommits(db, steps)
    decreases |steps|
  {
    if steps != [] {
      AnswerStep(db, steps[0]);
      AnswersStepKeeps(db, steps[0]);
      AnswersStayIff(Apply(db, steps[0]), steps[1..]);
    }
  }

  lemma {:induction false} RunKeepsAnswers(db: Db, steps: seq<Step>)
    requires AnswersOk(db) && Run(db, steps)
    ensures AnswersOk(Final(db, steps))
    decreases |steps|
  {
    if steps != [] {
      AnswersStepKeeps(db, steps[0]);
      RunKeepsAnswers(Apply(db, steps[0]), steps[1..]);
    }
  }

  // --- From the snapshot to the close ---------------------------------------------------

  /** Whoever is submitting in db was submitting in start already. */
  ghost predicate OnlyInFlight(start: Db, db: Db) {
    forall u <- db.txs :: db.txs[u].Submitting? ==> u in start.txs && start.txs[u].Submitting?
  }

  /** t, which took its snapshot in start, still waits for the row or has got it unchanged; and as long as the row
      is unchanged nobody has begun to submit, because the deadline has passed. */
  ghost predicate Following(start: Db, db: Db, t: nat) {
    && start.columns.due && start.version <= db.version
    && t in db.txs
    && (if db.txs[t].Waiting? then db.txs[t].seen == start.answers && db.txs[t].seenVersion == start.version
        else db.txs[t].Changing? && db.txs[t].snapshot == Some(start.answers) && db.version == start.version)
    && (db.version == start.version ==> db.columns == start.columns && OnlyInFlight(start, db))
  }

  lemma FollowOn(start: Db, db: Db, t: nat, step: Step)
    requires LocksOk(db) && Following(start, db, t) && Enabled(db, step) && t in Apply(db, step).txs
    ensures Following(start, Apply(db, step), t)
  {
    var db' := Apply(db, step);
    if db'.version == start.version {
      forall u <- db'.txs | db'.txs[u].Submitting? ensures u in start.txs && start.txs[u].Submitting? {
        assert u in db.txs && db.txs[u].Submitting?;
      }
    }
  }

  lemma VersionStep(db: Db, step: Step)
    requires Enabled(db, step)
    ensures db.version <= Apply(db, step).version
  {
  }

  /** The transaction t is there after every step. */
  ghost predicate Stays(db: Db, steps: seq<Step>, t: nat)
    requires Run(db, steps)
    decreases |steps|
  {
    t in db.txs && (steps == [] || Stays(Apply(db, steps[0]), steps[1..], t))
  }

  /** Every answer the run commits was being submitted in start. */
  ghost predicate CommitsOnlyInFlight(start: Db, db: Db, steps: seq<Step>)
    requires Run(db, steps)
    decreases |steps|
  {
    steps == [] ||
    (&& (CommitsAnswer(db, steps[0]) ==> steps[0].t in start.txs && start.txs[steps[0].t].Submitting?)
     && CommitsOnlyInFlight(start, Apply(db, steps[0]), steps[1..]))
  }

  lemma {:induction false} RunFollows(start: Db, db: Db, steps: seq<Step>, t: nat)
    requires Inv(db) && CloseOk(db) && Following(start, db, t) && Run(db, steps) && Stays(db, steps, t)
    ensures db.version <= Final(db, steps).version && Following(start, Final(db, steps), t)
    ensures Final(db, steps).version == start.version ==> CommitsOnlyInFlight(start, db, steps)
    ensures Final(db, steps).version == start.version ==>
      forall a <- Final(db, steps).answers :: a in db.answers || a.item == start.columns.active
    decreases |steps|
  {
    if steps != [] {
      var next := Apply(db, steps[0]);
      assert Stays(next, steps[1..], t);
      FollowOn(start, db, t, steps[0]);
      VersionStep(db, steps[0]);
      StepKeeps(db, steps[0]);
      CloseStepKeeps(db, steps[0]);
      RunFollows(start, next, steps[1..], t);
      NewAnswersAreForTheItem(start, db, t, steps[0]);
    }
  }

  lemma NewAnswersAreForTheItem(start: Db, db: Db, t: nat, step: Step)
    requires CloseOk(db) && Following(start, db, t) && Enabled(db, step)
    ensures db.version == start.version ==>
      forall a <- Apply(db, step).answers :: a in db.answers || a.item == start.columns.active
  {
    if CommitsAnswer(db, step) {
      assert TxOk(db, step.t);
    }
  }

  ghost predicate ReadyToClose(db: Db, t: nat) {
    Holds(db, t) && Complete(db.txs[t])
  }

  lemma ReachableAnswers(db: Db)
    requires Reachable(db)
    ensures AnswersOk(db)
  {
    var steps :| Run(NewSession(), steps) && db == Final(NewSession(), steps);
    RunKeepsAnswers(NewSession(), steps);
  }

  /** A deadline close in REPEATABLE READ logs the answers committed when its snapshot was taken. The result is
      complete exactly if no step between the snapshot and the close commits an answer; and any that does was in
      flight at the snapshot, holding the row shared when the deadline had already passed. */
  lemma RepeatableReadClose(db: Db, t: nat, steps: seq<Step>)
    requires Reachable(db) && Enabled(db, Snapshot(t))
    requires Run(Apply(db, Snapshot(t)), steps) && Stays(Apply(db, Snapshot(t)), steps, t)
    requires ReadyToClose(Final(Apply(db, Snapshot(t)), steps), t)
    ensures var start, end, item := Apply(db, Snapshot(t)), Final(Apply(db, Snapshot(t)), steps), db.columns.active;
      && end.columns.active == item && |end.txs[t].rows| == 2
      && end.txs[t].rows[1].body == Result(item, AnswersTo(db.answers, item), true)
      && (AnswersTo(db.answers, item) == AnswersTo(end.answers, item) <==> NoAnswerCommits(start, steps))
      && CommitsOnlyInFlight(db, start, steps)
  {
    var start := Apply(db, Snapshot(t));
    var end := Final(start, steps);
    ReachableInv(db);
    StepKeeps(db, Snapshot(t));
    CloseStepKeeps(db, Snapshot(t));
    RunKeeps(start, steps);
    RunFollows(db, start, steps, t);
    ReachableAnswers(db);
    AnswersStepKeeps(db, Snapshot(t));
    AnswersStayIff(start, steps);
    assert TxOk(end, t);
    SameForTheItem(db.answers, end.answers, db.columns.active);
  }

  lemma SameForTheItem(before: set<Answer>, after: set<Answer>, item: Uuid)
    requires before <= after && forall a <- after :: a in before || a.item == item
    ensures AnswersTo(before, item) == AnswersTo(after, item) <==> before == after
  {
    if before != after {
      var a :| a in after && a !in before;
      assert a in AnswersTo(after, item);
    }
  }
}

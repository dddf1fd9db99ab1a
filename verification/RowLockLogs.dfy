/** The log readers see, as the transactions under the row lock make it grow: appended to, or joined late. */
module RowLockLogs {
  import opened Prelude
  import opened LiveEvents
  import opened EventLog
  import opened RowLocks
  import opened RowLockTheorems
  import J = LateJoins
  import R = LateRuns
  import D = Delivery

  /** What each row carries beside its id and version; a join carries one participant. */
  type Telling = Row -> Payload

  ghost predicate TellsJoins(told: Telling) {
    forall r: Row :: told(r).PresenceUpdated? <==> r.body.Presence?
  }

  function EventOf(told: Telling, r: Row): Event {
    Event(r.id, r.version, told(r))
  }

  /** The log lists the visible rows by id. */
  ghost predicate Lists(told: Telling, visible: set<Row>, log: seq<Event>) {
    && Increasing(log)
    && (forall e <- log :: exists r :: r in visible && e == EventOf(told, r))
    && (forall r <- visible :: EventOf(told, r) in log)
  }

  /** A row may become visible: at the end, or late if it is a join. */
  ghost predicate MayShow(log: seq<Event>, e: Event) {
    Increasing(log + [e]) || J.MayArrive(log, e)
  }

  ghost predicate MayAllShow(log: seq<Event>, events: seq<Event>)
    decreases |events|
  {
    events == [] || (MayShow(log, events[0]) && MayAllShow(J.Inserted(log, events[0]), events[1..]))
  }

  function Shown(log: seq<Event>, events: seq<Event>): seq<Event>
    decreases |events|
  {
    if events == [] then log else Shown(J.Inserted(log, events[0]), events[1..])
  }

  // --- One row -------------------------------------------------------------------------------

  lemma AtTheEnd(log: seq<Event>, e: Event)
    requires Increasing(log) && 1 <= e.id && LatestId(log) < e.id
    ensures Increasing(log + [e]) && J.Inserted(log, e) == log + [e]
  {
    CountUpToIs(log, e.id, |log|);
    assert log[..|log|] == log && log[|log|..] == [];
  }

  /** Ids tell rows apart. */
  ghost predicate Apart(rows: set<Row>) {
    && (forall r <- rows :: 1 <= r.id)
    && (forall r, s :: r in rows && s in rows && r.id == s.id ==> r == s)
  }

  /** The next row becomes visible. */
  lemma OneShows(told: Telling, visible: set<Row>, r: Row, log: seq<Event>)
    requires TellsJoins(told) && Lists(told, visible, log) && Apart(visible + {r}) && r !in visible
    requires !r.body.Presence? ==> forall s <- visible :: s.id < r.id
    ensures MayShow(log, EventOf(told, r)) && Lists(told, visible + {r}, J.Inserted(log, EventOf(told, r)))
  {
    var e := EventOf(told, r);
    NewId(told, visible, r, log);
    if LatestId(log) < e.id {
      AtTheEnd(log, e);
    } else {
      assert IsPresence(e) by {
        LatestIsVisible(told, visible, log);
      }
      J.InsertedIncreases(log, e, J.Inserted(log, e));
    }
    J.InsertedRows(log, e);
    forall x <- J.Inserted(log, e) ensures exists s :: s in visible + {r} && x == EventOf(told, s) {
      if x in log {
        var s :| s in visible && x == EventOf(told, s);
        assert s in visible + {r};
      } else {
        assert r in visible + {r};
      }
    }
  }

  lemma NewId(told: Telling, visible: set<Row>, r: Row, log: seq<Event>)
    requires Lists(told, visible, log) && Apart(visible + {r}) && r !in visible
    ensures forall x <- log :: x.id != r.id
  {
    forall x <- log ensures x.id != r.id {
      var s :| s in visible && x == EventOf(told, s);
      assert s in visible + {r} && r in visible + {r};
    }
  }

  lemma LatestIsVisible(told: Telling, visible: set<Row>, log: seq<Event>)
    requires Lists(told, visible, log)
    ensures log != [] ==> exists s :: s in visible && s.id == LatestId(log)
  {
    if log != [] {
      assert log[|log| - 1] in log;
      var s :| s in visible && log[|log| - 1] == EventOf(told, s);
    }
  }

  // --- Several rows at once ---------------------------------------------------------------------

  lemma {:induction false} LeastRow(rows: set<Row>) returns (least: Row)
    requires rows != {}
    ensures least in rows && forall r <- rows :: least.id <= r.id
    decreases rows
  {
    least :| least in rows;
    if rows != {least} {
      var other := LeastRow(rows - {least});
      forall r <- rows ensures (if other.id < least.id then other else least).id <= r.id {
        assert r == least || r in rows - {least};
      }
      least := if other.id < least.id then other else least;
    }
  }

  /** What is left once the least row has become visible. */
  lemma RestShows(visible: set<Row>, more: set<Row>, r: Row)
    requires r in more && visible !! more && Apart(visible + more) && forall x <- more :: r.id <= x.id
    requires forall x, s :: x in more && !x.body.Presence? && s in visible ==> s.id < x.id
    ensures Apart(visible + {r}) && visible + {r} + (more - {r}) == visible + more && visible + {r} !! more - {r}
    ensures forall x, s :: x in more - {r} && !x.body.Presence? && s in visible + {r} ==> s.id < x.id
  {
    forall x, s | x in more - {r} && !x.body.Presence? && s in visible + {r} ensures s.id < x.id {
      assert x in visible + more && r in visible + more;
    }
  }

  /** Rows that become visible together, the least id first. */
  lemma {:induction false} AllShow(told: Telling, visible: set<Row>, more: set<Row>, log: seq<Event>) returns (events: seq<Event>)
    requires TellsJoins(told) && Lists(told, visible, log) && Apart(visible + more) && visible !! more
    requires forall x, s :: x in more && !x.body.Presence? && s in visible ==> s.id < x.id
    ensures MayAllShow(log, events) && Lists(told, visible + more, Shown(log, events)) && (more == {} ==> events == [])
    decreases more
  {
    if more == {} {
      assert visible + more == visible;
      events := [];
    } else {
      var r := LeastRow(more);
      var e := EventOf(told, r);
      RestShows(visible, more, r);
      OneShows(told, visible, r, log);
      var rest := AllShow(told, visible + {r}, more - {r}, J.Inserted(log, e));
      events := [e] + rest;
      assert events[1..] == rest;
    }
  }

  // --- Runs of the transactions -----------------------------------------------------------------------

  ghost predicate IdsOk(db: Db) {
    db.nextId >= 2 && forall r <- db.live :: 1 <= r.id
  }

  lemma IdsStep(db: Db, step: Step)
    requires IdsOk(db) && Enabled(db, step)
    ensures IdsOk(Apply(db, step))
  {
  }

  lemma {:induction false} IdsRun(db: Db, steps: seq<Step>)
    requires IdsOk(db) && Run(db, steps)
    ensures IdsOk(Final(db, steps))
    decreases |steps|
  {
    if steps != [] {
      IdsStep(db, steps[0]);
      IdsRun(Apply(db, steps[0]), steps[1..]);
    }
  }

  lemma VisibleApart(db: Db, step: Step)
    requires Reachable(db) && Enabled(db, step)
    ensures Apart(Apply(db, step).visible)
  {
    var steps :| Run(NewSession(), steps) && db == Final(NewSession(), steps);
    IdsRun(NewSession(), steps);
    IdsStep(db, step);
    ReachableInv(db);
    RowLocks.StepKeeps(db, step);
  }

  lemma VisibleGrows(db: Db, step: Step)
    requires Enabled(db, step)
    ensures db.visible <= Apply(db, step).visible && (!step.Commit? ==> Apply(db, step).visible == db.visible)
  {
  }

  /** Every step of the transactions leaves the visible log alone, or makes it grow at the end or by late joins. */
  lemma LogEvolves(told: Telling, db: Db, step: Step, log: seq<Event>) returns (events: seq<Event>)
    requires TellsJoins(told) && Reachable(db) && Enabled(db, step) && Lists(told, db.visible, log)
    ensures MayAllShow(log, events) && Lists(told, Apply(db, step).visible, Shown(log, events))
    ensures !step.Commit? ==> events == []
  {
    var more := Apply(db, step).visible - db.visible;
    VisibleGrows(db, step);
    VisibleApart(db, step);
    assert db.visible + more == Apply(db, step).visible;
    if step.Commit? { OnlyJoinsArriveLate(db, step.t); }
    forall r, s | r in more && !r.body.Presence? && s in db.visible ensures s.id < r.id {
      assert r in Apply(db, step).visible - db.visible;
    }
    events := AllShow(told, db.visible, more, log);
  }

  lemma {:induction false} ShowMore(log: seq<Event>, first: seq<Event>, second: seq<Event>, both: seq<Event>)
    requires MayAllShow(log, first) && MayAllShow(Shown(log, first), second) && both == first + second
    ensures MayAllShow(log, both) && Shown(log, both) == Shown(Shown(log, first), second)
    decreases |first|
  {
    if first == [] {
      assert both == second;
    } else {
      ShowMore(J.Inserted(log, first[0]), first[1..], second, both[1..]);
    }
  }

  /** The log of a new session, and so of every run of its transactions, comes about like that from nothing. */
  lemma {:induction false} RunEvolves(told: Telling, steps: seq<Step>) returns (events: seq<Event>)
    requires TellsJoins(told) && Run(NewSession(), steps)
    ensures MayAllShow([], events) && Lists(told, Final(NewSession(), steps).visible, Shown([], events))
    decreases |steps|
  {
    if steps == [] {
      assert NewSession().visible == {} + {CREATED};
      OneShows(told, {}, CREATED, []);
      events := [EventOf(told, CREATED)];
    } else {
      var before, last := steps[..|steps| - 1], steps[|steps| - 1];
      assert steps == before + [last];
      LastStep(NewSession(), before, last, steps);
      var front := RunEvolves(told, before);
      var more := LogEvolves(told, Final(NewSession(), before), last, Shown([], front));
      events := front + more;
      ShowMore([], front, more, events);
    }
  }

  lemma {:induction false} LastStep(db: Db, before: seq<Step>, last: Step, steps: seq<Step>)
    requires steps == before + [last] && Run(db, steps)
    ensures Run(db, before) && Enabled(Final(db, before), last) && Final(db, steps) == Apply(Final(db, before), last)
    decreases |before|
  {
    if before == [] {
      assert steps[1..] == [];
    } else {
      assert steps[1..] == before[1..] + [last];
      LastStep(Apply(db, steps[0]), before[1..], last, steps[1..]);
    }
  }

  /** Along it versions never decrease. */
  lemma VersionsFollowLog(told: Telling, db: Db, log: seq<Event>)
    requires Reachable(db) && Lists(told, db.visible, log)
    ensures forall i, j :: 0 <= i <= j < |log| ==> log[i].version <= log[j].version
  {
    RowLockTheorems.VersionsFollowIds(db);
    forall i, j | 0 <= i < j < |log| ensures log[i].version <= log[j].version {
      assert log[i] in log && log[j] in log;
      var r :| r in db.visible && log[i] == EventOf(told, r);
      var s :| s in db.visible && log[j] == EventOf(told, s);
    }
  }

  /** What may become visible is a move of the delivery protocol, wherever its pollers and connections stand. */
  lemma ShowingIsAMove(s: D.System, session: Uuid, e: Event) returns (move: R.Move)
    requires MayShow(D.Log(s, session), e) && Increasing(D.Log(s, session))
    ensures R.CanMove(s, move) && R.Moved(s, move) == s.(logs := s.logs[session := J.Inserted(D.Log(s, session), e)])
  {
    var log := D.Log(s, session);
    if Increasing(log + [e]) {
      LatestBelow(log, e);
      assert (log + [e])[|log|] == e;
      AtTheEnd(log, e);
      move := R.Usual(D.Append(session, e));
    } else {
      move := R.LateJoin(session, e);
    }
  }
}

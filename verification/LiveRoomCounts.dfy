/** Which steps of servers and browser spoil a head count that is exact. */
module LiveRoomCounts {
  import opened Prelude
  import opened LiveState
  import opened LiveEvents
  import opened EventLog
  import opened EventStream
  import opened LiveClient
  import opened LateJoins
  import opened LateCounts
  import opened LateRuns
  import opened LateCountRuns
  import opened LiveRoom
  import CR = LiveClientRuns
  import D = Delivery

  ghost predicate Exact(r: Room) {
    r.b.client.snapshot.Some? && r.b.client.snapshot.value.count == Joins(Passed(r))
  }

  /** No join becomes visible behind the cursor; a row that is accepted announces as many joins twice as it passes over
      in silence; a snapshot that is stored has had no join become visible behind it; and the head count a command's
      answer puts back is ahead by as many as it is behind. */
  ghost predicate Faithful(r: Room, step: Step) {
    var log, cursor := LogOf(r), r.b.client.cursor;
    match step
    case Serve(move) => move.LateJoin? && move.session == r.b.session ==> cursor.eventId < move.event.id
    case Take =>
      HasRow(r) && ShouldApply(cursor, NextRow(r)) ==>
        JoinsIn(r.t.passes[r.b.stream.value].late, Stretch(log, cursor.eventId, NextRow(r).id)) == Twice(r)
    case Arrive(h) => Stale(cursor, h.snapshot) || JoinsIn(h.tally.late, Stretch(log, 0, h.snapshot.lastEventId)) == 0
    case Answered(from, _, _) =>
      from.tally.again == JoinsIn(from.tally.late, Stretch(log, 0, from.tally.upTo)) + Joins(Stretch(log, from.tally.upTo, cursor.eventId))
    case _ => true
  }

  // --- Joins up to an id ---------------------------------------------------------------------------

  lemma JoinsSplit(log: seq<Event>, lo: int, mid: int, hi: int)
    requires Increasing(log) && lo <= mid <= hi
    ensures Joins(Stretch(log, lo, hi)) == Joins(Stretch(log, lo, mid)) + Joins(Stretch(log, mid, hi))
  {
    CountUpToMonotone(log, lo, mid);
    CountUpToMonotone(log, mid, hi);
    JoinsConcat(Stretch(log, lo, mid), Stretch(log, mid, hi), Stretch(log, lo, hi));
  }

  lemma {:induction false} SomeIn(late: set<int>, s: seq<Event>, e: Event)
    requires e in s && IsPresence(e) && e.id in late
    ensures 0 < JoinsIn(late, s)
    decreases |s|
  {
    if s[|s| - 1] != e {
      assert s == s[..|s| - 1] + [s[|s| - 1]];
      SomeIn(late, s[..|s| - 1], e);
    }
  }

  /** A join that becomes visible at or below an id is one more up to that id. */
  lemma LateJoinsUpTo(log: seq<Event>, e: Event, longer: seq<Event>, upTo: int)
    requires Increasing(log) && MayArrive(log, e) && longer == Inserted(log, e) && 0 <= upTo
    ensures if e.id <= upTo then Joins(Stretch(log, 0, upTo)) < Joins(Stretch(longer, 0, upTo))
            else Joins(Stretch(log, 0, upTo)) == Joins(Stretch(longer, 0, upTo))
  {
    var late := if e.id <= upTo then {e.id} else {};
    CountInserted(log, e, longer, {}, late, 0, upTo);
    ButAndIn({}, Stretch(log, 0, upTo));
    NoneIn(Stretch(log, 0, upTo));
    ButAndIn(late, Stretch(longer, 0, upTo));
    if e.id <= upTo {
      InStretch(log, e, longer, upTo);
      SomeIn(late, Stretch(longer, 0, upTo), e);
    } else {
      NoneIn(Stretch(longer, 0, upTo));
    }
  }

  lemma InStretch(log: seq<Event>, e: Event, longer: seq<Event>, upTo: int)
    requires Increasing(log) && MayArrive(log, e) && longer == Inserted(log, e) && e.id <= upTo
    ensures e in Stretch(longer, 0, upTo)
  {
    InsertedIncreases(log, e, longer);
    CountUpToSplits(longer, upTo);
    CountUpToIs(longer, 0, 0);
    assert longer[CountUpTo(log, e.id)] == e;
  }

  // --- Each step --------------------------------------------------------------------------------------

  lemma ServeExactIff(r: Room, move: Move)
    requires Inv(r) && Enabled(r, Serve(move)) && Exact(r)
    ensures Exact(Apply(r, Serve(move))) <==> Faithful(r, Serve(move))
  {
    var log, longer, upTo := LogOf(r), D.Log(Moved(r.t.s, move), r.b.session), r.b.client.cursor.eventId;
    MoveLog(r.t.s, move, r.b.session);
    NextIs(r.t, move);
    if move.LateJoin? && move.session == r.b.session {
      LateJoinsUpTo(log, move.event, longer, upTo);
    } else if move.Usual? && move.step.Append? && move.step.session == r.b.session {
      StretchAppend(log, move.step.event, longer, 0, upTo);
    }
  }

  /** A row that is accepted announces the joins it passes over but for those that became visible late, and its repeats. */
  lemma Announces(log: seq<Event>, late: set<int>, prev: int, cursor: int, item: Event, again: nat, twice: nat)
    requires Increasing(log) && prev <= cursor < item.id && Told(item) == Count(log, late, prev, item.id) + again
    requires twice == if IsPresence(item) then again + Count(log, late, prev, cursor) else 0
    ensures Told(item) + JoinsIn(late, Stretch(log, cursor, item.id)) == Joins(Stretch(log, cursor, item.id)) + twice
  {
    CountSplits(log, late, prev, cursor, item.id);
    ButAndIn(late, Stretch(log, cursor, item.id));
  }

  lemma TakeExactIff(r: Room)
    requires Inv(r) && Enabled(r, Take) && Exact(r)
    ensures Exact(Apply(r, Take)) <==> Faithful(r, Take)
  {
    var b, log, item := r.b, LogOf(r), NextRow(r);
    var conn, p, upTo := r.t.s.conns[b.stream.value], r.t.passes[b.stream.value], r.b.client.cursor.eventId;
    RowFacts(r);
    AcceptsAbove(log, b.client.cursor, item);
    if ShouldApply(b.client.cursor, item) {
      HandleCounts(b.client, item);
      Announces(log, p.late, IdAt(conn.last, conn.written, b.taken), upTo, item, p.agains[b.taken], Twice(r));
      JoinsSplit(log, 0, upTo, item.id);
    }
  }

  lemma ArriveExactIff(r: Room, h: Held)
    requires Inv(r) && Enabled(r, Arrive(h)) && Exact(r)
    ensures Exact(Apply(r, Arrive(h))) <==> Faithful(r, Arrive(h))
  {
    assert ReadOk(LogOf(r), h);
    ButAndIn(h.tally.late, Stretch(LogOf(r), 0, h.snapshot.lastEventId));
  }

  lemma AnsweredExactIff(r: Room, from: Held, view: SessionView, version: int)
    requires Inv(r) && Enabled(r, Answered(from, view, version)) && Exact(r)
    ensures Exact(Apply(r, Answered(from, view, version))) <==> Faithful(r, Answered(from, view, version))
  {
    var log, upTo := LogOf(r), r.b.client.cursor.eventId;
    assert SentOk(log, from, upTo);
    JoinsSplit(log, 0, from.tally.upTo, upTo);
    ButAndIn(from.tally.late, Stretch(log, 0, from.tally.upTo));
  }

  /** An exact head count stays exact exactly when the step is faithful. */
  lemma StaysExactIff(r: Room, step: Step)
    requires Inv(r) && Enabled(r, step) && Exact(r)
    ensures Exact(Apply(r, step)) <==> Faithful(r, step)
  {
    match step
    case Serve(move) => ServeExactIff(r, move);
    case Take => TakeExactIff(r);
    case Arrive(h) => ArriveExactIff(r, h);
    case Answered(from, view, version) => AnsweredExactIff(r, from, view, version);
    case _ =>
  }

  ghost predicate AlwaysExact(r: Room, steps: seq<Step>)
    requires RoomRun(r, steps)
    decreases |steps|
  {
    Exact(r) && (steps == [] || AlwaysExact(Apply(r, steps[0]), steps[1..]))
  }

  ghost predicate AllFaithful(r: Room, steps: seq<Step>)
    requires RoomRun(r, steps)
    decreases |steps|
  {
    steps == [] || (Faithful(r, steps[0]) && AllFaithful(Apply(r, steps[0]), steps[1..]))
  }

  /** Over everything servers and browser do from there on, the head count is never wrong if and only if every step is faithful. */
  lemma {:induction false} AlwaysExactIff(r: Room, steps: seq<Step>)
    requires Inv(r) && Exact(r) && RoomRun(r, steps)
    ensures AlwaysExact(r, steps) <==> AllFaithful(r, steps)
    decreases |steps|
  {
    if steps != [] {
      StaysExactIff(r, steps[0]);
      StepKeeps(r, steps[0]);
      if Exact(Apply(r, steps[0])) { AlwaysExactIff(Apply(r, steps[0]), steps[1..]); }
    }
  }
}

/** One browser against one session's log: the log grows, snapshots arrive, the stream delivers compacted rows,
    and commands are answered, in any order. */
module LiveClientRuns {
  import opened Prelude
  import opened LiveState
  import opened LiveEvents
  import opened EventLog
  import opened LiveClient
  import EventStream

  /** A command in flight: the snapshot runAction captured, and, as history, where in the log the cursor stood then. */
  datatype Sent = Sent(snapshot: Snapshot, position: nat)

  /** at is how far into the log the open stream has delivered. */
  datatype World = World(log: seq<Event>, client: Client, at: nat, captured: set<Sent>)

  datatype Step =
    | Append(event: Event)
    | Fetch(rows: nat, snapshot: Snapshot)
    | Connect
    | Deliver(start: nat, item: Event)
    | Withhold
    | Act
    | Answered(from: Sent, view: SessionView, version: int)

  /** Ids strictly increase, versions never decrease: what every session's log guarantees. */
  ghost predicate ServerLog(log: seq<Event>) {
    && Increasing(log)
    && forall i, j :: 0 <= i <= j < |log| ==> 0 <= log[i].version <= log[j].version
  }

  /** What one consistent read of the tables returns when the log has n rows. */
  ghost predicate Honest(log: seq<Event>, n: nat, s: Snapshot) {
    && 0 < n <= |log|
    && s.lastEventId == log[n - 1].id && s.version == log[n - 1].version
    && s.count == EventStream.Joins(log[..n])
  }

  function Position(w: World): nat {
    CountUpTo(w.log, w.client.cursor.eventId)
  }

  /** What an accepted command returns: the columns and the version of the change it logged. */
  ghost predicate IsReply(log: seq<Event>, from: Snapshot, view: SessionView, version: int) {
    version == from.version + 1 && exists e <- log :: e.version == version && e.payload.StateChanged? && e.payload.session == view
  }

  ghost predicate Enabled(w: World, step: Step) {
    match step
    case Append(e) => ServerLog(w.log + [e])
    case Fetch(n, s) => Honest(w.log, n, s)
    case Connect => true
    // The stream goes on from where it was, with a row that may stand for joins it has already passed.
    case Deliver(start, item) => Tile(w.log, start, item) && start <= w.at < start + Width(item)
    // A row the role may not see; never a join.
    case Withhold => w.at < |w.log| && !IsPresence(w.log[w.at])
    case Act => w.client.snapshot.Some?
    case Answered(from, view, version) => from in w.captured && IsReply(w.log, from.snapshot, view, version)
  }

  function Apply(w: World, step: Step): World {
    match step
    case Append(e) => w.(log := w.log + [e])
    case Fetch(_, s) => w.(client := StoreSnapshot(w.client, s))
    case Connect => w.(at := Position(w))
    case Deliver(start, item) => w.(client := Handle(w.client, item), at := start + Width(item))
    case Withhold => w.(at := w.at + 1)
    case Act => if w.client.snapshot.Some? then w.(captured := w.captured + {Sent(w.client.snapshot.value, Position(w))}) else w
    case Answered(from, view, version) => w.(client := WriteBack(w.client, from.snapshot, view, version), captured := w.captured - {from})
  }

  /** Joins in the part of the log the cursor has passed. */
  ghost function Passed(w: World): nat {
    EventStream.Joins(w.log[..Position(w)])
  }

  ghost predicate Exact(w: World) {
    w.client.snapshot.Some? ==> w.client.snapshot.value.count == Passed(w)
  }

  // --- The invariant ----------------------------------------------------------------

  /** Nothing past the cursor is stamped with an older version. */
  ghost predicate CursorFits(log: seq<Event>, cursor: Cursor) {
    forall e <- log :: cursor.eventId < e.id ==> cursor.stateVersion <= e.version
  }

  ghost predicate CursorReached(log: seq<Event>, cursor: Cursor) {
    log != [] && cursor.eventId <= LatestId(log) && cursor.stateVersion <= log[|log| - 1].version
  }

  ghost predicate Inv(w: World) {
    && ServerLog(w.log)
    && CursorFits(w.log, w.client.cursor)
    && (w.client.cursor == INITIAL || CursorReached(w.log, w.client.cursor))
    && w.at <= |w.log|
    && (w.at <= Position(w) || forall k :: Position(w) <= k < w.at ==> !IsPresence(w.log[k]))
    && (w.client.snapshot.Some? ==> 0 <= w.client.snapshot.value.count)
    && (forall s <- w.captured :: 0 <= s.snapshot.count && s.position <= Position(w))
  }

  /** A delivered row carries the id and the version of the last log row it stands for. */
  lemma ItemRow(log: seq<Event>, start: nat, item: Event)
    requires Increasing(log) && Tile(log, start, item)
    ensures var last := log[start + Width(item) - 1]; last in log && last.id == item.id && last.version == item.version
    ensures CountUpTo(log, item.id) == start + Width(item)
  {
    var end := start + Width(item);
    assert log[end - 1] in log;
    CountUpToIs(log, item.id, end);
  }

  /** Against such a log, the two-part test accepts exactly the rows above the cursor's id. */
  lemma AcceptsExactlyAbove(w: World, start: nat, item: Event)
    requires Inv(w) && Tile(w.log, start, item)
    ensures ShouldApply(w.client.cursor, item) <==> w.client.cursor.eventId < item.id
  {
    ItemRow(w.log, start, item);
  }

  /** Neither component of the cursor ever goes back. */
  lemma CursorNeverGoesBack(w: World, step: Step)
    ensures w.client.cursor.eventId <= Apply(w, step).client.cursor.eventId
    ensures w.client.cursor.stateVersion <= Apply(w, step).client.cursor.stateVersion
  {
  }

  // --- Every step keeps the invariant ----------------------------------------------------

  lemma AppendKeeps(w: World, e: Event, longer: seq<Event>)
    requires Inv(w) && longer == w.log + [e] && ServerLog(longer)
    ensures Inv(w.(log := longer)) && Position(w.(log := longer)) == Position(w)
  {
    LatestBelow(w.log, e);
    CountUpToAppend(w.log, e, w.client.cursor.eventId);
    assert longer[|w.log|] == e;
    assert forall i :: 0 <= i < |w.log| ==> longer[i] == w.log[i];
    if w.log != [] {
      assert longer[|w.log| - 1].version <= longer[|w.log|].version;
    }
    assert 0 <= longer[|w.log|].version;
  }

  lemma FetchMoves(w: World, n: nat, s: Snapshot)
    requires Increasing(w.log) && Honest(w.log, n, s)
    ensures CountUpTo(w.log, s.lastEventId) == n
    ensures w.client.cursor.eventId <= s.lastEventId ==> Position(w) <= n
  {
    CountUpToIs(w.log, s.lastEventId, n);
    if w.client.cursor.eventId <= s.lastEventId {
      CountUpToMonotone(w.log, w.client.cursor.eventId, s.lastEventId);
    }
  }

  lemma SnapshotFits(log: seq<Event>, n: nat, s: Snapshot)
    requires ServerLog(log) && Honest(log, n, s)
    ensures CursorFits(log, Cursor(s.lastEventId, s.version))
    ensures s.lastEventId <= LatestId(log) && s.version <= log[|log| - 1].version
  {
    forall e <- log | s.lastEventId < e.id ensures s.version <= e.version {
      var i :| 0 <= i < |log| && log[i] == e;
    }
  }

  lemma FetchKeeps(w: World, n: nat, s: Snapshot)
    requires Inv(w) && Honest(w.log, n, s)
    ensures Inv(Apply(w, Fetch(n, s)))
  {
    FetchMoves(w, n, s);
    SnapshotFits(w.log, n, s);
  }

  lemma DeliverMoves(w: World, start: nat, item: Event)
    requires Inv(w) && Enabled(w, Deliver(start, item))
    ensures var w' := Apply(w, Deliver(start, item));
      && w'.at == start + Width(item) <= |w.log|
      && (if w.client.cursor.eventId < item.id then Position(w') == w'.at && Position(w) < w'.at else w' == w.(at := w'.at) && w'.at <= Position(w'))
  {
    AcceptsExactlyAbove(w, start, item);
    ItemRow(w.log, start, item);
    CountUpToSplits(w.log, w.client.cursor.eventId);
  }

  lemma DeliverKeeps(w: World, start: nat, item: Event)
    requires Inv(w) && Enabled(w, Deliver(start, item))
    ensures Inv(Apply(w, Deliver(start, item)))
  {
    DeliverMoves(w, start, item);
    if w.client.cursor.eventId < item.id {
      ItemRow(w.log, start, item);
      AcceptsExactlyAbove(w, start, item);
      DeliverFits(w, start + Width(item) - 1, item);
      HandleAccepts(w.client, item);
    }
  }

  /** What accepting a row makes of the runtime's fields. */
  lemma HandleAccepts(c: Client, item: Event)
    requires ShouldApply(c.cursor, item)
    ensures var c' := Handle(c, item);
      && c'.cursor == Advance(c.cursor, item) && c'.cursor.eventId == item.id
      && (c'.snapshot.Some? ==> c.snapshot.Some? && (0 <= c.snapshot.value.count ==> 0 <= c'.snapshot.value.count))
  {
  }

  lemma DeliverFits(w: World, k: nat, item: Event)
    requires Inv(w) && k < |w.log| && w.log[k].id == item.id && w.log[k].version == item.version
    ensures CursorFits(w.log, Advance(w.client.cursor, item))
    ensures item.id <= LatestId(w.log) && item.version <= w.log[|w.log| - 1].version
  {
    forall e <- w.log | item.id < e.id ensures item.version <= e.version {
      var i :| 0 <= i < |w.log| && w.log[i] == e;
    }
  }

  lemma StepKeeps(w: World, step: Step)
    requires Inv(w) && Enabled(w, step)
    ensures Inv(Apply(w, step))
  {
    match step
    case Append(e) => AppendKeeps(w, e, w.log + [e]);
    case Fetch(n, s) => FetchKeeps(w, n, s);
    case Deliver(start, item) => DeliverKeeps(w, start, item);
    case _ =>
  }

  // --- The head count ------------------------------------------------------------------------

  lemma {:induction false} JoinsBetween(log: seq<Event>, i: nat, j: nat)
    requires i <= j <= |log|
    ensures (forall k :: i <= k < j ==> IsPresence(log[k])) ==> EventStream.Joins(log[..j]) == EventStream.Joins(log[..i]) + (j - i)
    ensures (forall k :: i <= k < j ==> !IsPresence(log[k])) ==> EventStream.Joins(log[..j]) == EventStream.Joins(log[..i])
    decreases j
  {
    if i < j {
      JoinsBetween(log, i, j - 1);
      assert log[..j][..j - 1] == log[..j - 1];
    }
  }

  /** The delivered row announces joins the cursor had already passed. */
  ghost predicate Straddles(w: World, start: nat, item: Event) {
    IsPresence(item) && w.client.cursor.eventId < item.id && start < Position(w)
  }

  ghost predicate NoJoin(log: seq<Event>, i: nat, j: nat) {
    forall k :: i <= k < j && k < |log| ==> !IsPresence(log[k])
  }

  /** The step brings the head count nothing twice and takes nothing back: no straddling run, and no answer to a
      command while which was in flight the cursor passed a join. */
  ghost predicate Faithful(w: World, step: Step) {
    match step
    case Deliver(start, item) => !Straddles(w, start, item)
    case Answered(from, _, _) => NoJoin(w.log, from.position, Position(w))
    case _ => true
  }

  /** How many of the joins announced from start to end were still ahead of p. */
  lemma JoinsAhead(log: seq<Event>, p: nat, start: nat, end: nat, presence: bool)
    requires p <= end <= |log| && start < end
    requires forall k :: start <= k < end ==> IsPresence(log[k]) == presence
    requires forall k :: p <= k < start ==> !IsPresence(log[k])
    requires presence || start + 1 == end
    ensures var announced := if presence then end - start else 0;
            EventStream.Joins(log[..end]) == EventStream.Joins(log[..p]) + announced - if presence && start < p then p - start else 0
  {
    if p <= start {
      JoinsBetween(log, p, start);
      JoinsBetween(log, start, end);
    } else {
      JoinsBetween(log, p, end);
    }
  }

  /** How far a delivered row moves the joins passed. */
  lemma DeliverPasses(w: World, start: nat, item: Event)
    requires Inv(w) && Enabled(w, Deliver(start, item)) && w.client.cursor.eventId < item.id
    ensures var announced := if IsPresence(item) then Width(item) else 0;
            var w' := Apply(w, Deliver(start, item));
      Passed(w') <= Passed(w) + announced && (Passed(w') == Passed(w) + announced <==> !Straddles(w, start, item))
  {
    var w' := Apply(w, Deliver(start, item));
    DeliverMoves(w, start, item);
    var p, end := Position(w), start + Width(item);
    assert Position(w') == end;
    TileFacts(w, p, start, item);
    JoinsAhead(w.log, p, start, end, IsPresence(item));
  }

  /** What lies under a delivered row, and between the cursor and it. */
  lemma TileFacts(w: World, p: nat, start: nat, item: Event)
    requires Inv(w) && Enabled(w, Deliver(start, item)) && p == Position(w)
    ensures forall k :: start <= k < start + Width(item) ==> IsPresence(w.log[k]) == IsPresence(item)
    ensures forall k :: p <= k < start ==> !IsPresence(w.log[k])
    ensures IsPresence(item) || start + 1 == start + Width(item)
  {
  }

  lemma DeliverExactIff(w: World, start: nat, item: Event)
    requires Inv(w) && Enabled(w, Deliver(start, item)) && Exact(w) && w.client.snapshot.Some?
    ensures Exact(Apply(w, Deliver(start, item))) <==> !Straddles(w, start, item)
  {
    AcceptsExactlyAbove(w, start, item);
    if w.client.cursor.eventId < item.id {
      DeliverPasses(w, start, item);
    } else {
      DeliverMoves(w, start, item);
    }
  }

  lemma AppendKeepsExact(w: World, e: Event)
    requires Inv(w) && ServerLog(w.log + [e])
    ensures Exact(Apply(w, Append(e))) <==> Exact(w)
  {
    AppendKeeps(w, e, w.log + [e]);
    assert (w.log + [e])[..Position(w)] == w.log[..Position(w)];
  }

  lemma FetchKeepsExact(w: World, n: nat, s: Snapshot)
    requires Inv(w) && Honest(w.log, n, s) && Exact(w)
    ensures Exact(Apply(w, Fetch(n, s)))
  {
    FetchMoves(w, n, s);
  }

  /** The commands in flight started from exact counts. */
  ghost predicate SentExact(w: World) {
    forall s <- w.captured :: s.position <= |w.log| && s.snapshot.count == EventStream.Joins(w.log[..s.position])
  }

  lemma {:induction false} JoinsGrow(log: seq<Event>, i: nat, j: nat)
    requires i <= j <= |log|
    ensures EventStream.Joins(log[..i]) <= EventStream.Joins(log[..j])
    ensures EventStream.Joins(log[..i]) == EventStream.Joins(log[..j]) <==> NoJoin(log, i, j)
    decreases j
  {
    if i < j {
      JoinsGrow(log, i, j - 1);
      assert log[..j][..j - 1] == log[..j - 1];
      assert NoJoin(log, i, j) <==> NoJoin(log, i, j - 1) && !IsPresence(log[j - 1]);
    }
  }

  /** A command's answer puts back the count from when it was sent, so it is exact exactly if no join has gone by. */
  lemma AnswerExactIff(w: World, from: Sent, view: SessionView, version: int)
    requires Inv(w) && SentExact(w) && Enabled(w, Answered(from, view, version))
    ensures Exact(Apply(w, Answered(from, view, version))) <==> NoJoin(w.log, from.position, Position(w))
  {
    JoinsGrow(w.log, from.position, Position(w));
  }

  /** An exact head count stays exact exactly when the step is faithful. */
  lemma StaysExactIff(w: World, step: Step)
    requires Inv(w) && Enabled(w, step) && Exact(w) && SentExact(w) && w.client.snapshot.Some?
    ensures Exact(Apply(w, step)) <==> Faithful(w, step)
  {
    match step
    case Append(e) => AppendKeepsExact(w, e);
    case Fetch(n, s) => FetchKeepsExact(w, n, s);
    case Deliver(start, item) => DeliverExactIff(w, start, item);
    case Answered(from, view, version) => AnswerExactIff(w, from, view, version);
    case _ =>
  }

  lemma StepKeepsSent(w: World, step: Step)
    requires Inv(w) && Enabled(w, step) && Exact(w) && SentExact(w)
    ensures SentExact(Apply(w, step))
  {
    if step.Append? {
      var longer := w.log + [step.event];
      forall s <- w.captured ensures longer[..s.position] == w.log[..s.position] {}
    }
  }

  /** Storing a snapshot puts a wrong count right. */
  lemma FetchMakesExact(w: World, n: nat, s: Snapshot)
    requires Inv(w) && Honest(w.log, n, s) && !Stale(w.client.cursor, s)
    ensures Exact(Apply(w, Fetch(n, s)))
  {
    FetchMoves(w, n, s);
  }

  // --- Runs ------------------------------------------------------------------------------------

  ghost predicate Run(w: World, steps: seq<Step>)
    decreases |steps|
  {
    steps == [] || (Enabled(w, steps[0]) && Run(Apply(w, steps[0]), steps[1..]))
  }

  ghost function End(w: World, steps: seq<Step>): World
    requires Run(w, steps)
    decreases |steps|
  {
    if steps == [] then w else End(Apply(w, steps[0]), steps[1..])
  }

  ghost predicate AllFaithful(w: World, steps: seq<Step>)
    requires Run(w, steps)
    decreases |steps|
  {
    steps == [] || (Faithful(w, steps[0]) && AllFaithful(Apply(w, steps[0]), steps[1..]))
  }

  /** A newly selected session. */
  function Selected(session: Uuid, log: seq<Event>): World {
    World(log, Client(Some(session), INITIAL, None), 0, {})
  }

  /** Over any run the cursor only moves forward, and the head count shown is the number of joins the cursor has
      passed as long as no run of joins straddled it and it passed no join while a command was in flight. */
  lemma {:induction false} CountIsExact(w: World, steps: seq<Step>)
    requires Inv(w) && Exact(w) && SentExact(w) && Run(w, steps) && AllFaithful(w, steps)
    ensures Inv(End(w, steps)) && Exact(End(w, steps)) && SentExact(End(w, steps))
    ensures w.client.cursor.eventId <= End(w, steps).client.cursor.eventId
    ensures w.client.cursor.stateVersion <= End(w, steps).client.cursor.stateVersion
    decreases |steps|
  {
    if steps != [] {
      StepKeeps(w, steps[0]);
      StepKeepsSent(w, steps[0]);
      CursorNeverGoesBack(w, steps[0]);
      if w.client.snapshot.Some? {
        StaysExactIff(w, steps[0]);
      } else {
        FirstSnapshotIsExact(w, steps[0]);
      }
      CountIsExact(Apply(w, steps[0]), steps[1..]);
    }
  }

  ghost predicate AlwaysExact(w: World, steps: seq<Step>)
    requires Run(w, steps)
    decreases |steps|
  {
    Exact(w) && (steps == [] || AlwaysExact(Apply(w, steps[0]), steps[1..]))
  }

  /** Over a whole run the count shown is never wrong if and only if every step is faithful. */
  lemma {:induction false} AlwaysExactIff(w: World, steps: seq<Step>)
    requires Inv(w) && Exact(w) && SentExact(w) && w.client.snapshot.Some? && Run(w, steps)
    ensures AlwaysExact(w, steps) <==> AllFaithful(w, steps)
    decreases |steps|
  {
    if steps != [] {
      var next := Apply(w, steps[0]);
      StaysExactIff(w, steps[0]);
      StepKeeps(w, steps[0]);
      StepKeepsSent(w, steps[0]);
      if Exact(next) { AlwaysExactIff(next, steps[1..]); }
    }
  }

  // --- A command from its start to its answer --------------------------------------------------------

  /** What any further steps do to the log and to the place in it. */
  lemma {:induction false} RunMoves(w: World, steps: seq<Step>)
    requires Inv(w) && Run(w, steps)
    ensures Inv(End(w, steps)) && w.log <= End(w, steps).log && Position(w) <= Position(End(w, steps))
    decreases |steps|
  {
    if steps != [] {
      var next := Apply(w, steps[0]);
      StepKeeps(w, steps[0]);
      StepMoves(w, steps[0]);
      RunMoves(next, steps[1..]);
    }
  }

  lemma StepMoves(w: World, step: Step)
    requires Inv(w) && Enabled(w, step)
    ensures w.log <= Apply(w, step).log && Position(w) <= Position(Apply(w, step))
  {
    if step.Append? {
      AppendKeeps(w, step.event, w.log + [step.event]);
    } else {
      CursorNeverGoesBack(w, step);
      CountUpToMonotone(w.log, w.client.cursor.eventId, Apply(w, step).client.cursor.eventId);
    }
  }

  /** A command sent while the count is exact is answered, after any steps whatever, with an exact count if and only
      if the cursor has passed no join in between. */
  lemma CommandExactIff(w: World, steps: seq<Step>, view: SessionView, version: int)
    requires Inv(w) && Exact(w) && Enabled(w, Act) && Run(Apply(w, Act), steps)
    requires Enabled(End(Apply(w, Act), steps), Answered(Sent(w.client.snapshot.value, Position(w)), view, version))
    ensures var before := End(Apply(w, Act), steps);
      var after := Apply(before, Answered(Sent(w.client.snapshot.value, Position(w)), view, version));
      && after.client.cursor == before.client.cursor
      && (Exact(after) <==> NoJoin(before.log, Position(w), Position(before)))
  {
    var sent := Apply(w, Act);
    StepKeeps(w, Act);
    RunMoves(sent, steps);
    var before := End(sent, steps);
    assert before.log[..Position(w)] == w.log[..Position(w)];
    JoinsGrow(before.log, Position(w), Position(before));
  }

  lemma FirstSnapshotIsExact(w: World, step: Step)
    requires Inv(w) && Enabled(w, step) && Exact(w) && SentExact(w) && Faithful(w, step) && w.client.snapshot.None?
    ensures Exact(Apply(w, step))
  {
    match step
    case Fetch(n, s) => FetchKeepsExact(w, n, s);
    case Answered(from, view, version) => AnswerExactIff(w, from, view, version);
    case _ =>
  }
}

/** What every transaction keeps, table by table. */
module LedgerInvariants {
  import opened Prelude
  import opened LiveState
  import opened LiveEvents
  import opened Definitions
  import opened Responses
  import opened Ledger
  import opened LedgerChanges
  import EventStream

  // --- The event log ------------------------------------------------------------------

  /** The session columns an event carries, if it carries them. */
  ghost predicate CarriesView(e: Event) {
    e.payload.SessionCreated? || e.payload.StateChanged?
  }

  ghost function ViewOf(e: Event): SessionView
    requires CarriesView(e)
  {
    if e.payload.SessionCreated? then e.payload.created else e.payload.session
  }

  /** The session columns after creation and after every state change, in log order. */
  ghost function Views(events: seq<Event>): seq<SessionView> {
    if events == [] then []
    else
      var front, last := Views(events[..|events| - 1]), events[|events| - 1];
      if CarriesView(last) then front + [ViewOf(last)] else front
  }

  ghost function DeadlineCloses(events: seq<Event>): nat {
    if events == [] then 0
    else
      var last := events[|events| - 1].payload;
      DeadlineCloses(events[..|events| - 1]) + if last.StateChanged? && last.deadlineElapsed then 1 else 0
  }

  /** The result last logged for item. */
  ghost function LastResult(events: seq<Event>, item: Uuid): Option<ActivityResult> {
    if events == [] then None
    else
      var last := events[|events| - 1].payload;
      if last.ResultUpdated? && last.result.item == item then Some(last.result)
      else LastResult(events[..|events| - 1], item)
  }

  ghost function LaterResult(events: seq<Event>, e: Event, item: Uuid): Option<ActivityResult> {
    if e.payload.ResultUpdated? && e.payload.result.item == item then Some(e.payload.result) else LastResult(events, item)
  }

  /** What one row more adds to each reading of the log. */
  lemma ViewsSnoc(events: seq<Event>, e: Event, longer: seq<Event>)
    requires longer == events + [e]
    ensures Views(longer) == if CarriesView(e) then Views(events) + [ViewOf(e)] else Views(events)
  {
    assert longer[..|longer| - 1] == events;
  }

  lemma CountsSnoc(events: seq<Event>, e: Event, longer: seq<Event>)
    requires longer == events + [e]
    ensures DeadlineCloses(longer) == DeadlineCloses(events) + if e.payload.StateChanged? && e.payload.deadlineElapsed then 1 else 0
    ensures EventStream.Joins(longer) == EventStream.Joins(events) + if IsPresence(e) then 1 else 0
  {
    assert longer[..|longer| - 1] == events;
  }

  lemma ResultSnoc(events: seq<Event>, e: Event, longer: seq<Event>, item: Uuid)
    requires longer == events + [e]
    ensures LastResult(longer, item) == LaterResult(events, e, item)
  {
    assert longer[..|longer| - 1] == events;
  }

  /** The log's views are a walk through the lifecycle graph from creation to the present columns, and every
      row is stamped with the number of views up to it. */
  ghost predicate LogOk(l: Ledger) {
    && Increasing(l.events) && LatestId(l.events) < l.nextEvent && 1 <= l.nextEvent
    && Walk(l.slides, Views(l.events))
    && |Views(l.events)| == l.version && Views(l.events)[l.version - 1] == l.session
    && Stamped(l.events)
  }

  ghost predicate Walk(slides: map<Uuid, Slide>, views: seq<SessionView>) {
    && views != [] && views[0] == DRAFT
    && forall i :: 0 <= i < |views| - 1 ==> Linked(slides, views[i], views[i + 1])
  }

  ghost predicate Linked(slides: map<Uuid, Slide>, v: SessionView, w: SessionView) {
    exists action :: Edge(slides, action, v, w)
  }

  ghost predicate Stamped(events: seq<Event>) {
    forall i :: 0 <= i < |events| ==> events[i].version == |Views(events[..i + 1])|
  }

  /** Every join, command and deadline left exactly one row. */
  ghost predicate Counted(l: Ledger) {
    && EventStream.Joins(l.events) == |l.participants|
    && SingleJoins(l.events)
    && l.version - 1 == |l.commands| + DeadlineCloses(l.events)
  }

  /** A row drawn from the sequence keeps the ids increasing. */
  lemma IncreasingSnoc(events: seq<Event>, e: Event, next: int, longer: seq<Event>)
    requires Increasing(events) && LatestId(events) < next && 1 <= next && e.id == next && longer == events + [e]
    ensures Increasing(longer) && LatestId(longer) == next
  {
    if events != [] {
      assert forall i :: 0 <= i < |events| ==> events[i].id <= events[|events| - 1].id;
    }
  }

  lemma WalkOn(slides: map<Uuid, Slide>, views: seq<SessionView>, action: Action, view: SessionView, longer: seq<SessionView>)
    requires Walk(slides, views) && Edge(slides, action, views[|views| - 1], view) && longer == views + [view]
    ensures Walk(slides, longer)
  {
    forall i | 0 <= i < |longer| - 1 ensures Linked(slides, longer[i], longer[i + 1]) {
      if i < |views| - 1 {
        assert Linked(slides, views[i], views[i + 1]);
      }
    }
  }

  lemma EmitLog(l: Ledger, payload: Payload, l': Ledger)
    requires LogOk(l) && l' == Emit(l, payload) && !payload.SessionCreated? && !payload.StateChanged?
    ensures LogOk(l')
  {
    var e := Event(l.nextEvent, l.version, payload);
    IncreasingSnoc(l.events, e, l.nextEvent, l'.events);
    ViewsSnoc(l.events, e, l'.events);
    StampedSnoc(l.events, e, l'.events);
  }

  lemma StampedSnoc(events: seq<Event>, e: Event, longer: seq<Event>)
    requires Stamped(events) && longer == events + [e] && e.version == |Views(longer)|
    ensures Stamped(longer)
  {
    assert longer[..|longer|] == longer;
    forall i | 0 <= i < |longer| ensures longer[i].version == |Views(longer[..i + 1])| {
      if i < |events| {
        assert longer[..i + 1] == events[..i + 1];
      }
    }
  }

  lemma TransitionLog(l: Ledger, action: Action, view: SessionView, deadline: bool, l': Ledger)
    requires LogOk(l) && Edge(l.slides, action, l.session, view)
    requires l'.events == Transition(l, view, deadline).events && l'.nextEvent == l.nextEvent + 1
    requires l'.session == view && l'.version == l.version + 1 && l'.slides == l.slides
    ensures LogOk(l')
  {
    var e := Event(l.nextEvent, l.version + 1, StateChanged(view, deadline));
    IncreasingSnoc(l.events, e, l.nextEvent, l'.events);
    ViewsSnoc(l.events, e, l'.events);
    StampedSnoc(l.events, e, l'.events);
    WalkOn(l.slides, Views(l.events), action, view, Views(l'.events));
  }

  lemma ChangeKeepsLog(l: Ledger, c: Change)
    requires LogOk(l) && Allowed(l, c)
    ensures LogOk(Changed(l, c))
  {
    match c
    case Draws(_) =>
    case NewParticipant(row) => EmitLog(l.(participants := l.participants + [row]), PresenceUpdated(1), Changed(l, c));
    case Row(_, _) =>
    case NewAnswer(_) =>
    case Move(action, view, command) => MoveKeepsLog(l, action, view, command);
  }

  lemma MoveKeepsLog(l: Ledger, action: Action, view: SessionView, command: Option<Command>)
    requires LogOk(l) && Edge(l.slides, action, l.session, view)
    ensures LogOk(Moved(l, action, view, command))
  {
    var moved := Transition(l.(commands := if command.Some? then l.commands + [command.value] else l.commands), view, command.None?);
    TransitionLog(l, action, view, command.None?, moved);
    if Extra(l, action).Some? {
      EmitLog(moved, Extra(l, action).value, Moved(l, action, view, command));
    }
  }

  ghost predicate SingleJoins(events: seq<Event>) {
    forall e <- events :: IsPresence(e) ==> e.payload.delta == 1
  }

  lemma JoinCounts(l: Ledger, row: Participant)
    requires Counted(l)
    ensures Counted(Emit(l.(participants := l.participants + [row]), PresenceUpdated(1)))
  {
    CountsSnoc(l.events, Event(l.nextEvent, l.version, PresenceUpdated(1)), Emit(l, PresenceUpdated(1)).events);
  }

  /** The rows of a change of state hold no join, and one deadline if that is what changed it. */
  lemma MoveCounts(l: Ledger, action: Action, view: SessionView, command: Option<Command>)
    ensures var events := Moved(l, action, view, command).events;
      && EventStream.Joins(events) == EventStream.Joins(l.events)
      && DeadlineCloses(events) == DeadlineCloses(l.events) + if command.None? then 1 else 0
  {
    var changed := Event(l.nextEvent, l.version + 1, StateChanged(view, command.None?));
    var moved := l.events + [changed];
    CountsSnoc(l.events, changed, moved);
    var events := Moved(l, action, view, command).events;
    var extra := Extra(l, action);
    if extra.Some? {
      var last := Event(l.nextEvent + 1, l.version + 1, extra.value);
      assert events == moved + [last];
      CountsSnoc(moved, last, events);
    } else {
      assert events == moved;
    }
  }

  lemma MoveKeepsSingle(l: Ledger, action: Action, view: SessionView, command: Option<Command>)
    requires SingleJoins(l.events)
    ensures SingleJoins(Moved(l, action, view, command).events)
  {
  }

  lemma MoveKeepsCounts(l: Ledger, action: Action, view: SessionView, command: Option<Command>)
    requires Counted(l)
    ensures Counted(Moved(l, action, view, command))
  {
    MoveCounts(l, action, view, command);
    MoveKeepsSingle(l, action, view, command);
  }

  lemma ChangeKeepsCounts(l: Ledger, c: Change)
    requires Counted(l) && Allowed(l, c)
    ensures Counted(Changed(l, c))
  {
    match c
    case Draws(_) =>
    case NewParticipant(row) => JoinCounts(l, row);
    case Row(_, _) =>
    case NewAnswer(_) =>
    case Move(action, view, command) => MoveKeepsCounts(l, action, view, command);
  }

  lemma ChangeKeepsEvents(l: Ledger, c: Change)
    requires Allowed(l, c)
    ensures l.events <= Changed(l, c).events
  {
  }

  // --- Keys ------------------------------------------------------------------------------

  ghost predicate PeopleOk(people: seq<Participant>) {
    forall i, j :: 0 <= i < j < |people| ==> people[i].name != people[j].name && people[i].request != people[j].request
  }

  ghost predicate CommandsOk(commands: seq<Command>) {
    forall i, j :: 0 <= i < j < |commands| ==> commands[i].request != commands[j].request
  }

  ghost predicate AnswerKeysOk(answers: seq<Answer>, participants: nat) {
    && (forall i :: 0 <= i < |answers| ==> answers[i].participant < participants)
    && (forall i, j :: 0 <= i < j < |answers| && answers[i].participant == answers[j].participant ==>
          answers[i].request != answers[j].request && answers[i].item != answers[j].item)
  }

  /** The uniqueness rules of the tables. */
  ghost predicate KeysOk(l: Ledger) {
    && PeopleOk(l.participants)
    && CommandsOk(l.commands)
    && AnswerKeysOk(l.answers, |l.participants|)
  }

  lemma ChangeKeepsPeople(l: Ledger, c: Change)
    requires PeopleOk(l.participants) && Allowed(l, c)
    ensures PeopleOk(Changed(l, c).participants) && |l.participants| <= |Changed(l, c).participants|
  {
  }

  lemma ChangeKeepsCommands(l: Ledger, c: Change)
    requires CommandsOk(l.commands) && Allowed(l, c)
    ensures CommandsOk(Changed(l, c).commands) && l.commands <= Changed(l, c).commands
  {
  }

  lemma ChangeKeepsAnswers(l: Ledger, c: Change)
    requires AnswerKeysOk(l.answers, |l.participants|) && Allowed(l, c)
    ensures AnswerKeysOk(Changed(l, c).answers, |l.participants|) && l.answers <= Changed(l, c).answers
  {
    if c.NewAnswer? {
      AnswerKeysSnoc(l.answers, |l.participants|, c.answer, Changed(l, c).answers);
    }
  }

  lemma AnswerKeysSnoc(answers: seq<Answer>, participants: nat, a: Answer, longer: seq<Answer>)
    requires AnswerKeysOk(answers, participants) && a.participant < participants && longer == answers + [a]
    requires forall b <- answers :: b.participant == a.participant ==> b.request != a.request && b.item != a.item
    ensures AnswerKeysOk(longer, participants)
  {
  }

  // --- Scores --------------------------------------------------------------------------------

  ghost function Earnings(answers: seq<Answer>, participant: nat): int {
    if answers == [] then 0
    else
      var last := answers[|answers| - 1];
      Earnings(answers[..|answers| - 1], participant) + if last.participant == participant then last.delta else 0
  }

  /** Every score is the sum of what the participant's answers earned. */
  ghost predicate ScoresOk(l: Ledger) {
    && (forall a <- l.answers :: a.participant < |l.participants|)
    && (forall p: nat :: p < |l.participants| ==> l.participants[p].score == Earnings(l.answers, p))
  }

  lemma EarningsSnoc(answers: seq<Answer>, a: Answer, longer: seq<Answer>)
    requires longer == answers + [a]
    ensures forall p: nat :: Earnings(longer, p) == Earnings(answers, p) + if a.participant == p then a.delta else 0
  {
    assert longer[..|longer| - 1] == answers;
  }

  lemma {:induction false} NoEarnings(answers: seq<Answer>, p: nat)
    requires forall a <- answers :: a.participant != p
    ensures Earnings(answers, p) == 0
    decreases |answers|
  {
    if answers != [] {
      NoEarnings(answers[..|answers| - 1], p);
    }
  }

  lemma ChangeKeepsScores(l: Ledger, c: Change)
    requires ScoresOk(l) && Allowed(l, c)
    ensures ScoresOk(Changed(l, c))
  {
    if c.NewParticipant? {
      NoEarnings(l.answers, |l.participants|);
    } else if c.NewAnswer? {
      EarningsSnoc(l.answers, c.answer, Changed(l, c).answers);
    }
  }

  // --- Results ---------------------------------------------------------------------------------

  ghost predicate Taking(l: Ledger, item: Uuid) {
    l.session.active == Some(item) && l.session.phase == Some(Accepting)
  }

  /** Unless answers to item are being taken, the result last logged for it is the result now. */
  ghost predicate ResultsOk(l: Ledger) {
    forall item :: ResultOk(l, item)
  }

  lemma OtherItemsResult(slides: map<Uuid, Slide>, answers: seq<Answer>, a: Answer, longer: seq<Answer>, item: Uuid)
    requires longer == answers + [a] && a.item != item
    ensures ResultOf(slides, longer, item) == ResultOf(slides, answers, item)
  {
    assert longer[..|longer| - 1] == answers;
  }

  /** The rows of a change of state log at most the result of the item being closed. */
  lemma MoveLogs(l: Ledger, action: Action, view: SessionView, command: Option<Command>, item: Uuid)
    ensures LastResult(Moved(l, action, view, command).events, item) ==
      if Extra(l, action).Some? && Extra(l, action).value.ResultUpdated? && Extra(l, action).value.result.item == item
      then Some(Extra(l, action).value.result) else LastResult(l.events, item)
  {
    var changed := Event(l.nextEvent, l.version + 1, StateChanged(view, command.None?));
    var moved := l.events + [changed];
    ResultSnoc(l.events, changed, moved, item);
    if Extra(l, action).Some? {
      var extra := Event(l.nextEvent + 1, l.version + 1, Extra(l, action).value);
      ResultSnoc(moved, extra, moved + [extra], item);
    }
  }

  /** The rule for one item. */
  ghost predicate ResultOk(l: Ledger, item: Uuid) {
    !Taking(l, item) && LastResult(l.events, item).Some? ==> LastResult(l.events, item) == ResultOf(l.slides, l.answers, item)
  }

  lemma MoveKeepsResult(l: Ledger, action: Action, view: SessionView, command: Option<Command>, item: Uuid)
    requires ResultOk(l, item) && Shape(l.slides, l.session) && Edge(l.slides, action, l.session, view)
    ensures ResultOk(Moved(l, action, view, command), item)
  {
    MoveLogs(l, action, view, command, item);
  }

  lemma JoinKeepsResult(l: Ledger, row: Participant, item: Uuid)
    requires ResultOk(l, item)
    ensures ResultOk(Emit(l.(participants := l.participants + [row]), PresenceUpdated(1)), item)
  {
    ResultSnoc(l.events, Event(l.nextEvent, l.version, PresenceUpdated(1)), Emit(l, PresenceUpdated(1)).events, item);
  }

  lemma ChangeKeepsResult(l: Ledger, c: Change, item: Uuid)
    requires ResultOk(l, item) && Shape(l.slides, l.session) && Allowed(l, c)
    ensures ResultOk(Changed(l, c), item)
  {
    match c
    case Draws(_) =>
    case NewParticipant(row) => JoinKeepsResult(l, row, item);
    case Row(_, _) =>
    case NewAnswer(a) =>
      if item != a.item {
        OtherItemsResult(l.slides, l.answers, a, l.answers + [a], item);
      }
    case Move(action, view, command) => MoveKeepsResult(l, action, view, command, item);
  }

  lemma ChangeKeepsResults(l: Ledger, c: Change)
    requires ResultsOk(l) && Shape(l.slides, l.session) && Allowed(l, c)
    ensures ResultsOk(Changed(l, c))
  {
    forall item ensures ResultOk(Changed(l, c), item) {
      assert ResultOk(l, item);
      ChangeKeepsResult(l, c, item);
    }
  }
}

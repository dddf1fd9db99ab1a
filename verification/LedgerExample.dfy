/** Short runs of one session: the logs other examples start from, and retries that a rejoin cuts off. */
module LedgerExample {
  import opened Prelude
  import opened LiveState
  import opened LiveEvents
  import opened Ledger
  import opened LedgerTheorems
  import opened Definitions
  import opened Responses
  import Scoring
  import ReportsExample
  import WordCloud

  const HOST: Uuid := 9
  const SLIDE: Uuid := 5

  const WAITING: SessionView := SessionView(Lobby, None, None, ItemView, None)
  const SHOWING: SessionView := SessionView(Presenting, Some(SLIDE), None, ItemView, None)

  const CREATED: Event := Event(1, 1, SessionCreated(DRAFT))
  const STARTED: Event := Event(2, 2, StateChanged(WAITING, false))
  const JOINED: Event := Event(3, 2, PresenceUpdated(1))
  const JOINED_TOO: Event := Event(4, 2, PresenceUpdated(1))
  const PRESENTED: Event := Event(4, 3, StateChanged(SHOWING, false))

  const ADA: Participant := Participant("ada", "", 200, false, 0)
  const BOB: Participant := Participant("bob", "", 201, false, 0)
  const START_COMMAND: Command := Command(100, Start, WAITING, 2)

  function New(unicode: WordCloud.Unicode): Ledger {
    Created(HOST, unicode, map[SLIDE := ContentSlide], 1)
  }

  /** The session in its lobby with these people in the room. */
  function Room(unicode: WordCloud.Unicode, people: seq<Participant>, events: seq<Event>): Ledger {
    New(unicode).(session := WAITING, version := 2, participants := people, commands := [START_COMMAND], events := events, nextEvent := |events| + 1)
  }

  lemma ReachNext(l: Ledger, step: Step, next: Ledger)
    requires Reachable(l) && next == Next(l, step)
    ensures Reachable(next)
  {
    var start: Ledger, steps :| NewSession(start) && l == After(start, steps);
    RunSnoc(start, steps, step);
  }

  lemma Opened(unicode: WordCloud.Unicode)
    ensures Reachable(Room(unicode, [], [CREATED, STARTED]))
  {
    var l := New(unicode);
    assert NewSession(l) && l == After(l, []);
    ReachNext(l, Acts(HOST, 100, 1, Start, None, 0), Room(unicode, [], [CREATED, STARTED]));
  }

  lemma OneJoined(unicode: WordCloud.Unicode)
    ensures Reachable(Room(unicode, [ADA], [CREATED, STARTED, JOINED]))
  {
    Opened(unicode);
    ReachNext(Room(unicode, [], [CREATED, STARTED]), Joins(200, "ada", "", false), Room(unicode, [ADA], [CREATED, STARTED, JOINED]));
  }

  /** A session with two joins logged in its lobby. */
  lemma TwoJoined(unicode: WordCloud.Unicode)
    ensures Reachable(Room(unicode, [ADA, BOB], [CREATED, STARTED, JOINED, JOINED_TOO]))
  {
    OneJoined(unicode);
    var l := Room(unicode, [ADA], [CREATED, STARTED, JOINED]);
    assert ByName(l.participants, "bob").None? && ByRequest(l.participants, 201).None?;
    ReachNext(l, Joins(201, "bob", "", false), Room(unicode, [ADA, BOB], [CREATED, STARTED, JOINED, JOINED_TOO]));
  }

  /** One that goes on to present a slide. */
  lemma Presented(unicode: WordCloud.Unicode) returns (l: Ledger)
    ensures Reachable(l) && l.events == [CREATED, STARTED, JOINED, PRESENTED]
    ensures l == Next(Room(unicode, [ADA], [CREATED, STARTED, JOINED]), Acts(HOST, 101, 2, PresentItem, Some(SLIDE), 0))
  {
    OneJoined(unicode);
    var before := Room(unicode, [ADA], [CREATED, STARTED, JOINED]);
    l := Next(before, Acts(HOST, 101, 2, PresentItem, Some(SLIDE), 0));
    ReachNext(before, Acts(HOST, 101, 2, PresentItem, Some(SLIDE), 0), l);
  }

  /** Ada joins, loses her connection and comes back with a new request id; the first request, sent again, is
      then refused although it was answered before. */
  lemma ARetriedJoinCanBeRefused(unicode: WordCloud.Unicode) returns (l: Ledger, steps: seq<Step>)
    ensures Reachable(l) && Join(l, 200, "ada", "", false).1 == Ok(Joined(0, false))
    ensures Join(After(Join(l, 200, "ada", "", false).0, steps), 200, "ada", "", false).1 == Err(NameTaken)
  {
    l := Room(unicode, [], [CREATED, STARTED]);
    steps := [Presence(200, true), Joins(202, "ada", "", false)];
    Opened(unicode);
    var joined := Room(unicode, [ADA], [CREATED, STARTED, JOINED]);
    assert Join(l, 200, "ada", "", false).0 == joined;
    var gone := joined.(participants := [ADA.(disconnected := true)]);
    var back := joined.(participants := [ADA.(request := 202)]);
    assert Next(joined, Presence(200, true)) == gone;
    assert Next(gone, Joins(202, "ada", "", false)) == back;
    assert steps[1..] == [Joins(202, "ada", "", false)];
    assert After(gone, steps[1..]) == After(back, []);
    assert ByRequest(back.participants, 200).None? && ByName(back.participants, "ada") == Some(0);
  }

  // --- An activity on stage --------------------------------------------------------------------------

  const ACTIVITY: Uuid := 6

  function NewQuiz(unicode: WordCloud.Unicode, d: ActivityDefinition): Ledger {
    Created(HOST, unicode, map[ACTIVITY := ActivitySlide(Some(d))], 1)
  }

  function Accepting(d: ActivityDefinition): SessionView {
    SessionView(Presenting, Some(ACTIVITY), Some(Phase.Accepting), ItemView, Some(d.durationSeconds * SECOND))
  }

  /** The session in its lobby with these people in the room, and then with answers being taken. */
  function QuizRoom(unicode: WordCloud.Unicode, d: ActivityDefinition, people: seq<Participant>, events: seq<Event>): Ledger {
    NewQuiz(unicode, d).(session := WAITING, version := 2, participants := people, commands := [START_COMMAND], events := events, nextEvent := |events| + 1)
  }

  function Taking(l: Ledger, d: ActivityDefinition): Ledger {
    l.(session := Accepting(d), version := 3,
       commands := l.commands + [Command(101, PresentItem, Accepting(d), 3)],
       events := l.events + [Event(l.nextEvent, 3, StateChanged(Accepting(d), false))],
       nextEvent := l.nextEvent + 1)
  }

  function Asking(unicode: WordCloud.Unicode, d: ActivityDefinition): Ledger {
    Taking(QuizRoom(unicode, d, [], [CREATED, STARTED]), d)
  }

  lemma QuizOpened(unicode: WordCloud.Unicode, d: ActivityDefinition)
    ensures Reachable(QuizRoom(unicode, d, [], [CREATED, STARTED]))
  {
    var l := NewQuiz(unicode, d);
    assert NewSession(l) && l == After(l, []);
    ReachNext(l, Acts(HOST, 100, 1, Start, None, 0), QuizRoom(unicode, d, [], [CREATED, STARTED]));
  }

  lemma QuizPresented(l: Ledger, d: ActivityDefinition)
    requires Reachable(l) && l.host == HOST && l.session == WAITING && l.version == 2 && l.commands == [START_COMMAND]
    requires l.slides == map[ACTIVITY := ActivitySlide(Some(d))]
    ensures Reachable(Taking(l, d))
  {
    ReachNext(l, Acts(HOST, 101, 2, PresentItem, Some(ACTIVITY), 0), Taking(l, d));
  }

  lemma AskingIsReachable(unicode: WordCloud.Unicode, d: ActivityDefinition)
    ensures Reachable(Asking(unicode, d))
  {
    QuizOpened(unicode, d);
    QuizPresented(QuizRoom(unicode, d, [], [CREATED, STARTED]), d);
  }

  const CHOSEN: Response := Response(31, ChoiceBody([1]))

  /** The quiz taking answers with Ada in the room. */
  function AskingAda(unicode: WordCloud.Unicode): Ledger {
    Taking(QuizRoom(unicode, ReportsExample.QUIZ, [ADA], [CREATED, STARTED, JOINED]), ReportsExample.QUIZ)
  }

  lemma AskingAdaIsReachable(unicode: WordCloud.Unicode)
    ensures Reachable(AskingAda(unicode))
  {
    var d := ReportsExample.QUIZ;
    QuizOpened(unicode, d);
    var l := QuizRoom(unicode, d, [ADA], [CREATED, STARTED, JOINED]);
    ReachNext(QuizRoom(unicode, d, [], [CREATED, STARTED]), Joins(200, "ada", "", false), l);
    QuizPresented(l, d);
  }

  /** Ada answers, loses her connection and comes back with a new request id; the answer, sent again with the old
      credential, is then refused although it was accepted before. */
  lemma ARetriedAnswerCanBeRefused(unicode: WordCloud.Unicode) returns (l: Ledger, steps: seq<Step>)
    ensures Reachable(l) && SubmitAnswer(l, 200, 300, ACTIVITY, CHOSEN, 1).1 == Ok(Receipt(0, 100, false))
    ensures SubmitAnswer(After(SubmitAnswer(l, 200, 300, ACTIVITY, CHOSEN, 1).0, steps), 200, 300, ACTIVITY, CHOSEN, 1).1 == Err(Unauthorized)
  {
    l := AskingAda(unicode);
    steps := [Presence(200, true), Joins(202, "ada", "", false)];
    AskingAdaIsReachable(unicode);
    ReportsExample.AReportCanContradictAScore(Remaining(l.session, 1));
    AnswerAccepted(l, ReportsExample.QUIZ);
    AdaComesBack(SubmitAnswer(l, 200, 300, ACTIVITY, CHOSEN, 1).0, steps);
  }

  lemma AdaComesBack(answered: Ledger, steps: seq<Step>)
    requires answered.participants == [ADA.(score := 100)] && answered.session.state == Presenting
    requires steps == [Presence(200, true), Joins(202, "ada", "", false)]
    ensures SubmitAnswer(After(answered, steps), 200, 300, ACTIVITY, CHOSEN, 1).1 == Err(Unauthorized)
  {
    var gone, back := Next(answered, steps[0]), Next(Next(answered, steps[0]), steps[1]);
    assert gone.participants == [ADA.(score := 100, disconnected := true)];
    assert back.participants == [ADA.(score := 100, request := 202)];
    assert steps[1..] == [Joins(202, "ada", "", false)] && After(gone, steps[1..]) == After(back, []);
  }

  lemma AnswerAccepted(l: Ledger, d: ActivityDefinition)
    requires l.participants == [ADA] && l.answers == [] && l.session == Accepting(d)
    requires l.slides == map[ACTIVITY := ActivitySlide(Some(d))]
    requires d.kind == Choice && IndexesAccepted(d, [1]) && d.durationSeconds >= 1
    requires Delta(d, Selected([1]), Remaining(l.session, 1)) == 100
    ensures var (answered, r) := SubmitAnswer(l, 200, 300, ACTIVITY, CHOSEN, 1);
      r == Ok(Receipt(0, 100, false)) && answered == l.(answers := answered.answers, participants := [ADA.(score := 100)])
  {
    assert ByRequest(l.participants, 200) == Some(0);
    assert AnswerByRequest(l.answers, 0, 300).None? && AnswerByItem(l.answers, 0, ACTIVITY).None?;
    assert Open(l, ACTIVITY, 1);
  }
}

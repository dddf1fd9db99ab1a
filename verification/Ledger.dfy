/** The tables of one live session and each transaction on them, as apps/api/internal/live/postgres_store.go
    runs it. Rows of a table are never deleted while a session lives, so a generated row id is the row's position. */
module Ledger {
  import opened Prelude
  import opened LiveState
  import opened LiveEvents
  import opened Definitions
  import opened Responses
  import opened Tallies
  import Scoring
  import WordCloud

  datatype Error = NotFound | Conflict | Unauthorized | Invalid | NameTaken | InvalidTransition | Internal

  datatype Result<+T> = Ok(value: T) | Err(error: Error)

  /** A frozen slide; an activity carries what decoding and validating its content gives. */
  datatype Slide = ContentSlide | ActivitySlide(definition: Option<ActivityDefinition>) | OtherSlide

  /** The credential is the hash of the request id, so one column stands for both. */
  datatype Participant = Participant(name: string, avatar: string, request: Uuid, disconnected: bool, score: int)

  datatype Answer = Answer(participant: nat, item: Uuid, request: Uuid, stored: Stored, delta: int)

  datatype Command = Command(request: Uuid, action: Action, result: SessionView, version: int)

  datatype Ledger = Ledger(
    host: Uuid,
    unicode: WordCloud.Unicode,
    slides: map<Uuid, Slide>,
    session: SessionView,
    version: int,
    participants: seq<Participant>,
    answers: seq<Answer>,
    commands: seq<Command>,
    events: seq<Event>,
    nextEvent: int)

  const SECOND: int := 1_000_000

  // --- Lookups ------------------------------------------------------------------

  function ByRequest(participants: seq<Participant>, request: Uuid): (r: Option<nat>)
    ensures r.Some? ==> r.value < |participants| && participants[r.value].request == request
    ensures r.None? ==> forall p <- participants :: p.request != request
  {
    FindFirst(participants, (p: Participant) => p.request == request)
  }

  function ByName(participants: seq<Participant>, name: string): (r: Option<nat>)
    ensures r.Some? ==> r.value < |participants| && participants[r.value].name == name
    ensures r.None? ==> forall p <- participants :: p.name != name
  {
    FindFirst(participants, (p: Participant) => p.name == name)
  }

  function CommandByRequest(commands: seq<Command>, request: Uuid): (r: Option<nat>)
    ensures r.Some? ==> r.value < |commands| && commands[r.value].request == request
    ensures r.None? ==> forall c <- commands :: c.request != request
  {
    FindFirst(commands, (c: Command) => c.request == request)
  }

  function AnswerByRequest(answers: seq<Answer>, participant: nat, request: Uuid): (r: Option<nat>)
    ensures r.Some? ==> r.value < |answers| && answers[r.value].participant == participant && answers[r.value].request == request
    ensures r.None? ==> forall a <- answers :: !(a.participant == participant && a.request == request)
  {
    FindFirst(answers, (a: Answer) => a.participant == participant && a.request == request)
  }

  function AnswerByItem(answers: seq<Answer>, participant: nat, item: Uuid): (r: Option<nat>)
    ensures r.Some? ==> r.value < |answers| && answers[r.value].participant == participant && answers[r.value].item == item
    ensures r.None? ==> forall a <- answers :: !(a.participant == participant && a.item == item)
  {
    FindFirst(answers, (a: Answer) => a.participant == participant && a.item == item)
  }

  // --- Creation --------------------------------------------------------------------

  const DRAFT: SessionView := SessionView(Draft, None, None, ItemView, None)

  function Created(host: Uuid, unicode: WordCloud.Unicode, slides: map<Uuid, Slide>, firstEvent: int): Ledger {
    Ledger(host, unicode, slides, DRAFT, 1, [], [], [], [Event(firstEvent, 1, SessionCreated(DRAFT))], firstEvent + 1)
  }

  function Emit(l: Ledger, payload: Payload): Ledger {
    l.(events := l.events + [Event(l.nextEvent, l.version, payload)], nextEvent := l.nextEvent + 1)
  }

  // --- Joining -----------------------------------------------------------------------

  datatype Joined = Joined(participant: nat, restored: bool)

  /** taken: the credential already belongs to a participant of another session. */
  function Join(l: Ledger, request: Uuid, name: string, avatar: string, taken: bool): (Ledger, Result<Joined>) {
    var prior, named := ByRequest(l.participants, request), ByName(l.participants, name);
    if prior.Some? then (l, Ok(Joined(prior.value, true)))
    else if l.session.state == Draft || l.session.state == Ended then (l, Err(Conflict))
    else if named.Some? && !l.participants[named.value].disconnected then (l, Err(NameTaken))
    else if taken then (l, Err(Conflict))
    else if named.Some? then
      var row := l.participants[named.value].(request := request, avatar := avatar, disconnected := false);
      (l.(participants := l.participants[named.value := row]), Ok(Joined(named.value, true)))
    else
      var row := Participant(name, avatar, request, false, 0);
      (Emit(l.(participants := l.participants + [row]), PresenceUpdated(1)), Ok(Joined(|l.participants|, false)))
  }

  function SetPresence(l: Ledger, token: Uuid, disconnected: bool): Ledger {
    var p := ByRequest(l.participants, token);
    if p.None? then l
    else l.(participants := l.participants[p.value := l.participants[p.value].(disconnected := disconnected)])
  }

  // --- Results ---------------------------------------------------------------------------

  function ResponseCount(answers: seq<Answer>, item: Uuid): nat {
    if answers == [] then 0
    else ResponseCount(answers[..|answers| - 1], item) + if answers[|answers| - 1].item == item then 1 else 0
  }

  /** Every option index selected in an answer to item, answer after answer. */
  function Selections(answers: seq<Answer>, item: Uuid): seq<int> {
    if answers == [] then []
    else
      var front, last := Selections(answers[..|answers| - 1], item), answers[|answers| - 1];
      if last.item == item && last.stored.Selected? then front + last.stored.indexes else front
  }

  function Terms(answers: seq<Answer>, item: Uuid): seq<string> {
    if answers == [] then []
    else
      var front, last := Terms(answers[..|answers| - 1], item), answers[|answers| - 1];
      if last.item == item && last.stored.Written? then front + last.stored.terms else front
  }

  predicate IsActivity(slides: map<Uuid, Slide>, item: Uuid) {
    item in slides && slides[item].ActivitySlide? && slides[item].definition.Some?
  }

  /** activityResult; None when the item is not a decodable activity. */
  function ResultOf(slides: map<Uuid, Slide>, answers: seq<Answer>, item: Uuid): Option<ActivityResult> {
    if !IsActivity(slides, item) then None
    else
      var payload :=
        if slides[item].definition.value.kind == Choice then OptionCounts(Tally(Selections(answers, item)))
        else TermCounts(TopTerms(Terms(answers, item)));
      Some(ActivityResult(item, ResponseCount(answers, item), payload))
  }

  // --- Commands ----------------------------------------------------------------------------

  datatype Reply = Reply(session: SessionView, version: int, duplicate: bool)

  /** The columns an accepted command writes, or why it is refused. */
  function Target(l: Ledger, action: Action, item: Option<Uuid>, now: int): Result<SessionView> {
    match action
    case Start => Ok(SessionView(Lobby, None, None, ItemView, None))
    case PresentItem => if item.None? then Err(Invalid) else Presented(l.slides, item.value, now)
    case CloseActivity => Ok(l.session.(phase := Some(Closed), view := ItemView, endsAt := None))
    case RevealActivity => Ok(l.session.(phase := Some(Revealed), view := ItemView, endsAt := None))
    case ShowOverallRanking => Ok(l.session.(view := OverallRanking, endsAt := None))
    case End => Ok(SessionView(Ended, None, None, ItemView, None))
    case Unknown => Err(Invalid)
  }

  function Presented(slides: map<Uuid, Slide>, item: Uuid, now: int): Result<SessionView> {
    if item !in slides then Err(NotFound)
    else
      match slides[item]
      case ContentSlide => Ok(SessionView(Presenting, Some(item), None, ItemView, None))
      case ActivitySlide(Some(d)) =>
        Ok(SessionView(Presenting, Some(item), Some(Accepting), ItemView, Some(now + d.durationSeconds * SECOND)))
      case _ => Err(Invalid)
  }

  function Guard(l: Ledger, expected: int, action: Action, item: Option<Uuid>, now: int): Result<SessionView> {
    if l.version != expected then Err(Conflict)
    else if action == Unknown then Err(Invalid)
    else if !CanApplyAction(l.session.state, l.session.phase, action) then Err(InvalidTransition)
    else Target(l, action, item, now)
  }

  /** The UPDATE of live_sessions and the session.state_changed row. */
  function Transition(l: Ledger, view: SessionView, deadlineElapsed: bool): Ledger {
    Emit(l.(session := view, version := l.version + 1), StateChanged(view, deadlineElapsed))
  }

  /** The rows that follow a transition out of accepting; None when there is no result to log. */
  function LogResult(l: Ledger): Option<Ledger> {
    if l.session.active.None? then Some(l)
    else
      var result := ResultOf(l.slides, l.answers, l.session.active.value);
      if result.None? then None else Some(Emit(l, ResultUpdated(result.value)))
  }

  /** Everything an accepted command writes; None when it has to be rolled back. */
  function Perform(l: Ledger, request: Uuid, action: Action, view: SessionView): Option<Ledger> {
    var recorded := l.(commands := l.commands + [Command(request, action, view, l.version + 1)]);
    var moved := Transition(recorded, view, false);
    match action
    case CloseActivity => LogResult(moved)
    case ShowOverallRanking => Some(Emit(moved, RankingUpdated(|l.participants|)))
    case _ => Some(moved)
  }

  function ApplyAction(l: Ledger, host: Uuid, request: Uuid, expected: int, action: Action, item: Option<Uuid>, now: int)
    : (Ledger, Result<Reply>)
  {
    var prior := CommandByRequest(l.commands, request);
    if host != l.host then (l, Err(NotFound))
    else if prior.Some? then (l, Ok(Reply(l.commands[prior.value].result, l.commands[prior.value].version, true)))
    else
      var target := Guard(l, expected, action, item, now);
      if target.Err? then (l, Err(target.error))
      else
        var performed := Perform(l, request, action, target.value);
        if performed.None? then (l.(nextEvent := l.nextEvent + 1), Err(Internal))
        else (performed.value, Ok(Reply(target.value, l.version + 1, false)))
  }

  // --- Deadlines -----------------------------------------------------------------------------

  predicate Expired(session: SessionView, now: int) {
    && session.state == Presenting && session.phase == Some(Accepting)
    && session.endsAt.Some? && session.endsAt.value <= now
  }

  /** ReconcileDeadline: whether the deadline closed the activity, and what that wrote. */
  function Reconcile(l: Ledger, now: int): (Ledger, Result<bool>) {
    if !Expired(l.session, now) then (l, Ok(false))
    else
      var closed := Transition(l, l.session.(phase := Some(Closed), view := ItemView, endsAt := None), true);
      var logged := LogResult(closed);
      if logged.None? then (l.(nextEvent := l.nextEvent + 1), Err(Internal)) else (logged.value, Ok(true))
  }

  // --- Answers -----------------------------------------------------------------------------------

  datatype Receipt = Receipt(answer: nat, delta: int, duplicate: bool)

  /** The positions of the options whose id is listed as correct. */
  function CorrectIndexes(options: seq<ChoiceOption>, correctIds: seq<string>): seq<int> {
    if options == [] then []
    else
      var n := |options| - 1;
      var front := CorrectIndexes(options[..n], correctIds);
      if options[n].id in correctIds then front + [n] else front
  }

  function QuestionOf(d: ActivityDefinition, remaining: int): Scoring.Question {
    Scoring.Question(CorrectIndexes(d.options, d.correctOptionIds), d.maxPoints, d.minPoints, d.partialCredit,
                     d.speedBonus, d.durationSeconds * SECOND, remaining)
  }

  function Delta(d: ActivityDefinition, stored: Stored, remaining: int): int {
    if d.kind == Choice && d.scoring == Points && stored.Selected?
    then Scoring.Worth(QuestionOf(d, remaining), Elements(stored.indexes))
    else 0
  }

  function Remaining(session: SessionView, now: int): int {
    if session.endsAt.None? || session.endsAt.value <= now then 0 else session.endsAt.value - now
  }

  /** What the shared lock on the session row shows: an answer to item is still welcome. */
  predicate Open(l: Ledger, item: Uuid, now: int) {
    && l.session.active == Some(item) && item in l.slides
    && l.session.state == Presenting && l.session.phase == Some(Accepting)
    && l.slides[item].ActivitySlide?
    && Remaining(l.session, now) > 0
  }

  /** SubmitAnswer once the participant is known: check the session, score, insert, add the score up. */
  function Admit(l: Ledger, participant: nat, request: Uuid, item: Uuid, response: Response, now: int): (Ledger, Result<Receipt>)
    requires participant < |l.participants|
  {
    if !Open(l, item, now) then (l, Err(Conflict))
    else if l.slides[item].definition.None? then (l, Err(Invalid))
    else
      var d := l.slides[item].definition.value;
      var stored := Normalized(l.unicode, d, response);
      if stored.None? then (l, Err(Invalid))
      else
        var delta := Delta(d, stored.value, Remaining(l.session, now));
        Insert(l, participant, request, item, stored.value, delta)
  }

  /** The INSERT with its two uniqueness rules. */
  function Insert(l: Ledger, participant: nat, request: Uuid, item: Uuid, stored: Stored, delta: int): (Ledger, Result<Receipt>)
    requires participant < |l.participants|
  {
    var repeated := AnswerByRequest(l.answers, participant, request);
    if repeated.Some? then (l, Ok(Receipt(repeated.value, l.answers[repeated.value].delta, true)))
    else if AnswerByItem(l.answers, participant, item).Some? then (l, Err(Conflict))
    else
      var p := l.participants[participant];
      (l.(answers := l.answers + [Answer(participant, item, request, stored, delta)],
          participants := l.participants[participant := p.(score := p.score + delta)]),
       Ok(Receipt(|l.answers|, delta, false)))
  }

  function SubmitAnswer(l: Ledger, token: Uuid, request: Uuid, item: Uuid, response: Response, now: int): (Ledger, Result<Receipt>) {
    var p := ByRequest(l.participants, token);
    if p.None? then (l, Err(Unauthorized))
    else
      var repeated := AnswerByRequest(l.answers, p.value, request);
      if repeated.Some? then (l, Ok(Receipt(repeated.value, l.answers[repeated.value].delta, true)))
      else Admit(l, p.value, request, item, response, now)
  }

  // --- Runs ------------------------------------------------------------------------------------------

  /** One committed transaction; Elsewhere is other sessions drawing event ids. */
  datatype Step =
    | Joins(request: Uuid, name: string, avatar: string, taken: bool)
    | Presence(token: Uuid, disconnected: bool)
    | Acts(host: Uuid, request: Uuid, expected: int, action: Action, chosen: Option<Uuid>, now: int)
    | Deadline(now: int)
    | Admits(participant: nat, request: Uuid, item: Uuid, response: Response, now: int)
    | Elsewhere(drawn: nat)

  function Next(l: Ledger, step: Step): Ledger {
    match step
    case Joins(request, name, avatar, taken) => Join(l, request, name, avatar, taken).0
    case Presence(token, disconnected) => SetPresence(l, token, disconnected)
    case Acts(host, request, expected, action, chosen, now) => ApplyAction(l, host, request, expected, action, chosen, now).0
    case Deadline(now) => Reconcile(l, now).0
    case Admits(p, request, item, response, now) => if p < |l.participants| then Admit(l, p, request, item, response, now).0 else l
    case Elsewhere(drawn) => l.(nextEvent := l.nextEvent + drawn)
  }

  function After(l: Ledger, steps: seq<Step>): Ledger
    decreases |steps|
  {
    if steps == [] then l else After(Next(l, steps[0]), steps[1..])
  }
}

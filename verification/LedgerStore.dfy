/** The store as the source runs it: rows changed in place, one method for each transaction. */
module LedgerStore {
  import opened Prelude
  import opened LiveState
  import opened LiveEvents
  import opened Definitions
  import opened Responses
  import opened Tallies
  import L = Ledger
  import opened Ledger
  import Scoring
  import WordCloud

  class Store {
    const host: Uuid
    const unicode: WordCloud.Unicode
    const slides: map<Uuid, Slide>
    var session: SessionView
    var version: int
    var participants: seq<Participant>
    var answers: seq<Answer>
    var commands: seq<Command>
    var events: seq<Event>
    var nextEvent: int

    ghost function State(): Ledger
      reads this
    {
      L.Ledger(host, unicode, slides, session, version, participants, answers, commands, events, nextEvent)
    }

    constructor (host: Uuid, unicode: WordCloud.Unicode, slides: map<Uuid, Slide>, firstEvent: int)
      ensures State() == Created(host, unicode, slides, firstEvent)
      ensures session == SessionView(Draft, None, None, ItemView, None) && version == 1
      ensures participants == [] && answers == [] && commands == []
      ensures events == [Event(firstEvent, 1, SessionCreated(session))] && nextEvent == firstEvent + 1
    {
      this.host, this.unicode, this.slides := host, unicode, slides;
      session, version := DRAFT, 1;
      participants, answers, commands := [], [], [];
      events, nextEvent := [Event(firstEvent, 1, SessionCreated(DRAFT))], firstEvent + 1;
    }

    method InsertEvent(payload: Payload)
      modifies this`events, this`nextEvent
      ensures State() == Emit(old(State()), payload)
    {
      events := events + [Event(nextEvent, version, payload)];
      nextEvent := nextEvent + 1;
    }

    method Join(request: Uuid, name: string, avatar: string, taken: bool) returns (r: Result<Joined>)
      modifies this`participants, this`events, this`nextEvent
      ensures (State(), r) == L.Join(old(State()), request, name, avatar, taken)
    {
      var prior := ByRequest(participants, request);
      if prior.Some? {
        return Ok(Joined(prior.value, true));
      }
      if session.state == Draft || session.state == Ended {
        return Err(Conflict);
      }
      var named := ByName(participants, name);
      if named.Some? && participants[named.value].disconnected {
        if taken {
          return Err(Conflict);
        }
        var row := participants[named.value];
        participants := participants[named.value := row.(request := request, avatar := avatar, disconnected := false)];
        return Ok(Joined(named.value, true));
      }
      if named.Some? {
        return Err(NameTaken);
      }
      if taken {
        return Err(Conflict);
      }
      r := Ok(Joined(|participants|, false));
      participants := participants + [Participant(name, avatar, request, false, 0)];
      InsertEvent(PresenceUpdated(1));
    }

    method SetParticipantPresence(token: Uuid, disconnected: bool)
      modifies this`participants
      ensures State() == SetPresence(old(State()), token, disconnected)
    {
      var p := ByRequest(participants, token);
      if p.Some? {
        participants := participants[p.value := participants[p.value].(disconnected := disconnected)];
      }
    }

    /** activityResult: one pass over the answers for the count and the rows to group. */
    method ActivityResultOf(item: Uuid) returns (result: Option<ActivityResult>)
      ensures result == ResultOf(slides, answers, item)
    {
      if !IsActivity(slides, item) {
        return None;
      }
      var responseCount, selected, terms := 0, [], [];
      for n := 0 to |answers|
        invariant responseCount == ResponseCount(answers[..n], item)
        invariant selected == Selections(answers[..n], item) && terms == Terms(answers[..n], item)
      {
        assert answers[..n + 1][..n] == answers[..n];
        var a := answers[n];
        if a.item == item {
          responseCount := responseCount + 1;
          match a.stored {
            case Selected(indexes) => selected := selected + indexes;
            case Written(_, words) => terms := terms + words;
          }
        }
      }
      assert answers[..|answers|] == answers;
      var choice := slides[item].definition.value.kind == Choice;
      return Some(ActivityResult(item, responseCount, if choice then OptionCounts(Tally(selected)) else TermCounts(TopTerms(terms))));
    }

    /** The UPDATE of the session row with the state_changed row after it. */
    method Update(view: SessionView, deadlineElapsed: bool)
      modifies this`session, this`version, this`events, this`nextEvent
      ensures State() == Transition(old(State()), view, deadlineElapsed)
    {
      session := view;
      version := version + 1;
      InsertEvent(StateChanged(view, deadlineElapsed));
    }

    /** Log the result of the active item; ok is false when it cannot be computed. */
    method LogActivityResult() returns (ok: bool)
      modifies this`events, this`nextEvent
      ensures ok <==> LogResult(old(State())).Some?
      ensures State() == if ok then LogResult(old(State())).value else old(State())
    {
      if session.active.None? {
        return true;
      }
      var result := ActivityResultOf(session.active.value);
      if result.None? {
        return false;
      }
      InsertEvent(ResultUpdated(result.value));
      return true;
    }

    method ApplyAction(host: Uuid, request: Uuid, expected: int, action: Action, item: Option<Uuid>, now: int) returns (r: Result<Reply>)
      modifies this`session, this`version, this`commands, this`events, this`nextEvent
      ensures (State(), r) == L.ApplyAction(old(State()), host, request, expected, action, item, now)
    {
      var prior := CommandByRequest(commands, request);
      if host == this.host && prior.Some? {
        return Ok(Reply(commands[prior.value].result, commands[prior.value].version, true));
      }
      if host != this.host {
        return Err(NotFound);
      }
      if version != expected {
        return Err(Conflict);
      }
      if action == Unknown {
        return Err(Invalid);
      }
      if !CanApplyAction(session.state, session.phase, action) {
        return Err(InvalidTransition);
      }
      var target := Columns(action, item, now);
      if target.Err? {
        return Err(target.error);
      }
      r := Execute(request, action, target.value);
    }

    /** The switch over the action: the new columns of the session row. */
    method Columns(action: Action, item: Option<Uuid>, now: int) returns (target: Result<SessionView>)
      requires action != Unknown
      ensures target == Target(State(), action, item, now)
    {
      var to, active, phase, view, ends := session.state, session.active, session.phase, session.view, session.endsAt;
      match action {
        case Start =>
          to, active, phase, view, ends := Lobby, None, None, ItemView, None;
        case PresentItem =>
          if item.None? {
            return Err(Invalid);
          }
          if item.value !in slides {
            return Err(NotFound);
          }
          to, active, view, ends := Presenting, item, ItemView, None;
          match slides[item.value] {
            case ContentSlide => phase := None;
            case ActivitySlide(Some(d)) => phase, ends := Some(Accepting), Some(now + d.durationSeconds * SECOND);
            case _ => return Err(Invalid);
          }
        case CloseActivity =>
          phase, view, ends := Some(Closed), ItemView, None;
        case RevealActivity =>
          phase, view, ends := Some(Revealed), ItemView, None;
        case ShowOverallRanking =>
          view, ends := OverallRanking, None;
        case End =>
          to, active, phase, view, ends := Ended, None, None, ItemView, None;
      }
      return Ok(SessionView(to, active, phase, view, ends));
    }

    /** The writes of an accepted command, in order; on failure the transaction is rolled back, but not the id sequence. */
    method Execute(request: Uuid, action: Action, view: SessionView) returns (r: Result<Reply>)
      modifies this`session, this`version, this`commands, this`events, this`nextEvent
      ensures var performed := Perform(old(State()), request, action, view);
        if performed.None? then r == Err(Internal) && State() == old(State()).(nextEvent := old(nextEvent) + 1)
        else r == Ok(Reply(view, old(version) + 1, false)) && State() == performed.value
    {
      var session0, version0, commands0, events0 := session, version, commands, events;
      commands := commands + [Command(request, action, view, version + 1)];
      Update(view, false);
      if action == CloseActivity {
        var ok := LogActivityResult();
        if !ok {
          session, version, commands, events := session0, version0, commands0, events0;
          return Err(Internal);
        }
      }
      if action == ShowOverallRanking {
        InsertEvent(RankingUpdated(|participants|));
      }
      return Ok(Reply(view, version, false));
    }

    method ReconcileDeadline(now: int) returns (r: Result<bool>)
      modifies this`session, this`version, this`events, this`nextEvent
      ensures (State(), r) == Reconcile(old(State()), now)
    {
      if !Expired(session, now) {
        return Ok(false);
      }
      var session0, version0, events0 := session, version, events;
      Update(session.(phase := Some(Closed), view := ItemView, endsAt := None), true);
      var ok := LogActivityResult();
      if !ok {
        session, version, events := session0, version0, events0;
        return Err(Internal);
      }
      return Ok(true);
    }

    /** The loops of SubmitAnswer that turn the correct option ids into positions. */
    method CorrectPositions(d: ActivityDefinition) returns (correct: seq<int>)
      ensures correct == CorrectIndexes(d.options, d.correctOptionIds)
    {
      correct := [];
      for index := 0 to |d.options|
        invariant correct == CorrectIndexes(d.options[..index], d.correctOptionIds)
      {
        assert d.options[..index + 1][..index] == d.options[..index];
        if d.options[index].id in d.correctOptionIds {
          correct := correct + [index];
        }
      }
      assert d.options[..|d.options|] == d.options;
    }

    method ScoreAnswer(d: ActivityDefinition, stored: Stored, remaining: int) returns (score: int)
      ensures score == Delta(d, stored, remaining)
    {
      score := 0;
      if d.kind == Choice && d.scoring == Points && stored.Selected? {
        var correct := CorrectPositions(d);
        score := Scoring.Score(
          Scoring.Question(correct, d.maxPoints, d.minPoints, d.partialCredit, d.speedBonus, d.durationSeconds * SECOND, remaining),
          stored.indexes);
      }
    }

    method SubmitAnswer(token: Uuid, request: Uuid, item: Uuid, response: Response, now: int) returns (r: Result<Receipt>)
      modifies this`answers, this`participants
      ensures (State(), r) == L.SubmitAnswer(old(State()), token, request, item, response, now)
    {
      var p := ByRequest(participants, token);
      if p.None? {
        return Err(Unauthorized);
      }
      var repeated := AnswerByRequest(answers, p.value, request);
      if repeated.Some? {
        return Ok(Receipt(repeated.value, answers[repeated.value].delta, true));
      }
      r := AdmitAnswer(p.value, request, item, response, now);
    }

    method AdmitAnswer(participant: nat, request: Uuid, item: Uuid, response: Response, now: int) returns (r: Result<Receipt>)
      requires participant < |participants|
      modifies this`answers, this`participants
      ensures (State(), r) == Admit(old(State()), participant, request, item, response, now)
    {
      if session.active.None? || session.active.value !in slides {
        return Err(Conflict);
      }
      var remaining := Remaining(session, now);
      if session.state != Presenting || session.phase != Some(Accepting) || session.active.value != item
         || !slides[item].ActivitySlide? || remaining <= 0 {
        return Err(Conflict);
      }
      if slides[item].definition.None? {
        return Err(Invalid);
      }
      var d := slides[item].definition.value;
      var stored := NormalizeActivityResponse(unicode, d, response);
      if stored.None? {
        return Err(Invalid);
      }
      var score := ScoreAnswer(d, stored.value, remaining);
      r := InsertAnswer(participant, request, item, stored.value, score);
    }

    /** INSERT INTO answers with the score added up in the same statement. */
    method InsertAnswer(participant: nat, request: Uuid, item: Uuid, stored: Stored, delta: int) returns (r: Result<Receipt>)
      requires participant < |participants|
      modifies this`answers, this`participants
      ensures (State(), r) == L.Insert(old(State()), participant, request, item, stored, delta)
    {
      var repeated := AnswerByRequest(answers, participant, request);
      if repeated.Some? {
        return Ok(Receipt(repeated.value, answers[repeated.value].delta, true));
      }
      if AnswerByItem(answers, participant, item).Some? {
        return Err(Conflict);
      }
      r := Ok(Receipt(|answers|, delta, false));
      answers := answers + [Answer(participant, item, request, stored, delta)];
      var row := participants[participant];
      participants := participants[participant := row.(score := row.score + delta)];
    }
  }
}

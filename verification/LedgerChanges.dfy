/** The few ways a transaction can change the ledger, and what the tables already guarantee about each. */
module LedgerChanges {
  import opened Prelude
  import opened LiveState
  import opened LiveEvents
  import opened Definitions
  import opened Responses
  import opened Ledger

  // --- The lifecycle graph ----------------------------------------------------------

  /** v and w are the session columns before and after an accepted command (or a deadline, which closes). */
  ghost predicate Edge(slides: map<Uuid, Slide>, action: Action, v: SessionView, w: SessionView) {
    && CanApplyAction(v.state, v.phase, action)
    && match action
       case Start => w == SessionView(Lobby, None, None, ItemView, None)
       case PresentItem => Shows(slides, w)
       case CloseActivity => w == v.(phase := Some(Closed), view := ItemView, endsAt := None)
       case RevealActivity => w == v.(phase := Some(Revealed), view := ItemView, endsAt := None)
       case ShowOverallRanking => w == v.(view := OverallRanking, endsAt := None)
       case End => w == SessionView(Ended, None, None, ItemView, None)
       case Unknown => false
  }

  /** An item has just come on stage: content without a phase, an activity accepting answers until a deadline. */
  ghost predicate Shows(slides: map<Uuid, Slide>, w: SessionView) {
    && w.state == Presenting && w.view == ItemView
    && w.active.Some? && w.active.value in slides
    && (slides[w.active.value].ContentSlide? || IsActivity(slides, w.active.value))
    && (if slides[w.active.value].ContentSlide? then w.phase == None && w.endsAt == None
        else w.phase == Some(Accepting) && w.endsAt.Some?)
  }

  /** The session columns fit together. */
  ghost predicate Shape(slides: map<Uuid, Slide>, v: SessionView) {
    && (v.active.Some? <==> v.state == Presenting)
    && (v.active.Some? ==> v.active.value in slides && (slides[v.active.value].ContentSlide? || IsActivity(slides, v.active.value)))
    && (v.phase.Some? <==> v.active.Some? && IsActivity(slides, v.active.value))
    && (v.endsAt.Some? <==> v.phase == Some(Accepting))
    && (v.view == OverallRanking ==> v.phase == Some(Revealed))
  }

  /** Every edge keeps the columns fitting together and is allowed by the coarse state graph. */
  lemma EdgeKeepsShape(slides: map<Uuid, Slide>, action: Action, v: SessionView, w: SessionView)
    requires Shape(slides, v) && Edge(slides, action, v, w)
    ensures Shape(slides, w) && CanTransition(v.state, w.state)
  {
  }

  /** Nothing more is in that graph: each of its transitions is one that some command makes. */
  lemma TransitionsAreMade(from: State, to: State) returns (slides: map<Uuid, Slide>, action: Action, v: SessionView, w: SessionView)
    requires CanTransition(from, to)
    ensures Shape(slides, v) && v.state == from && Edge(slides, action, v, w) && w.state == to
  {
    slides := map[0 := ContentSlide];
    var lobby, showing := SessionView(Lobby, None, None, ItemView, None), SessionView(Presenting, Some(0), None, ItemView, None);
    v := match from case Draft => SessionView(Draft, None, None, ItemView, None) case Lobby => lobby case _ => showing;
    action, w := match to case Lobby => Start case Presenting => PresentItem case _ => End,
      match to case Lobby => lobby case Presenting => showing case _ => SessionView(Ended, None, None, ItemView, None);
  }

  // --- Changes -------------------------------------------------------------------------

  datatype Change =
    | Draws(drawn: nat)
    | NewParticipant(row: Participant)
    | Row(p: nat, row: Participant)
    | NewAnswer(answer: Answer)
    | Move(action: Action, view: SessionView, command: Option<Command>)

  ghost predicate Fresh(l: Ledger, request: Uuid) {
    forall p <- l.participants :: p.request != request
  }

  /** An answer that the transaction's checks and the uniqueness rules let in. */
  ghost predicate Welcome(l: Ledger, a: Answer) {
    && a.participant < |l.participants|
    && IsActivity(l.slides, a.item)
    && l.session.active == Some(a.item) && l.session.state == Presenting && l.session.phase == Some(Accepting)
    && (forall b <- l.answers :: !(b.participant == a.participant && b.request == a.request))
    && (forall b <- l.answers :: !(b.participant == a.participant && b.item == a.item))
    && Earned(l, a)
  }

  /** The stored response and its points are what the activity makes of some response sent before the deadline. */
  ghost predicate Earned(l: Ledger, a: Answer)
    requires IsActivity(l.slides, a.item)
  {
    var d := l.slides[a.item].definition.value;
    exists response, remaining :: remaining > 0 && Normalized(l.unicode, d, response) == Some(a.stored) && a.delta == Delta(d, a.stored, remaining)
  }

  ghost predicate NewCommand(l: Ledger, command: Command, view: SessionView) {
    && command.result == view && command.version == l.version + 1
    && forall c <- l.commands :: c.request != command.request
  }

  ghost predicate Allowed(l: Ledger, c: Change) {
    match c
    case Draws(_) => true
    case NewParticipant(row) =>
      && row.score == 0 && Fresh(l, row.request)
      && forall p <- l.participants :: p.name != row.name
    case Row(p, row) =>
      && p < |l.participants| && row.name == l.participants[p].name && row.score == l.participants[p].score
      && (row.request == l.participants[p].request || (Fresh(l, row.request) && l.participants[p].disconnected))
    case NewAnswer(a) => Welcome(l, a)
    case Move(action, view, command) =>
      && Edge(l.slides, action, l.session, view)
      && (command.None? ==> action == CloseActivity)
      && (command.Some? ==> NewCommand(l, command.value, view))
  }

  /** The rows logged after the state change: the result of a closed activity, the size of a ranking. */
  ghost function Extra(l: Ledger, action: Action): Option<Payload> {
    if action == CloseActivity && l.session.active.Some? && ResultOf(l.slides, l.answers, l.session.active.value).Some?
    then Some(ResultUpdated(ResultOf(l.slides, l.answers, l.session.active.value).value))
    else if action == ShowOverallRanking then Some(RankingUpdated(|l.participants|))
    else None
  }

  ghost function Moved(l: Ledger, action: Action, view: SessionView, command: Option<Command>): Ledger {
    var moved := Transition(l.(commands := if command.Some? then l.commands + [command.value] else l.commands), view, command.None?);
    if Extra(l, action).Some? then Emit(moved, Extra(l, action).value) else moved
  }

  ghost function Changed(l: Ledger, c: Change): Ledger
    requires Allowed(l, c)
  {
    match c
    case Draws(drawn) => l.(nextEvent := l.nextEvent + drawn)
    case NewParticipant(row) => Emit(l.(participants := l.participants + [row]), PresenceUpdated(1))
    case Row(p, row) => l.(participants := l.participants[p := row])
    case NewAnswer(a) =>
      var p := l.participants[a.participant];
      l.(answers := l.answers + [a], participants := l.participants[a.participant := p.(score := p.score + a.delta)])
    case Move(action, view, command) => Moved(l, action, view, command)
  }

  // --- Every transaction is one of them ---------------------------------------------------

  lemma JoinChanges(l: Ledger, request: Uuid, name: string, avatar: string, taken: bool) returns (c: Change)
    ensures Allowed(l, c) && Join(l, request, name, avatar, taken).0 == Changed(l, c)
  {
    var (l', r) := Join(l, request, name, avatar, taken);
    c := Draws(0);
    if r.Ok? && !r.value.restored {
      c := NewParticipant(Participant(name, avatar, request, false, 0));
    } else if l' != l {
      c := Row(r.value.participant, l'.participants[r.value.participant]);
    }
  }

  lemma PresenceChanges(l: Ledger, token: Uuid, disconnected: bool) returns (c: Change)
    ensures Allowed(l, c) && SetPresence(l, token, disconnected) == Changed(l, c)
  {
    var p := ByRequest(l.participants, token);
    c := Draws(0);
    if p.Some? {
      c := Row(p.value, l.participants[p.value].(disconnected := disconnected));
    }
  }

  lemma AdmitChanges(l: Ledger, p: nat, request: Uuid, item: Uuid, response: Response, now: int) returns (c: Change)
    requires p < |l.participants|
    ensures Allowed(l, c) && Admit(l, p, request, item, response, now).0 == Changed(l, c)
  {
    var (l', r) := Admit(l, p, request, item, response, now);
    c := Draws(0);
    if r.Ok? && !r.value.duplicate {
      var d := l.slides[item].definition.value;
      var stored := Normalized(l.unicode, d, response).value;
      var a := Answer(p, item, request, stored, Delta(d, stored, Remaining(l.session, now)));
      assert Earned(l, a);
      c := NewAnswer(a);
    }
  }

  lemma TargetIsEdge(l: Ledger, expected: int, action: Action, item: Option<Uuid>, now: int)
    requires Guard(l, expected, action, item, now).Ok?
    ensures Edge(l.slides, action, l.session, Guard(l, expected, action, item, now).value)
  {
  }

  lemma ActChanges(l: Ledger, host: Uuid, request: Uuid, expected: int, action: Action, item: Option<Uuid>, now: int) returns (c: Change)
    requires Shape(l.slides, l.session)
    ensures Allowed(l, c) && ApplyAction(l, host, request, expected, action, item, now).0 == Changed(l, c)
    ensures ApplyAction(l, host, request, expected, action, item, now).1 != Err(Internal)
  {
    var (l', r) := ApplyAction(l, host, request, expected, action, item, now);
    c := Draws(0);
    var target := Guard(l, expected, action, item, now);
    if host == l.host && CommandByRequest(l.commands, request).None? && target.Ok? {
      TargetIsEdge(l, expected, action, item, now);
      PerformMoves(l, request, action, target.value);
      c := Move(action, target.value, Some(Command(request, action, target.value, l.version + 1)));
    }
  }

  lemma PerformMoves(l: Ledger, request: Uuid, action: Action, view: SessionView)
    requires Shape(l.slides, l.session) && Edge(l.slides, action, l.session, view)
    ensures Perform(l, request, action, view) == Some(Moved(l, action, view, Some(Command(request, action, view, l.version + 1))))
  {
  }

  lemma DeadlineChanges(l: Ledger, now: int) returns (c: Change)
    requires Shape(l.slides, l.session)
    ensures Allowed(l, c) && Reconcile(l, now).0 == Changed(l, c)
    ensures Reconcile(l, now).1 == Ok(Expired(l.session, now))
  {
    c := Draws(0);
    if Expired(l.session, now) {
      c := Move(CloseActivity, l.session.(phase := Some(Closed), view := ItemView, endsAt := None), None);
    }
  }

  lemma NextChanges(l: Ledger, step: Step) returns (c: Change)
    requires Shape(l.slides, l.session)
    ensures Allowed(l, c) && Next(l, step) == Changed(l, c)
  {
    match step
    case Joins(request, name, avatar, taken) => c := JoinChanges(l, request, name, avatar, taken);
    case Presence(token, disconnected) => c := PresenceChanges(l, token, disconnected);
    case Acts(host, request, expected, action, item, now) => c := ActChanges(l, host, request, expected, action, item, now);
    case Deadline(now) => c := DeadlineChanges(l, now);
    case Admits(p, request, item, response, now) =>
      if p < |l.participants| { c := AdmitChanges(l, p, request, item, response, now); } else { c := Draws(0); }
    case Elsewhere(drawn) => c := Draws(drawn);
  }
}

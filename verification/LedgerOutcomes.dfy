/** What each transaction answers and leaves behind, in every reachable ledger, by the rows and columns it finds. */
module LedgerOutcomes {
  import opened Prelude
  import opened LiveState
  import opened LiveEvents
  import opened Definitions
  import opened Responses
  import opened Ledger
  import opened LedgerChanges
  import opened LedgerInvariants
  import opened LedgerTheorems
  import opened LedgerResults

  // --- Commands -----------------------------------------------------------------------------

  /** Where the lifecycle stands when a command is in order. */
  ghost predicate InOrder(session: SessionView, action: Action) {
    match action
    case Start => session.state == Draft
    case PresentItem => session.state == Lobby || (session.state == Presenting && session.phase != Some(Accepting) && session.phase != Some(Closed))
    case CloseActivity => session.phase == Some(Accepting)
    case RevealActivity => session.phase == Some(Closed)
    case ShowOverallRanking => session.phase == Some(Revealed)
    case End => session.state != Draft && session.state != Ended && session.phase != Some(Accepting)
    case Unknown => false
  }

  /** The item is a slide of the session that can come on stage. */
  ghost predicate OnStage(slides: map<Uuid, Slide>, item: Option<Uuid>) {
    item.Some? && item.value in slides
    && (slides[item.value].ContentSlide? || (slides[item.value].ActivitySlide? && slides[item.value].definition.Some?))
  }

  /** The session columns a command in order leaves; an activity takes answers for its duration, in microseconds, from now. */
  ghost predicate Leaves(l: Ledger, action: Action, item: Option<Uuid>, now: int, w: SessionView) {
    match action
    case Start => w == SessionView(Lobby, None, None, ItemView, None)
    case PresentItem =>
      && OnStage(l.slides, item)
      && if l.slides[item.value].ContentSlide? then w == SessionView(Presenting, item, None, ItemView, None)
         else w == SessionView(Presenting, item, Some(Accepting), ItemView,
                               Some(now + l.slides[item.value].definition.value.durationSeconds * 1_000_000))
    case CloseActivity => w == SessionView(Presenting, l.session.active, Some(Closed), ItemView, None)
    case RevealActivity => w == SessionView(Presenting, l.session.active, Some(Revealed), ItemView, None)
    case ShowOverallRanking => w == SessionView(Presenting, l.session.active, Some(Revealed), OverallRanking, None)
    case End => w == SessionView(Ended, None, None, ItemView, None)
    case Unknown => false
  }

  /** The activity on stage, and a result true of the answers to it. */
  ghost predicate ResultFor(l: Ledger, r: ActivityResult) {
    && l.session.active == Some(r.item) && r.item in l.slides
    && l.slides[r.item].ActivitySlide? && l.slides[r.item].definition.Some?
    && TrueResult(r, l.slides[r.item].definition.value, l.answers)
  }

  /** The rows logged: the change of state; after it, for a close, the result, and for a ranking, its size. */
  ghost predicate Logs(l: Ledger, action: Action, w: SessionView, deadline: bool, rows: seq<Event>) {
    && |rows| == (if action == CloseActivity || action == ShowOverallRanking then 2 else 1)
    && rows[0] == Event(l.nextEvent, l.version + 1, StateChanged(w, deadline))
    && (action == CloseActivity ==>
          && rows[1].id == l.nextEvent + 1 && rows[1].version == l.version + 1
          && rows[1].payload.ResultUpdated? && ResultFor(l, rows[1].payload.result))
    && (action == ShowOverallRanking ==> rows[1] == Event(l.nextEvent + 1, l.version + 1, RankingUpdated(|l.participants|)))
  }

  /** Nothing but the session row, the log and the command table has changed. */
  ghost predicate Advanced(l: Ledger, l': Ledger, w: SessionView, rows: seq<Event>, commands: seq<Command>) {
    l' == l.(session := w, version := l.version + 1, events := l.events + rows, nextEvent := l.nextEvent + |rows|, commands := commands)
  }

  lemma InOrderIff(l: Ledger, action: Action)
    requires Shape(l.slides, l.session)
    ensures CanApplyAction(l.session.state, l.session.phase, action) <==> InOrder(l.session, action)
  {
    match l.session.phase
    case None =>
    case Some(Accepting) =>
    case Some(Closed) =>
    case Some(Revealed) =>
  }

  lemma TargetLeaves(l: Ledger, action: Action, item: Option<Uuid>, now: int)
    requires Shape(l.slides, l.session) && InOrder(l.session, action)
    ensures Target(l, action, item, now).Ok? <==> action != PresentItem || OnStage(l.slides, item)
    ensures Target(l, action, item, now).Ok? ==> Leaves(l, action, item, now, Target(l, action, item, now).value)
    ensures Target(l, action, item, now).Err? ==>
      Target(l, action, item, now).error == if item.Some? && item.value !in l.slides then NotFound else Invalid
  {
  }

  /** What a change of state does to the tables. */
  lemma MoveAdvances(l: Ledger, action: Action, w: SessionView, command: Option<Command>) returns (rows: seq<Event>)
    requires Reachable(l) && Edge(l.slides, action, l.session, w) && (command.None? ==> action == CloseActivity)
    ensures var commands := if command.Some? then l.commands + [command.value] else l.commands;
      Advanced(l, Moved(l, action, w, command), w, rows, commands)
    ensures Logs(l, action, w, command.None?, rows)
  {
    ReachableInv(l);
    var first := Event(l.nextEvent, l.version + 1, StateChanged(w, command.None?));
    MovedRows(l, action, w, command);
    if action == CloseActivity {
      ResultIsTrue(l, l.session.active.value);
      rows := [first, Event(l.nextEvent + 1, l.version + 1, Extra(l, action).value)];
    } else if action == ShowOverallRanking {
      rows := [first, Event(l.nextEvent + 1, l.version + 1, Extra(l, action).value)];
    } else {
      rows := [first];
    }
  }

  lemma MovedRows(l: Ledger, action: Action, w: SessionView, command: Option<Command>)
    ensures var first := Event(l.nextEvent, l.version + 1, StateChanged(w, command.None?));
      var rows := if Extra(l, action).Some? then [first, Event(l.nextEvent + 1, l.version + 1, Extra(l, action).value)] else [first];
      Advanced(l, Moved(l, action, w, command), w, rows, if command.Some? then l.commands + [command.value] else l.commands)
  {
    var first := Event(l.nextEvent, l.version + 1, StateChanged(w, command.None?));
    if Extra(l, action).Some? {
      var second := Event(l.nextEvent + 1, l.version + 1, Extra(l, action).value);
      TwoRows(l.events, [first, second]);
      assert Moved(l, action, w, command).events == l.events + [first] + [second];
    } else {
      assert Moved(l, action, w, command).events == l.events + [first];
    }
  }

  lemma TwoRows(events: seq<Event>, rows: seq<Event>)
    requires |rows| == 2
    ensures events + [rows[0]] + [rows[1]] == events + rows
  {
  }

  ghost predicate Accepted(l: Ledger, host: Uuid, expected: int, action: Action, item: Option<Uuid>) {
    host == l.host && expected == l.version && InOrder(l.session, action) && (action == PresentItem ==> OnStage(l.slides, item))
  }

  ghost function Refusal(l: Ledger, host: Uuid, expected: int, action: Action, item: Option<Uuid>): Error {
    if host != l.host then NotFound else if expected != l.version then Conflict
    else if action == Unknown then Invalid else if !InOrder(l.session, action) then InvalidTransition
    else if item.Some? && item.value !in l.slides then NotFound else Invalid
  }

  lemma CommandRefused(l: Ledger, host: Uuid, request: Uuid, expected: int, action: Action, item: Option<Uuid>, now: int)
    requires Shape(l.slides, l.session) && CommandByRequest(l.commands, request).None? && !Accepted(l, host, expected, action, item)
    ensures ApplyAction(l, host, request, expected, action, item, now) == (l, Err(Refusal(l, host, expected, action, item)))
  {
    InOrderIff(l, action);
    if InOrder(l.session, action) { TargetLeaves(l, action, item, now); }
  }

  lemma CommandTaken(l: Ledger, request: Uuid, action: Action, item: Option<Uuid>, now: int) returns (w: SessionView, rows: seq<Event>)
    requires Reachable(l) && CommandByRequest(l.commands, request).None? && Accepted(l, l.host, l.version, action, item)
    ensures var (l', r) := ApplyAction(l, l.host, request, l.version, action, item, now);
      && r == Ok(Reply(w, l.version + 1, false)) && Leaves(l, action, item, now, w) && Logs(l, action, w, false, rows)
      && Advanced(l, l', w, rows, l.commands + [Command(request, action, w, l.version + 1)])
  {
    ReachableInv(l);
    InOrderIff(l, action);
    TargetLeaves(l, action, item, now);
    w := Target(l, action, item, now).value;
    TargetIsEdge(l, l.version, action, item, now);
    PerformMoves(l, request, action, w);
    rows := MoveAdvances(l, action, w, Some(Command(request, action, w, l.version + 1)));
  }

  /** A command with a new request id: to whom it is refused, when and why, and what it leaves otherwise. */
  lemma CommandOutcome(l: Ledger, host: Uuid, request: Uuid, expected: int, action: Action, item: Option<Uuid>, now: int)
    returns (w: SessionView, rows: seq<Event>)
    requires Reachable(l) && forall c <- l.commands :: c.request != request
    ensures var (l', r) := ApplyAction(l, host, request, expected, action, item, now);
      if Accepted(l, host, expected, action, item)
      then
        && r == Ok(Reply(w, l.version + 1, false)) && Leaves(l, action, item, now, w) && Logs(l, action, w, false, rows)
        && Advanced(l, l', w, rows, l.commands + [Command(request, action, w, l.version + 1)])
      else l' == l && r == Err(Refusal(l, host, expected, action, item))
  {
    w, rows := l.session, [];
    assert CommandByRequest(l.commands, request).None?;
    if Accepted(l, host, expected, action, item) {
      w, rows := CommandTaken(l, request, action, item, now);
    } else {
      ReachableInv(l);
      CommandRefused(l, host, request, expected, action, item, now);
    }
  }

  // --- Deadlines ------------------------------------------------------------------------------

  /** A reconciliation closes the activity exactly if its deadline has come, and logs change and result; otherwise it
      leaves everything as it is. */
  lemma DeadlineOutcome(l: Ledger, now: int) returns (w: SessionView, rows: seq<Event>)
    requires Reachable(l)
    ensures l.session.phase == Some(Accepting) ==> l.session.endsAt.Some?
    ensures var (l', r) := Reconcile(l, now);
      && r == Ok(l.session.phase == Some(Accepting) && l.session.endsAt.value <= now)
      && (r.value ==>
            && w == SessionView(Presenting, l.session.active, Some(Closed), ItemView, None)
            && Logs(l, CloseActivity, w, true, rows) && Advanced(l, l', w, rows, l.commands))
      && (!r.value ==> l' == l)
  {
    ReachableInv(l);
    w, rows := l.session, [];
    var c := DeadlineChanges(l, now);
    if l.session.phase == Some(Accepting) && l.session.endsAt.value <= now {
      w := l.session.(phase := Some(Closed), view := ItemView, endsAt := None);
      rows := MoveAdvances(l, CloseActivity, w, None);
      DeadlineMoves(l, now, w);
    }
  }

  lemma DeadlineMoves(l: Ledger, now: int, w: SessionView)
    requires Shape(l.slides, l.session) && l.session.phase == Some(Accepting) && l.session.endsAt.value <= now
    requires w == l.session.(phase := Some(Closed), view := ItemView, endsAt := None)
    ensures Reconcile(l, now) == (Moved(l, CloseActivity, w, None), Ok(true))
  {
  }

  // --- Joining ----------------------------------------------------------------------------------

  /** The participant the request id belongs to comes back; nobody joins before the start or after the end; a name in use
      by somebody connected, and a credential in use elsewhere, are refused; a disconnected name is restored with its
      score to whoever comes, with the new credential and avatar; and anybody else gets a new row and is announced. */
  lemma JoinOutcome(l: Ledger, request: Uuid, name: string, avatar: string, taken: bool)
    requires Reachable(l)
    ensures var closed := l.session.state == Draft || l.session.state == Ended;
      && (forall p: nat :: p < |l.participants| && l.participants[p].request == request ==>
            Join(l, request, name, avatar, taken) == (l, Ok(Joined(p, true))))
      && ((forall p <- l.participants :: p.request != request) && closed ==> Join(l, request, name, avatar, taken) == (l, Err(Conflict)))
      && (forall p: nat :: p < |l.participants| && l.participants[p].name == name && !closed && (forall q <- l.participants :: q.request != request) ==>
            var row := l.participants[p];
            Join(l, request, name, avatar, taken) ==
              if !row.disconnected then (l, Err(NameTaken)) else if taken then (l, Err(Conflict))
              else (l.(participants := l.participants[p := Participant(name, avatar, request, false, row.score)]), Ok(Joined(p, true))))
      && ((forall p <- l.participants :: p.request != request && p.name != name) && !closed ==>
            Join(l, request, name, avatar, taken) ==
              if taken then (l, Err(Conflict))
              else (l.(participants := l.participants + [Participant(name, avatar, request, false, 0)],
                       events := l.events + [Event(l.nextEvent, l.version, PresenceUpdated(1))], nextEvent := l.nextEvent + 1),
                    Ok(Joined(|l.participants|, false))))
  {
    ReachableInv(l);
    forall p: nat | p < |l.participants|
      ensures ByName(l.participants, l.participants[p].name) == Some(p) && ByRequest(l.participants, l.participants[p].request) == Some(p)
    {
      PersonFound(l.participants, p);
    }
  }

  /** Presence marks the participant the credential names, and nobody else. */
  lemma PresenceOutcome(l: Ledger, token: Uuid, disconnected: bool)
    requires Reachable(l)
    ensures (forall p <- l.participants :: p.request != token) ==> SetPresence(l, token, disconnected) == l
    ensures forall p: nat :: p < |l.participants| && l.participants[p].request == token ==>
      var row := l.participants[p];
      SetPresence(l, token, disconnected) == l.(participants := l.participants[p := Participant(row.name, row.avatar, token, disconnected, row.score)])
  {
    ReachableInv(l);
    forall p: nat | p < |l.participants| ensures ByRequest(l.participants, l.participants[p].request) == Some(p) {
      PersonFound(l.participants, p);
    }
  }
}

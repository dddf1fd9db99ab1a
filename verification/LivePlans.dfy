/** The command plans of protocol.ts, run by LiveRuntime.ts against the session on the server. */
module LivePlans {
  import opened Prelude
  import opened LiveState
  import opened LiveEvents
  import opened Ledger
  import opened LedgerChanges
  import opened LedgerInvariants
  import opened LedgerTheorems
  import LedgerStore

  datatype Navigation = StartCommand | NextCommand

  function PlanNavigation(state: State, command: Navigation, slide: Option<Uuid>, phase: Option<Phase>, view: StageView): seq<Action> {
    var open := if slide.Some? then [PresentItem] else [];
    if state == Ended then []
    else if command == StartCommand then (if state == Draft then [Start] else []) + open
    else if state == Presenting && phase == Some(Accepting) then [CloseActivity, RevealActivity]
    else if state == Presenting && phase == Some(Closed) then [RevealActivity]
    else if state == Presenting && phase == Some(Revealed) && view == ItemView && slide.None? then [ShowOverallRanking]
    else open
  }

  function PlanEnd(state: State, phase: Option<Phase>): seq<Action> {
    if state == Presenting && phase == Some(Accepting) then [CloseActivity, End]
    else if state == Ended then []
    else [End]
  }

  /** sendNavigation and sendEnd: one command after the other, each expecting the version the one before
      returned, stopping at the first refusal. */
  function RunPlan(l: Ledger, requests: seq<Uuid>, actions: seq<Action>, slide: Option<Uuid>, now: int): (Ledger, bool)
    requires |requests| == |actions|
    decreases |actions|
  {
    if actions == [] then (l, true)
    else
      var item := if actions[0] == PresentItem then slide else None;
      var (l', r) := ApplyAction(l, l.host, requests[0], l.version, actions[0], item, now);
      if r.Err? then (l', false) else RunPlan(l', requests[1..], actions[1..], slide, now)
  }

  method SendPlan(store: LedgerStore.Store, requests: seq<Uuid>, actions: seq<Action>, slide: Option<Uuid>, now: int) returns (ok: bool)
    requires |requests| == |actions|
    modifies store
    ensures (store.State(), ok) == RunPlan(old(store.State()), requests, actions, slide, now)
  {
    ghost var whole := RunPlan(store.State(), requests, actions, slide, now);
    for n := 0 to |actions|
      invariant RunPlan(store.State(), requests[n..], actions[n..], slide, now) == whole
    {
      var item := if actions[n] == PresentItem then slide else None;
      var r := store.ApplyAction(store.host, requests[n], store.version, actions[n], item, now);
      if r.Err? {
        return false;
      }
      assert requests[n..][1..] == requests[n + 1..] && actions[n..][1..] == actions[n + 1..];
    }
    return true;
  }

  /** Request ids nobody has used. */
  ghost predicate NewRequests(l: Ledger, requests: seq<Uuid>) {
    && Distinct(requests)
    && forall c <- l.commands :: c.request !in requests
  }

  /** The slide is in the frozen deck and can come on stage. */
  ghost predicate Presentable(slides: map<Uuid, Slide>, slide: Option<Uuid>) {
    slide.Some? && slide.value in slides && (slides[slide.value].ContentSlide? || IsActivity(slides, slide.value))
  }

  /** Whether the machine takes this command here, with nobody else in the way. */
  ghost predicate Taken(l: Ledger, action: Action, slide: Option<Uuid>) {
    && CanApplyAction(l.session.state, l.session.phase, action)
    && (action == PresentItem ==> Presentable(l.slides, slide))
  }

  lemma TakenIff(l: Ledger, action: Action, slide: Option<Uuid>, now: int)
    ensures Guard(l, l.version, action, if action == PresentItem then slide else None, now).Ok? <==> Taken(l, action, slide)
  {
  }

  lemma OneCommand(l: Ledger, request: Uuid, action: Action, slide: Option<Uuid>, now: int)
    requires Inv(l) && forall c <- l.commands :: c.request != request
    ensures var (l', r) := ApplyAction(l, l.host, request, l.version, action, if action == PresentItem then slide else None, now);
            (r.Ok? <==> Taken(l, action, slide)) && (r.Ok? ==> Followed(l, request, action, l'))
  {
    var item := if action == PresentItem then slide else None;
    TakenIff(l, action, slide, now);
    if Guard(l, l.version, action, item, now).Ok? {
      var view := Guard(l, l.version, action, item, now).value;
      TargetIsEdge(l, l.version, action, item, now);
      PerformMoves(l, request, action, view);
      NextKeeps(l, Acts(l.host, request, l.version, action, item, now));
      MovedTo(l, request, action, view);
    }
  }

  /** l' is where the command leads. */
  ghost predicate Followed(l: Ledger, request: Uuid, action: Action, l': Ledger) {
    && Inv(l') && l'.slides == l.slides && Edge(l.slides, action, l.session, l'.session)
    && l'.commands == l.commands + [Command(request, action, l'.session, l.version + 1)]
  }

  lemma MovedTo(l: Ledger, request: Uuid, action: Action, view: SessionView)
    ensures var l' := Moved(l, action, view, Some(Command(request, action, view, l.version + 1)));
      && l'.slides == l.slides && l'.session == view
      && l'.commands == l.commands + [Command(request, action, view, l.version + 1)]
  {
  }

  /** A one-command plan. */
  lemma OneStepPlan(l: Ledger, requests: seq<Uuid>, action: Action, slide: Option<Uuid>, now: int)
    requires Inv(l) && |requests| == 1 && NewRequests(l, requests)
    ensures RunPlan(l, requests, [action], slide, now).1 <==> Taken(l, action, slide)
    ensures RunPlan(l, requests, [action], slide, now).1 ==> Edge(l.slides, action, l.session, RunPlan(l, requests, [action], slide, now).0.session)
  {
    OneCommand(l, requests[0], action, slide, now);
    assert [action][1..] == [] && requests[1..] == [];
  }

  /** A two-command plan: the second meets the columns the first left. */
  lemma TwoStepPlan(l: Ledger, requests: seq<Uuid>, first: Action, second: Action, slide: Option<Uuid>, now: int) returns (mid: Ledger)
    requires Inv(l) && |requests| == 2 && NewRequests(l, requests) && Taken(l, first, slide)
    ensures Inv(mid) && mid.slides == l.slides && Edge(l.slides, first, l.session, mid.session)
    ensures RunPlan(l, requests, [first, second], slide, now).1 <==> Taken(mid, second, slide)
    ensures RunPlan(l, requests, [first, second], slide, now).1 ==>
      Edge(l.slides, second, mid.session, RunPlan(l, requests, [first, second], slide, now).0.session)
  {
    OneCommand(l, requests[0], first, slide, now);
    mid := ApplyAction(l, l.host, requests[0], l.version, first, if first == PresentItem then slide else None, now).0;
    assert [first, second][1..] == [second];
    OneStepPlan(mid, requests[1..], second, slide, now);
  }

  function Navigate(l: Ledger, requests: seq<Uuid>, command: Navigation, slide: Option<Uuid>, now: int): (Ledger, bool)
    requires |requests| == |PlanNavigation(l.session.state, command, slide, l.session.phase, l.session.view)|
  {
    RunPlan(l, requests, PlanNavigation(l.session.state, command, slide, l.session.phase, l.session.view), slide, now)
  }

  /** The corners a navigation command cannot get out of: going on from a draft, and starting over in the middle
      of an activity. */
  predicate Stuck(session: SessionView, command: Navigation) {
    if command == NextCommand then session.state == Draft
    else session.state == Presenting && (session.phase == Some(Accepting) || session.phase == Some(Closed))
  }

  /** A plan has at most two commands, and presents last if at all. */
  lemma PlanShapes(session: SessionView, command: Navigation, slide: Option<Uuid>)
    ensures var plan := PlanNavigation(session.state, command, slide, session.phase, session.view);
      && |plan| <= 2
      && (|plan| == 1 ==> plan == [plan[0]])
      && (|plan| == 2 ==> plan == [CloseActivity, RevealActivity] || plan == [Start, PresentItem])
      && (PresentItem in plan <==> plan != [] && plan[|plan| - 1] == PresentItem)
  {
  }

  /** With nobody else in the way a navigation plan is accepted command by command exactly unless it presents a
      slide that cannot come on stage, or presents from a corner where nothing can be presented. */
  lemma NavigationAcceptedIff(l: Ledger, requests: seq<Uuid>, command: Navigation, slide: Option<Uuid>, now: int)
    requires Reachable(l) && NewRequests(l, requests)
    requires |requests| == |PlanNavigation(l.session.state, command, slide, l.session.phase, l.session.view)|
    ensures Navigate(l, requests, command, slide, now).1 <==>
      !(PresentItem in PlanNavigation(l.session.state, command, slide, l.session.phase, l.session.view)
        && (Stuck(l.session, command) || !Presentable(l.slides, slide)))
  {
    ReachableInv(l);
    PlanShapes(l.session, command, slide);
    var plan := PlanNavigation(l.session.state, command, slide, l.session.phase, l.session.view);
    var presents := PresentItem in plan;
    match l.session.phase {
      case None =>
      case Some(Accepting) =>
      case Some(Closed) =>
      case Some(Revealed) =>
    }
    if |plan| == 1 {
      OneStepPlan(l, requests, plan[0], slide, now);
      assert presents ==> (Taken(l, PresentItem, slide) <==> !Stuck(l.session, command) && Presentable(l.slides, slide));
      assert !presents ==> Taken(l, plan[0], slide);
    } else if |plan| == 2 {
      var mid := TwoStepPlan(l, requests, plan[0], plan[1], slide, now);
      assert presents ==> (Taken(mid, PresentItem, slide) <==> Presentable(l.slides, slide));
      assert !presents ==> Taken(mid, plan[1], slide);
    } else {
      assert plan == [] && !presents;
    }
  }

  /** Ending is accepted everywhere but in a draft, and leaves the session ended. */
  lemma EndAcceptedIff(l: Ledger, requests: seq<Uuid>, now: int)
    requires Reachable(l) && NewRequests(l, requests) && |requests| == |PlanEnd(l.session.state, l.session.phase)|
    ensures RunPlan(l, requests, PlanEnd(l.session.state, l.session.phase), None, now).1 <==> l.session.state != Draft
    ensures l.session.state != Draft ==>
      RunPlan(l, requests, PlanEnd(l.session.state, l.session.phase), None, now).0.session.state == Ended
  {
    ReachableInv(l);
    var plan := PlanEnd(l.session.state, l.session.phase);
    if |plan| == 1 {
      OneStepPlan(l, requests, plan[0], None, now);
    } else if |plan| == 2 {
      var mid := TwoStepPlan(l, requests, plan[0], plan[1], None, now);
    }
  }

  /** Where a navigation command is meant to lead. */
  ghost predicate Reached(session: SessionView, command: Navigation, slide: Option<Uuid>, s: SessionView) {
    if command == NextCommand && (session.phase == Some(Accepting) || session.phase == Some(Closed))
    then s == session.(phase := Some(Revealed), view := ItemView, endsAt := None)
    else if slide.Some? then s.state == Presenting && s.active == slide && s.view == ItemView && (s.phase == None || s.phase == Some(Accepting))
    else if command == StartCommand && session.state == Draft then s == SessionView(Lobby, None, None, ItemView, None)
    else if command == NextCommand && session.phase == Some(Revealed) then s == session.(view := OverallRanking)
    else s == session
  }

  /** Going on while answers are taken closes and reveals; starting or going on with a slide puts it on stage; without one,
      starting opens the lobby, going on from a revealed activity shows the ranking, and anything else changes nothing. */
  lemma NavigationGetsThere(l: Ledger, requests: seq<Uuid>, command: Navigation, slide: Option<Uuid>, now: int)
    requires Reachable(l) && NewRequests(l, requests) && l.session.state != Ended
    requires |requests| == |PlanNavigation(l.session.state, command, slide, l.session.phase, l.session.view)|
    requires Navigate(l, requests, command, slide, now).1
    ensures Reached(l.session, command, slide, Navigate(l, requests, command, slide, now).0.session)
  {
    ReachableInv(l);
    PlanShapes(l.session, command, slide);
    var plan := PlanNavigation(l.session.state, command, slide, l.session.phase, l.session.view);
    if |plan| == 1 {
      OneStepPlan(l, requests, plan[0], slide, now);
      if plan == [PresentItem] {
        Arrives(l, requests, slide, now);
      }
    } else if |plan| == 2 {
      var mid := TwoStepPlan(l, requests, plan[0], plan[1], slide, now);
      if plan == [Start, PresentItem] {
        ArrivesSecond(l, requests, Start, slide, now);
      }
    }
  }

  lemma Arrives(l: Ledger, requests: seq<Uuid>, slide: Option<Uuid>, now: int)
    requires Inv(l) && |requests| == 1 && NewRequests(l, requests)
    requires RunPlan(l, requests, [PresentItem], slide, now).1
    ensures RunPlan(l, requests, [PresentItem], slide, now).0.session.active == slide
  {
    OneCommand(l, requests[0], PresentItem, slide, now);
    assert [PresentItem][1..] == [] && requests[1..] == [];
  }

  lemma ArrivesSecond(l: Ledger, requests: seq<Uuid>, first: Action, slide: Option<Uuid>, now: int)
    requires Inv(l) && |requests| == 2 && NewRequests(l, requests)
    requires RunPlan(l, requests, [first, PresentItem], slide, now).1
    ensures RunPlan(l, requests, [first, PresentItem], slide, now).0.session.active == slide
  {
    OneCommand(l, requests[0], first, slide, now);
    var mid := ApplyAction(l, l.host, requests[0], l.version, first, if first == PresentItem then slide else None, now).0;
    assert [first, PresentItem][1..] == [PresentItem];
    Arrives(mid, requests[1..], slide, now);
  }
}

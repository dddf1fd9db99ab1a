/** What holds of one live session over every run of joins, rejoins, commands, deadlines and answers. */
module LedgerTheorems {
  import opened Prelude
  import opened LiveState
  import opened LiveEvents
  import opened Definitions
  import opened Responses
  import opened Ledger
  import opened LedgerChanges
  import opened LedgerInvariants
  import EventStream
  import Scoring

  ghost predicate Inv(l: Ledger) {
    && Shape(l.slides, l.session)
    && LogOk(l)
    && Counted(l)
    && KeysOk(l)
    && ScoresOk(l)
    && ResultsOk(l)
  }

  lemma ChangeKeepsKeys(l: Ledger, c: Change)
    requires KeysOk(l) && Allowed(l, c)
    ensures KeysOk(Changed(l, c))
  {
    ChangeKeepsPeople(l, c);
    ChangeKeepsCommands(l, c);
    ChangeKeepsAnswers(l, c);
  }

  lemma ChangeKeepsShape(l: Ledger, c: Change)
    requires Shape(l.slides, l.session) && Allowed(l, c)
    ensures Shape(Changed(l, c).slides, Changed(l, c).session)
  {
    if c.Move? {
      EdgeKeepsShape(l.slides, c.action, l.session, c.view);
    }
  }

  lemma NextKeeps(l: Ledger, step: Step)
    requires Inv(l)
    ensures Inv(Next(l, step))
  {
    var c := NextChanges(l, step);
    ChangeKeepsShape(l, c);
    ChangeKeepsLog(l, c);
    ChangeKeepsCounts(l, c);
    ChangeKeepsKeys(l, c);
    ChangeKeepsScores(l, c);
    ChangeKeepsResults(l, c);
  }

  lemma CreatedOk(host: Uuid, unicode: WordCloud.Unicode, slides: map<Uuid, Slide>, firstEvent: int)
    requires 1 <= firstEvent
    ensures Inv(Created(host, unicode, slides, firstEvent))
  {
    var l := Created(host, unicode, slides, firstEvent);
    var e := Event(firstEvent, 1, SessionCreated(DRAFT));
    assert [] + [e] == l.events;
    ViewsSnoc([], e, l.events);
    CountsSnoc([], e, l.events);
    StampedSnoc([], e, l.events);
    assert EventStream.Joins([]) == 0 && DeadlineCloses([]) == 0;
    forall item ensures ResultOk(l, item) {
      ResultSnoc([], e, l.events, item);
    }
  }

  lemma {:induction false} RunKeeps(l: Ledger, steps: seq<Step>)
    requires Inv(l)
    ensures Inv(After(l, steps))
    decreases |steps|
  {
    if steps != [] {
      NextKeeps(l, steps[0]);
      RunKeeps(Next(l, steps[0]), steps[1..]);
    }
  }

  lemma {:induction false} RunSnoc(l: Ledger, steps: seq<Step>, step: Step)
    ensures After(l, steps + [step]) == Next(After(l, steps), step)
    decreases |steps|
  {
    var longer := steps + [step];
    if steps == [] {
      assert longer[1..] == [];
    } else {
      RunSnoc(Next(l, steps[0]), steps[1..], step);
      assert longer[1..] == steps[1..] + [step];
    }
  }

  /** l is what some run makes of a newly created session. */
  ghost predicate Reachable(l: Ledger) {
    exists start: Ledger, steps :: NewSession(start) && l == After(start, steps)
  }

  ghost predicate NewSession(start: Ledger) {
    exists firstEvent :: 1 <= firstEvent && start == Created(start.host, start.unicode, start.slides, firstEvent)
  }

  lemma ReachableInv(l: Ledger)
    requires Reachable(l)
    ensures Inv(l)
  {
    var start: Ledger, steps :| NewSession(start) && l == After(start, steps);
    var firstEvent :| 1 <= firstEvent && start == Created(start.host, start.unicode, start.slides, firstEvent);
    CreatedOk(start.host, start.unicode, start.slides, firstEvent);
    RunKeeps(start, steps);
  }

  // --- The lifecycle -------------------------------------------------------------------

  /** An item is on stage exactly while presenting, a phase exists exactly while it is an activity, a deadline
      exactly while answers are taken, and the ranking shows only after the reveal. */
  lemma SessionColumnsFit(l: Ledger)
    requires Reachable(l)
    ensures l.session.active.Some? <==> l.session.state == Presenting
    ensures l.session.phase.Some? <==> l.session.active.Some? && IsActivity(l.slides, l.session.active.value)
    ensures l.session.endsAt.Some? <==> l.session.phase == Some(Accepting)
    ensures l.session.view == OverallRanking ==> l.session.phase == Some(Revealed)
  {
    ReachableInv(l);
  }

  /** A transaction either leaves the session columns and their version alone, or raises the version by one
      along an edge of the coarse state graph; no session ends while answers are taken; and no result to be
      logged is ever missing. */
  lemma StepsFollowTheGraph(l: Ledger, step: Step)
    requires Reachable(l)
    ensures var l' := Next(l, step);
      || (l'.session == l.session && l'.version == l.version)
      || (l'.version == l.version + 1 && CanTransition(l.session.state, l'.session.state)
          && (l'.session.state == Ended ==> l.session.phase != Some(Accepting)))
    ensures step.Acts? ==> ApplyAction(l, step.host, step.request, step.expected, step.action, step.chosen, step.now).1 != Err(Internal)
  {
    ReachableInv(l);
    var c := NextChanges(l, step);
    if c.Move? {
      EdgeKeepsShape(l.slides, c.action, l.session, c.view);
    }
    if step.Acts? {
      var d := ActChanges(l, step.host, step.request, step.expected, step.action, step.chosen, step.now);
    }
  }

  /** views[i] came about by presenting an item. */
  ghost predicate PresentedAt(slides: map<Uuid, Slide>, views: seq<SessionView>, i: int) {
    0 < i < |views| && Edge(slides, PresentItem, views[i - 1], views[i])
  }

  lemma NextView(slides: map<Uuid, Slide>, views: seq<SessionView>, i: nat) returns (action: Action)
    requires Walk(slides, views) && i + 1 < |views|
    ensures Edge(slides, action, views[i], views[i + 1])
    ensures action == PresentItem ==> PresentedAt(slides, views, i + 1)
  {
    assert Linked(slides, views[i], views[i + 1]);
    action :| Edge(slides, action, views[i], views[i + 1]);
  }

  /** The same item stays on stage, revealed, until the next one is presented. */
  lemma {:induction false} StaysRevealed(slides: map<Uuid, Slide>, views: seq<SessionView>, i: nat, j: nat)
    requires Walk(slides, views) && i < j < |views| && PresentedAt(slides, views, j)
    requires forall k :: i < k < j ==> !PresentedAt(slides, views, k)
    requires views[i].state == Presenting && views[i].phase == Some(Revealed)
    ensures forall k :: i <= k < j ==> views[k].phase == Some(Revealed) && views[k].active == views[i].active
    decreases j - i
  {
    if i + 1 < j {
      var action := NextView(slides, views, i);
      EndIsFinal(slides, views, i + 1);
      StaysRevealed(slides, views, i + 1, j);
    }
  }

  lemma EndIsFinal(slides: map<Uuid, Slide>, views: seq<SessionView>, i: nat)
    requires Walk(slides, views) && i + 1 < |views|
    ensures views[i].state != Ended
  {
    var action := NextView(slides, views, i);
  }

  /** Between presenting an activity and presenting the next item, answers are closed once, then revealed once,
      and nothing else happens but showing the ranking. */
  lemma ActivityRunsItsCourse(slides: map<Uuid, Slide>, views: seq<SessionView>, i: nat, j: nat)
    requires Walk(slides, views) && i < j && PresentedAt(slides, views, i) && PresentedAt(slides, views, j)
    requires forall k :: i < k < j ==> !PresentedAt(slides, views, k)
    requires IsActivity(slides, views[i].active.value)
    ensures i + 3 <= j
    ensures views[i].phase == Some(Accepting) && views[i + 1].phase == Some(Closed)
    ensures forall k :: i + 2 <= k < j ==> views[k].phase == Some(Revealed)
    ensures forall k :: i <= k < j ==> views[k].active == views[i].active
  {
    var closing := NextView(slides, views, i);
    assert i + 1 != j;
    var revealing := NextView(slides, views, i + 1);
    assert i + 2 != j;
    EndIsFinal(slides, views, i + 2);
    StaysRevealed(slides, views, i + 2, j);
  }

  /** The log replays to the session: its views walk the graph from creation to the present columns, one view a version. */
  lemma LogTellsTheStory(l: Ledger)
    requires Reachable(l)
    ensures Walk(l.slides, Views(l.events))
    ensures |Views(l.events)| == l.version && Views(l.events)[l.version - 1] == l.session
  {
    ReachableInv(l);
  }

  /** So it goes in the log of every session: each activity it presents, up to the next item presented. */
  lemma EveryActivityRunsItsCourse(l: Ledger, i: nat, j: nat)
    requires Reachable(l) && i < j && PresentedAt(l.slides, Views(l.events), i) && PresentedAt(l.slides, Views(l.events), j)
    requires forall k :: i < k < j ==> !PresentedAt(l.slides, Views(l.events), k)
    requires IsActivity(l.slides, Views(l.events)[i].active.value)
    ensures var views := Views(l.events);
      && i + 3 <= j && views[i + 1].phase == Some(Closed)
      && forall k :: i + 2 <= k < j ==> views[k].phase == Some(Revealed) && views[k].active == views[i].active
  {
    LogTellsTheStory(l);
    ActivityRunsItsCourse(l.slides, Views(l.events), i, j);
  }

  // --- Versions and counts -------------------------------------------------------------------

  lemma {:induction false} ViewsGrow(events: seq<Event>, i: nat, j: nat)
    requires i <= j <= |events|
    ensures |Views(events[..i])| <= |Views(events[..j])|
    decreases j - i
  {
    if i < j {
      ViewsGrow(events, i, j - 1);
      ViewsSnoc(events[..j - 1], events[j - 1], events[..j]);
    }
  }

  lemma StampsAscend(events: seq<Event>)
    requires Stamped(events)
    ensures forall i, j :: 0 <= i <= j < |events| ==> events[i].version <= events[j].version <= |Views(events)|
  {
    forall i, j | 0 <= i <= j < |events| ensures events[i].version <= events[j].version <= |Views(events)| {
      ViewsGrow(events, i + 1, j + 1);
      ViewsGrow(events, j + 1, |events|);
      assert events[..|events|] == events;
    }
  }

  /** Along the log ids strictly increase and versions never decrease, and none is ahead of the session. */
  lemma VersionsFollowIds(l: Ledger)
    requires Reachable(l)
    ensures Increasing(l.events)
    ensures forall i, j :: 0 <= i <= j < |l.events| ==> l.events[i].version <= l.events[j].version <= l.version
  {
    ReachableInv(l);
    StampsAscend(l.events);
  }

  /** Participants are as many as the joins logged; versions count the commands and the deadlines. */
  lemma CountsAgree(l: Ledger)
    requires Reachable(l)
    ensures |l.participants| == EventStream.Joins(l.events)
    ensures l.version - 1 == |l.commands| + DeadlineCloses(l.events)
    ensures l.version == |Views(l.events)|
  {
    ReachableInv(l);
  }

  // --- Commands -------------------------------------------------------------------------------

  /** At most one command takes effect for a request id, and nobody shares a name or a credential. */
  lemma OneEffectPerRequest(l: Ledger)
    requires Reachable(l)
    ensures forall i, j :: 0 <= i < j < |l.commands| ==> l.commands[i].request != l.commands[j].request
    ensures forall i, j :: 0 <= i < j < |l.participants| ==>
      l.participants[i].name != l.participants[j].name && l.participants[i].request != l.participants[j].request
  {
    ReachableInv(l);
  }

  /** Rows are only ever added. */
  lemma {:induction false} RowsPersist(l: Ledger, steps: seq<Step>)
    requires Inv(l)
    ensures l.commands <= After(l, steps).commands && l.answers <= After(l, steps).answers
    ensures After(l, steps).host == l.host && |l.participants| <= |After(l, steps).participants|
    decreases |steps|
  {
    if steps != [] {
      var c := NextChanges(l, steps[0]);
      ChangeKeepsCommands(l, c);
      ChangeKeepsAnswers(l, c);
      ChangeKeepsPeople(l, c);
      NextKeeps(l, steps[0]);
      RowsPersist(Next(l, steps[0]), steps[1..]);
    }
  }

  /** Once a command has been answered, every retry gets the same answer and changes nothing: after any run,
      after the session has ended, and whatever the retry asks for. */
  lemma RetriedCommand(l: Ledger, host: Uuid, request: Uuid, expected: int, action: Action, item: Option<Uuid>, now: int,
                       steps: seq<Step>, expected': int, action': Action, item': Option<Uuid>, now': int)
    requires Reachable(l)
    requires ApplyAction(l, host, request, expected, action, item, now).1.Ok?
    ensures var (first, reply) := ApplyAction(l, host, request, expected, action, item, now);
            var later := After(first, steps);
            ApplyAction(later, host, request, expected', action', item', now')
              == (later, Ok(Reply(reply.value.session, reply.value.version, true)))
  {
    var (first, reply) := ApplyAction(l, host, request, expected, action, item, now);
    ReachableInv(l);
    NextKeeps(l, Acts(host, request, expected, action, item, now));
    var k := Recorded(l, host, request, expected, action, item, now);
    StillRecorded(first, steps, k);
  }

  lemma StillRecorded(l: Ledger, steps: seq<Step>, k: nat)
    requires Inv(l) && k < |l.commands|
    ensures After(l, steps).host == l.host
    ensures CommandByRequest(After(l, steps).commands, l.commands[k].request) == Some(k)
    ensures After(l, steps).commands[k] == l.commands[k]
  {
    RowsPersist(l, steps);
    RunKeeps(l, steps);
    CommandFound(After(l, steps).commands, k);
  }

  /** Where the answer of a command stands in the table. */
  lemma Recorded(l: Ledger, host: Uuid, request: Uuid, expected: int, action: Action, item: Option<Uuid>, now: int) returns (k: nat)
    requires ApplyAction(l, host, request, expected, action, item, now).1.Ok?
    ensures var (l', reply) := ApplyAction(l, host, request, expected, action, item, now);
      && host == l.host && k < |l'.commands|
      && l'.commands[k].request == request && l'.commands[k].result == reply.value.session
      && l'.commands[k].version == reply.value.version
  {
    var prior := CommandByRequest(l.commands, request);
    k := if prior.Some? then prior.value else |l.commands|;
  }

  lemma CommandFound(commands: seq<Command>, k: nat)
    requires CommandsOk(commands) && k < |commands|
    ensures CommandByRequest(commands, commands[k].request) == Some(k)
  {
  }

  /** The source looks for the request before it takes the row lock, and again after. */
  function PeekThenLock(early: Ledger, l: Ledger, host: Uuid, request: Uuid, expected: int, action: Action, item: Option<Uuid>, now: int)
    : (Ledger, Result<Reply>)
  {
    var prior := CommandByRequest(early.commands, request);
    if host == early.host && prior.Some?
    then (l, Ok(Reply(early.commands[prior.value].result, early.commands[prior.value].version, true)))
    else ApplyAction(l, host, request, expected, action, item, now)
  }

  /** Whatever commits between the first look and the lock, the two-step command is the one-step command. */
  lemma PeekThenLockIsAtomic(early: Ledger, steps: seq<Step>, host: Uuid, request: Uuid, expected: int, action: Action,
                             item: Option<Uuid>, now: int)
    requires Reachable(early)
    ensures PeekThenLock(early, After(early, steps), host, request, expected, action, item, now)
         == ApplyAction(After(early, steps), host, request, expected, action, item, now)
  {
    ReachableInv(early);
    RowsPersist(early, steps);
    var prior := CommandByRequest(early.commands, request);
    if host == early.host && prior.Some? {
      StillRecorded(early, steps, prior.value);
    }
  }

  // --- Scores ------------------------------------------------------------------------------------

  /** A score is the sum of the points of the participant's answers; nobody answers an item, or uses a request, twice. */
  lemma ScoresAddUp(l: Ledger)
    requires Reachable(l)
    ensures forall p: nat :: p < |l.participants| ==> l.participants[p].score == Earnings(l.answers, p)
    ensures forall i, j :: 0 <= i < j < |l.answers| && l.answers[i].participant == l.answers[j].participant ==>
      l.answers[i].item != l.answers[j].item && l.answers[i].request != l.answers[j].request
  {
    ReachableInv(l);
  }

  /** A submission that was answered is answered the same for as long as the session lives, and the retry changes
      nothing, if and only if the credential it comes with by then names the participant: not once a rejoin has
      rotated it. */
  lemma RetriedAnswer(l: Ledger, token: Uuid, request: Uuid, item: Uuid, response: Response, now: int,
                      steps: seq<Step>, token': Uuid, item': Uuid, response': Response, now': int)
    requires Reachable(l) && SubmitAnswer(l, token, request, item, response, now).1.Ok?
    ensures var (first, receipt) := SubmitAnswer(l, token, request, item, response, now);
            var later := After(first, steps);
            SubmitAnswer(later, token', request, item', response', now')
              == (later, Ok(Receipt(receipt.value.answer, receipt.value.delta, true)))
            <==> ByRequest(later.participants, token') == ByRequest(l.participants, token)
  {
    var (first, receipt) := SubmitAnswer(l, token, request, item, response, now);
    ReachableInv(l);
    SubmitRecords(l, token, request, item, response, now);
    RowsPersist(first, steps);
    RunKeeps(first, steps);
    var later, p := After(first, steps), ByRequest(l.participants, token).value;
    AnswerFound(later.answers, |later.participants|, receipt.value.answer);
    ResubmitNow(later, p, request, receipt.value, token', item', response', now');
  }

  lemma ResubmitNow(later: Ledger, p: nat, request: Uuid, receipt: Receipt, token: Uuid, item: Uuid, response: Response, now: int)
    requires Receipted(later, p, request, receipt) && AnswerByRequest(later.answers, p, request) == Some(receipt.answer)
    ensures SubmitAnswer(later, token, request, item, response, now) == (later, Ok(Receipt(receipt.answer, receipt.delta, true)))
       <==> ByRequest(later.participants, token) == Some(p)
  {
    var q := ByRequest(later.participants, token);
    if q.Some? && q.value != p {
      var repeated := AnswerByRequest(later.answers, q.value, request);
      assert repeated.Some? ==> repeated.value != receipt.answer;
      if repeated.None? { AdmitIsNew(later, q.value, request, item, response, now); }
    }
  }

  lemma AdmitIsNew(l: Ledger, p: nat, request: Uuid, item: Uuid, response: Response, now: int)
    requires p < |l.participants| && AnswerByRequest(l.answers, p, request).None?
    ensures var r := Admit(l, p, request, item, response, now).1; r.Ok? ==> !r.value.duplicate
  {
  }

  /** Where the receipt of a submission points. */
  ghost predicate Receipted(l: Ledger, participant: nat, request: Uuid, receipt: Receipt) {
    && receipt.answer < |l.answers|
    && l.answers[receipt.answer].participant == participant && l.answers[receipt.answer].request == request
    && l.answers[receipt.answer].delta == receipt.delta
  }

  lemma AdmitRecords(l: Ledger, p: nat, request: Uuid, item: Uuid, response: Response, now: int)
    requires p < |l.participants| && Admit(l, p, request, item, response, now).1.Ok?
    ensures Receipted(Admit(l, p, request, item, response, now).0, p, request, Admit(l, p, request, item, response, now).1.value)
  {
  }

  lemma SubmitRecords(l: Ledger, token: Uuid, request: Uuid, item: Uuid, response: Response, now: int)
    requires Inv(l) && SubmitAnswer(l, token, request, item, response, now).1.Ok?
    ensures var (first, receipt) := SubmitAnswer(l, token, request, item, response, now);
            Inv(first) && Receipted(first, ByRequest(l.participants, token).value, request, receipt.value)
  {
    var p := ByRequest(l.participants, token).value;
    if AnswerByRequest(l.answers, p, request).None? {
      AdmitRecords(l, p, request, item, response, now);
      NextKeeps(l, Admits(p, request, item, response, now));
    }
  }

  lemma AnswerFound(answers: seq<Answer>, participants: nat, k: nat)
    requires AnswerKeysOk(answers, participants) && k < |answers|
    ensures AnswerByRequest(answers, answers[k].participant, answers[k].request) == Some(k)
  {
  }

  // --- Joining and rejoining -----------------------------------------------------------------------

  /** A join that restores a participant keeps row, name, score, answers, log and head count; and unless the
      request is that participant's own, the row was disconnected: a connected name is never taken over. */
  lemma RestoreKeepsIdentity(l: Ledger, request: Uuid, name: string, avatar: string, taken: bool)
    requires Join(l, request, name, avatar, taken).1.Ok? && Join(l, request, name, avatar, taken).1.value.restored
    ensures var (l', r) := Join(l, request, name, avatar, taken);
            var p := r.value.participant;
      && p < |l.participants| == |l'.participants|
      && l'.participants[p].name == l.participants[p].name && l'.participants[p].score == l.participants[p].score
      && l'.participants[p].request == request
      && l' == l.(participants := l.participants[p := l'.participants[p]])
      && (l.participants[p].request != request ==> l.participants[p].disconnected && l.participants[p].name == name)
  {
  }

  /** A name that somebody connected holds is refused to everybody else. */
  lemma ConnectedNameIsRefused(l: Ledger, p: nat, request: Uuid, avatar: string, taken: bool)
    requires Reachable(l) && p < |l.participants| && !l.participants[p].disconnected
    requires forall q <- l.participants :: q.request != request
    ensures Join(l, request, l.participants[p].name, avatar, taken).0 == l
    ensures Join(l, request, l.participants[p].name, avatar, taken).1
         == Err(if l.session.state == Draft || l.session.state == Ended then Conflict else NameTaken)
  {
    ReachableInv(l);
    PersonFound(l.participants, p);
  }

  /** Whether a name can be taken over is decided by what the participant's stream last announced. */
  lemma PresenceDecidesTakeover(l: Ledger, p: nat, disconnected: bool, request: Uuid, avatar: string)
    requires Reachable(l) && p < |l.participants| && l.session.state != Draft && l.session.state != Ended
    requires forall q <- l.participants :: q.request != request
    ensures var announced := SetPresence(l, l.participants[p].request, disconnected);
      Join(announced, request, l.participants[p].name, avatar, false).1 == if disconnected then Ok(Joined(p, true)) else Err(NameTaken)
  {
    ReachableInv(l);
    NextKeeps(l, Presence(l.participants[p].request, disconnected));
    PersonFound(l.participants, p);
    PersonFound(SetPresence(l, l.participants[p].request, disconnected).participants, p);
  }

  lemma PersonFound(people: seq<Participant>, p: nat)
    requires PeopleOk(people) && p < |people|
    ensures ByName(people, people[p].name) == Some(p) && ByRequest(people, people[p].request) == Some(p)
  {
  }

  /** Retrying a join returns the original participant and changes nothing exactly as long as the participant's
      row still holds the request id: a rejoin from another device, which rotates it, ends that. */
  lemma RetriedJoin(l: Ledger, request: Uuid, name: string, avatar: string, taken: bool, steps: seq<Step>,
                    name': string, avatar': string, taken': bool)
    requires Reachable(l) && Join(l, request, name, avatar, taken).1.Ok?
    ensures var (first, r) := Join(l, request, name, avatar, taken);
            var p, later := r.value.participant, After(first, steps);
      && p < |later.participants|
      && (Join(later, request, name', avatar', taken') == (later, Ok(Joined(p, true)))
          <==> later.participants[p].request == request)
  {
    var (first, r) := Join(l, request, name, avatar, taken);
    var p, later := r.value.participant, After(first, steps);
    ReachableInv(l);
    NextKeeps(l, Joins(request, name, avatar, taken));
    RowsPersist(first, steps);
    RunKeeps(first, steps);
    RetryNow(later, p, request, name', avatar', taken');
  }

  lemma RetryNow(later: Ledger, p: nat, request: Uuid, name: string, avatar: string, taken: bool)
    requires PeopleOk(later.participants) && p < |later.participants|
    ensures Join(later, request, name, avatar, taken) == (later, Ok(Joined(p, true))) <==> later.participants[p].request == request
  {
    if later.participants[p].request == request {
      PersonFound(later.participants, p);
    }
  }

  // --- Results ------------------------------------------------------------------------------------------

  /** Nothing in the run takes answers to item. */
  ghost predicate NeverTakes(l: Ledger, steps: seq<Step>, item: Uuid)
    decreases |steps|
  {
    !Taking(l, item) && (steps == [] || NeverTakes(Next(l, steps[0]), steps[1..], item))
  }

  lemma {:induction false} QuietRun(l: Ledger, steps: seq<Step>, item: Uuid)
    requires Inv(l) && NeverTakes(l, steps, item)
    ensures ResultOf(After(l, steps).slides, After(l, steps).answers, item) == ResultOf(l.slides, l.answers, item)
    ensures !Taking(After(l, steps), item)
    decreases |steps|
  {
    if steps != [] {
      var c := NextChanges(l, steps[0]);
      NextKeeps(l, steps[0]);
      if c.NewAnswer? {
        OtherItemsResult(l.slides, l.answers, c.answer, Next(l, steps[0]).answers, item);
      }
      QuietRun(Next(l, steps[0]), steps[1..], item);
    }
  }

  /** The close of an activity logs the result of every answer committed, by command or by deadline. */
  lemma CloseLogsTheResult(l: Ledger, step: Step, item: Uuid)
    requires Reachable(l) && Taking(l, item) && !Taking(Next(l, step), item)
    ensures LastResult(Next(l, step).events, item).Some?
    ensures LastResult(Next(l, step).events, item) == ResultOf(l.slides, l.answers, item)
  {
    ReachableInv(l);
    var c := NextChanges(l, step);
    MoveLogsResult(l, c.action, c.view, c.command, item);
  }

  lemma MoveLogsResult(l: Ledger, action: Action, view: SessionView, command: Option<Command>, item: Uuid)
    requires Shape(l.slides, l.session) && Allowed(l, Move(action, view, command)) && Taking(l, item)
    ensures LastResult(Moved(l, action, view, command).events, item).Some?
    ensures LastResult(Moved(l, action, view, command).events, item) == ResultOf(l.slides, l.answers, item)
  {
    MoveLogs(l, action, view, command, item);
  }

  /** The result logged at the close is the result any later reader computes, until the item is presented again. */
  lemma LoggedResultStands(l: Ledger, step: Step, item: Uuid, steps: seq<Step>)
    requires Reachable(l) && Taking(l, item) && NeverTakes(Next(l, step), steps, item)
    ensures var later := After(Next(l, step), steps);
      && LastResult(Next(l, step).events, item).Some?
      && ResultOf(later.slides, later.answers, item) == LastResult(Next(l, step).events, item)
      && LastResult(later.events, item) == LastResult(Next(l, step).events, item)
  {
    var next, later := Next(l, step), After(Next(l, step), steps);
    CloseLogsTheResult(l, step, item);
    ReachableInv(l);
    NextKeeps(l, step);
    QuietRun(next, steps, item);
    RunKeeps(next, steps);
    LoggedIsCurrent(next, item);
    StillLogged(next, steps, item);
    LoggedIsCurrent(later, item);
  }

  lemma LoggedIsCurrent(l: Ledger, item: Uuid)
    requires Inv(l) && LastResult(l.events, item).Some? && !Taking(l, item)
    ensures LastResult(l.events, item) == ResultOf(l.slides, l.answers, item)
  {
    assert ResultOk(l, item);
  }

  /** A logged result is never lost from the log. */
  lemma {:induction false} StillLogged(l: Ledger, steps: seq<Step>, item: Uuid)
    requires Inv(l) && LastResult(l.events, item).Some?
    ensures LastResult(After(l, steps).events, item).Some?
    decreases |steps|
  {
    if steps != [] {
      var c := NextChanges(l, steps[0]);
      NextKeeps(l, steps[0]);
      ChangeKeepsLogged(l, c, item);
      StillLogged(Next(l, steps[0]), steps[1..], item);
    }
  }

  lemma ChangeKeepsLogged(l: Ledger, c: Change, item: Uuid)
    requires Allowed(l, c) && LastResult(l.events, item).Some?
    ensures LastResult(Changed(l, c).events, item).Some?
  {
    match c
    case NewParticipant(_) =>
      ResultSnoc(l.events, Event(l.nextEvent, l.version, PresenceUpdated(1)), Changed(l, c).events, item);
    case Move(action, view, command) => MoveLogs(l, action, view, command, item);
    case _ =>
  }
}

/** Answers against the clock: which submissions are admitted, what they earn, and that no answer was ever late. */
module LedgerDeadlines {
  import opened Prelude
  import opened LiveState
  import opened LiveEvents
  import opened Definitions
  import opened Responses
  import opened Ledger
  import opened LedgerChanges
  import opened LedgerInvariants
  import opened LedgerTheorems
  import opened LedgerAnswers
  import Reports
  import Scoring

  /** The activity on stage, while it takes answers. */
  ghost predicate Asks(l: Ledger, item: Uuid, now: int) {
    && l.session.active == Some(item) && l.session.phase == Some(Accepting)
    && l.session.endsAt.Some? && now < l.session.endsAt.value
  }

  /** The positions of the options whose id is listed as correct. */
  ghost predicate RightOnes(d: ActivityDefinition, right: seq<int>) {
    Distinct(right) && forall i: int :: i in right <==> 0 <= i < |d.options| && d.options[i].id in d.correctOptionIds
  }

  /** An answer to a choice activity with points earns what its selection is awarded with that much time left, durations
      counted in microseconds; any other answer, and any where no option is correct, earns nothing. */
  ghost predicate Earns(d: ActivityDefinition, stored: Stored, left: int, points: int) {
    exists right :: RightOnes(d, right) && EarnsBy(d, right, stored, left, points)
  }

  ghost predicate EarnsBy(d: ActivityDefinition, right: seq<int>, stored: Stored, left: int, points: int) {
    if d.kind == Choice && d.scoring == Points && stored.Selected? && right != []
    then Scoring.Awarded(Scoring.Question(right, d.maxPoints, d.minPoints, d.partialCredit, d.speedBonus, d.durationSeconds * 1_000_000, left),
                         Elements(stored.indexes), points)
    else points == 0
  }

  lemma DeltaEarns(d: ActivityDefinition, stored: Stored, left: int)
    requires ValidDefinition(d)
    ensures Earns(d, stored, left, Delta(d, stored, left))
  {
    var right := CorrectIndexes(d.options, d.correctOptionIds);
    Reports.CorrectIndexesAre(d.options, d.correctOptionIds);
    assert RightOnes(d, right);
    if d.kind == Choice && d.scoring == Points && stored.Selected? && right != [] {
      Reports.QuestionIsValid(d, left);
      Scoring.WorthIsAwarded(QuestionOf(d, left), Elements(stored.indexes));
    }
    assert EarnsBy(d, right, stored, left, Delta(d, stored, left));
  }

  /** The participant has answered item before. */
  ghost predicate HasAnswered(l: Ledger, p: nat, item: Uuid) {
    exists a <- l.answers :: a.participant == p && a.item == item
  }

  /** A new answer of participant p is stored, and its points are added to p's score; nothing else has changed. */
  ghost predicate Stores(l: Ledger, l': Ledger, p: nat, a: Answer)
    requires p < |l.participants|
  {
    var row := l.participants[p];
    l' == l.(answers := l.answers + [a],
             participants := l.participants[p := Participant(row.name, row.avatar, row.request, row.disconnected, row.score + a.delta)])
  }

  /** What a submission with a new request id comes to: refused once the deadline has come or while no answers are taken,
      if it is no answer to the activity, or if there is one already; otherwise stored with the points for the time left. */
  ghost predicate Admitted(l: Ledger, p: nat, request: Uuid, item: Uuid, response: Response, now: int, l': Ledger, r: Result<Receipt>)
    requires p < |l.participants|
  {
    if !Asks(l, item, now) then (l', r) == (l, Err(Conflict))
    else
      && item in l.slides && l.slides[item].ActivitySlide? && l.slides[item].definition.Some?
      && var stored := Normalized(l.unicode, l.slides[item].definition.value, response);
      if stored.None? then (l', r) == (l, Err(Invalid))
      else if HasAnswered(l, p, item) then (l', r) == (l, Err(Conflict))
      else r.Ok? && Received(l, p, request, item, stored.value, l.session.endsAt.value - now, l', r.value)
  }

  ghost predicate Received(l: Ledger, p: nat, request: Uuid, item: Uuid, stored: Stored, left: int, l': Ledger, receipt: Receipt)
    requires p < |l.participants| && IsActivity(l.slides, item)
  {
    && receipt.answer == |l.answers| && !receipt.duplicate
    && Stores(l, l', p, Answer(p, item, request, stored, receipt.delta))
    && Earns(l.slides[item].definition.value, stored, left, receipt.delta)
  }

  lemma OpenIffAsks(l: Ledger, item: Uuid, now: int)
    requires Shape(l.slides, l.session)
    ensures Open(l, item, now) <==> Asks(l, item, now)
    ensures Asks(l, item, now) ==> IsActivity(l.slides, item) && Remaining(l.session, now) == l.session.endsAt.value - now
  {
  }

  lemma InsertReceives(l: Ledger, p: nat, request: Uuid, item: Uuid, stored: Stored, left: int, delta: int)
    requires p < |l.participants| && IsActivity(l.slides, item) && IsNew(l, p, request)
    requires Earns(l.slides[item].definition.value, stored, left, delta)
    ensures var (l', r) := Insert(l, p, request, item, stored, delta);
      if HasAnswered(l, p, item) then (l', r) == (l, Err(Conflict)) else r.Ok? && Received(l, p, request, item, stored, left, l', r.value)
  {
    assert AnswerByItem(l.answers, p, item).Some? <==> HasAnswered(l, p, item);
  }

  lemma AdmitOutcome(l: Ledger, p: nat, request: Uuid, item: Uuid, response: Response, now: int)
    requires Shape(l.slides, l.session) && Validated(l.slides) && p < |l.participants| && IsNew(l, p, request)
    ensures var (l', r) := Admit(l, p, request, item, response, now); Admitted(l, p, request, item, response, now, l', r)
  {
    OpenIffAsks(l, item, now);
    if Asks(l, item, now) {
      var d := l.slides[item].definition.value;
      var stored := Normalized(l.unicode, d, response);
      if stored.Some? {
        var left := l.session.endsAt.value - now;
        DeltaEarns(d, stored.value, left);
        InsertReceives(l, p, request, item, stored.value, left, Delta(d, stored.value, left));
      }
    }
  }

  /** A submission of somebody unknown is refused, and a repeated one gets its receipt; neither changes anything. */
  lemma SubmitOutcome(l: Ledger, token: Uuid, request: Uuid, item: Uuid, response: Response, now: int)
    requires Reachable(l) && Validated(l.slides)
    ensures (forall q <- l.participants :: q.request != token) ==>
      SubmitAnswer(l, token, request, item, response, now) == (l, Err(Unauthorized))
    ensures forall p: nat :: p < |l.participants| && l.participants[p].request == token ==>
      var (l', r) := SubmitAnswer(l, token, request, item, response, now);
      if IsNew(l, p, request) then Admitted(l, p, request, item, response, now, l', r) else l' == l && Repeats(l, p, request, r)
  {
    ReachableInv(l);
    forall p: nat | p < |l.participants| && l.participants[p].request == token
      ensures var (l', r) := SubmitAnswer(l, token, request, item, response, now);
        if IsNew(l, p, request) then Admitted(l, p, request, item, response, now, l', r) else l' == l && Repeats(l, p, request, r)
    {
      SubmitAs(l, p, request, item, response, now);
    }
  }

  lemma SubmitAs(l: Ledger, p: nat, request: Uuid, item: Uuid, response: Response, now: int)
    requires Inv(l) && Validated(l.slides) && p < |l.participants|
    ensures var (l', r) := SubmitAnswer(l, l.participants[p].request, request, item, response, now);
      if IsNew(l, p, request) then Admitted(l, p, request, item, response, now, l', r) else l' == l && Repeats(l, p, request, r)
  {
    PersonFound(l.participants, p);
    if IsNew(l, p, request) {
      AdmitOutcome(l, p, request, item, response, now);
    } else {
      var k: nat :| k < |l.answers| && l.answers[k].participant == p && l.answers[k].request == request;
      AnswerFound(l.answers, |l.participants|, k);
    }
  }

  /** The receipt of the answer the participant sent with that request id. */
  ghost predicate Repeats(l: Ledger, p: nat, request: Uuid, r: Result<Receipt>) {
    && r.Ok? && r.value.duplicate && r.value.answer < |l.answers|
    && var a := l.answers[r.value.answer];
    a.participant == p && a.request == request && a.delta == r.value.delta
  }

  /** Nobody's answer gets in from the deadline on. */
  lemma TooLate(l: Ledger, p: nat, request: Uuid, item: Uuid, response: Response, now: int)
    requires Reachable(l) && Validated(l.slides) && p < |l.participants| && IsNew(l, p, request)
    requires l.session.endsAt.Some? && l.session.endsAt.value <= now
    ensures SubmitAnswer(l, l.participants[p].request, request, item, response, now) == (l, Err(Conflict))
  {
    SubmitOutcome(l, l.participants[p].request, request, item, response, now);
  }

  ghost predicate IsNew(l: Ledger, p: nat, request: Uuid) {
    forall a <- l.answers :: !(a.participant == p && a.request == request)
  }

  // --- No answer was late ---------------------------------------------------------------------------

  /** a is the k-th answer, and this submission brought it: the activity was on stage and the deadline then in the row was
      still to come; the answer is what normalising makes of the response, and its points are for the time then left. */
  ghost predicate BroughtBy(before: Ledger, step: Step, k: nat, a: Answer) {
    && step.Admits? && |before.answers| == k
    && a.participant == step.participant && a.request == step.request && a.item == step.item
    && Asks(before, a.item, step.now) && IsActivity(before.slides, a.item)
    && Normalized(before.unicode, before.slides[a.item].definition.value, step.response) == Some(a.stored)
    && Earns(before.slides[a.item].definition.value, a.stored, before.session.endsAt.value - step.now, a.delta)
  }

  lemma OthersAnswerNothing(l: Ledger, step: Step)
    requires !step.Admits?
    ensures Next(l, step).answers == l.answers
  {
  }

  lemma AdmitBrings(l: Ledger, step: Step)
    requires Shape(l.slides, l.session) && Validated(l.slides) && step.Admits? && step.participant < |l.participants|
    requires IsNew(l, step.participant, step.request)
    ensures var l' := Next(l, step); l'.answers == l.answers || BroughtOne(l, step, l')
  {
    var (l', r) := Admit(l, step.participant, step.request, step.item, step.response, step.now);
    AdmitOutcome(l, step.participant, step.request, step.item, step.response, step.now);
    AdmittedBrings(l, step, l', r);
  }

  lemma AdmittedBrings(l: Ledger, step: Step, l': Ledger, r: Result<Receipt>)
    requires step.Admits? && step.participant < |l.participants|
    requires Admitted(l, step.participant, step.request, step.item, step.response, step.now, l', r)
    ensures l'.answers == l.answers || BroughtOne(l, step, l')
  {
    if l' != l {
      var a := Answer(step.participant, step.item, step.request,
        Normalized(l.unicode, l.slides[step.item].definition.value, step.response).value, r.value.delta);
      assert l'.answers == l.answers + [a];
    }
  }

  ghost predicate BroughtOne(l: Ledger, step: Step, l': Ledger) {
    |l'.answers| == |l.answers| + 1 && l.answers <= l'.answers && BroughtBy(l, step, |l.answers|, l'.answers[|l.answers|])
  }

  lemma RepeatBringsNothing(l: Ledger, step: Step)
    requires step.Admits? && (step.participant < |l.participants| ==> !IsNew(l, step.participant, step.request))
    ensures Next(l, step).answers == l.answers
  {
  }

  lemma OneAnswerMore(l: Ledger, step: Step)
    requires Shape(l.slides, l.session) && Validated(l.slides)
    ensures Next(l, step).answers == l.answers || BroughtOne(l, step, Next(l, step))
  {
    if !step.Admits? {
      OthersAnswerNothing(l, step);
    } else if step.participant < |l.participants| && IsNew(l, step.participant, step.request) {
      AdmitBrings(l, step);
    } else {
      RepeatBringsNothing(l, step);
    }
  }

  /** In every run each answer stored was brought by a submission that came before the deadline then in the session row, and
      carries the points for the time left. */
  lemma {:induction false} EveryAnswerWasInTime(start: Ledger, steps: seq<Step>, k: nat) returns (i: nat)
    requires NewSession(start) && Validated(start.slides) && k < |After(start, steps).answers|
    ensures i < |steps| && BroughtBy(After(start, steps[..i]), steps[i], k, After(start, steps).answers[k])
    decreases |steps|
  {
    StartsEmpty(start);
    if steps != [] {
      var n := |steps| - 1;
      var mid := After(start, steps[..n]);
      assert steps[..n] + [steps[n]] == steps;
      RunSnoc(start, steps[..n], steps[n]);
      MidOk(start, steps[..n]);
      OneAnswerMore(mid, steps[n]);
      if k < |mid.answers| {
        i := EveryAnswerWasInTime(start, steps[..n], k);
        assert steps[..n][..i] == steps[..i];
      } else {
        i := n;
      }
    }
  }

  lemma StartsEmpty(start: Ledger)
    requires NewSession(start)
    ensures After(start, []).answers == []
  {
  }

  lemma MidOk(start: Ledger, steps: seq<Step>)
    requires NewSession(start)
    ensures Inv(After(start, steps)) && After(start, steps).slides == start.slides
  {
    var firstEvent :| 1 <= firstEvent && start == Created(start.host, start.unicode, start.slides, firstEvent);
    CreatedOk(start.host, start.unicode, start.slides, firstEvent);
    RunKeeps(start, steps);
    RunKeepsEarned(start, steps);
  }
}

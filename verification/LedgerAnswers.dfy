/** What the answers stored in every reachable ledger are worth, and how live results and reports count them. */
module LedgerAnswers {
  import opened Prelude
  import opened LiveState
  import opened LiveEvents
  import opened Definitions
  import opened Responses
  import opened Tallies
  import opened Ledger
  import opened LedgerChanges
  import opened LedgerInvariants
  import opened LedgerTheorems
  import opened Reports
  import Scoring

  /** Decoding validates: every definition a frozen activity carries passed validation. */
  ghost predicate Validated(slides: map<Uuid, Slide>) {
    forall item :: IsActivity(slides, item) ==> ValidDefinition(slides[item].definition.value)
  }

  ghost predicate AllEarned(l: Ledger) {
    forall a <- l.answers :: IsActivity(l.slides, a.item) && Earned(l, a)
  }

  lemma ChangeKeepsEarned(l: Ledger, c: Change)
    requires AllEarned(l) && Allowed(l, c)
    ensures AllEarned(Changed(l, c)) && Changed(l, c).slides == l.slides
  {
    var l' := Changed(l, c);
    forall a <- l'.answers ensures IsActivity(l'.slides, a.item) && Earned(l', a) {
      SameEarnings(l, l', a);
    }
  }

  lemma SameEarnings(l: Ledger, l': Ledger, a: Answer)
    requires IsActivity(l.slides, a.item) && Earned(l, a) && l'.slides == l.slides && l'.unicode == l.unicode
    ensures Earned(l', a)
  {
  }

  lemma {:induction false} RunKeepsEarned(l: Ledger, steps: seq<Step>)
    requires Inv(l) && AllEarned(l)
    ensures AllEarned(After(l, steps)) && After(l, steps).slides == l.slides
    decreases |steps|
  {
    if steps != [] {
      var c := NextChanges(l, steps[0]);
      NextKeeps(l, steps[0]);
      ChangeKeepsEarned(l, c);
      RunKeepsEarned(Next(l, steps[0]), steps[1..]);
    }
  }

  lemma ReachableEarned(l: Ledger)
    requires Reachable(l)
    ensures AllEarned(l)
  {
    var start: Ledger, steps :| NewSession(start) && l == After(start, steps);
    var firstEvent :| 1 <= firstEvent && start == Created(start.host, start.unicode, start.slides, firstEvent);
    CreatedOk(start.host, start.unicode, start.slides, firstEvent);
    RunKeepsEarned(start, steps);
  }

  lemma EarnedInRange(l: Ledger, a: Answer)
    requires Validated(l.slides) && IsActivity(l.slides, a.item) && Earned(l, a)
    ensures 0 <= a.delta <= l.slides[a.item].definition.value.maxPoints
    ensures a.stored.Selected? ==> Distinct(a.stored.indexes)
  {
    var d := l.slides[a.item].definition.value;
    var response, remaining :| Normalized(l.unicode, d, response) == Some(a.stored) && a.delta == Delta(d, a.stored, remaining);
    DeltaInRange(d, a.stored, remaining);
  }

  /** Every stored answer earned between nothing and its activity's maximum. */
  lemma AnswersInRange(l: Ledger)
    requires Reachable(l) && Validated(l.slides)
    ensures forall a <- l.answers :: IsActivity(l.slides, a.item) && 0 <= a.delta <= l.slides[a.item].definition.value.maxPoints
  {
    ReachableEarned(l);
    forall a <- l.answers ensures IsActivity(l.slides, a.item) && 0 <= a.delta <= l.slides[a.item].definition.value.maxPoints {
      EarnedInRange(l, a);
    }
  }

  lemma {:induction false} EarningsNonNegative(answers: seq<Answer>, p: nat)
    requires forall a <- answers :: 0 <= a.delta
    ensures 0 <= Earnings(answers, p)
    decreases |answers|
  {
    if answers != [] {
      EarningsNonNegative(answers[..|answers| - 1], p);
    }
  }

  /** Scores never go below zero, so the table's check on them never fires. */
  lemma ScoresNonNegative(l: Ledger)
    requires Reachable(l) && Validated(l.slides)
    ensures forall p <- l.participants :: 0 <= p.score
  {
    ScoresAddUp(l);
    AnswersInRange(l);
    forall p: nat | p < |l.participants| ensures 0 <= l.participants[p].score {
      EarningsNonNegative(l.answers, p);
    }
  }

  /** While answers to an item are not being taken, the result last logged for it counts every answer there is:
      each option by the number of answers that chose it, and responses by the number of answers. */
  lemma LoggedCountsAreTrue(l: Ledger, item: Uuid, i: int)
    requires Reachable(l) && Validated(l.slides) && !Taking(l, item)
    requires LastResult(l.events, item).Some? && IsActivity(l.slides, item) && l.slides[item].definition.value.kind == Choice
    ensures var r := LastResult(l.events, item).value;
      && r.responseCount == ResponseCount(l.answers, item)
      && r.payload.OptionCounts?
      && CountAt(r.payload.counts, i) == Choosers(l.answers, item, i)
  {
    ReachableInv(l);
    LoggedIsCurrent(l, item);
    AllDistinct(l);
    LiveCountIsChoosers(l.answers, item, i);
  }

  lemma AllDistinct(l: Ledger)
    requires Reachable(l) && Validated(l.slides)
    ensures forall a <- l.answers :: a.stored.Selected? ==> Distinct(a.stored.indexes)
  {
    ReachableEarned(l);
    forall a <- l.answers ensures a.stored.Selected? ==> Distinct(a.stored.indexes) {
      EarnedInRange(l, a);
    }
  }
}

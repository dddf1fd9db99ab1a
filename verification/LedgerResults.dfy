/** What a live result says of the answers, counted by the answers themselves. */
module LedgerResults {
  import opened Prelude
  import opened LiveState
  import opened LiveEvents
  import opened Definitions
  import opened Responses
  import opened Tallies
  import opened Ledger
  import opened LedgerInvariants
  import opened LedgerTheorems
  import opened LedgerAnswers
  import WordCloud
  import Reports

  /** The answers to item, by their places in the table. */
  ghost function Answering(answers: seq<Answer>, item: Uuid): set<int> {
    set i | 0 <= i < |answers| && answers[i].item == item
  }

  /** Those that chose the option at position k. */
  ghost function Choosing(answers: seq<Answer>, item: Uuid, k: int): set<int> {
    set i | 0 <= i < |answers| && answers[i].item == item && answers[i].stored.Selected? && k in answers[i].stored.indexes
  }

  /** Those that use the term t. */
  ghost function Using(answers: seq<Answer>, item: Uuid, t: string): set<int> {
    set i | 0 <= i < |answers| && answers[i].item == item && answers[i].stored.Written? && t in answers[i].stored.terms
  }

  /** One row an option chosen, with the number of answers that chose it. */
  ghost predicate TrueOptions(counts: map<int, nat>, answers: seq<Answer>, item: Uuid) {
    forall k: int :: (k in counts <==> Choosing(answers, item, k) != {}) && (k in counts ==> counts[k] == |Choosing(answers, item, k)|)
  }

  /** At most a hundred terms, each once, with the number of answers that use it, the most used first; a term that is used
      and left off is used no more than any of a hundred listed. */
  ghost predicate TrueTerms(rows: seq<TermCount>, answers: seq<Answer>, item: Uuid) {
    && |rows| <= 100
    && (forall i, j :: 0 <= i < j < |rows| ==> rows[i].text != rows[j].text && rows[i].count >= rows[j].count)
    && (forall row <- rows :: Using(answers, item, row.text) != {} && row.count == |Using(answers, item, row.text)|)
    && (forall t :: Using(answers, item, t) != {} ==> Listed(rows, t) || (|rows| == 100 && NoLess(rows, |Using(answers, item, t)|)))
  }

  ghost predicate Listed(rows: seq<TermCount>, t: string) {
    exists row <- rows :: row.text == t
  }

  ghost predicate NoLess(rows: seq<TermCount>, count: nat) {
    forall row <- rows :: count <= row.count
  }

  ghost predicate TrueResult(r: ActivityResult, d: ActivityDefinition, answers: seq<Answer>) {
    && r.responseCount == |Answering(answers, r.item)|
    && (if d.kind == Choice then r.payload.OptionCounts? && TrueOptions(r.payload.counts, answers, r.item)
        else r.payload.TermCounts? && TrueTerms(r.payload.terms, answers, r.item))
  }

  // --- One answer more -----------------------------------------------------------------------

  lemma OneMoreIndex(before: set<int>, after: set<int>, n: nat, more: bool)
    requires forall i <- before :: i < n
    requires after == if more then before + {n} else before
    ensures |after| == |before| + if more then 1 else 0
  {
  }

  lemma AnsweringSnoc(answers: seq<Answer>, item: Uuid)
    requires answers != []
    ensures var n := |answers| - 1;
      |Answering(answers, item)| == |Answering(answers[..n], item)| + if answers[n].item == item then 1 else 0
  {
    var n := |answers| - 1;
    var before, after := Answering(answers[..n], item), Answering(answers, item);
    assert forall i :: i in after <==> i in before || (i == n && answers[n].item == item);
    OneMoreIndex(before, after, n, answers[n].item == item);
  }

  lemma ChoosingSnoc(answers: seq<Answer>, item: Uuid, k: int)
    requires answers != []
    ensures var n := |answers| - 1;
      |Choosing(answers, item, k)| == |Choosing(answers[..n], item, k)|
        + if answers[n].item == item && answers[n].stored.Selected? && k in answers[n].stored.indexes then 1 else 0
  {
    var n := |answers| - 1;
    var more := answers[n].item == item && answers[n].stored.Selected? && k in answers[n].stored.indexes;
    var before, after := Choosing(answers[..n], item, k), Choosing(answers, item, k);
    assert forall i :: i in after <==> i in before || (i == n && more);
    OneMoreIndex(before, after, n, more);
  }

  lemma UsingSnoc(answers: seq<Answer>, item: Uuid, t: string)
    requires answers != []
    ensures var n := |answers| - 1;
      |Using(answers, item, t)| == |Using(answers[..n], item, t)|
        + if answers[n].item == item && answers[n].stored.Written? && t in answers[n].stored.terms then 1 else 0
  {
    var n := |answers| - 1;
    var more := answers[n].item == item && answers[n].stored.Written? && t in answers[n].stored.terms;
    var before, after := Using(answers[..n], item, t), Using(answers, item, t);
    assert forall i :: i in after <==> i in before || (i == n && more);
    OneMoreIndex(before, after, n, more);
  }

  /** Nobody's options or terms repeat. */
  ghost predicate NoRepeats(answers: seq<Answer>) {
    forall a <- answers :: if a.stored.Selected? then Distinct(a.stored.indexes) else Distinct(a.stored.terms)
  }

  lemma {:induction false} OnceIfDistinct<T>(s: seq<T>, x: T)
    requires Distinct(s)
    ensures multiset(s)[x] == if x in s then 1 else 0
    decreases |s|
  {
    if s != [] {
      var n := |s| - 1;
      assert s == s[..n] + [s[n]];
      OnceIfDistinct(s[..n], x);
    }
  }

  lemma {:induction false} ResponsesCounted(answers: seq<Answer>, item: Uuid)
    ensures ResponseCount(answers, item) == |Answering(answers, item)|
    decreases |answers|
  {
    if answers != [] {
      ResponsesCounted(answers[..|answers| - 1], item);
      AnsweringSnoc(answers, item);
    }
  }

  lemma {:induction false} SelectionsCounted(answers: seq<Answer>, item: Uuid, k: int)
    requires NoRepeats(answers)
    ensures multiset(Selections(answers, item))[k] == |Choosing(answers, item, k)|
    decreases |answers|
  {
    if answers != [] {
      var n := |answers| - 1;
      SelectionsCounted(answers[..n], item, k);
      ChoosingSnoc(answers, item, k);
      assert answers[n] in answers;
      if answers[n].stored.Selected? { OnceIfDistinct(answers[n].stored.indexes, k); }
    }
  }

  lemma {:induction false} TermsCounted(answers: seq<Answer>, item: Uuid, t: string)
    requires NoRepeats(answers)
    ensures multiset(Terms(answers, item))[t] == |Using(answers, item, t)|
    decreases |answers|
  {
    if answers != [] {
      var n := |answers| - 1;
      TermsCounted(answers[..n], item, t);
      UsingSnoc(answers, item, t);
      assert answers[n] in answers;
      if answers[n].stored.Written? { OnceIfDistinct(answers[n].stored.terms, t); }
    }
  }

  // --- The two payloads -----------------------------------------------------------------------

  lemma NoneIfEmpty<T>(s: set<T>)
    ensures |s| == 0 <==> s == {}
  {
  }

  lemma OptionsAreTrue(answers: seq<Answer>, item: Uuid)
    requires NoRepeats(answers)
    ensures TrueOptions(Tally(Selections(answers, item)), answers, item)
  {
    var values := Selections(answers, item);
    TallyCounts(values);
    forall k: int
      ensures (k in Tally(values) <==> Choosing(answers, item, k) != {}) && (k in Tally(values) ==> Tally(values)[k] == |Choosing(answers, item, k)|)
    {
      SelectionsCounted(answers, item, k);
      NoneIfEmpty(Choosing(answers, item, k));
      assert k in values <==> multiset(values)[k] > 0;
    }
  }

  lemma TermsAreTrue(answers: seq<Answer>, item: Uuid)
    requires NoRepeats(answers)
    ensures TrueTerms(TopTerms(Terms(answers, item)), answers, item)
  {
    var values := Terms(answers, item);
    var rows := TopTerms(values);
    TopTermsAreTop(values);
    forall t ensures multiset(values)[t] == |Using(answers, item, t)| && (Using(answers, item, t) != {} <==> t in values) {
      TermsCounted(answers, item, t);
      NoneIfEmpty(Using(answers, item, t));
      assert t in values <==> multiset(values)[t] > 0;
    }
    forall i, j | 0 <= i < j < |rows| ensures rows[i].text != rows[j].text && rows[i].count >= rows[j].count {
      assert Ahead(rows[i], rows[j]);
    }
    forall t | Using(answers, item, t) != {} ensures Listed(rows, t) || (|rows| == 100 && NoLess(rows, |Using(answers, item, t)|)) {
      var row := TermCount(t, multiset(values)[t]);
      if row !in rows {
        assert t in values && AllAhead(rows, row);
      }
    }
  }

  // --- In every reachable ledger -------------------------------------------------------------------

  lemma FirstOccurrencesDiffer(tokens: seq<string>)
    ensures Distinct(WordCloud.FirstOccurrences(tokens))
  {
    WordCloud.FirstOccurrencesInOrder(tokens);
  }

  lemma NothingRepeats(l: Ledger)
    requires Reachable(l)
    ensures NoRepeats(l.answers)
  {
    ReachableEarned(l);
    forall a <- l.answers ensures if a.stored.Selected? then Distinct(a.stored.indexes) else Distinct(a.stored.terms) {
      var d := l.slides[a.item].definition.value;
      var response, remaining :| remaining > 0 && Normalized(l.unicode, d, response) == Some(a.stored) && a.delta == Delta(d, a.stored, remaining);
      if a.stored.Written? {
        FirstOccurrencesDiffer(WordCloud.Tokens(l.unicode, a.stored.text));
      }
    }
  }

  /** The result computed for an activity is true of the answers stored. */
  lemma ResultIsTrue(l: Ledger, item: Uuid)
    requires Reachable(l) && item in l.slides && l.slides[item].ActivitySlide? && l.slides[item].definition.Some?
    ensures var r := ResultOf(l.slides, l.answers, item);
      r.Some? && r.value.item == item && TrueResult(r.value, l.slides[item].definition.value, l.answers)
  {
    NothingRepeats(l);
    ResponsesCounted(l.answers, item);
    if l.slides[item].definition.value.kind == Choice {
      OptionsAreTrue(l.answers, item);
    } else {
      TermsAreTrue(l.answers, item);
    }
  }

  /** While answers to it are not being taken, the result last logged for an item is true of all answers stored. */
  lemma LoggedResultIsTrue(l: Ledger, item: Uuid)
    requires Reachable(l) && LastResult(l.events, item).Some?
    requires !(l.session.active == Some(item) && l.session.phase == Some(Accepting))
    ensures item in l.slides && l.slides[item].ActivitySlide? && l.slides[item].definition.Some?
    ensures TrueResult(LastResult(l.events, item).value, l.slides[item].definition.value, l.answers)
    ensures LastResult(l.events, item).value.item == item
  {
    ReachableInv(l);
    LoggedIsCurrent(l, item);
    ResultIsTrue(l, item);
  }
}

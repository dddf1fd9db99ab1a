/** apps/api/internal/reports/model.go: how stored answers are judged again in a report. */
module Reports {
  import opened Prelude
  import opened Definitions
  import opened Responses
  import opened Tallies
  import opened Ledger
  import Scoring

  // --- Judging one answer -------------------------------------------------------------

  function SelectedIds(options: seq<ChoiceOption>, indexes: seq<int>): set<string> {
    set i | i in indexes && 0 <= i < |options| :: options[i].id
  }

  predicate InRange(options: seq<ChoiceOption>, indexes: seq<int>) {
    forall k :: 0 <= k < |indexes| ==> 0 <= indexes[k] < |options|
  }

  /** The correct flag: every index in range, and the ids selected are the ids listed as correct. */
  predicate FlaggedCorrect(d: ActivityDefinition, indexes: seq<int>) {
    InRange(d.options, indexes) && SelectedIds(d.options, indexes) == Elements(d.correctOptionIds)
  }

  /** evaluateResponse as the source runs it; None when the activity has no correct answer. */
  method EvaluateResponse(d: ActivityDefinition, indexes: seq<int>) returns (correct: Option<bool>)
    ensures correct == if d.kind != Choice || d.evaluation != Correctness then None else Some(FlaggedCorrect(d, indexes))
    ensures correct.Some? ==> (correct.value <==>
      && (forall i <- indexes :: 0 <= i < |d.options|)
      && (forall i <- indexes :: 0 <= i < |d.options| && d.options[i].id in d.correctOptionIds)
      && (forall id <- d.correctOptionIds :: exists i <- indexes :: 0 <= i < |d.options| && d.options[i].id == id))
  {
    FlaggedMeans(d, indexes);
    if d.kind != Choice || d.evaluation != Correctness {
      return None;
    }
    var selectedIds: set<string> := {};
    var valid := true;
    for n := 0 to |indexes|
      invariant selectedIds == SelectedIds(d.options, indexes[..n])
      invariant valid == InRange(d.options, indexes[..n])
    {
      var index := indexes[n];
      SelectedSnoc(d.options, indexes[..n], index, indexes[..n + 1]);
      if index < 0 || index >= |d.options| {
        valid := false;
        continue;
      }
      selectedIds := selectedIds + {d.options[index].id};
    }
    assert indexes[..|indexes|] == indexes;
    var correctIds := Collect(d.correctOptionIds);
    var isCorrect := valid && |selectedIds| == |correctIds|;
    if isCorrect {
      var rest := correctIds;
      while rest != {}
        invariant rest <= correctIds
        invariant forall id :: id in correctIds && id !in rest ==> id in selectedIds
        decreases rest
      {
        var id :| id in rest;
        if id !in selectedIds {
          return Some(false);
        }
        rest := rest - {id};
      }
      assert correctIds <= selectedIds;
      SubsetOfSameSize(correctIds, selectedIds);
    }
    return Some(isCorrect);
  }

  /** Every option chosen is there and is listed as correct, and every id listed is chosen. */
  lemma FlaggedMeans(d: ActivityDefinition, indexes: seq<int>)
    ensures FlaggedCorrect(d, indexes) <==>
      && (forall i <- indexes :: 0 <= i < |d.options|)
      && (forall i <- indexes :: 0 <= i < |d.options| && d.options[i].id in d.correctOptionIds)
      && (forall id <- d.correctOptionIds :: exists i <- indexes :: 0 <= i < |d.options| && d.options[i].id == id)
  {
    var chosen, correct := SelectedIds(d.options, indexes), Elements(d.correctOptionIds);
    if FlaggedCorrect(d, indexes) {
      forall i <- indexes ensures 0 <= i < |d.options| && d.options[i].id in d.correctOptionIds {
        assert d.options[i].id in chosen;
      }
      forall id <- d.correctOptionIds ensures exists i <- indexes :: 0 <= i < |d.options| && d.options[i].id == id {
        assert id in chosen;
      }
    }
    if (forall i <- indexes :: 0 <= i < |d.options| && d.options[i].id in d.correctOptionIds)
       && (forall id <- d.correctOptionIds :: exists i <- indexes :: 0 <= i < |d.options| && d.options[i].id == id) {
      assert forall k :: 0 <= k < |indexes| ==> indexes[k] in indexes;
      assert forall id :: id in chosen <==> id in correct;
    }
  }

  lemma SelectedSnoc(options: seq<ChoiceOption>, indexes: seq<int>, i: int, longer: seq<int>)
    requires longer == indexes + [i]
    ensures InRange(options, longer) <==> InRange(options, indexes) && 0 <= i < |options|
    ensures SelectedIds(options, longer) ==
      if 0 <= i < |options| then SelectedIds(options, indexes) + {options[i].id} else SelectedIds(options, indexes)
  {
    assert forall k :: k in longer <==> k in indexes || k == i;
    forall id ensures id in SelectedIds(options, longer) <==>
      id in SelectedIds(options, indexes) || (0 <= i < |options| && id == options[i].id)
    {
      if id in SelectedIds(options, longer) {
        var k :| k in longer && 0 <= k < |options| && options[k].id == id;
      } else if 0 <= i < |options| {
        assert i in longer;
      }
    }
    assert SelectedIds(options, longer) ==
      if 0 <= i < |options| then SelectedIds(options, indexes) + {options[i].id} else SelectedIds(options, indexes);
    RangeSnoc(options, indexes, i, longer);
  }

  lemma RangeSnoc(options: seq<ChoiceOption>, indexes: seq<int>, i: int, longer: seq<int>)
    requires longer == indexes + [i]
    ensures InRange(options, longer) <==> InRange(options, indexes) && 0 <= i < |options|
  {
    assert longer[|indexes|] == i;
    assert forall k :: 0 <= k < |indexes| ==> longer[k] == indexes[k];
  }

  method Collect(values: seq<string>) returns (all: set<string>)
    ensures all == Elements(values)
  {
    all := {};
    for n := 0 to |values|
      invariant all == Elements(values[..n])
    {
      NextElement(values, n);
      all := all + {values[n]};
    }
    assert values[..|values|] == values;
  }

  // --- The flag against the score -------------------------------------------------------

  lemma {:induction false} CorrectIndexesAre(options: seq<ChoiceOption>, correctIds: seq<string>)
    ensures var found := CorrectIndexes(options, correctIds);
      && (forall i :: i in found <==> 0 <= i < |options| && options[i].id in correctIds)
      && (forall k :: 0 <= k < |found| ==> 0 <= found[k] < |options|)
      && Distinct(found) && |found| <= |options|
    decreases |options|
  {
    if options != [] {
      CorrectIndexesAre(options[..|options| - 1], correctIds);
    }
  }

  /** The correct id is the id of an option, letter for letter; validation only compares it trimmed. */
  ghost predicate Matched(d: ActivityDefinition, id: string) {
    exists i :: 0 <= i < |d.options| && d.options[i].id == id
  }

  ghost predicate AllMatched(d: ActivityDefinition) {
    forall id <- d.correctOptionIds :: Matched(d, id)
  }

  ghost predicate NoneMatched(d: ActivityDefinition) {
    forall id <- d.correctOptionIds :: !Matched(d, id)
  }

  /** The flag says what scoring says: the options selected are the correct ones. */
  ghost predicate Agree(d: ActivityDefinition, indexes: seq<int>) {
    FlaggedCorrect(d, indexes) <==> Elements(indexes) == Elements(CorrectIndexes(d.options, d.correctOptionIds))
  }

  lemma RawIdsDiffer(options: seq<ChoiceOption>)
    requires Distinct(TrimmedIds(options))
    ensures forall i, j :: 0 <= i < j < |options| ==> options[i].id != options[j].id
  {
    forall i, j | 0 <= i < j < |options| ensures options[i].id != options[j].id {
      assert TrimmedIds(options)[i] != TrimmedIds(options)[j];
    }
  }

  /** With every correct id matched, selected ids and selected positions tell the same. */
  lemma AgreeWhenMatched(d: ActivityDefinition, indexes: seq<int>)
    requires Distinct(TrimmedIds(d.options)) && InRange(d.options, indexes) && AllMatched(d)
    ensures Agree(d, indexes)
  {
    RawIdsDiffer(d.options);
    CorrectIndexesAre(d.options, d.correctOptionIds);
    var chosen, right := SelectedIds(d.options, indexes), CorrectIndexes(d.options, d.correctOptionIds);
    if chosen == Elements(d.correctOptionIds) {
      forall i ensures i in indexes <==> i in right {
        if i in indexes {
          assert d.options[i].id in chosen;
        }
        if i in right {
          assert d.options[i].id in chosen;
          var j :| j in indexes && 0 <= j < |d.options| && d.options[j].id == d.options[i].id;
        }
      }
    }
    if Elements(indexes) == Elements(right) {
      SameIds(d, indexes);
    }
  }

  lemma SameIds(d: ActivityDefinition, indexes: seq<int>)
    requires InRange(d.options, indexes) && AllMatched(d)
    requires Elements(indexes) == Elements(CorrectIndexes(d.options, d.correctOptionIds))
    ensures SelectedIds(d.options, indexes) == Elements(d.correctOptionIds)
  {
    CorrectIndexesAre(d.options, d.correctOptionIds);
    var right := CorrectIndexes(d.options, d.correctOptionIds);
    assert forall i :: i in indexes <==> i in Elements(right);
    forall id ensures id in SelectedIds(d.options, indexes) <==> id in d.correctOptionIds {
      if id in d.correctOptionIds {
        var i :| 0 <= i < |d.options| && d.options[i].id == id;
        assert i in right;
      }
    }
  }

  /** Some correct id matches no option: the flag is never set. */
  lemma NeverFlagged(d: ActivityDefinition, indexes: seq<int>)
    requires !AllMatched(d)
    ensures !FlaggedCorrect(d, indexes)
  {
    var id :| id in d.correctOptionIds && !Matched(d, id);
    assert id in Elements(d.correctOptionIds);
  }

  /** For one accepted answer the flag and the score disagree exactly when some correct ids are matched, some
      are not, and the answer is the matched ones. */
  lemma AgreeIff(d: ActivityDefinition, indexes: seq<int>)
    requires Distinct(TrimmedIds(d.options)) && InRange(d.options, indexes) && indexes != []
    ensures Agree(d, indexes) <==>
      AllMatched(d) || NoneMatched(d) || Elements(indexes) != Elements(CorrectIndexes(d.options, d.correctOptionIds))
  {
    if AllMatched(d) {
      AgreeWhenMatched(d, indexes);
    } else {
      NeverFlagged(d, indexes);
      CorrectIndexesAre(d.options, d.correctOptionIds);
      assert indexes[0] in Elements(indexes);
      if NoneMatched(d) {
        NothingRight(d);
      }
    }
  }

  lemma NothingRight(d: ActivityDefinition)
    requires NoneMatched(d)
    ensures CorrectIndexes(d.options, d.correctOptionIds) == []
  {
    var right := CorrectIndexes(d.options, d.correctOptionIds);
    CorrectIndexesAre(d.options, d.correctOptionIds);
    if right != [] {
      assert right[0] in right;
      assert Matched(d, d.options[right[0]].id);
    }
  }

  /** For all accepted answers they agree exactly when the correct ids are all matched, or none is. */
  lemma AlwaysAgreeIff(d: ActivityDefinition)
    requires ValidDefinition(d) && d.kind == Choice && d.evaluation == Correctness
    ensures (forall indexes :: IndexesAccepted(d, indexes) ==> Agree(d, indexes)) <==> AllMatched(d) || NoneMatched(d)
  {
    forall indexes | IndexesAccepted(d, indexes)
      ensures Agree(d, indexes) <==>
        AllMatched(d) || NoneMatched(d) || Elements(indexes) != Elements(CorrectIndexes(d.options, d.correctOptionIds))
    {
      AgreeIff(d, indexes);
    }
    if !AllMatched(d) && !NoneMatched(d) {
      MatchedOnesAreAccepted(d);
    }
  }

  lemma MatchedOnesAreAccepted(d: ActivityDefinition)
    requires d.selection == Single ==> |d.correctOptionIds| == 1
    requires !AllMatched(d) && !NoneMatched(d)
    ensures IndexesAccepted(d, CorrectIndexes(d.options, d.correctOptionIds))
  {
    CorrectIndexesAre(d.options, d.correctOptionIds);
    var id :| id in d.correctOptionIds && Matched(d, id);
    var i :| 0 <= i < |d.options| && d.options[i].id == id;
    assert i in CorrectIndexes(d.options, d.correctOptionIds);
    TwoIds(d, id);
  }

  lemma TwoIds(d: ActivityDefinition, id: string)
    requires id in d.correctOptionIds && Matched(d, id) && !AllMatched(d)
    ensures |d.correctOptionIds| != 1
  {
    var other :| other in d.correctOptionIds && !Matched(d, other);
  }

  /** Ids without surrounding space are always matched. */
  lemma TrimmedIdsMatch(d: ActivityDefinition)
    requires ValidDefinition(d) && d.kind == Choice && d.evaluation == Correctness
    requires forall o <- d.options :: Trimmed(o.id)
    ensures AllMatched(d)
  {
    forall id <- d.correctOptionIds ensures Matched(d, id) {
      assert id in TrimmedIds(d.options);
      var i :| 0 <= i < |d.options| && TrimmedIds(d.options)[i] == id;
      assert d.options[i] in d.options;
    }
  }

  // --- The points of an answer -----------------------------------------------------------------

  lemma QuestionIsValid(d: ActivityDefinition, remaining: int)
    requires ValidDefinition(d) && d.kind == Choice && d.scoring == Points
    requires CorrectIndexes(d.options, d.correctOptionIds) != []
    ensures Scoring.ValidQuestion(QuestionOf(d, remaining))
  {
    CorrectIndexesAre(d.options, d.correctOptionIds);
  }

  /** An accepted answer earns between nothing and the maximum. */
  lemma DeltaInRange(d: ActivityDefinition, stored: Stored, remaining: int)
    requires ValidDefinition(d)
    ensures 0 <= Delta(d, stored, remaining) <= d.maxPoints
  {
    if d.kind == Choice && d.scoring == Points && stored.Selected? && CorrectIndexes(d.options, d.correctOptionIds) != [] {
      QuestionIsValid(d, remaining);
      Scoring.WorthInRange(QuestionOf(d, remaining), Elements(stored.indexes));
    }
  }

  /** The report flags an answer as correct exactly when the live session gave it full points for its time. */
  lemma FlaggedIffFullPoints(d: ActivityDefinition, indexes: seq<int>, remaining: int)
    requires ValidDefinition(d) && d.kind == Choice && d.scoring == Points && IndexesAccepted(d, indexes)
    requires AllMatched(d) && Scoring.Base(QuestionOf(d, remaining)) > 0
    ensures FlaggedCorrect(d, indexes) <==> Delta(d, Selected(indexes), remaining) == Scoring.Base(QuestionOf(d, remaining))
    ensures Scoring.FullPoints(QuestionOf(d, remaining), Scoring.Base(QuestionOf(d, remaining)))
  {
    CorrectIndexesAre(d.options, d.correctOptionIds);
    var id := d.correctOptionIds[0];
    assert Matched(d, id);
    var i :| 0 <= i < |d.options| && d.options[i].id == id;
    assert i in CorrectIndexes(d.options, d.correctOptionIds);
    QuestionIsValid(d, remaining);
    Scoring.FullIffCorrect(QuestionOf(d, remaining), Elements(indexes));
    AgreeWhenMatched(d, indexes);
  }

  // --- Counts by option id -------------------------------------------------------------------------

  function CountAt(indexed: map<int, nat>, i: int): nat {
    if i in indexed then indexed[i] else 0
  }

  function Ids(options: seq<ChoiceOption>): set<string> {
    set i | 0 <= i < |options| :: options[i].id
  }

  /** choiceResultPayload: counts by position become counts by option id, with zeros filled in; positions
      outside the options are dropped. */
  method ChoiceResultPayload(options: seq<ChoiceOption>, indexed: map<int, nat>) returns (counts: map<string, nat>)
    requires OptionsValid(options)
    ensures counts.Keys == Ids(options) && forall id :: id in counts <==> exists i :: 0 <= i < |options| && options[i].id == id
    ensures forall i :: 0 <= i < |options| ==> counts[options[i].id] == if i in indexed then indexed[i] else 0
  {
    RawIdsDiffer(options);
    counts := FillCounts(options, indexed);
  }

  method FillCounts(options: seq<ChoiceOption>, indexed: map<int, nat>) returns (counts: map<string, nat>)
    requires forall i, j :: 0 <= i < j < |options| ==> options[i].id != options[j].id
    ensures counts.Keys == Ids(options)
    ensures forall i :: 0 <= i < |options| ==> counts[options[i].id] == CountAt(indexed, i)
  {
    counts := Zeros(options);
    var rest: set<int> := indexed.Keys;
    while rest != {}
      invariant rest <= indexed.Keys && counts.Keys == Ids(options)
      invariant forall i :: 0 <= i < |options| ==> counts[options[i].id] == if i in rest then 0 else CountAt(indexed, i)
      decreases rest
    {
      var index := Pick(rest);
      rest := rest - {index};
      if 0 <= index < |options| {
        counts := AddCount(options, counts, index, indexed[index]);
      }
    }
  }

  method Zeros(options: seq<ChoiceOption>) returns (counts: map<string, nat>)
    ensures counts.Keys == Ids(options) && forall id <- counts :: counts[id] == 0
  {
    counts := map[];
    for n := 0 to |options|
      invariant counts.Keys == Ids(options[..n]) && forall id <- counts :: counts[id] == 0
    {
      assert Ids(options[..n + 1]) == Ids(options[..n]) + {options[n].id};
      counts := counts[options[n].id := 0];
    }
    assert options[..|options|] == options;
  }

  method AddCount(options: seq<ChoiceOption>, counts: map<string, nat>, index: nat, count: nat) returns (r: map<string, nat>)
    requires index < |options| && counts.Keys == Ids(options)
    requires forall i, j :: 0 <= i < j < |options| ==> options[i].id != options[j].id
    ensures r.Keys == Ids(options)
    ensures forall i :: 0 <= i < |options| ==> r[options[i].id] == counts[options[i].id] + if i == index then count else 0
  {
    var id := options[index].id;
    r := counts[id := counts[id] + count];
    assert r.Keys == counts.Keys;
  }

  function Choosers(answers: seq<Answer>, item: Uuid, i: int): nat {
    if answers == [] then 0
    else
      var last := answers[|answers| - 1];
      Choosers(answers[..|answers| - 1], item, i) + if last.item == item && last.stored.Selected? && i in last.stored.indexes then 1 else 0
  }

  /** The count logged live for a position is the number of answers that chose it. */
  lemma {:induction false} LiveCountIsChoosers(answers: seq<Answer>, item: Uuid, i: int)
    requires forall a <- answers :: a.stored.Selected? ==> Distinct(a.stored.indexes)
    ensures CountAt(Tally(Selections(answers, item)), i) == Choosers(answers, item, i)
  {
    TallyCounts(Selections(answers, item));
    SelectionsCount(answers, item, i);
  }

  lemma {:induction false} SelectionsCount(answers: seq<Answer>, item: Uuid, i: int)
    requires forall a <- answers :: a.stored.Selected? ==> Distinct(a.stored.indexes)
    ensures multiset(Selections(answers, item))[i] == Choosers(answers, item, i)
    decreases |answers|
  {
    if answers != [] {
      var front, last := answers[..|answers| - 1], answers[|answers| - 1];
      SelectionsCount(front, item, i);
      if last.item == item && last.stored.Selected? {
        OnceIfDistinct(last.stored.indexes, i);
      }
    }
  }

  lemma {:induction false} OnceIfDistinct(s: seq<int>, x: int)
    requires Distinct(s)
    ensures multiset(s)[x] == if x in s then 1 else 0
    decreases |s|
  {
    if s != [] {
      var n := |s| - 1;
      assert s == s[..n] + [s[n]];
      OnceIfDistinct(s[..n], x);
    }
  }
}

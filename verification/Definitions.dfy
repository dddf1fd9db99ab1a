/** apps/api/internal/presentations/activity_definition.go: which authored activities are accepted. */
module Definitions {
  import opened Prelude

  datatype Kind = Choice | Text | OtherKind

  /** Absent is the empty string; Unrecognised any other text. */
  datatype Selection = Single | Multiple | Absent | Unrecognised

  datatype EvaluationMode = NoEvaluation | Correctness | OtherEvaluation

  datatype ScoringMode = NoScoring | Points | OtherScoring

  datatype Aggregation = NoAggregation | WordFrequency | OtherAggregation

  datatype ChoiceOption = ChoiceOption(id: string, text: string, imageUrl: string, order: int)

  datatype ActivityDefinition = ActivityDefinition(
    schemaVersion: int,
    kind: Kind,
    title: string,
    text: string,
    imageUrl: string,
    selection: Selection,
    options: seq<ChoiceOption>,
    maxLength: int,
    maxWords: int,
    evaluation: EvaluationMode,
    correctOptionIds: seq<string>,
    scoring: ScoringMode,
    minPoints: int,
    maxPoints: int,
    speedBonus: bool,
    partialCredit: bool,
    durationSeconds: int,
    aggregation: Aggregation,
    showLeaderboardAfter: bool)

  // --- Trimming ---------------------------------------------------------------

  /** The White_Space code points strings.TrimSpace removes. */
  predicate IsSpace(c: char) {
    || '\U{9}' <= c <= '\U{D}' || c == ' ' || c == '\U{85}' || c == '\U{A0}' || c == '\U{1680}'
    || '\U{2000}' <= c <= '\U{200A}' || c == '\U{2028}' || c == '\U{2029}' || c == '\U{202F}'
    || c == '\U{205F}' || c == '\U{3000}'
  }

  function TrimLeft(s: string): string {
    if s != "" && IsSpace(s[0]) then TrimLeft(s[1..]) else s
  }

  function TrimRight(s: string): string {
    if s != "" && IsSpace(s[|s| - 1]) then TrimRight(s[..|s| - 1]) else s
  }

  function TrimSpace(s: string): string {
    TrimRight(TrimLeft(s))
  }

  /** An id that trimming leaves alone. */
  predicate Trimmed(s: string) {
    s == TrimSpace(s)
  }

  // --- Validity -----------------------------------------------------------------

  predicate OptionValid(o: ChoiceOption, count: int) {
    && TrimSpace(o.id) != "" && |TrimSpace(o.id)| <= 128
    && TrimSpace(o.text) != "" && |o.text| <= 2000
    && |o.imageUrl| <= 4096
    && 1 <= o.order <= count
  }

  function TrimmedIds(options: seq<ChoiceOption>): (ids: seq<string>)
    ensures |ids| == |options| && forall i :: 0 <= i < |ids| ==> ids[i] == TrimSpace(options[i].id)
  {
    seq(|options|, i requires 0 <= i < |options| => TrimSpace(options[i].id))
  }

  function Orders(options: seq<ChoiceOption>): (orders: seq<int>)
    ensures |orders| == |options| && forall i :: 0 <= i < |orders| ==> orders[i] == options[i].order
  {
    seq(|options|, i requires 0 <= i < |options| => options[i].order)
  }

  predicate OptionsValid(options: seq<ChoiceOption>) {
    && 2 <= |options| <= 100
    && (forall i :: 0 <= i < |options| ==> OptionValid(options[i], |options|))
    && Distinct(TrimmedIds(options))
    && Distinct(Orders(options))
  }

  predicate CorrectIdsValid(correctIds: seq<string>, ids: set<string>, selection: Selection) {
    && correctIds != []
    && (forall i :: 0 <= i < |correctIds| ==> correctIds[i] in ids)
    && Distinct(correctIds)
    && (selection == Single ==> |correctIds| == 1)
  }

  predicate EvaluationValid(d: ActivityDefinition) {
    match d.evaluation
    case NoEvaluation => d.correctOptionIds == []
    case Correctness => CorrectIdsValid(d.correctOptionIds, Elements(TrimmedIds(d.options)), d.selection)
    case OtherEvaluation => false
  }

  predicate Unscored(d: ActivityDefinition) {
    d.minPoints == 0 && d.maxPoints == 0 && !d.speedBonus && !d.partialCredit
  }

  predicate ScoringValid(d: ActivityDefinition) {
    match d.scoring
    case NoScoring => Unscored(d)
    case Points =>
      && d.evaluation == Correctness
      && 0 <= d.minPoints <= d.maxPoints && 1 <= d.maxPoints
      && !(d.selection == Single && d.partialCredit)
    case OtherScoring => false
  }

  predicate ChoiceValid(d: ActivityDefinition) {
    && d.maxLength == 0 && d.maxWords == 0 && d.aggregation == NoAggregation
    && (d.selection == Single || d.selection == Multiple)
    && OptionsValid(d.options)
    && EvaluationValid(d)
    && ScoringValid(d)
    && (d.showLeaderboardAfter ==> d.scoring == Points)
  }

  predicate TextValid(d: ActivityDefinition) {
    && d.selection == Absent && d.options == []
    && 1 <= d.maxLength <= 500 && 1 <= d.maxWords <= 10
    && d.evaluation == NoEvaluation && d.correctOptionIds == []
    && d.scoring == NoScoring && Unscored(d)
    && d.aggregation == WordFrequency && !d.showLeaderboardAfter
  }

  predicate ValidDefinition(d: ActivityDefinition) {
    && d.schemaVersion == 1
    && TrimSpace(d.text) != "" && |d.text| <= 10000 && |d.title| <= 500 && |d.imageUrl| <= 4096
    && 1 <= d.durationSeconds <= 86400
    && (d.kind == Choice ==> ChoiceValid(d))
    && (d.kind == Text ==> TextValid(d))
    && d.kind != OtherKind
  }

  // --- The validator as the source runs it ----------------------------------------

  /** The loop over the options, filling the maps of ids and orders already seen. */
  method ValidateOptions(options: seq<ChoiceOption>) returns (ok: bool, ids: set<string>)
    ensures ok == OptionsValid(options)
    ensures ok ==> ids == Elements(TrimmedIds(options))
  {
    ids := {};
    if |options| < 2 || |options| > 100 {
      return false, ids;
    }
    var orders: set<int> := {};
    ghost var allIds, allOrders := TrimmedIds(options), Orders(options);
    for n := 0 to |options|
      invariant forall i :: 0 <= i < n ==> OptionValid(options[i], |options|)
      invariant Distinct(allIds[..n]) && Distinct(allOrders[..n])
      invariant forall id :: id in ids <==> id in allIds[..n]
      invariant forall order :: order in orders <==> order in allOrders[..n]
    {
      var option := options[n];
      var id := TrimSpace(option.id);
      if !OptionValid(option, |options|) {
        return false, ids;
      }
      if id in ids || option.order in orders {
        NextElement(allIds, n);
        NextElement(allOrders, n);
        return false, ids;
      }
      assert allIds[..n + 1] == allIds[..n] + [id];
      assert allOrders[..n + 1] == allOrders[..n] + [option.order];
      ids, orders := ids + {id}, orders + {option.order};
    }
    assert allIds[..|options|] == allIds && allOrders[..|options|] == allOrders;
    return true, ids;
  }

  /** The loop over the correct option ids. */
  method ValidateCorrectIds(correctIds: seq<string>, ids: set<string>, selection: Selection) returns (ok: bool)
    ensures ok == CorrectIdsValid(correctIds, ids, selection)
  {
    if |correctIds| == 0 {
      return false;
    }
    var correct: set<string> := {};
    for n := 0 to |correctIds|
      invariant forall i :: 0 <= i < n ==> correctIds[i] in ids
      invariant Distinct(correctIds[..n]) && correct == Elements(correctIds[..n])
    {
      var id := correctIds[n];
      if id !in ids {
        return false;
      }
      NextElement(correctIds, n);
      if id in correct {
        return false;
      }
      correct := correct + {id};
    }
    assert correctIds[..|correctIds|] == correctIds;
    DistinctCount(correctIds);
    return !(selection == Single && |correct| != 1);
  }

  method ValidateChoice(d: ActivityDefinition) returns (ok: bool)
    ensures ok == ChoiceValid(d)
  {
    if d.maxLength != 0 || d.maxWords != 0 || d.aggregation != NoAggregation {
      return false;
    }
    if d.selection != Single && d.selection != Multiple {
      return false;
    }
    var optionsOk, ids := ValidateOptions(d.options);
    if !optionsOk {
      return false;
    }
    match d.evaluation {
      case NoEvaluation =>
        if |d.correctOptionIds| != 0 { return false; }
      case Correctness =>
        var correctOk := ValidateCorrectIds(d.correctOptionIds, ids, d.selection);
        if !correctOk { return false; }
      case OtherEvaluation =>
        return false;
    }
    return ScoringValid(d) && !(d.showLeaderboardAfter && d.scoring != Points);
  }

  // --- What validity gives ------------------------------------------------------------

  /** Accepted options are numbered 1 to n with no number missing. */
  lemma OrdersAreAPermutation(options: seq<ChoiceOption>)
    requires OptionsValid(options)
    ensures forall k :: 1 <= k <= |options| ==> k in Orders(options)
  {
    DistinctInRange(Orders(options));
  }

  /** Trimming takes off all space at both ends, and nothing else. */
  lemma TrimSpaceIs(s: string) returns (i: nat, j: nat)
    ensures i <= j <= |s| && TrimSpace(s) == s[i..j]
    ensures forall k :: 0 <= k < |s| && (k < i || j <= k) ==> IsSpace(s[k])
    ensures i < j ==> !IsSpace(s[i]) && !IsSpace(s[j - 1])
  {
    i := LeftIsSuffix(s);
    j := RightIsPrefix(s[i..]);
    j := i + j;
    assert s[i..][..j - i] == s[i..j];
    assert forall k :: j <= k < |s| ==> s[k] == s[i..][k - i];
    assert i < j ==> s[i] == s[i..][0] && s[j - 1] == s[i..][j - 1 - i];
  }

  lemma {:induction false} LeftIsSuffix(s: string) returns (i: nat)
    ensures i <= |s| && TrimLeft(s) == s[i..]
    ensures forall k :: 0 <= k < i ==> IsSpace(s[k])
    ensures i < |s| ==> !IsSpace(s[i])
    decreases |s|
  {
    i := 0;
    if s != "" && IsSpace(s[0]) {
      var n := LeftIsSuffix(s[1..]);
      i := n + 1;
      assert forall k :: 1 <= k < |s| ==> s[k] == s[1..][k - 1];
    }
  }

  lemma {:induction false} RightIsPrefix(s: string) returns (j: nat)
    ensures j <= |s| && TrimRight(s) == s[..j]
    ensures forall k :: j <= k < |s| ==> IsSpace(s[k])
    ensures j > 0 ==> !IsSpace(s[j - 1])
    decreases |s|
  {
    j := |s|;
    if s != "" && IsSpace(s[|s| - 1]) {
      j := RightIsPrefix(s[..|s| - 1]);
    }
  }

  /** The limits an accepted choice activity keeps. */
  lemma ChoiceLimits(d: ActivityDefinition)
    requires ValidDefinition(d) && d.kind == Choice
    ensures 2 <= |d.options| <= 100 && 1 <= d.durationSeconds <= 86400
    ensures 1 <= |d.text| <= 10000 && |d.title| <= 500
    ensures forall o <- d.options :: 1 <= |TrimSpace(o.id)| <= 128 && 1 <= |o.text| <= 2000 && 1 <= o.order <= |d.options|
    ensures forall i, j :: 0 <= i < j < |d.options| ==>
      TrimSpace(d.options[i].id) != TrimSpace(d.options[j].id) && d.options[i].order != d.options[j].order
    ensures d.scoring == Points ==> 0 <= d.minPoints <= d.maxPoints && 1 <= d.maxPoints && d.correctOptionIds != []
    ensures d.selection == Single && d.correctOptionIds != [] ==> |d.correctOptionIds| == 1 && !d.partialCredit
    ensures d.scoring != Points ==> d.minPoints == d.maxPoints == 0 && !d.speedBonus && !d.partialCredit && !d.showLeaderboardAfter
    ensures forall id <- d.correctOptionIds :: exists o <- d.options :: TrimSpace(o.id) == id
  {
    forall o <- d.options ensures 1 <= |TrimSpace(o.id)| <= 128 && 1 <= |o.text| <= 2000 && 1 <= o.order <= |d.options| {
      var i, j := TrimSpaceIs(o.text);
    }
    forall i, j | 0 <= i < j < |d.options|
      ensures TrimSpace(d.options[i].id) != TrimSpace(d.options[j].id) && d.options[i].order != d.options[j].order
    {
      assert TrimmedIds(d.options)[i] != TrimmedIds(d.options)[j] && Orders(d.options)[i] != Orders(d.options)[j];
    }
    forall id <- d.correctOptionIds ensures exists o <- d.options :: TrimSpace(o.id) == id {
      assert id in TrimmedIds(d.options);
      var i :| 0 <= i < |d.options| && TrimmedIds(d.options)[i] == id;
      assert d.options[i] in d.options;
    }
    var i, j := TrimSpaceIs(d.text);
  }
}

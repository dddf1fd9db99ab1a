/** An accepted activity whose report and score disagree: the first option's id has a space before it, and the list
    of correct ids names it without. Validation compares trimmed ids; scoring and reports compare them as they are. */
module ReportsExample {
  import opened Prelude
  import opened Definitions
  import opened Responses
  import opened Ledger
  import opened Reports
  import Scoring

  const FIRST: ChoiceOption := ChoiceOption(" a", "one", "", 1)
  const SECOND: ChoiceOption := ChoiceOption("b", "two", "", 2)

  const QUIZ: ActivityDefinition := ActivityDefinition(
    1, Choice, "", "which", "", Multiple, [FIRST, SECOND], 0, 0, Correctness, ["a", "b"], Points, 0, 100, false, false,
    30, NoAggregation, false)

  lemma Trims()
    ensures TrimSpace(" a") == "a" && TrimSpace("b") == "b" && TrimSpace("one") == "one" && TrimSpace("two") == "two" && TrimSpace("which") == "which"
  {
    assert " a"[1..] == "a";
    assert TrimLeft("a") == "a" && TrimLeft(" a") == "a";
    assert TrimLeft("b") == "b" && TrimLeft("one") == "one" && TrimLeft("two") == "two" && TrimLeft("which") == "which";
  }

  lemma OptionsAreValid()
    ensures OptionsValid([FIRST, SECOND])
    ensures TrimmedIds([FIRST, SECOND]) == ["a", "b"]
  {
    Trims();
    var options := [FIRST, SECOND];
    assert TrimmedIds(options)[0] == "a" && TrimmedIds(options)[1] == "b" && "a"[0] != "b"[0];
    assert OptionValid(options[0], 2) && OptionValid(options[1], 2);
    assert Orders(options)[0] == 1 && Orders(options)[1] == 2;
  }

  lemma CorrectIdsAreValid()
    ensures CorrectIdsValid(["a", "b"], Elements(["a", "b"]), Multiple)
  {
    var ids := ["a", "b"];
    assert ids[0] in ids && ids[1] in ids && "a"[0] != "b"[0];
  }

  lemma QuizIsValid()
    ensures ValidDefinition(QUIZ)
  {
    Trims();
    OptionsAreValid();
    CorrectIdsAreValid();
  }

  lemma OnlySecondIsScored()
    ensures CorrectIndexes(QUIZ.options, QUIZ.correctOptionIds) == [1]
  {
    assert " a" !in QUIZ.correctOptionIds && "b" in QUIZ.correctOptionIds;
    var options := QUIZ.options;
    assert options[..1] == [FIRST] && [FIRST][..0] == [];
    assert CorrectIndexes([FIRST], QUIZ.correctOptionIds) == [];
  }

  /** The second option by itself earns the full points, and the report calls it wrong. */
  lemma AReportCanContradictAScore(remaining: int)
    ensures ValidDefinition(QUIZ) && IndexesAccepted(QUIZ, [1]) && !FlaggedCorrect(QUIZ, [1])
    ensures Delta(QUIZ, Selected([1]), remaining) == 100
    ensures !AllMatched(QUIZ) && !NoneMatched(QUIZ)
  {
    QuizIsValid();
    OnlySecondIsScored();
    assert Matched(QUIZ, "b") by { assert QUIZ.options[1].id == "b"; }
    assert !Matched(QUIZ, "a");
    NeverFlagged(QUIZ, [1]);
    assert Elements([1]) == {1};
    Scoring.FullIffCorrect(QuestionOf(QUIZ, remaining), {1});
  }
}

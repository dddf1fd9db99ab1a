/** apps/api/internal/live/scoring.go: points for one choice answer. */
module Scoring {
  import opened Prelude

  /** Durations are whole time units; the float product of the source is taken exactly and cut to an integer. */
  datatype Question = Question(
    correct: seq<int>,
    maxPoints: int,
    minPoints: int,
    partialScoring: bool,
    fasterAnswers: bool,
    duration: int,
    remaining: int)

  /** Go's integer division and float-to-int conversion cut toward zero. */
  function TruncDiv(a: int, b: int): int
    requires b > 0
  {
    if a >= 0 then a / b else -(-a / b)
  }

  /** The points a fully correct answer is worth at this moment. */
  function Base(q: Question): int {
    if q.fasterAnswers && q.duration > 0 then
      var remaining := if q.remaining < 0 then 0 else if q.remaining > q.duration then q.duration else q.remaining;
      q.minPoints + TruncDiv((q.maxPoints - q.minPoints) * remaining, q.duration)
    else q.maxPoints
  }

  /** The score as a function of which options were selected, however often and in whatever order. */
  function Worth(q: Question, selected: set<int>): int {
    var correct := Elements(q.correct);
    var hits, wrong := |selected * correct|, |selected - correct|;
    if q.correct == [] || hits <= wrong then 0
    else if !q.partialScoring && (hits != |q.correct| || wrong != 0) then 0
    else TruncDiv(Base(q) * (hits - wrong), |q.correct|)
  }

  /** Score as the source runs it: one pass over the correct list, one over the selection. */
  method Score(q: Question, selected: seq<int>) returns (value: int)
    ensures value == Worth(q, Elements(selected))
    ensures ValidQuestion(q) ==> Awarded(q, Elements(selected), value)
  {
    WorthOfValid(q, Elements(selected));
    value := Compute(q, selected);
  }

  method Compute(q: Question, selected: seq<int>) returns (value: int)
    ensures value == Worth(q, Elements(selected))
  {
    if |q.correct| == 0 {
      return 0;
    }
    var correct: set<int> := {};
    for n := 0 to |q.correct|
      invariant correct == Elements(q.correct[..n])
    {
      NextElement(q.correct, n);
      correct := correct + {q.correct[n]};
    }
    assert q.correct[..|q.correct|] == q.correct;
    var hits, wrong := Count(selected, correct);
    var numerator := hits - wrong;
    if numerator <= 0 {
      return 0;
    }
    if !q.partialScoring && (hits != |q.correct| || wrong != 0) {
      return 0;
    }
    var base := BaseNow(q);
    return TruncDiv(base * numerator, |q.correct|);
  }

  method BaseNow(q: Question) returns (base: int)
    ensures base == Base(q)
  {
    base := q.maxPoints;
    if q.fasterAnswers && q.duration > 0 {
      var remaining := q.remaining;
      if remaining < 0 {
        remaining := 0;
      }
      if remaining > q.duration {
        remaining := q.duration;
      }
      base := q.minPoints + TruncDiv((q.maxPoints - q.minPoints) * remaining, q.duration);
    }
  }

  /** The loop over the selection: repeats count once. */
  method Count(selected: seq<int>, correct: set<int>) returns (hits: int, wrong: int)
    ensures hits == |Elements(selected) * correct| && wrong == |Elements(selected) - correct|
  {
    var seen: set<int> := {};
    hits, wrong := 0, 0;
    for n := 0 to |selected|
      invariant seen == Elements(selected[..n])
      invariant hits == |seen * correct| && wrong == |seen - correct|
    {
      var i := selected[n];
      NextElement(selected, n);
      if i in seen {
        assert seen + {i} == seen;
        continue;
      }
      OneMore(seen, i, correct);
      seen := seen + {i};
      if i in correct {
        hits := hits + 1;
      } else {
        wrong := wrong + 1;
      }
    }
    assert selected[..|selected|] == selected;
  }

  lemma OneMore(seen: set<int>, i: int, correct: set<int>)
    requires i !in seen
    ensures |(seen + {i}) * correct| == |seen * correct| + (if i in correct then 1 else 0)
    ensures |(seen + {i}) - correct| == |seen - correct| + (if i in correct then 0 else 1)
  {
    if i in correct {
      assert (seen + {i}) * correct == (seen * correct) + {i};
      assert (seen + {i}) - correct == seen - correct;
    } else {
      assert (seen + {i}) * correct == seen * correct;
      assert (seen + {i}) - correct == (seen - correct) + {i};
    }
  }

  // --- Arithmetic ---------------------------------------------------------------

  lemma LessByFactor(x: int, y: int, d: int)
    requires d > 0 && x * d < y * d
    ensures x < y
  {
    if x >= y {
      MulMonotone(d, y, x);
    }
  }

  lemma DivMonotone(a: int, b: int, d: int)
    requires 0 <= a <= b && d > 0
    ensures 0 <= a / d <= b / d
  {
    assert (b / d + 1) * d == b / d * d + d;
    LessByFactor(a / d, b / d + 1, d);
  }

  lemma QuotientBelow(a: int, q: int, d: int)
    requires d > 0 && a < q * d
    ensures a / d < q
  {
    LessByFactor(a / d, q, d);
  }

  /** base * part / whole stays below base, and reaches it only when nothing is missing. */
  lemma Share(base: int, part: int, whole: int)
    requires 0 <= base && 0 <= part <= whole && whole > 0
    ensures 0 <= base * part / whole <= base
    ensures base > 0 ==> (base * part / whole == base <==> part == whole)
  {
    MulMonotone(base, part, whole);
    DivMonotone(base * part, base * whole, whole);
    Cancel(base, whole);
    if base > 0 && part < whole {
      MulMonotone(base, part, whole - 1);
      assert base * (whole - 1) == base * whole - base;
      QuotientBelow(base * part, base, whole);
    }
  }

  lemma MulMonotone(a: int, x: int, y: int)
    requires 0 <= a && x <= y
    ensures a * x <= a * y
  {
  }

  lemma Cancel(a: int, d: int)
    requires d > 0
    ensures a * d / d == a
  {
    assert (a * d) % d == 0 by {
      ModOfMultiple(a, d);
    }
    assert (a * d / d) * d == a * d;
  }

  lemma ModOfMultiple(a: int, d: int)
    requires d > 0
    ensures (a * d) % d == 0
  {
    var quotient, rest := a * d / d, (a * d) % d;
    assert a * d == quotient * d + rest;
    assert rest == (a - quotient) * d;
    if a > quotient {
      MulMonotone(d, 1, a - quotient);
    } else if a < quotient {
      MulMonotone(d, a - quotient, -1);
    }
  }

  // --- What the policy promises ------------------------------------------------------

  /** A question as a validated points activity makes it. */
  ghost predicate ValidQuestion(q: Question) {
    && q.correct != [] && Distinct(q.correct)
    && 0 <= q.minPoints <= q.maxPoints && 1 <= q.maxPoints
    && q.duration > 0
  }

  function Clamped(q: Question): (r: int)
    requires q.duration > 0
    ensures 0 <= r <= q.duration
  {
    if q.remaining < 0 then 0 else if q.remaining > q.duration then q.duration else q.remaining
  }

  lemma BaseBounds(q: Question)
    requires ValidQuestion(q)
    ensures q.minPoints <= Base(q) <= q.maxPoints
  {
    Share(q.maxPoints - q.minPoints, Clamped(q), q.duration);
    MulMonotone(q.maxPoints - q.minPoints, 0, Clamped(q));
  }

  lemma HitsBounds(q: Question, selected: set<int>)
    requires Distinct(q.correct)
    ensures var correct := Elements(q.correct);
      && |selected * correct| <= |q.correct| == |correct|
      && (|selected * correct| - |selected - correct| == |q.correct| <==> selected == correct)
  {
    var correct := Elements(q.correct);
    DistinctCount(q.correct);
    SubsetIsSmaller(selected * correct, correct);
    if |selected * correct| - |selected - correct| == |q.correct| {
      SubsetOfSameSize(selected * correct, correct);
      assert selected - correct == {};
      assert selected == correct;
    }
    if selected == correct {
      assert selected * correct == correct && selected - correct == {};
    }
  }

  // --- The points, by what they mean -------------------------------------------------------

  /** What exactly the correct options earn: without a bonus for speed the maximum; with one, the minimum once the time
      is up, the maximum while none of it has passed, and in between the minimum and a share of the rest as large as the
      share of the time left, cut to a whole number. */
  ghost predicate FullPoints(q: Question, full: int) {
    if !q.fasterAnswers || q.duration <= 0 || q.remaining >= q.duration then full == q.maxPoints
    else if q.remaining <= 0 then full == q.minPoints
    else (full - q.minPoints) * q.duration <= (q.maxPoints - q.minPoints) * q.remaining < (full - q.minPoints + 1) * q.duration
  }

  /** What a selection earns: nothing with as many mistakes as hits, or with any mistake where there is no partial credit;
      otherwise a share of the full points as large as the share of hits less mistakes, cut to a whole number. */
  ghost predicate Awarded(q: Question, selected: set<int>, value: int) {
    var correct := Elements(q.correct);
    var hits, wrong := |selected * correct|, |selected - correct|;
    if hits <= wrong || (!q.partialScoring && selected != correct) then value == 0
    else exists full :: FullPoints(q, full) && value * |correct| <= full * (hits - wrong) < (value + 1) * |correct|
  }

  lemma QuotientBounds(a: int, d: int)
    requires 0 <= a && d > 0
    ensures a / d * d <= a < (a / d + 1) * d
  {
  }

  lemma BaseIsFull(q: Question)
    requires ValidQuestion(q)
    ensures FullPoints(q, Base(q))
  {
    var span := q.maxPoints - q.minPoints;
    if q.fasterAnswers {
      MulMonotone(span, 0, Clamped(q));
      var bonus := span * Clamped(q) / q.duration;
      assert Base(q) == q.minPoints + bonus;
      if q.remaining >= q.duration {
        Cancel(span, q.duration);
      } else if q.remaining > 0 {
        QuotientBounds(span * q.remaining, q.duration);
        assert Base(q) - q.minPoints == bonus;
      }
    }
  }

  /** The score is what the selection has earned. */
  lemma WorthIsAwarded(q: Question, selected: set<int>)
    requires ValidQuestion(q)
    ensures Awarded(q, selected, Worth(q, selected))
  {
    var correct := Elements(q.correct);
    var hits, wrong := |selected * correct|, |selected - correct|;
    BaseBounds(q);
    BaseIsFull(q);
    HitsBounds(q, selected);
    if hits > wrong && (q.partialScoring || selected == correct) {
      ExactHits(selected, correct);
      MulMonotone(Base(q), 0, hits - wrong);
      QuotientBounds(Base(q) * (hits - wrong), |q.correct|);
    } else if hits > wrong && hits == |correct| && wrong == 0 {
      AllHits(selected, correct);
    }
  }

  lemma WorthOfValid(q: Question, selected: set<int>)
    ensures ValidQuestion(q) ==> Awarded(q, selected, Worth(q, selected))
  {
    if ValidQuestion(q) { WorthIsAwarded(q, selected); }
  }

  lemma ExactHits(selected: set<int>, correct: set<int>)
    ensures selected == correct ==> |selected * correct| == |correct| && |selected - correct| == 0
  {
    if selected == correct {
      assert selected * correct == correct && selected - correct == {};
    }
  }

  lemma AllHits(selected: set<int>, correct: set<int>)
    requires |selected * correct| == |correct| && |selected - correct| == 0
    ensures selected == correct
  {
    SubsetOfSameSize(selected * correct, correct);
    assert selected - correct == {};
  }

  /** Exactly the correct options earn the full points, with or without partial credit. */
  lemma CorrectEarnsFull(q: Question)
    requires ValidQuestion(q)
    ensures FullPoints(q, Worth(q, Elements(q.correct)))
  {
    BaseBounds(q);
    BaseIsFull(q);
    HitsBounds(q, Elements(q.correct));
    ExactHits(Elements(q.correct), Elements(q.correct));
    DistinctCount(q.correct);
    Cancel(Base(q), |q.correct|);
  }

  /** Scores lie between nothing and the maximum. */
  lemma WorthInRange(q: Question, selected: set<int>)
    requires ValidQuestion(q)
    ensures 0 <= Worth(q, selected) <= Base(q) <= q.maxPoints
  {
    var correct := Elements(q.correct);
    var hits, wrong := |selected * correct|, |selected - correct|;
    BaseBounds(q);
    HitsBounds(q, selected);
    if hits > wrong {
      Share(Base(q), hits - wrong, |q.correct|);
      MulMonotone(Base(q), 0, hits - wrong);
    }
  }

  /** Full points are for exactly the correct options. */
  lemma FullIffCorrect(q: Question, selected: set<int>)
    requires ValidQuestion(q) && Base(q) > 0
    ensures Worth(q, selected) == Base(q) <==> selected == Elements(q.correct)
    ensures FullPoints(q, Base(q))
  {
    BaseIsFull(q);
    var correct := Elements(q.correct);
    var hits, wrong := |selected * correct|, |selected - correct|;
    HitsBounds(q, selected);
    if hits > wrong {
      Share(Base(q), hits - wrong, |q.correct|);
      MulMonotone(Base(q), 0, hits - wrong);
    }
    if selected == correct {
      assert selected - correct == {};
      DistinctCount(q.correct);
    }
  }

  /** More time left is never worth less. */
  lemma EarlierIsNoWorse(q: Question, later: int, selected: set<int>)
    requires ValidQuestion(q) && later <= q.remaining
    ensures Worth(q.(remaining := later), selected) <= Worth(q, selected)
  {
    var late := q.(remaining := later);
    BaseBounds(q);
    BaseBounds(late);
    BaseMonotone(q, late);
    Monotone(late, q, selected, selected);
  }

  lemma BaseMonotone(q: Question, late: Question)
    requires ValidQuestion(q) && late == q.(remaining := late.remaining) && late.remaining <= q.remaining
    ensures Base(late) <= Base(q)
  {
    var span := q.maxPoints - q.minPoints;
    MulMonotone(span, 0, Clamped(late));
    MulMonotone(span, Clamped(late), Clamped(q));
    DivMonotone(span * Clamped(late), span * Clamped(q), q.duration);
  }

  /** A larger base and a better balance of hits to mistakes never score less; exactness must not be lost either. */
  lemma Monotone(q: Question, q': Question, selected: set<int>, selected': set<int>)
    requires ValidQuestion(q) && ValidQuestion(q') && q'.correct == q.correct && q'.partialScoring == q.partialScoring
    requires 0 <= Base(q) <= Base(q')
    requires var correct := Elements(q.correct);
      |selected * correct| - |selected - correct| <= |selected' * correct| - |selected' - correct|
    ensures Worth(q, selected) <= Worth(q', selected')
  {
    var correct := Elements(q.correct);
    var less, more := |selected * correct| - |selected - correct|, |selected' * correct| - |selected' - correct|;
    HitsBounds(q, selected);
    HitsBounds(q, selected');
    WorthInRange(q', selected');
    if less > 0 {
      MulMonotone(Base(q), 0, less);
      MulMonotone(Base(q), less, more);
      MulMonotone(more, Base(q), Base(q'));
      DivMonotone(Base(q) * less, Base(q') * more, |q.correct|);
    }
  }

  /** Adding an option never scores more if it is wrong, and never scores less if it is correct. */
  lemma OneMoreOption(q: Question, selected: set<int>, option: int)
    requires ValidQuestion(q) && option !in selected
    ensures option in q.correct ==> Worth(q, selected) <= Worth(q, selected + {option})
    ensures option !in q.correct ==> Worth(q, selected + {option}) <= Worth(q, selected)
  {
    OneMore(selected, option, Elements(q.correct));
    BaseBounds(q);
    if option in q.correct {
      Monotone(q, q, selected, selected + {option});
    } else {
      Monotone(q, q, selected + {option}, selected);
    }
  }
}

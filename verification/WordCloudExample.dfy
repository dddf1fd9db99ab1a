/** A term that changes when it is tokenized again. Normalising composes j with a following caron but not J,
    which has no composed form; lower-casing then turns J with a caron into something normalising would compose.
    The tables also know one half, which normalising takes apart. */
module WordCloudExample {
  import opened Prelude
  import opened WordCloud

  const CARON: char := '\U{30C}'
  const J_CARON: char := '\U{1F0}'

  const HALF: char := '\U{BD}'
  const FRACTION_SLASH: char := '\U{2044}'

  function Compose(s: string): string {
    if s == "" then ""
    else if s[0] == HALF then ['1', FRACTION_SLASH, '2'] + Compose(s[1..])
    else if |s| > 1 && s[0] == 'j' && s[1] == CARON then [J_CARON] + Compose(s[2..])
    else [s[0]] + Compose(s[1..])
  }

  function Lowered(c: char): char {
    if c == 'J' then 'j' else c
  }

  function Lower(s: string): (r: string)
    ensures |r| == |s| && forall i :: 0 <= i < |s| ==> r[i] == Lowered(s[i])
  {
    seq(|s|, i requires 0 <= i < |s| => Lowered(s[i]))
  }

  predicate IsLetter(c: char) {
    c == 'J' || c == 'j' || c == CARON || c == J_CARON || c == HALF || c == '1' || c == '2'
  }

  /** The part of the Unicode tables that the letter j and one half need. */
  function Tables(): Unicode {
    Unicode(s => Compose(s), s => Lower(s), c => IsLetter(c))
  }

  /** Composing makes no caron at the start, and no half anywhere. */
  lemma {:induction false} ComposeStarts(s: string)
    ensures s != "" ==> Compose(s) != "" && Compose(s)[0] == if s[0] == HALF then '1' else if |s| > 1 && s[0] == 'j' && s[1] == CARON then J_CARON else s[0]
  {
  }

  /** What composes to itself goes on doing so behind a character that composes with nothing. */
  lemma ComposeBehind(c: char, s: string)
    requires c != HALF && !(c == 'j' && s != "" && s[0] == CARON)
    ensures Compose([c] + s) == [c] + Compose(s)
  {
    assert ([c] + s)[1..] == s;
  }

  lemma {:induction false} ComposeTwice(s: string)
    ensures Compose(Compose(s)) == Compose(s)
    decreases |s|
  {
    if s == "" {
    } else if s[0] == HALF {
      var rest := Compose(s[1..]);
      ComposeTwice(s[1..]);
      ComposeBehind('2', rest);
      ComposeBehind(FRACTION_SLASH, ['2'] + rest);
      ComposeBehind('1', [FRACTION_SLASH] + (['2'] + rest));
      assert Compose(s) == ['1'] + ([FRACTION_SLASH] + (['2'] + rest));
    } else if |s| > 1 && s[0] == 'j' && s[1] == CARON {
      ComposeTwice(s[2..]);
      ComposeBehind(J_CARON, Compose(s[2..]));
    } else {
      ComposeTwice(s[1..]);
      ComposeStarts(s[1..]);
      ComposeBehind(s[0], Compose(s[1..]));
    }
  }

  lemma LowerTwice(s: string)
    ensures Lower(Lower(s)) == Lower(s)
  {
  }

  lemma FoldsOf(s: string, folded: string)
    requires (s == ['J', CARON] && folded == ['j', CARON]) || (s == ['j', CARON] && folded == [J_CARON])
    ensures Folded(Tables(), s) == folded
  {
    assert s[1..] == [CARON] && [CARON][1..] == "";
    assert Compose([CARON]) == [CARON];
    if s[0] == 'J' {
      assert Compose(s) == s;
      assert Lower(s) == folded;
    } else {
      assert Compose(s) == [J_CARON];
      assert Lower([J_CARON]) == folded;
    }
  }

  /** A text of letters is one term. */
  lemma OneTerm(s: string, t: string)
    requires Folded(Tables(), s) == t && (t == ['j', CARON] || t == [J_CARON])
    ensures Tokens(Tables(), s) == [t]
  {
    var u := Tables();
    assert Term(u, t);
    var none: seq<string> := [];
    assert t[..|t|] == t && "" + t == t && none + [t] == [t];
    ReadWord(u, "", t, |t|);
    assert Read(u, t) == Reading(none, t);
    TermIsKept(u, t);
  }

  // --- The tables meet the condition ----------------------------------------------------------------

  lemma ComposeHalf(s: string)
    ensures Compose([HALF] + s) == ['1', FRACTION_SLASH, '2'] + Compose(s)
  {
    assert ([HALF] + s)[1..] == s;
  }

  lemma Regroup(made: string, part: string, rest: string, whole: string, all: string)
    requires whole == made + part && all == made + (part + rest)
    ensures all == whole + rest
  {
  }

  /** What stands before a space and behind it composes each by itself. */
  lemma {:induction false} ComposeApart(a: string, rest: string, all: string)
    requires rest != "" && rest[0] == ' ' && all == a + rest
    ensures Compose(all) == Compose(a) + Compose(rest)
    decreases |a|
  {
    if a == "" {
      assert all == rest;
    } else if a[0] == HALF {
      ComposeApart(a[1..], rest, all[1..]);
      Regroup(['1', FRACTION_SLASH, '2'], Compose(a[1..]), Compose(rest), Compose(a), Compose(all));
    } else if |a| > 1 && a[0] == 'j' && a[1] == CARON {
      ComposeApart(a[2..], rest, all[2..]);
      Regroup([J_CARON], Compose(a[2..]), Compose(rest), Compose(a), Compose(all));
    } else {
      ComposeApart(a[1..], rest, all[1..]);
      Regroup([a[0]], Compose(a[1..]), Compose(rest), Compose(a), Compose(all));
    }
  }

  lemma LowerJoins(a: string, t: string)
    ensures Lower(a + ([' '] + t)) == Lower(a) + " " + Lower(t)
  {
  }

  lemma SpaceSeparatesHere()
    ensures SpaceSeparates(Tables()) && !Tables().letter(' ')
  {
    var u := Tables();
    forall a: string, t: string ensures Folded(u, a + " " + t) == Folded(u, a) + " " + Folded(u, t) {
      ComposeApart(a, [' '] + t, a + " " + t);
      ComposeBehind(' ', t);
      LowerJoins(Compose(a), Compose(t));
    }
    assert Folded(u, "") == "";
  }

  /** Normalising and lower-casing are each idempotent, one after the other they are not, and retokenizing shows it.
      The text meets what RetokenizeStableIff asks: that its term changes is because folding does not leave it alone. */
  lemma RetokenizingCanChangeATerm()
    ensures forall s :: Tables().nfkc(Tables().nfkc(s)) == Tables().nfkc(s)
    ensures forall s :: Tables().lower(Tables().lower(s)) == Tables().lower(s)
    ensures !Tables().letter(' ') && SpaceSeparates(Tables()) && FoldToTerms(Tables(), Tokens(Tables(), ['J', CARON]))
    ensures var terms := Tokens(Tables(), ['J', CARON]);
            terms == [['j', CARON]] && Tokens(Tables(), JoinWords(terms)) == [[J_CARON]]
  {
    forall s: string ensures Compose(Compose(s)) == Compose(s) && Lower(Lower(s)) == Lower(s) {
      ComposeTwice(s);
      LowerTwice(s);
    }
    SpaceSeparatesHere();
    FoldsOf(['J', CARON], ['j', CARON]);
    FoldsOf(['j', CARON], [J_CARON]);
    OneTerm(['J', CARON], ['j', CARON]);
    OneTerm(['j', CARON], [J_CARON]);
    assert Term(Tables(), [J_CARON]);
  }

  lemma LowerOne(c: char)
    ensures Lower([c]) == [Lowered(c)]
  {
  }

  lemma DigitFolds(c: char)
    requires c == '1' || c == '2'
    ensures Fixed(Tables(), [c]) && Term(Tables(), [c]) && TrimTerm([c]) == [c]
  {
    assert [c][1..] == "" && Compose([c]) == [c];
    LowerOne(c);
    TermIsKept(Tables(), [c]);
  }

  lemma HalfFolds()
    ensures Folded(Tables(), [HALF]) == ['1', FRACTION_SLASH, '2']
  {
    var text := ['1', FRACTION_SLASH, '2'];
    ComposeHalf("");
    assert [HALF] + "" == [HALF] && text + "" == text;
    assert Lower(text) == text;
  }

  /** One, fraction slash, two: two terms. */
  lemma HalfReads()
    ensures Tokens(Tables(), [HALF]) == ["1", "2"]
  {
    var u, text := Tables(), ['1', FRACTION_SLASH, '2'];
    HalfFolds();
    DigitFolds('1');
    DigitFolds('2');
    var none: seq<string> := [];
    ReadSnoc(u, "", '1', ['1']);
    ReadSnoc(u, ['1'], FRACTION_SLASH, ['1', FRACTION_SLASH]);
    ReadSnoc(u, ['1', FRACTION_SLASH], '2', text);
    assert Read(u, ['1']) == Reading(none, ['1']);
    assert none + [['1']] == [['1']];
    assert Read(u, text) == Reading([['1']], ['2']);
  }

  lemma HalfIsNoTerm()
    ensures Term(Tables(), [HALF]) && !Term(Tables(), Folded(Tables(), [HALF]))
  {
    HalfFolds();
    assert !Settled(Tables(), Folded(Tables(), [HALF])[1]);
  }

  /** One half is a term that does not fold to one; yet a text of it is covered, and its terms are stable. */
  lemma OneHalfIsCovered()
    ensures Term(Tables(), [HALF]) && !Term(Tables(), Folded(Tables(), [HALF]))
    ensures FoldToTerms(Tables(), Tokens(Tables(), [HALF]))
    ensures Tokens(Tables(), JoinWords(Tokens(Tables(), [HALF]))) == Tokens(Tables(), [HALF])
  {
    HalfIsNoTerm();
    HalfReads();
    DigitFolds('1');
    DigitFolds('2');
    SpaceSeparatesHere();
    RetokenizeStableIff(Tables(), [HALF]);
  }
}

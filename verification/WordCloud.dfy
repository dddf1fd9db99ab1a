/** The word-cloud tokenizer of apps/api/internal/live/activity_response.go. */
module WordCloud {
  import opened Prelude
  import opened Definitions

  /** The Unicode tables: compatibility normalisation, lower-casing, and letters, numbers and marks. */
  datatype Unicode = Unicode(nfkc: string -> string, lower: string -> string, letter: char -> bool)

  const ZWNJ: char := '\U{200C}'
  const ZWJ: char := '\U{200D}'

  predicate IsQuote(c: char) {
    c == '\'' || c == '\U{2019}'
  }

  /** What strings.Trim takes off both ends of a term. */
  predicate InCutset(c: char) {
    IsQuote(c) || c == ZWNJ || c == ZWJ
  }

  function Canonical(c: char): char {
    if c == '\U{64A}' then '\U{6CC}' else if c == '\U{643}' then '\U{6A9}' else c
  }

  function TrimStart(s: string): string {
    if s != "" && InCutset(s[0]) then TrimStart(s[1..]) else s
  }

  function TrimEnd(s: string): string {
    if s != "" && InCutset(s[|s| - 1]) then TrimEnd(s[..|s| - 1]) else s
  }

  function TrimTerm(s: string): string {
    TrimEnd(TrimStart(s))
  }

  predicate Joins(u: Unicode, c: char, current: string) {
    u.letter(c) || c == ZWNJ || c == ZWJ || (IsQuote(c) && current != "")
  }

  /** The terms settled so far, and the term being read. */
  datatype Reading = Reading(tokens: seq<string>, current: string)

  function Flush(r: Reading): Reading {
    var term := TrimTerm(r.current);
    Reading(if r.current == "" || term == "" then r.tokens else r.tokens + [term], "")
  }

  function Feed(u: Unicode, r: Reading, raw: char): Reading {
    var c := Canonical(raw);
    if Joins(u, c, r.current) then r.(current := r.current + [c]) else Flush(r)
  }

  function Read(u: Unicode, s: string): Reading {
    if s == "" then Reading([], "") else Feed(u, Read(u, s[..|s| - 1]), s[|s| - 1])
  }

  function Folded(u: Unicode, text: string): string {
    u.lower(u.nfkc(text))
  }

  function Tokens(u: Unicode, text: string): seq<string> {
    Flush(Read(u, Folded(u, text))).tokens
  }

  /** wordCloudTokens as the source runs it. */
  method WordCloudTokens(u: Unicode, value: string) returns (tokens: seq<string>)
    ensures tokens == Tokens(u, value)
  {
    var normalized := u.lower(u.nfkc(value));
    tokens := [];
    var current := "";
    for n := 0 to |normalized|
      invariant Reading(tokens, current) == Read(u, normalized[..n])
    {
      assert normalized[..n + 1][..n] == normalized[..n];
      var c := Canonical(normalized[n]);
      if u.letter(c) || c == ZWNJ || c == ZWJ || (IsQuote(c) && |current| > 0) {
        current := current + [c];
        continue;
      }
      tokens := FlushTerm(tokens, current);
      current := "";
    }
    assert normalized[..|normalized|] == normalized;
    tokens := FlushTerm(tokens, current);
  }

  method FlushTerm(tokens: seq<string>, current: string) returns (r: seq<string>)
    ensures r == Flush(Reading(tokens, current)).tokens
  {
    if |current| == 0 {
      return tokens;
    }
    var term := TrimTerm(current);
    return if term != "" then tokens + [term] else tokens;
  }

  // --- What a term looks like ------------------------------------------------------

  /** A character tokenizing leaves alone. */
  ghost predicate Settled(u: Unicode, c: char) {
    Canonical(c) == c && (u.letter(c) || c == ZWNJ || c == ZWJ || IsQuote(c))
  }

  /** A term: settled characters, not beginning or ending with one that would be cut off. */
  ghost predicate Term(u: Unicode, t: string) {
    && t != "" && !InCutset(t[0]) && !InCutset(t[|t| - 1])
    && forall i :: 0 <= i < |t| ==> Settled(u, t[i])
  }

  ghost predicate AllSettled(u: Unicode, s: string) {
    forall i :: 0 <= i < |s| ==> Settled(u, s[i])
  }

  lemma {:induction false} TrimStartSettled(u: Unicode, s: string)
    requires AllSettled(u, s)
    ensures AllSettled(u, TrimStart(s))
    ensures TrimStart(s) != "" ==> !InCutset(TrimStart(s)[0])
    decreases |s|
  {
    if s != "" && InCutset(s[0]) {
      TrimStartSettled(u, s[1..]);
    }
  }

  lemma {:induction false} TrimEndSettled(u: Unicode, s: string)
    requires AllSettled(u, s) && (s != "" ==> !InCutset(s[0]))
    ensures TrimEnd(s) != "" ==> Term(u, TrimEnd(s))
    decreases |s|
  {
    if s != "" && InCutset(s[|s| - 1]) {
      TrimEndSettled(u, s[..|s| - 1]);
    }
  }

  lemma FlushGivesTerms(u: Unicode, r: Reading)
    requires AllSettled(u, r.current) && forall t <- r.tokens :: Term(u, t)
    ensures forall t <- Flush(r).tokens :: Term(u, t)
  {
    TrimStartSettled(u, r.current);
    TrimEndSettled(u, TrimStart(r.current));
  }

  lemma {:induction false} ReadGivesTerms(u: Unicode, s: string)
    ensures AllSettled(u, Read(u, s).current) && forall t <- Read(u, s).tokens :: Term(u, t)
    decreases |s|
  {
    if s != "" {
      var before := Read(u, s[..|s| - 1]);
      ReadGivesTerms(u, s[..|s| - 1]);
      FlushGivesTerms(u, before);
    }
  }

  lemma TokensAreTerms(u: Unicode, text: string)
    ensures forall t <- Tokens(u, text) :: Term(u, t)
  {
    ReadGivesTerms(u, Folded(u, text));
    FlushGivesTerms(u, Read(u, Folded(u, text)));
  }

  // --- No letter is lost ----------------------------------------------------------------

  ghost function Letters(u: Unicode, s: string): string {
    if s == "" then ""
    else if u.letter(s[|s| - 1]) then Letters(u, s[..|s| - 1]) + [s[|s| - 1]]
    else Letters(u, s[..|s| - 1])
  }

  ghost function Concatenated(words: seq<string>): string {
    if words == [] then "" else Concatenated(words[..|words| - 1]) + words[|words| - 1]
  }

  lemma {:induction false} LettersConcat(u: Unicode, a: string, b: string, both: string)
    requires both == a + b
    ensures Letters(u, both) == Letters(u, a) + Letters(u, b)
    decreases |b|
  {
    if b == "" {
      assert both == a;
    } else {
      LettersConcat(u, a, b[..|b| - 1], both[..|both| - 1]);
      assert both[|both| - 1] == b[|b| - 1];
    }
  }

  /** None of the characters trimmed off is a letter, a number or a mark. */
  ghost predicate CutsetIsNoLetter(u: Unicode) {
    !u.letter('\'') && !u.letter('\U{2019}') && !u.letter(ZWNJ) && !u.letter(ZWJ)
  }

  lemma {:induction false} TrimStartKeepsLetters(u: Unicode, s: string)
    requires CutsetIsNoLetter(u)
    ensures Letters(u, TrimStart(s)) == Letters(u, s)
    decreases |s|
  {
    if s != "" && InCutset(s[0]) {
      TrimStartKeepsLetters(u, s[1..]);
      assert [s[0]][..0] == "" && Letters(u, [s[0]]) == "";
      LettersConcat(u, [s[0]], s[1..], s);
    }
  }

  lemma {:induction false} TrimEndKeepsLetters(u: Unicode, s: string)
    requires CutsetIsNoLetter(u)
    ensures Letters(u, TrimEnd(s)) == Letters(u, s)
    decreases |s|
  {
    if s != "" && InCutset(s[|s| - 1]) {
      TrimEndKeepsLetters(u, s[..|s| - 1]);
    }
  }

  lemma FlushKeepsLetters(u: Unicode, r: Reading)
    requires CutsetIsNoLetter(u)
    ensures Letters(u, Concatenated(Flush(r).tokens)) == Letters(u, Concatenated(r.tokens)) + Letters(u, r.current)
  {
    var term := TrimTerm(r.current);
    TrimStartKeepsLetters(u, r.current);
    TrimEndKeepsLetters(u, TrimStart(r.current));
    if r.current != "" && term != "" {
      var longer := r.tokens + [term];
      assert longer[..|longer| - 1] == r.tokens;
      LettersConcat(u, Concatenated(r.tokens), term, Concatenated(longer));
    }
  }

  lemma FeedKeepsLetters(u: Unicode, r: Reading, raw: char)
    requires CutsetIsNoLetter(u)
    ensures var r', c := Feed(u, r, raw), Canonical(raw);
      Letters(u, Concatenated(r'.tokens)) + Letters(u, r'.current) ==
        Letters(u, Concatenated(r.tokens)) + Letters(u, r.current) + Letters(u, [c])
  {
    var c := Canonical(raw);
    assert [c][..0] == "";
    if Joins(u, c, r.current) {
      LettersConcat(u, r.current, [c], r.current + [c]);
    } else {
      FlushKeepsLetters(u, r);
    }
  }

  lemma {:induction false} ReadKeepsLetters(u: Unicode, s: string)
    requires CutsetIsNoLetter(u)
    ensures Letters(u, Concatenated(Read(u, s).tokens)) + Letters(u, Read(u, s).current) == Letters(u, CanonicalText(s))
    decreases |s|
  {
    if s != "" {
      var front, raw := s[..|s| - 1], s[|s| - 1];
      ReadKeepsLetters(u, front);
      FeedKeepsLetters(u, Read(u, front), raw);
      assert CanonicalText(s) == CanonicalText(front) + [Canonical(raw)];
      LettersConcat(u, CanonicalText(front), [Canonical(raw)], CanonicalText(s));
    }
  }

  /** The terms hold all letters, numbers and marks of the folded text, in order, with the two Persian letters in place. */
  lemma NoLetterIsLost(u: Unicode, text: string)
    requires CutsetIsNoLetter(u)
    ensures Letters(u, Concatenated(Tokens(u, text))) == Letters(u, CanonicalText(Folded(u, text)))
  {
    ReadKeepsLetters(u, Folded(u, text));
    FlushKeepsLetters(u, Read(u, Folded(u, text)));
  }

  // --- Tokenizing is stable ------------------------------------------------------------

  function JoinWords(words: seq<string>): string {
    if words == [] then ""
    else if |words| == 1 then words[0]
    else JoinWords(words[..|words| - 1]) + " " + words[|words| - 1]
  }

  lemma TermIsKept(u: Unicode, t: string)
    requires Term(u, t)
    ensures TrimTerm(t) == t
  {
  }

  lemma ReadSnoc(u: Unicode, s: string, c: char, longer: string)
    requires longer == s + [c]
    ensures Read(u, longer) == Feed(u, Read(u, s), c)
  {
    assert longer[..|longer| - 1] == s;
  }

  /** Reading a term after a settled beginning makes it the current term. */
  lemma {:induction false} ReadWord(u: Unicode, s: string, t: string, n: nat)
    requires Term(u, t) && n <= |t| && Read(u, s).current == ""
    ensures Read(u, s + t[..n]) == Reading(Read(u, s).tokens, t[..n])
    decreases n
  {
    if n == 0 {
      assert s + t[..0] == s;
    } else {
      ReadWord(u, s, t, n - 1);
      var before, c := t[..n - 1], t[n - 1];
      assert before + [c] == t[..n];
      assert s + t[..n] == s + before + [c];
      ReadSnoc(u, s + before, c, s + t[..n]);
      assert Settled(u, c) && (before == "" ==> !InCutset(c));
    }
  }

  lemma {:induction false} ReadJoined(u: Unicode, words: seq<string>)
    requires !u.letter(' ') && words != [] && forall t <- words :: Term(u, t)
    ensures Read(u, JoinWords(words)) == Reading(words[..|words| - 1], words[|words| - 1])
    decreases |words|
  {
    var n := |words| - 1;
    var last := words[n];
    assert last[..|last|] == last;
    if n == 0 {
      ReadWord(u, "", last, |last|);
      assert "" + last == last;
    } else {
      var front := words[..n];
      var start := JoinWords(front);
      ReadJoined(u, front);
      ReadSpace(u, start, front);
      ReadWord(u, start + " ", last, |last|);
    }
  }

  /** A space after the last of some terms settles it. */
  lemma ReadSpace(u: Unicode, s: string, words: seq<string>)
    requires !u.letter(' ') && words != [] && Term(u, words[|words| - 1])
    requires Read(u, s) == Reading(words[..|words| - 1], words[|words| - 1])
    ensures Read(u, s + " ") == Reading(words, "")
  {
    var n := |words| - 1;
    ReadSnoc(u, s, ' ', s + " ");
    TermIsKept(u, words[n]);
    assert words[..n] + [words[n]] == words;
  }

  /** Tokenizing the terms again, joined by spaces, gives the same terms, as soon as normalising and folding
      leave their joined text alone. */
  lemma RetokenizeIsStable(u: Unicode, text: string)
    requires !u.letter(' ')
    requires Folded(u, JoinWords(Tokens(u, text))) == JoinWords(Tokens(u, text))
    ensures Tokens(u, JoinWords(Tokens(u, text))) == Tokens(u, text)
  {
    var words := Tokens(u, text);
    TokensAreTerms(u, text);
    if words != [] {
      ReadJoined(u, words);
      TermIsKept(u, words[|words| - 1]);
      assert words[..|words| - 1] + [words[|words| - 1]] == words;
    }
  }

  function CanonicalText(s: string): (r: string)
    ensures |r| == |s| && forall i :: 0 <= i < |s| ==> r[i] == Canonical(s[i])
    ensures forall i :: 0 <= i < |s| ==>
      r[i] == if s[i] == '\U{64A}' then '\U{6CC}' else if s[i] == '\U{643}' then '\U{6A9}' else s[i]
  {
    seq(|s|, i requires 0 <= i < |s| => Canonical(s[i]))
  }

  /** Text that normalising and folding leave alone. */
  ghost predicate Fixed(u: Unicode, s: string) {
    Folded(u, s) == s
  }

  /** What folding leaves alone it still leaves alone cut up, with the two Persian letters replaced, or put
      together with a space. Folding itself need not be idempotent, and with the source's tables it is not. */
  ghost predicate FoldingIsStable(u: Unicode) {
    && (forall s: string, i: nat, j: nat :: i <= j <= |s| && Fixed(u, s) ==> Fixed(u, s[i..j]))
    && (forall s: string :: Fixed(u, s) ==> Fixed(u, CanonicalText(s)))
    && (forall a: string, b: string :: Fixed(u, a) && Fixed(u, b) ==> Fixed(u, a + " " + b))
  }

  /** The part of canonical from i to j. */
  ghost predicate Part(part: string, canonical: string, i: nat, j: nat) {
    i <= j <= |canonical| && part == canonical[i..j]
  }

  lemma {:induction false} TrimStartIsPart(s: string) returns (i: nat)
    ensures Part(TrimStart(s), s, i, |s|)
    decreases |s|
  {
    i := 0;
    if s != "" && InCutset(s[0]) {
      var k := TrimStartIsPart(s[1..]);
      i := k + 1;
    }
  }

  lemma {:induction false} TrimEndIsPart(s: string) returns (j: nat)
    ensures Part(TrimEnd(s), s, 0, j)
    decreases |s|
  {
    j := |s|;
    if s != "" && InCutset(s[|s| - 1]) {
      j := TrimEndIsPart(s[..|s| - 1]);
    }
  }

  lemma FlushKeepsFixed(u: Unicode, r: Reading)
    requires FoldingIsStable(u) && Fixed(u, r.current) && forall t <- r.tokens :: Fixed(u, t)
    ensures forall t <- Flush(r).tokens :: Fixed(u, t)
  {
    var i := TrimStartIsPart(r.current);
    var j := TrimEndIsPart(TrimStart(r.current));
    assert Fixed(u, TrimStart(r.current));
    assert Fixed(u, TrimTerm(r.current));
  }

  lemma FeedKeepsFixed(u: Unicode, text: string, r: Reading, n: nat, raw: char)
    requires FoldingIsStable(u) && Fixed(u, text) && n < |text| && text[n] == Canonical(raw)
    requires |r.current| <= n && r.current == text[n - |r.current|..n] && forall t <- r.tokens :: Fixed(u, t)
    ensures var r' := Feed(u, r, raw);
      && |r'.current| <= n + 1 && r'.current == text[n + 1 - |r'.current|..n + 1]
      && (forall t <- r'.tokens :: Fixed(u, t))
  {
    assert Fixed(u, r.current);
    FlushKeepsFixed(u, r);
  }

  /** The term being read is the tail of the canonical text read so far. */
  lemma {:induction false} ReadKeepsFixed(u: Unicode, s: string, n: nat)
    requires FoldingIsStable(u) && Fixed(u, CanonicalText(s)) && n <= |s|
    ensures var r := Read(u, s[..n]);
      && |r.current| <= n && r.current == CanonicalText(s)[n - |r.current|..n]
      && (forall t <- r.tokens :: Fixed(u, t))
    decreases n
  {
    if n > 0 {
      ReadKeepsFixed(u, s, n - 1);
      ReadSnoc(u, s[..n - 1], s[n - 1], s[..n]);
      FeedKeepsFixed(u, CanonicalText(s), Read(u, s[..n - 1]), n - 1, s[n - 1]);
    }
  }

  lemma {:induction false} JoinKeepsFixed(u: Unicode, words: seq<string>)
    requires FoldingIsStable(u) && words != [] && forall t <- words :: Fixed(u, t)
    ensures Fixed(u, JoinWords(words))
    decreases |words|
  {
    if |words| > 1 {
      JoinKeepsFixed(u, words[..|words| - 1]);
    }
  }

  /** Whatever folds to something folding leaves alone has stable terms. */
  lemma RetokenizeFoldedOnce(u: Unicode, text: string)
    requires !u.letter(' ') && FoldingIsStable(u) && Fixed(u, Folded(u, text))
    ensures Tokens(u, JoinWords(Tokens(u, text))) == Tokens(u, text)
  {
    var folded := Folded(u, text);
    assert folded[..|folded|] == folded;
    assert Fixed(u, CanonicalText(folded));
    ReadKeepsFixed(u, folded, |folded|);
    FlushKeepsFixed(u, Read(u, folded));
    if Tokens(u, text) == [] {
      assert folded[0..0] == "";
    } else {
      JoinKeepsFixed(u, Tokens(u, text));
    }
    RetokenizeIsStable(u, text);
  }

  /** Neither an apostrophe, straight or curly, nor a joiner or non-joiner cuts a word in two. */
  lemma WordsStayTogether(u: Unicode, t: string)
    requires CutsetIsNoLetter(u) && Fixed(u, t) && t != "" && u.letter(t[0]) && u.letter(t[|t| - 1])
    requires forall i :: 0 <= i < |t| ==>
      if u.letter(t[i]) then t[i] != '\U{64A}' && t[i] != '\U{643}'
      else t[i] == '\'' || t[i] == '\U{2019}' || t[i] == '\U{200C}' || t[i] == '\U{200D}'
    ensures Tokens(u, t) == [t]
  {
    assert Term(u, t);
    assert t[..|t|] == t && "" + t == t;
    ReadWord(u, "", t, |t|);
    TermIsKept(u, t);
  }

  // --- When retokenizing is stable ----------------------------------------------------------

  /** A space keeps what stands before it apart, for folding, from a term behind it. */
  ghost predicate SpaceSeparates(u: Unicode) {
    && (forall a: string, t: string :: Term(u, t) ==> Folded(u, a + " " + t) == Folded(u, a) + " " + Folded(u, t))
    && Folded(u, "") == ""
  }

  /** Each of these folds to a term. Not every term does: one half, a number, folds to three characters of which the
      middle one is a symbol. But the terms of a text come out of folding, and so do not hold such characters. */
  ghost predicate FoldToTerms(u: Unicode, words: seq<string>) {
    forall t <- words :: Term(u, Folded(u, t))
  }

  function FoldedTerms(u: Unicode, words: seq<string>): (r: seq<string>)
    ensures |r| == |words| && forall i :: 0 <= i < |r| ==> r[i] == Folded(u, words[i])
  {
    seq(|words|, i requires 0 <= i < |words| => Folded(u, words[i]))
  }

  lemma {:induction false} FoldJoined(u: Unicode, words: seq<string>)
    requires SpaceSeparates(u) && forall t <- words :: Term(u, t)
    ensures Folded(u, JoinWords(words)) == JoinWords(FoldedTerms(u, words))
    decreases |words|
  {
    if |words| > 1 {
      var n := |words| - 1;
      FoldJoined(u, words[..n]);
      assert FoldedTerms(u, words)[..n] == FoldedTerms(u, words[..n]);
    }
  }

  /** Tokenizing terms joined by spaces folds each of them. */
  lemma RetokenizeFolds(u: Unicode, words: seq<string>)
    requires !u.letter(' ') && SpaceSeparates(u) && FoldToTerms(u, words) && forall t <- words :: Term(u, t)
    ensures Tokens(u, JoinWords(words)) == FoldedTerms(u, words)
  {
    var folded := FoldedTerms(u, words);
    FoldJoined(u, words);
    forall t <- folded ensures Term(u, t) {
      var i :| 0 <= i < |folded| && folded[i] == t;
      assert words[i] in words;
    }
    if words != [] {
      ReadJoined(u, folded);
      TermIsKept(u, folded[|folded| - 1]);
      assert folded[..|folded| - 1] + [folded[|folded| - 1]] == folded;
    }
  }

  /** Tokenizing the terms of a text again gives the same terms exactly if folding leaves every one of them alone. */
  lemma RetokenizeStableIff(u: Unicode, text: string)
    requires !u.letter(' ') && SpaceSeparates(u) && FoldToTerms(u, Tokens(u, text))
    ensures Tokens(u, JoinWords(Tokens(u, text))) == Tokens(u, text) <==> forall t <- Tokens(u, text) :: Fixed(u, t)
  {
    var words := Tokens(u, text);
    TokensAreTerms(u, text);
    RetokenizeFolds(u, words);
    if FoldedTerms(u, words) == words {
      forall t <- words ensures Fixed(u, t) {
        var i :| 0 <= i < |words| && words[i] == t;
        assert FoldedTerms(u, words)[i] == words[i];
      }
    }
    if forall t <- words :: Fixed(u, t) {
      assert forall i :: 0 <= i < |words| ==> FoldedTerms(u, words)[i] == words[i];
    }
  }

  // --- First occurrences -------------------------------------------------------------------

  function FirstOccurrences(tokens: seq<string>): seq<string> {
    if tokens == [] then []
    else
      var front := FirstOccurrences(tokens[..|tokens| - 1]);
      if tokens[|tokens| - 1] in tokens[..|tokens| - 1] then front else front + [tokens[|tokens| - 1]]
  }

  /** uniqueWordCloudTerms as the source runs it. */
  method UniqueWordCloudTerms(tokens: seq<string>) returns (terms: seq<string>)
    ensures terms == FirstOccurrences(tokens)
  {
    terms := [];
    var seen: set<string> := {};
    for n := 0 to |tokens|
      invariant terms == FirstOccurrences(tokens[..n])
      invariant forall t :: t in seen <==> t in tokens[..n]
    {
      var term := tokens[n];
      assert tokens[..n + 1][..n] == tokens[..n];
      assert tokens[..n + 1] == tokens[..n] + [term];
      if term in seen {
        continue;
      }
      seen := seen + {term};
      terms := terms + [term];
    }
    assert tokens[..|tokens|] == tokens;
  }

  /** Where t first occurs; one past the end if it does not. */
  function FirstIndex(tokens: seq<string>, t: string): (i: nat)
    ensures i <= |tokens|
    ensures t !in tokens[..i]
    ensures i < |tokens| <==> t in tokens
    ensures i < |tokens| ==> tokens[i] == t
  {
    if tokens == [] then 0
    else
      var n := |tokens| - 1;
      assert tokens == tokens[..n] + [tokens[n]];
      var i := FirstIndex(tokens[..n], t);
      assert tokens[..n][..i] == tokens[..i];
      if i < n then i else if tokens[n] == t then n else n + 1
  }

  /** Every term occurs once, none is lost, and they stand in the order of their first occurrence. */
  lemma {:induction false} FirstOccurrencesInOrder(tokens: seq<string>)
    ensures var terms := FirstOccurrences(tokens);
      && |terms| <= |tokens|
      && (forall t :: t in terms <==> t in tokens)
      && (forall i, j :: 0 <= i < j < |terms| ==> FirstIndex(tokens, terms[i]) < FirstIndex(tokens, terms[j]))
    decreases |tokens|
  {
    if tokens != [] {
      var n := |tokens| - 1;
      var front := FirstOccurrences(tokens[..n]);
      FirstOccurrencesInOrder(tokens[..n]);
      assert tokens == tokens[..n] + [tokens[n]];
      forall t | t in tokens[..n] ensures FirstIndex(tokens, t) == FirstIndex(tokens[..n], t) {
      }
      assert forall i :: 0 <= i < |front| ==> front[i] in tokens[..n];
    }
  }
}

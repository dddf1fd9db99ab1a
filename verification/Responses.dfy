/** normalizeActivityResponse: which answers are accepted, and what is stored of them. */
module Responses {
  import opened Prelude
  import opened Definitions
  import opened WordCloud

  /** A request body: its length, and what strict decoding makes of it. */
  datatype Body = Malformed | ChoiceBody(indexes: seq<int>) | TextBody(text: string)

  datatype Response = Response(size: nat, body: Body)

  datatype Stored = Selected(indexes: seq<int>) | Written(text: string, terms: seq<string>)

  predicate IndexesAccepted(d: ActivityDefinition, indexes: seq<int>) {
    && 0 < |indexes| <= |d.options|
    && (forall k :: 0 <= k < |indexes| ==> 0 <= indexes[k] < |d.options|)
    && Distinct(indexes)
    && (d.selection == Single ==> |indexes| == 1)
  }

  function Normalized(u: Unicode, d: ActivityDefinition, r: Response): Option<Stored> {
    if r.size == 0 || r.size > 8192 then None
    else
      match (d.kind, r.body)
      case (Choice, ChoiceBody(indexes)) => if IndexesAccepted(d, indexes) then Some(Selected(indexes)) else None
      case (Text, TextBody(raw)) => NormalizedText(u, d, TrimSpace(u.nfkc(raw)))
      case _ => None
  }

  function NormalizedText(u: Unicode, d: ActivityDefinition, text: string): Option<Stored> {
    var tokens := Tokens(u, text);
    if text == "" || |text| > d.maxLength || tokens == [] || |tokens| > d.maxWords then None
    else Some(Written(text, FirstOccurrences(tokens)))
  }

  method CheckIndexes(d: ActivityDefinition, indexes: seq<int>) returns (ok: bool)
    ensures ok == IndexesAccepted(d, indexes)
  {
    if |indexes| == 0 || |indexes| > |d.options| {
      return false;
    }
    var seen: set<int> := {};
    for n := 0 to |indexes|
      invariant forall k :: 0 <= k < n ==> 0 <= indexes[k] < |d.options|
      invariant Distinct(indexes[..n]) && seen == Elements(indexes[..n])
    {
      var index := indexes[n];
      NextElement(indexes, n);
      if index < 0 || index >= |d.options| || index in seen {
        return false;
      }
      seen := seen + {index};
    }
    assert indexes[..|indexes|] == indexes;
    return !(d.selection == Single && |indexes| != 1);
  }

  method NormalizeActivityResponse(u: Unicode, d: ActivityDefinition, r: Response) returns (stored: Option<Stored>)
    ensures stored == Normalized(u, d, r)
  {
    if r.size == 0 || r.size > 8192 {
      return None;
    }
    match (d.kind, r.body) {
      case (Choice, ChoiceBody(indexes)) =>
        var ok := CheckIndexes(d, indexes);
        return if ok then Some(Selected(indexes)) else None;
      case (Text, TextBody(raw)) =>
        var text := TrimSpace(u.nfkc(raw));
        if |text| == 0 || |text| > d.maxLength {
          return None;
        }
        var tokens := WordCloudTokens(u, text);
        if |tokens| == 0 || |tokens| > d.maxWords {
          return None;
        }
        var terms := UniqueWordCloudTerms(tokens);
        return Some(Written(text, terms));
      case _ =>
        return None;
    }
  }

  /** Whatever is stored of a word-cloud answer is a non-empty list of different, non-empty terms, at most
      max_words of them, standing in the order in which the answer first uses them. */
  lemma StoredTerms(u: Unicode, d: ActivityDefinition, r: Response)
    requires ValidDefinition(d) && d.kind == Text && Normalized(u, d, r).Some?
    ensures 1 <= r.size <= 8192 && r.body.TextBody?
    ensures var stored := Normalized(u, d, r).value;
      && stored.Written?
      && stored.text == TrimSpace(u.nfkc(r.body.text)) && 1 <= |stored.text| <= d.maxLength <= 500
      && 1 <= |stored.terms| <= d.maxWords <= 10
      && Distinct(stored.terms)
      && (forall t <- stored.terms :: t != "")
      && (forall t :: t in stored.terms <==> t in Tokens(u, stored.text))
      && (forall i, j :: 0 <= i < j < |stored.terms| ==>
            FirstIndex(Tokens(u, stored.text), stored.terms[i]) < FirstIndex(Tokens(u, stored.text), stored.terms[j]))
  {
    var text := TrimSpace(u.nfkc(r.body.text));
    var tokens := Tokens(u, text);
    TokensAreTerms(u, text);
    FirstOccurrencesInOrder(tokens);
    assert tokens[0] in FirstOccurrences(tokens);
  }

  /** An answer to a choice activity is accepted exactly if it chooses different options there are, at least one, and just
      one where only one may be chosen; it is stored as it came. */
  lemma ChoiceAcceptedIff(u: Unicode, d: ActivityDefinition, r: Response)
    requires d.kind == Choice
    ensures Normalized(u, d, r).Some? <==>
      && 1 <= r.size <= 8192 && r.body.ChoiceBody? && 1 <= |r.body.indexes| && (d.selection == Single ==> |r.body.indexes| == 1)
      && (forall k :: 0 <= k < |r.body.indexes| ==> 0 <= r.body.indexes[k] < |d.options|)
      && (forall j, k :: 0 <= j < k < |r.body.indexes| ==> r.body.indexes[j] != r.body.indexes[k])
    ensures Normalized(u, d, r).Some? ==> Normalized(u, d, r) == Some(Selected(r.body.indexes))
  {
    if r.body.ChoiceBody? && Distinct(r.body.indexes) && forall k :: 0 <= k < |r.body.indexes| ==> 0 <= r.body.indexes[k] < |d.options| {
      NoMoreThanThereAre(r.body.indexes, |d.options|);
    }
  }

  lemma NoMoreThanThereAre(indexes: seq<int>, n: nat)
    requires Distinct(indexes) && forall k :: 0 <= k < |indexes| ==> 0 <= indexes[k] < n
    ensures |indexes| <= n
  {
    var shifted := seq(|indexes|, k requires 0 <= k < |indexes| => indexes[k] + 1);
    DistinctCount(shifted);
    SubsetIsSmaller(Elements(shifted), Range(n));
  }
}

/** Two navigation commands the server refuses: going on from a draft, and starting over while answers are taken. */
module LivePlansExample {
  import opened Prelude
  import opened LiveState
  import opened LiveEvents
  import opened Definitions
  import opened Ledger
  import opened LedgerTheorems
  import opened LivePlans
  import WordCloud
  import E = LedgerExample

  lemma GoingOnFromADraft(unicode: WordCloud.Unicode)
    ensures Reachable(E.New(unicode)) && Presentable(E.New(unicode).slides, Some(E.SLIDE))
    ensures !Navigate(E.New(unicode), [100], NextCommand, Some(E.SLIDE), 0).1
  {
    var l := E.New(unicode);
    assert NewSession(l) && l == After(l, []);
    NavigationAcceptedIff(l, [100], NextCommand, Some(E.SLIDE), 0);
  }

  lemma StartingOver(unicode: WordCloud.Unicode, d: ActivityDefinition)
    ensures Reachable(E.Asking(unicode, d)) && Presentable(E.Asking(unicode, d).slides, Some(E.ACTIVITY))
    ensures !Navigate(E.Asking(unicode, d), [102], StartCommand, Some(E.ACTIVITY), 0).1
  {
    E.AskingIsReachable(unicode, d);
    NavigationAcceptedIff(E.Asking(unicode, d), [102], StartCommand, Some(E.ACTIVITY), 0);
  }
}

/** apps/api/internal/live/state.go: session states and the command guard. */
module LiveState {
  import opened Prelude

  datatype State = Draft | Lobby | Presenting | Ended

  datatype Phase = Accepting | Closed | Revealed

  datatype StageView = ItemView | OverallRanking

  /** A command name as it arrives in a request; anything unrecognised is Unknown. */
  datatype Action = Start | PresentItem | CloseActivity | RevealActivity | ShowOverallRanking | End | Unknown

  predicate CanTransition(from: State, to: State) {
    match from
    case Draft => to == Lobby
    case Lobby => to == Presenting || to == Ended
    case Presenting => to == Presenting || to == Ended
    case Ended => false
  }

  predicate CanApplyAction(state: State, phase: Option<Phase>, action: Action) {
    match action
    case Start => state == Draft
    case PresentItem => state == Lobby || (state == Presenting && (phase == None || phase == Some(Revealed)))
    case CloseActivity => state == Presenting && phase == Some(Accepting)
    case RevealActivity => state == Presenting && phase == Some(Closed)
    case ShowOverallRanking => state == Presenting && phase == Some(Revealed)
    case End => state == Lobby || (state == Presenting && phase != Some(Accepting))
    case Unknown => false
  }
}

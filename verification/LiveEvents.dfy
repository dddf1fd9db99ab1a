/** The rows of the live_events table. */
module LiveEvents {
  import opened Prelude
  import opened LiveState
  import opened Tallies

  /** The session columns an event payload, a command result and a snapshot all carry. */
  datatype SessionView = SessionView(
    state: State,
    active: Option<Uuid>,
    phase: Option<Phase>,
    view: StageView,
    endsAt: Option<int>)

  datatype ResultPayload = OptionCounts(counts: map<int, nat>) | TermCounts(terms: seq<TermCount>)

  datatype ActivityResult = ActivityResult(item: Uuid, responseCount: nat, payload: ResultPayload)

  datatype Payload =
    | SessionCreated(created: SessionView)
    | StateChanged(session: SessionView, deadlineElapsed: bool)
    | PresenceUpdated(delta: int)
    | ResultUpdated(result: ActivityResult)
    | RankingUpdated(participantCount: nat)

  datatype Event = Event(id: int, version: int, payload: Payload)

  predicate IsPresence(e: Event) {
    e.payload.PresenceUpdated?
  }

  /** Ids come from one increasing sequence that starts at 1. */
  ghost predicate Increasing(s: seq<Event>) {
    && (forall i :: 0 <= i < |s| ==> 1 <= s[i].id)
    && (forall i, j :: 0 <= i < j < |s| ==> s[i].id < s[j].id)
  }

  /** COALESCE(max(event_id), 0). */
  function LatestId(log: seq<Event>): int {
    if log == [] then 0 else log[|log| - 1].id
  }
}

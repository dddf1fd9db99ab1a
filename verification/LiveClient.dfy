/** The cursor of apps/web/src/modules/live/runtime/protocol.ts and the session state LiveRuntime.ts keeps under it. */
module LiveClient {
  import opened Prelude
  import opened LiveState
  import opened LiveEvents

  datatype Cursor = Cursor(eventId: int, stateVersion: int)

  datatype Snapshot = Snapshot(session: Uuid, view: SessionView, version: int, lastEventId: int, count: int, result: Option<ActivityResult>)

  predicate ShouldApply(cursor: Cursor, e: Event) {
    cursor.eventId < e.id && cursor.stateVersion <= e.version
  }

  function Advance(cursor: Cursor, e: Event): Cursor {
    if !ShouldApply(cursor, e) then cursor
    else Cursor(e.id, if cursor.stateVersion < e.version then e.version else cursor.stateVersion)
  }

  const INITIAL: Cursor := Cursor(0, 0)

  /** The fields of the runtime that belong to the selected session. */
  datatype Client = Client(selected: Option<Uuid>, cursor: Cursor, snapshot: Option<Snapshot>)

  function Select(c: Client, session: Uuid): Client {
    if c.selected == Some(session) then c else Client(Some(session), INITIAL, None)
  }

  /** A snapshot older than the cursor in either component is refused. */
  predicate Stale(cursor: Cursor, next: Snapshot) {
    next.lastEventId < cursor.eventId || next.version < cursor.stateVersion
  }

  function StoreSnapshot(c: Client, next: Snapshot): Client {
    if Stale(c.cursor, next) then c
    else c.(snapshot := Some(next), cursor := Cursor(next.lastEventId, next.version))
  }

  function NonNegative(n: int): int {
    if n < 0 then 0 else n
  }

  function Handle(c: Client, e: Event): Client {
    if !ShouldApply(c.cursor, e) then c
    else
      var moved := c.(cursor := Advance(c.cursor, e));
      if c.snapshot.None? then moved
      else
        match e.payload
        case PresenceUpdated(delta) =>
          var sum := if delta == 0 then c.snapshot.value.count else NonNegative(c.snapshot.value.count + delta);
          moved.(snapshot := Some(c.snapshot.value.(count := sum)))
        case ResultUpdated(result) => moved.(snapshot := Some(c.snapshot.value.(result := Some(result))))
        case _ => moved
  }

  /** What runAction leaves behind when its command is answered: the snapshot it captured before, with the new session columns. */
  function WriteBack(c: Client, captured: Snapshot, view: SessionView, version: int): Client {
    c.(snapshot := Some(captured.(view := view, version := version)))
  }

  /** The snapshot, once an accepted row has been shown: joins are added to the head count, which stays at nothing at least;
      a result replaces the one shown; everything else stays. */
  ghost predicate Shows(was: Option<Snapshot>, payload: Payload, now: Option<Snapshot>) {
    && (was.None? <==> now.None?)
    && (was.Some? ==>
          && now.value == was.value.(count := now.value.count, result := now.value.result)
          && (!payload.PresenceUpdated? ==> now.value.count == was.value.count)
          && (payload.PresenceUpdated? && 0 <= was.value.count ==>
                now.value.count == if was.value.count + payload.delta < 0 then 0 else was.value.count + payload.delta)
          && now.value.result == if payload.ResultUpdated? then Some(payload.result) else was.value.result)
  }

  class LiveRuntime {
    var selectedSessionId: Option<Uuid>
    var cursor: Cursor
    var snapshotValue: Option<Snapshot>

    ghost function State(): Client
      reads this
    {
      Client(selectedSessionId, cursor, snapshotValue)
    }

    constructor ()
      ensures State() == Client(None, INITIAL, None)
    {
      selectedSessionId, cursor, snapshotValue := None, INITIAL, None;
    }

    method SelectSession(session: Uuid)
      modifies this
      ensures State() == Select(old(State()), session)
      ensures selectedSessionId == Some(session)
      ensures if old(selectedSessionId) == Some(session) then cursor == old(cursor) && snapshotValue == old(snapshotValue)
              else cursor == Cursor(0, 0) && snapshotValue == None
    {
      if selectedSessionId == Some(session) {
        return;
      }
      selectedSessionId := Some(session);
      snapshotValue := None;
      cursor := INITIAL;
    }

    method Store(next: Snapshot) returns (stored: bool)
      modifies this`snapshotValue, this`cursor
      ensures State() == StoreSnapshot(old(State()), next)
      ensures stored <==> old(cursor).eventId <= next.lastEventId && old(cursor).stateVersion <= next.version
      ensures if stored then snapshotValue == Some(next) && cursor == Cursor(next.lastEventId, next.version)
              else snapshotValue == old(snapshotValue) && cursor == old(cursor)
    {
      if next.lastEventId < cursor.eventId || next.version < cursor.stateVersion {
        return false;
      }
      snapshotValue := Some(next);
      cursor := Cursor(next.lastEventId, next.version);
      return true;
    }

    method HandleEvent(e: Event)
      modifies this`snapshotValue, this`cursor
      ensures State() == Handle(old(State()), e)
      ensures e.id <= old(cursor).eventId || e.version < old(cursor).stateVersion ==> cursor == old(cursor) && snapshotValue == old(snapshotValue)
      ensures old(cursor).eventId < e.id && old(cursor).stateVersion <= e.version ==>
        cursor == Cursor(e.id, e.version) && Shows(old(snapshotValue), e.payload, snapshotValue)
    {
      if !ShouldApply(cursor, e) {
        return;
      }
      cursor := Advance(cursor, e);
      match e.payload {
        case PresenceUpdated(delta) =>
          if delta != 0 && snapshotValue.Some? {
            snapshotValue := Some(snapshotValue.value.(count := NonNegative(snapshotValue.value.count + delta)));
          }
        case ResultUpdated(result) =>
          if snapshotValue.Some? {
            snapshotValue := Some(snapshotValue.value.(result := Some(result)));
          }
        case _ =>
      }
    }

    method ActionAnswered(captured: Snapshot, view: SessionView, version: int)
      modifies this`snapshotValue
      ensures State() == WriteBack(old(State()), captured, view, version)
      ensures cursor == old(cursor) && snapshotValue == Some(captured.(view := view, version := version))
    {
      snapshotValue := Some(captured.(view := view, version := version));
    }
  }
}

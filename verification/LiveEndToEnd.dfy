/** From the ledger to the screen: the log the transactions write is the log the streams and the browser rely on. */
module LiveEndToEnd {
  import opened Prelude
  import opened LiveState
  import opened LiveEvents
  import opened EventLog
  import opened EventStream
  import L = Ledger
  import LC = LedgerChanges
  import LI = LedgerInvariants
  import LT = LedgerTheorems
  import D = Delivery
  import DT = DeliveryTheorems
  import C = LiveClient
  import CR = LiveClientRuns

  /** Every reachable ledger's log is one a browser may trust: ids strictly increase, versions never decrease. */
  lemma LedgerIsServerLog(l: L.Ledger)
    requires LT.Reachable(l)
    ensures CR.ServerLog(l.events)
  {
    LT.VersionsFollowIds(l);
    LT.ReachableInv(l);
    forall i | 0 <= i < |l.events| ensures 0 <= l.events[i].version {
      assert l.events[i].version == |LI.Views(l.events[..i + 1])|;
    }
  }

  lemma {:induction false} LogOnlyGrows(l: L.Ledger, steps: seq<L.Step>)
    requires LT.Inv(l)
    ensures l.events <= L.After(l, steps).events
    decreases |steps|
  {
    if steps != [] {
      var c := LC.NextChanges(l, steps[0]);
      LI.ChangeKeepsEvents(l, c);
      LT.NextKeeps(l, steps[0]);
      LogOnlyGrows(L.Next(l, steps[0]), steps[1..]);
    }
  }

  /** What one consistent read of the tables shows: the version, the last event id and the number of participants. */
  ghost predicate Reads(l: L.Ledger, s: C.Snapshot) {
    s.version == l.version && s.lastEventId == LatestId(l.events) && s.count == |l.participants|
  }

  /** A snapshot read from the tables is honest about the log, then and after any further transactions. */
  lemma SnapshotIsHonest(l: L.Ledger, s: C.Snapshot, steps: seq<L.Step>)
    requires LT.Reachable(l) && Reads(l, s)
    ensures CR.Honest(L.After(l, steps).events, |l.events|, s)
  {
    var later := L.After(l, steps).events;
    LT.ReachableInv(l);
    LogOnlyGrows(l, steps);
    assert later[..|l.events|] == l.events;
    assert l.events[..|l.events|] == l.events;
    assert l.events != [] && l.events[|l.events| - 1].version == l.version;
  }

  /** What an accepted command returns to the browser is a change in the log, then and after any further transactions. */
  lemma ReplyIsLogged(l: L.Ledger, host: Uuid, request: Uuid, action: Action, item: Option<Uuid>, now: int,
                      from: C.Snapshot, steps: seq<L.Step>)
    requires LT.Reachable(l)
    requires var r := L.ApplyAction(l, host, request, from.version, action, item, now).1; r.Ok? && !r.value.duplicate
    ensures var (l', r) := L.ApplyAction(l, host, request, from.version, action, item, now);
      CR.IsReply(L.After(l', steps).events, from, r.value.session, r.value.version)
  {
    var (l', r) := L.ApplyAction(l, host, request, from.version, action, item, now);
    LT.ReachableInv(l);
    LT.NextKeeps(l, L.Acts(host, request, from.version, action, item, now));
    LogOnlyGrows(l', steps);
    AcceptedLogs(l, host, request, from.version, action, item, now);
    StillThere(l'.events, L.After(l', steps).events, |l.events|);
  }

  lemma AcceptedLogs(l: L.Ledger, host: Uuid, request: Uuid, expected: int, action: Action, item: Option<Uuid>, now: int)
    requires var r := L.ApplyAction(l, host, request, expected, action, item, now).1; r.Ok? && !r.value.duplicate
    ensures var (l', r) := L.ApplyAction(l, host, request, expected, action, item, now);
      && r.value.version == expected + 1 && |l.events| < |l'.events|
      && l'.events[|l.events|] == Event(l.nextEvent, expected + 1, StateChanged(r.value.session, false))
  {
  }

  lemma StillThere(log: seq<Event>, longer: seq<Event>, k: nat)
    requires log <= longer && k < |log|
    ensures log[k] in longer
  {
    assert longer[k] == log[k];
  }

  /** A connection whose pipeline is drained has written exactly the log past its Last-Event-ID as its role may see it;
      and the joins it has announced, with those up to that id, are the participants there are and its repeats. */
  lemma DrainedConnectionKnowsTheRoom(s: D.System, c: nat, l: L.Ledger)
    requires DT.Reachable(s) && LT.Reachable(l) && c < |s.conns| && c < |s.broker.channels|
    requires D.Log(s, s.conns[c].session) == l.events
    requires var conn, ch := s.conns[c], s.broker.channels[c];
      && conn.live && ch.open && conn.queue == [] && ch.buffer == []
      && conn.stream < |s.outbox| && s.outbox[conn.stream] == []
      && conn.stream < |s.broker.streams| && s.broker.streams[conn.stream].cursor == LatestId(D.Log(s, conn.session))
    ensures var conn := s.conns[c];
      && Deltas(conn.written) + Joins(l.events[..CountUpTo(l.events, conn.last)]) == |l.participants| + conn.overcount
      && Key(conn.role, conn.written) == Key(conn.role, Above(l.events, conn.last))
  {
    DT.NothingWithheld(s, c);
    LT.CountsAgree(l);
    var n := CountUpTo(l.events, s.conns[c].last);
    JoinsConcat(l.events[..n], l.events[n..], l.events);
  }
}

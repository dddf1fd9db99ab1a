/** The broker as the source runs it: fields changed in place, one method for each critical section. */
module EventBroker {
  import opened Prelude
  import opened LiveEvents
  import opened EventLog
  import opened B = BrokerModel

  /** What one pass of Subscribe's loop finds out under the mutex. */
  datatype Entry = Refused | Joined(id: nat) | Wait(pending: nat) | Initialise(pending: nat)

  class EventBroker {
    const buffer: nat
    var sessions: map<Uuid, nat>
    var initializing: map<Uuid, nat>
    var closed: bool
    var streams: seq<Stream>
    var channels: seq<Channel>
    var outcomes: seq<Outcome>

    ghost function State(): Broker
      reads this
    {
      Broker(sessions, initializing, closed, streams, channels, outcomes)
    }

    ghost predicate Valid()
      reads this
    {
      B.Valid(State(), buffer)
    }

    constructor (subscriberBuffer: int)
      ensures Valid() && State() == EMPTY
      ensures buffer == if subscriberBuffer < 1 then 256 else subscriberBuffer
    {
      buffer := if subscriberBuffer < 1 then 256 else subscriberBuffer;
      sessions, initializing, closed := map[], map[], false;
      streams, channels, outcomes := [], [], [];
    }

    /** close(subscriber): closing a channel twice would panic. */
    method CloseChannel(id: nat)
      requires id < |channels| && channels[id].open
      modifies this`channels
      ensures channels == old(channels)[id := old(channels)[id].(open := false)]
    {
      channels := channels[id := channels[id].(open := false)];
    }

    /** subscriber <- event on the non-blocking branch: sending on a closed channel would panic. */
    method Send(id: nat, e: Event)
      requires id < |channels| && channels[id].open && |channels[id].buffer| < buffer
      modifies this`channels
      ensures channels == old(channels)[id := old(channels)[id].(buffer := old(channels)[id].buffer + [e])]
    {
      channels := channels[id := channels[id].(buffer := channels[id].buffer + [e])];
    }

    method AddSubscriberLocked(k: nat) returns (id: nat)
      requires k < |streams|
      modifies this`channels, this`streams
      ensures State() == AddSubscriber(old(State()), k) && id == |old(channels)|
    {
      id := |channels|;
      channels := channels + [Channel(k, [], true)];
      streams := streams[k := streams[k].(subscribers := streams[k].subscribers + {id})];
    }

    /** Subscribe up to the point where it returns, waits, or goes to the database. */
    method SubscribeEnter(session: Uuid) returns (entry: Entry)
      requires Valid()
      modifies this
      ensures Valid()
      ensures entry.Refused? <==> old(closed)
      ensures entry.Joined? <==> session in old(sessions)
      ensures entry.Joined? ==>
        State() == AddSubscriber(old(State()), old(sessions)[session]) && entry.id == |old(channels)|
      ensures entry.Joined? ==>
        && sessions == old(sessions) && channels == old(channels) + [Channel(sessions[session], [], true)]
        && sessions[session] < |streams| && streams[sessions[session]].subscribers == old(streams)[sessions[session]].subscribers + {entry.id}
      ensures entry.Wait? ==> State() == old(State()) && session in initializing && entry.pending == initializing[session]
      ensures entry.Initialise? ==>
        session !in old(initializing) && entry.pending == |old(outcomes)| && State() == BeginInit(old(State()), session)
      ensures entry.Initialise? ==> initializing == old(initializing)[session := entry.pending] && outcomes == old(outcomes) + [InProgress]
      ensures entry.Refused? ==> State() == old(State())
    {
      if closed {
        return Refused;
      }
      if session in sessions {
        AddSubscriberValid(State(), session, sessions[session], buffer);
        var id := AddSubscriberLocked(sessions[session]);
        return Joined(id);
      }
      if session in initializing {
        return Wait(initializing[session]);
      }
      BeginInitValid(State(), session, buffer);
      var pending := |outcomes|;
      initializing := initializing[session := pending];
      outcomes := outcomes + [InProgress];
      return Initialise(pending);
    }

    /** The rest of Subscribe for the caller that went to the database. */
    method InitializationDone(session: Uuid, pending: nat, latest: Option<int>) returns (id: Option<nat>)
      requires Valid()
      requires session in initializing && initializing[session] == pending
      modifies this
      ensures Valid()
      ensures State() == FinishInit(old(State()), session, pending, latest)
      ensures id == if latest.None? || old(closed) then None else Some(|old(channels)|)
      ensures initializing == Without(old(initializing), session) && closed == old(closed)
      ensures id.None? ==> sessions == old(sessions) && streams == old(streams) && channels == old(channels) && outcomes == old(outcomes)[pending := Failed]
      ensures id.Some? ==>
        && sessions == old(sessions)[session := |old(streams)|] && outcomes == old(outcomes)[pending := Ready]
        && streams == old(streams) + [Stream(session, latest.value, {id.value}, false)]
        && channels == old(channels) + [Channel(|old(streams)|, [], true)]
    {
      FinishInitValid(State(), session, pending, latest, buffer);
      id := Settle(session, pending, latest);
    }

    /** Settle an initialisation: wake the waiters, and put the stream on the air with its first subscriber. */
    method Settle(session: Uuid, pending: nat, latest: Option<int>) returns (id: Option<nat>)
      requires pending < |outcomes|
      modifies this
      ensures State() == FinishInit(old(State()), session, pending, latest)
      ensures id == if latest.None? || old(closed) then None else Some(|old(channels)|)
    {
      initializing := Without(initializing, session);
      if latest.None? || closed {
        outcomes := outcomes[pending := Failed];
        return None;
      }
      var stream := |streams|;
      streams := streams + [Stream(session, latest.value, {}, false)];
      sessions := sessions[session := stream];
      outcomes := outcomes[pending := Ready];
      var subscriber := AddSubscriberLocked(stream);
      var none: set<nat> := {};
      assert none + {subscriber} == {subscriber};
      assert streams == old(streams) + [Stream(session, latest.value, {subscriber}, false)];
      id := Some(subscriber);
    }

    /** publish: a full subscriber is dropped, and the stream goes with its last subscriber. */
    method Publish(session: Uuid, k: nat, e: Event)
      requires Valid() && k < |streams|
      modifies this
      ensures Valid() && State() == B.Publish(old(State()), session, k, e, buffer)
      ensures session == old(streams)[k].session ==>
        |channels| == |old(channels)| && forall id: nat :: id < |channels| ==> channels[id] == Told(old(channels)[id], k, e, buffer)
    {
      if session == streams[k].session { PublishTells(State(), session, k, e, buffer); }
      PublishValid(State(), session, k, e, buffer);
      SubscribersOpen(State(), k, buffer);
      if session in sessions && sessions[session] == k {
        PublishOnAir(session, k, e);
      }
    }

    method PublishOnAir(session: Uuid, k: nat, e: Event)
      requires k < |streams| && !streams[k].cancelled
      requires forall id <- streams[k].subscribers :: id < |channels| && channels[id].open
      modifies this`sessions, this`channels, this`streams
      ensures var b := old(State());
              var slow := Slow(b, k, buffer);
              State() == Drop(b.(channels := Deliver(b.channels, b.streams[k].subscribers - slow, e)), session, k, slow)
    {
      ghost var all, slow := streams[k].subscribers, Slow(State(), k, buffer);
      Offer(k, e);
      RetireIfEmpty(session, k);
      assert all * slow == slow;
    }

    /** The loop of publish over the subscribers, in whatever order the map yields them. */
    method Offer(k: nat, e: Event)
      requires k < |streams|
      requires forall id <- streams[k].subscribers :: id < |channels| && channels[id].open
      modifies this`channels, this`streams
      ensures var b := old(State());
              var all, slow := b.streams[k].subscribers, Slow(b, k, buffer);
              && channels == CloseAll(Deliver(b.channels, all - slow, e), slow)
              && streams == b.streams[k := b.streams[k].(subscribers := all - slow)]
    {
      ghost var before, all := channels, streams[k].subscribers;
      ghost var slow := Slow(State(), k, buffer);
      var rest := streams[k].subscribers;
      while rest != {}
        invariant rest <= all
        invariant |channels| == |before|
        invariant forall id: nat :: id < |channels| ==> channels[id] == Offered(before[id], id in all && id !in rest, e, buffer)
        invariant k < |streams| && streams == old(streams)[k := old(streams)[k].(subscribers := streams[k].subscribers)]
        invariant forall id :: id in streams[k].subscribers <==> id in all && (id in rest || id !in slow)
        decreases rest
      {
        var id :| id in rest;
        rest := rest - {id};
        OfferTo(k, id, e);
      }
      assert streams[k].subscribers == all - slow;
    }

    /** The select of publish: send if there is room, otherwise drop the subscriber. */
    method OfferTo(k: nat, id: nat, e: Event)
      requires k < |streams| && id < |channels| && channels[id].open
      modifies this`channels, this`streams
      ensures channels == old(channels)[id := Offered(old(channels)[id], true, e, buffer)]
      ensures streams == if |old(channels)[id].buffer| < buffer then old(streams)
                         else old(streams)[k := old(streams)[k].(subscribers := old(streams)[k].subscribers - {id})]
    {
      if |channels[id].buffer| < buffer {
        Send(id, e);
      } else {
        CloseChannel(id);
        streams := streams[k := streams[k].(subscribers := streams[k].subscribers - {id})];
      }
    }

    /** The shared tail of publish and unsubscribe. */
    method RetireIfEmpty(session: Uuid, k: nat)
      requires k < |streams| && !streams[k].cancelled
      modifies this`sessions, this`streams
      ensures sessions == if old(streams)[k].subscribers == {} then Without(old(sessions), session) else old(sessions)
      ensures streams == old(streams)[k := old(streams)[k].(cancelled := old(streams)[k].subscribers == {})]
    {
      if streams[k].subscribers == {} {
        sessions := Without(sessions, session);
        streams := streams[k := streams[k].(cancelled := true)];
      }
    }

    /** Close every channel of one stream: the loop fail and Close share. */
    method CloseSubscribers(k: nat)
      requires k < |streams|
      requires forall id <- streams[k].subscribers :: id < |channels| && channels[id].open
      modifies this`channels, this`streams
      ensures channels == CloseAll(old(channels), old(streams)[k].subscribers)
      ensures streams == old(streams)[k := old(streams)[k].(subscribers := {})]
    {
      ghost var before, all := channels, streams[k].subscribers;
      var rest := streams[k].subscribers;
      while rest != {}
        invariant rest <= all
        invariant |channels| == |before|
        invariant forall id: nat :: id < |channels| ==>
          channels[id] == before[id].(open := before[id].open && !(id in all && id !in rest))
        invariant streams == old(streams)[k := old(streams)[k].(subscribers := rest)]
        decreases rest
      {
        var id :| id in rest;
        CloseChannel(id);
        rest := rest - {id};
        streams := streams[k := streams[k].(subscribers := rest)];
      }
    }

    /** The inner loop of run: publish the rows of one compacted page in order. */
    method PublishAll(k: nat, items: seq<Event>)
      requires Valid() && k < |streams|
      modifies this
      ensures Valid() && SameStreams(old(State()), State()) && Got(old(channels), channels, k, items)
    {
      for n := 0 to |items|
        invariant Valid() && SameStreams(old(State()), State()) && Got(old(channels), channels, k, items[..n])
      {
        ghost var before := State();
        assert items[..n + 1] == items[..n] + [items[n]];
        PublishSends(before, streams[k].session, k, items[n], buffer);
        Publish(streams[k].session, k, items[n]);
        GotOneMore(old(channels), before, State(), k, items[..n], items[n]);
      }
      assert items[..|items|] == items;
    }

    /** One tick of run with nobody else in the way: reconcile the deadline, then page after page, the cursor first, each
        page read from the ledger as it then is, until one is short or a read fails. Whoever is still subscribed when
        the reading ends has been sent every row up to the cursor, each accounted for once; a failure then takes the
        stream off the air. */
    method Tick(k: nat, reconciled: bool, readings: seq<Option<seq<Event>>>, ghost ledger: seq<Event>)
      returns (failed: bool, turns: nat, ghost sent: seq<Event>, ghost told: B.Broker)
      requires Valid() && k < |streams| && Increasing(ledger)
      requires forall n :: 0 <= n < |readings| && readings[n].Some? ==> readings[n].value <= ledger
      modifies this
      ensures Valid() && |told.streams| == |old(streams)|
      ensures State() == if failed then B.Fail(told, told.streams[k].session, k) else told
      ensures Tiles(ledger, CountUpTo(ledger, old(streams)[k].cursor), sent)
      ensures CountUpTo(ledger, old(streams)[k].cursor) + TotalWidth(sent) == CountUpTo(ledger, told.streams[k].cursor)
      ensures Got(old(channels), told.channels, k, sent)
      ensures turns <= |readings| && (forall n :: 0 <= n < turns ==> readings[n].Some?)
      ensures failed ==> !reconciled || (turns < |readings| && readings[turns].None?)
      ensures !failed ==> reconciled && (turns == |readings| || UpToDate(readings, turns, told.streams[k].cursor))
      ensures !reconciled ==> turns == 0
    {
      if !reconciled {
        failed, turns, sent, told := true, 0, [], State();
      } else {
        var short;
        short, turns, sent := ReadPages(k, readings, ledger);
        told := State();
        failed := !short && turns < |readings|;
      }
      if failed {
        Fail(streams[k].session, k);
      }
    }

    method ReadPages(k: nat, readings: seq<Option<seq<Event>>>, ghost ledger: seq<Event>)
      returns (short: bool, turns: nat, ghost sent: seq<Event>)
      requires Valid() && k < |streams| && Increasing(ledger)
      requires forall n :: 0 <= n < |readings| && readings[n].Some? ==> readings[n].value <= ledger
      modifies this
      ensures Valid() && |streams| == |old(streams)|
      ensures Tiles(ledger, CountUpTo(ledger, old(streams)[k].cursor), sent)
      ensures CountUpTo(ledger, old(streams)[k].cursor) + TotalWidth(sent) == CountUpTo(ledger, streams[k].cursor)
      ensures Got(old(channels), channels, k, sent)
      ensures turns <= |readings| && forall n :: 0 <= n < turns ==> readings[n].Some?
      ensures short ==> UpToDate(readings, turns, streams[k].cursor)
      ensures !short ==> turns == |readings| || readings[turns].None?
    {
      short, turns, sent := false, 0, [];
      ghost var from := CountUpTo(ledger, streams[k].cursor);
      while !short && turns < |readings| && readings[turns].Some?
        invariant Valid() && |streams| == |old(streams)|
        invariant Tiles(ledger, from, sent) && from + TotalWidth(sent) == CountUpTo(ledger, streams[k].cursor)
        invariant Got(old(channels), channels, k, sent)
        invariant turns <= |readings| && forall n :: 0 <= n < turns ==> readings[n].Some?
        invariant short ==> UpToDate(readings, turns, streams[k].cursor)
        decreases !short, |readings| - turns
      {
        ghost var before := channels;
        ghost var items;
        short, items := TickPage(k, readings[turns].value, ledger);
        TilesJoin(ledger, from, sent, items, sent + items);
        GotBoth(old(channels), before, channels, k, sent, items);
        sent := sent + items;
        turns := turns + 1;
      }
    }

    /** One page of a tick. */
    method TickPage(k: nat, reading: seq<Event>, ghost ledger: seq<Event>) returns (short: bool, ghost items: seq<Event>)
      requires Valid() && k < |streams| && Increasing(ledger) && reading <= ledger
      modifies this
      ensures Valid() && |streams| == |old(streams)|
      ensures Tiles(ledger, CountUpTo(ledger, old(streams)[k].cursor), items)
      ensures CountUpTo(ledger, old(streams)[k].cursor) + TotalWidth(items) == CountUpTo(ledger, streams[k].cursor)
      ensures Got(old(channels), channels, k, items)
      ensures short ==> CountUpTo(reading, streams[k].cursor) == |reading|
    {
      var page := Page(reading, streams[k].cursor);
      PageTiles(reading, ledger, streams[k].cursor, page);
      if |page| == 0 {
        return true, [];
      }
      MoveCursor(k, page[|page| - 1].id);
      var compacted := CompactEvents(page);
      PublishAll(k, compacted);
      return |page| < PAGE_SIZE, compacted;
    }

    method MoveCursor(k: nat, cursor: int)
      requires Valid() && k < |streams|
      modifies this`streams
      ensures Valid() && streams == old(streams)[k := old(streams)[k].(cursor := cursor)]
    {
      ghost var before := State();
      streams := streams[k := streams[k].(cursor := cursor)];
      MoveCursorValid(before, k, cursor, buffer, State());
    }

    method Fail(session: Uuid, k: nat)
      requires Valid() && k < |streams|
      modifies this
      ensures Valid() && State() == B.Fail(old(State()), session, k)
      ensures session == old(streams)[k].session ==>
        |channels| == |old(channels)| && forall id: nat :: id < |channels| ==> channels[id] == Hushed(old(channels)[id], old(channels)[id].owner == k)
    {
      if session == streams[k].session { FailHushes(State(), session, k, buffer); }
      FailValid(State(), session, k, buffer);
      SubscribersOpen(State(), k, buffer);
      if session in sessions && sessions[session] == k {
        TakeOffAir(session, k);
      }
    }

    method TakeOffAir(session: Uuid, k: nat)
      requires k < |streams|
      requires forall id <- streams[k].subscribers :: id < |channels| && channels[id].open
      modifies this`sessions, this`channels, this`streams
      ensures State() == Drop(old(State()), session, k, old(streams)[k].subscribers)
    {
      ghost var all := streams[k].subscribers;
      CloseSubscribers(k);
      sessions := Without(sessions, session);
      streams := streams[k := streams[k].(cancelled := true)];
      assert all * all == all && all - all == {};
    }

    method Unsubscribe(session: Uuid, k: nat, id: nat)
      requires Valid() && k < |streams|
      modifies this
      ensures Valid() && State() == B.Unsubscribe(old(State()), session, k, id)
      ensures session == old(streams)[k].session ==>
        |channels| == |old(channels)| && forall c: nat :: c < |channels| ==> channels[c] == Hushed(old(channels)[c], c == id && old(channels)[c].owner == k)
    {
      if session == streams[k].session { UnsubscribeHushes(State(), session, k, id, buffer); }
      UnsubscribeValid(State(), session, k, id, buffer);
      SubscribersOpen(State(), k, buffer);
      if session in sessions && sessions[session] == k {
        UnsubscribeOnAir(session, k, id);
      }
    }

    method UnsubscribeOnAir(session: Uuid, k: nat, id: nat)
      requires k < |streams| && !streams[k].cancelled
      requires forall id <- streams[k].subscribers :: id < |channels| && channels[id].open
      modifies this`sessions, this`channels, this`streams
      ensures State() == Drop(old(State()), session, k, {id})
    {
      ghost var all := streams[k].subscribers;
      if id in streams[k].subscribers {
        CloseChannel(id);
        streams := streams[k := streams[k].(subscribers := streams[k].subscribers - {id})];
      } else {
        assert all - {id} == all;
      }
      RetireIfEmpty(session, k);
    }

    method Close()
      requires Valid()
      modifies this
      ensures Valid() && State() == Shutdown(old(State()))
      ensures closed && sessions == map[] && initializing == old(initializing) && outcomes == old(outcomes)
      ensures |channels| == |old(channels)| && forall id: nat :: id < |channels| ==> channels[id] == Hushed(old(channels)[id], true)
    {
      ShutdownValid(State(), buffer);
      closed := true;
      CloseSessions(old(State()));
    }

    method CloseSessions(ghost b: Broker)
      requires B.Valid(b, buffer) && State() == b.(closed := true)
      modifies this`sessions, this`streams, this`channels
      ensures State() == Shutdown(b)
    {
      PartlyClosedStart(b, buffer);
      while sessions.Keys != {}
        invariant State() == b.(closed := true, sessions := sessions, streams := streams, channels := channels)
        invariant PartlyClosed(b, sessions, streams, channels)
        decreases sessions.Keys
      {
        var s :| s in sessions.Keys;
        CloseSession(s, b);
      }
      assert sessions == map[];
      PartlyClosedDone(b, streams, channels);
    }

    /** One turn of Close's loop. */
    method CloseSession(s: Uuid, ghost b: Broker)
      requires B.Valid(b, buffer) && PartlyClosed(b, sessions, streams, channels) && s in sessions
      modifies this`sessions, this`streams, this`channels
      ensures sessions == Without(old(sessions), s)
      ensures PartlyClosed(b, sessions, streams, channels)
    {
      var k := sessions[s];
      ghost var mid := State();
      PartlyClosedOpen(b, mid, s, k, buffer);
      PartlyClosedStep(b, mid, s, k, buffer);
      TakeOffAir(s, k);
    }
  }

  /** Stream k's channels that are still open were open, and have been sent exactly these rows more. */
  ghost predicate Got(before: seq<Channel>, after: seq<Channel>, k: nat, sent: seq<Event>) {
    && |after| == |before|
    && forall id: nat :: id < |after| ==> after[id].owner == before[id].owner && GotRows(before[id], after[id], k, sent)
  }

  ghost predicate GotRows(before: Channel, after: Channel, k: nat, sent: seq<Event>) {
    after.owner == k && after.open ==> before.open && after.buffer == before.buffer + sent
  }

  lemma GotBoth(a: seq<Channel>, b: seq<Channel>, c: seq<Channel>, k: nat, first: seq<Event>, second: seq<Event>)
    requires Got(a, b, k, first) && Got(b, c, k, second)
    ensures Got(a, c, k, first + second)
  {
    forall id: nat | id < |c| ensures GotRows(a[id], c[id], k, first + second) {
      assert GotRows(a[id], b[id], k, first) && GotRows(b[id], c[id], k, second);
    }
  }

  lemma GotOneMore(start: seq<Channel>, b: Broker, b': Broker, k: nat, sent: seq<Event>, e: Event)
    requires Got(start, b.channels, k, sent) && Sends(b, b', k, e)
    ensures Got(start, b'.channels, k, sent + [e])
  {
    forall id: nat | id < |b'.channels|
      ensures b'.channels[id].owner == b.channels[id].owner && GotRows(b.channels[id], b'.channels[id], k, [e])
    {
    }
    GotBoth(start, b.channels, b'.channels, k, sent, [e]);
  }

  ghost function Offered(ch: Channel, served: bool, e: Event, capacity: nat): Channel {
    if !served then ch
    else if |ch.buffer| >= capacity then ch.(open := false)
    else ch.(buffer := ch.buffer + [e])
  }

  /** Every subscriber of a stream has an open channel, so neither a send nor a close can panic. */
  lemma SubscribersOpen(b: Broker, k: nat, capacity: nat)
    requires B.Valid(b, capacity) && k < |b.streams|
    ensures forall id <- b.streams[k].subscribers :: id < |b.channels| && b.channels[id].open
    ensures forall s <- b.sessions :: b.sessions[s] == k ==> b.streams[k].session == s && !b.streams[k].cancelled
  {
    assert StreamValid(b, k) && ListValid(b, k);
    forall id <- b.streams[k].subscribers ensures id < |b.channels| && b.channels[id].open {
      assert ChannelValid(b, id, capacity);
    }
  }

  ghost function AfterClose(b: Broker, sessions: map<Uuid, nat>, k: nat): Stream
    requires k < |b.streams|
  {
    if InPlay(b, sessions, k) then b.streams[k] else b.streams[k].(subscribers := {}, cancelled := true)
  }

  /** The stream of b is still listed in what is left of its sessions. */
  ghost predicate InPlay(b: Broker, sessions: map<Uuid, nat>, k: nat) {
    k < |b.streams| && b.streams[k].session in sessions && sessions[b.streams[k].session] == k
  }

  /** Close has dealt with every session of b but those still listed. */
  ghost predicate PartlyClosed(b: Broker, sessions: map<Uuid, nat>, streams: seq<Stream>, channels: seq<Channel>) {
    && (forall s <- sessions :: s in b.sessions && sessions[s] == b.sessions[s])
    && |streams| == |b.streams|
    && (forall k: nat :: k < |streams| ==> streams[k] == AfterClose(b, sessions, k))
    && |channels| == |b.channels|
    && (forall id: nat :: id < |channels| ==>
          channels[id] == b.channels[id].(open := b.channels[id].open && InPlay(b, sessions, b.channels[id].owner)))
  }

  lemma PartlyClosedStart(b: Broker, capacity: nat)
    requires B.Valid(b, capacity)
    ensures PartlyClosed(b, b.sessions, b.streams, b.channels)
  {
    forall k: nat | k < |b.streams| ensures b.streams[k] == AfterClose(b, b.sessions, k) {
      assert StreamValid(b, k);
    }
    forall id: nat | id < |b.channels| ensures b.channels[id].open ==> InPlay(b, b.sessions, b.channels[id].owner) {
      assert ChannelValid(b, id, capacity) && StreamValid(b, b.channels[id].owner);
    }
  }

  lemma PartlyClosedOpen(b: Broker, m: Broker, s: Uuid, k: nat, capacity: nat)
    requires B.Valid(b, capacity)
    requires PartlyClosed(b, m.sessions, m.streams, m.channels) && s in m.sessions && k == m.sessions[s]
    ensures k < |b.streams| && b.streams[k].session == s
    ensures k < |m.streams| && forall id <- m.streams[k].subscribers :: id < |m.channels| && m.channels[id].open
  {
    assert InPlay(b, m.sessions, k) && m.streams[k] == b.streams[k];
    assert ListValid(b, k);
    SubscribersOpen(b, k, capacity);
  }

  lemma PartlyClosedStep(b: Broker, m: Broker, s: Uuid, k: nat, capacity: nat)
    requires SubscribersValid(b) && ChannelsValid(b, capacity)
    requires PartlyClosed(b, m.sessions, m.streams, m.channels) && s in m.sessions && k == m.sessions[s]
    requires k < |b.streams| && b.streams[k].session == s
    ensures var m' := Drop(m, s, k, m.streams[k].subscribers);
            PartlyClosed(b, m'.sessions, m'.streams, m'.channels)
  {
    var m' := Drop(m, s, k, m.streams[k].subscribers);
    assert m'.sessions == Without(m.sessions, s);
    assert InPlay(b, m.sessions, k) && m.streams[k] == b.streams[k];
    forall k': nat | k' < |m.streams| ensures m'.streams[k'] == AfterClose(b, m'.sessions, k') {
      OutOfPlay(b, m.sessions, s, k, k');
    }
    assert ListValid(b, k);
    forall id: nat | id < |m.channels|
      ensures m'.channels[id] == b.channels[id].(open := b.channels[id].open && InPlay(b, m'.sessions, b.channels[id].owner))
    {
      assert ChannelValid(b, id, capacity);
      OutOfPlay(b, m.sessions, s, k, b.channels[id].owner);
    }
  }

  lemma OutOfPlay(b: Broker, sessions: map<Uuid, nat>, s: Uuid, k: nat, other: nat)
    requires s in sessions && sessions[s] == k && k < |b.streams| && b.streams[k].session == s
    ensures InPlay(b, Without(sessions, s), other) <==> InPlay(b, sessions, other) && other != k
  {
  }

  lemma PartlyClosedDone(b: Broker, streams: seq<Stream>, channels: seq<Channel>)
    requires PartlyClosed(b, map[], streams, channels)
    ensures streams == Shutdown(b).streams && channels == Shutdown(b).channels
  {
    assert forall k: nat :: k < |b.streams| ==> !InPlay(b, map[], k);
  }
}

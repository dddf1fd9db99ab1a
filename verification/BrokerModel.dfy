/** apps/api/internal/live/event_broker.go as functions of the broker's fields, one for each
    critical section of its mutex, and the rule that holds whenever the mutex is free. */
module BrokerModel {
  import opened Prelude
  import opened LiveEvents

  /** A subscriber channel; owner is the stream it was made for. */
  datatype Channel = Channel(owner: nat, buffer: seq<Event>, open: bool)

  datatype Stream = Stream(session: Uuid, cursor: int, subscribers: set<nat>, cancelled: bool)

  /** What waiters find once an initialisation's done channel is closed. */
  datatype Outcome = InProgress | Ready | Failed

  /** The broker's fields. Streams, channels and initialisations are pointers in the source: each is an
      index into the table of all that were ever made, so pointer comparison is index comparison.
      A subscriber's id is the index of its channel, so the tables' lengths play the part of nextID. */
  datatype Broker = Broker(
    sessions: map<Uuid, nat>,
    initializing: map<Uuid, nat>,
    closed: bool,
    streams: seq<Stream>,
    channels: seq<Channel>,
    outcomes: seq<Outcome>)

  // --- The rule that holds whenever the mutex is free -------------------------

  ghost predicate OnAir(b: Broker, session: Uuid, k: nat) {
    session in b.sessions && b.sessions[session] == k
  }

  ghost predicate SessionsValid(b: Broker) {
    && (forall s <- b.sessions :: b.sessions[s] < |b.streams| && b.streams[b.sessions[s]].session == s)
    && (forall s <- b.sessions :: s !in b.initializing)
    && (b.closed ==> b.sessions == map[])
  }

  /** A registered stream runs and serves somebody; an unregistered one is cancelled and serves nobody. */
  ghost predicate StreamValid(b: Broker, k: nat)
    requires k < |b.streams|
  {
    if OnAir(b, b.streams[k].session, k) then b.streams[k].subscribers != {} && !b.streams[k].cancelled
    else b.streams[k].subscribers == {} && b.streams[k].cancelled
  }

  /** A channel is open exactly while its stream still lists it. */
  ghost predicate ChannelValid(b: Broker, id: nat, capacity: nat)
    requires id < |b.channels|
  {
    var ch := b.channels[id];
    && ch.owner < |b.streams|
    && (ch.open <==> id in b.streams[ch.owner].subscribers)
    && |ch.buffer| <= capacity
  }

  /** An initialisation that callers may wait for has not been settled, and no two sessions share one. */
  ghost predicate InitializationsValid(b: Broker) {
    && (forall s <- b.initializing :: b.initializing[s] < |b.outcomes| && b.outcomes[b.initializing[s]] == InProgress)
    && (forall s, t :: s in b.initializing && t in b.initializing && s != t ==> b.initializing[s] != b.initializing[t])
  }

  ghost predicate StreamsValid(b: Broker) {
    forall k: nat :: k < |b.streams| ==> StreamValid(b, k)
  }

  /** A stream lists channels made for it. */
  ghost predicate ListValid(b: Broker, k: nat)
    requires k < |b.streams|
  {
    forall id <- b.streams[k].subscribers :: id < |b.channels| && b.channels[id].owner == k
  }

  ghost predicate SubscribersValid(b: Broker) {
    forall k: nat :: k < |b.streams| ==> ListValid(b, k)
  }

  ghost predicate ChannelsValid(b: Broker, capacity: nat) {
    forall id: nat :: id < |b.channels| ==> ChannelValid(b, id, capacity)
  }

  ghost predicate Valid(b: Broker, capacity: nat) {
    && SessionsValid(b)
    && InitializationsValid(b)
    && StreamsValid(b)
    && SubscribersValid(b)
    && ChannelsValid(b, capacity)
  }

  // --- The critical sections as functions of the fields -----------------------

  const EMPTY: Broker := Broker(map[], map[], false, [], [], [])

  function Without<K, V>(m: map<K, V>, key: K): map<K, V> {
    m - {key}
  }

  function CloseAll(channels: seq<Channel>, ids: set<nat>): (r: seq<Channel>)
    ensures |r| == |channels|
    ensures forall i: nat :: i < |r| ==> r[i] == channels[i].(open := channels[i].open && i !in ids)
  {
    seq(|channels|, i requires 0 <= i < |channels| =>
      if i in ids then channels[i].(open := false) else channels[i])
  }

  /** Close the channels in ids and forget them; the stream goes off the air with its last subscriber. */
  function Drop(b: Broker, session: Uuid, k: nat, ids: set<nat>): Broker
    requires k < |b.streams|
  {
    var subscribers := b.streams[k].subscribers;
    var kept := subscribers - ids;
    b.(sessions := if kept == {} then Without(b.sessions, session) else b.sessions,
       streams := b.streams[k := b.streams[k].(subscribers := kept, cancelled := kept == {})],
       channels := CloseAll(b.channels, subscribers * ids))
  }

  function AddSubscriber(b: Broker, k: nat): Broker
    requires k < |b.streams|
  {
    b.(channels := b.channels + [Channel(k, [], true)],
       streams := b.streams[k := b.streams[k].(subscribers := b.streams[k].subscribers + {|b.channels|})])
  }

  function BeginInit(b: Broker, session: Uuid): Broker {
    b.(initializing := b.initializing[session := |b.outcomes|],
       outcomes := b.outcomes + [InProgress])
  }

  /** The second half of Subscribe once LatestEventID has answered: latest is None when it failed. */
  function FinishInit(b: Broker, session: Uuid, pending: nat, latest: Option<int>): Broker
    requires pending < |b.outcomes|
  {
    var settled := b.(initializing := Without(b.initializing, session));
    if latest.None? || b.closed then settled.(outcomes := b.outcomes[pending := Failed])
    else
      settled.(outcomes := b.outcomes[pending := Ready],
               sessions := b.sessions[session := |b.streams|],
               streams := b.streams + [Stream(session, latest.value, {|b.channels|}, false)],
               channels := b.channels + [Channel(|b.streams|, [], true)])
  }

  /** The subscribers whose buffer has no room left. */
  function Slow(b: Broker, k: nat, capacity: nat): set<nat>
    requires k < |b.streams|
  {
    set id | id in b.streams[k].subscribers && id < |b.channels| && |b.channels[id].buffer| >= capacity
  }

  function Deliver(channels: seq<Channel>, ids: set<nat>, e: Event): (r: seq<Channel>)
    ensures |r| == |channels|
    ensures forall i: nat :: i < |r| ==>
      r[i] == channels[i].(buffer := if i in ids then channels[i].buffer + [e] else channels[i].buffer)
  {
    seq(|channels|, i requires 0 <= i < |channels| =>
      if i in ids then channels[i].(buffer := channels[i].buffer + [e]) else channels[i])
  }

  /** Hand e to every subscriber with room and drop the others. */
  function Publish(b: Broker, session: Uuid, k: nat, e: Event, capacity: nat): Broker
    requires k < |b.streams|
  {
    if session !in b.sessions || b.sessions[session] != k then b
    else
      var slow := Slow(b, k, capacity);
      Drop(b.(channels := Deliver(b.channels, b.streams[k].subscribers - slow, e)), session, k, slow)
  }

  function Fail(b: Broker, session: Uuid, k: nat): Broker
    requires k < |b.streams|
  {
    if session !in b.sessions || b.sessions[session] != k then b
    else Drop(b, session, k, b.streams[k].subscribers)
  }

  function Unsubscribe(b: Broker, session: Uuid, k: nat, id: nat): Broker
    requires k < |b.streams|
  {
    if session !in b.sessions || b.sessions[session] != k then b
    else Drop(b, session, k, {id})
  }

  /** Close: everything registered goes off the air, and nothing can be registered again. */
  function Shutdown(b: Broker): Broker {
    b.(closed := true,
       sessions := map[],
       streams := seq(|b.streams|, k requires 0 <= k < |b.streams| => b.streams[k].(subscribers := {}, cancelled := true)),
       channels := seq(|b.channels|, i requires 0 <= i < |b.channels| => b.channels[i].(open := false)))
  }

  // --- Every critical section keeps the rule ----------------------------------

  lemma DropValid(b: Broker, session: Uuid, k: nat, ids: set<nat>, capacity: nat)
    requires Valid(b, capacity) && k < |b.streams| && OnAir(b, session, k)
    ensures Valid(Drop(b, session, k, ids), capacity)
  {
    var b' := Drop(b, session, k, ids);
    DropStreams(b, session, k, ids, b');
    DropChannels(b, session, k, ids, b', capacity);
  }

  lemma DropChannels(b: Broker, session: Uuid, k: nat, ids: set<nat>, b': Broker, capacity: nat)
    requires k < |b.streams| && SubscribersValid(b) && ChannelsValid(b, capacity) && b' == Drop(b, session, k, ids)
    ensures SubscribersValid(b') && ChannelsValid(b', capacity)
  {
    assert ListValid(b, k);
    forall id: nat | id < |b'.channels| ensures ChannelValid(b', id, capacity) {
      assert ChannelValid(b, id, capacity);
    }
    forall k': nat | k' < |b'.streams| ensures ListValid(b', k') {
      assert ListValid(b, k');
    }
  }

  lemma DropStreams(b: Broker, session: Uuid, k: nat, ids: set<nat>, b': Broker)
    requires k < |b.streams|
    requires SessionsValid(b) && StreamsValid(b) && OnAir(b, session, k) && b' == Drop(b, session, k, ids)
    ensures SessionsValid(b') && StreamsValid(b')
  {
    forall s <- b'.sessions ensures b'.sessions[s] < |b'.streams| && b'.streams[b'.sessions[s]].session == s && s !in b'.initializing {
      assert s in b.sessions;
    }
    forall k': nat | k' < |b'.streams| ensures StreamValid(b', k') {
      assert StreamValid(b, k');
    }
  }

  lemma DeliverValid(b: Broker, ids: set<nat>, e: Event, capacity: nat)
    requires Valid(b, capacity)
    requires forall id <- ids :: id < |b.channels| ==> |b.channels[id].buffer| < capacity
    ensures Valid(b.(channels := Deliver(b.channels, ids, e)), capacity)
  {
    SameStreamsValid(b, b.(channels := Deliver(b.channels, ids, e)));
    DeliverChannels(b, ids, e, capacity);
  }

  lemma DeliverChannels(b: Broker, ids: set<nat>, e: Event, capacity: nat)
    requires SubscribersValid(b) && ChannelsValid(b, capacity)
    requires forall id <- ids :: id < |b.channels| ==> |b.channels[id].buffer| < capacity
    ensures var b' := b.(channels := Deliver(b.channels, ids, e)); SubscribersValid(b') && ChannelsValid(b', capacity)
  {
    var b' := b.(channels := Deliver(b.channels, ids, e));
    forall id: nat | id < |b'.channels| ensures ChannelValid(b', id, capacity) {
      assert ChannelValid(b, id, capacity);
    }
    forall k': nat | k' < |b'.streams| ensures ListValid(b', k') {
      assert ListValid(b, k');
    }
  }

  lemma SameStreamsValid(b: Broker, b': Broker)
    requires SessionsValid(b) && StreamsValid(b) && b' == b.(channels := b'.channels)
    ensures SessionsValid(b') && StreamsValid(b')
  {
    forall k: nat | k < |b'.streams| ensures StreamValid(b', k) {
      assert StreamValid(b, k);
    }
  }

  lemma PublishValid(b: Broker, session: Uuid, k: nat, e: Event, capacity: nat)
    requires Valid(b, capacity) && k < |b.streams|
    ensures Valid(Publish(b, session, k, e, capacity), capacity)
  {
    if OnAir(b, session, k) {
      var slow := Slow(b, k, capacity);
      DeliverValid(b, b.streams[k].subscribers - slow, e, capacity);
      DropValid(b.(channels := Deliver(b.channels, b.streams[k].subscribers - slow, e)), session, k, slow, capacity);
    }
  }

  lemma FailValid(b: Broker, session: Uuid, k: nat, capacity: nat)
    requires Valid(b, capacity) && k < |b.streams|
    ensures Valid(Fail(b, session, k), capacity)
  {
    if OnAir(b, session, k) {
      DropValid(b, session, k, b.streams[k].subscribers, capacity);
    }
  }

  lemma UnsubscribeValid(b: Broker, session: Uuid, k: nat, id: nat, capacity: nat)
    requires Valid(b, capacity) && k < |b.streams|
    ensures Valid(Unsubscribe(b, session, k, id), capacity)
  {
    if OnAir(b, session, k) {
      DropValid(b, session, k, {id}, capacity);
    }
  }

  lemma ShutdownValid(b: Broker, capacity: nat)
    requires Valid(b, capacity)
    ensures Valid(Shutdown(b), capacity)
  {
    var b' := Shutdown(b);
    forall id: nat | id < |b'.channels| ensures ChannelValid(b', id, capacity) {
      assert ChannelValid(b, id, capacity);
    }
    forall k': nat | k' < |b'.streams| ensures ListValid(b', k') {
      assert ListValid(b, k');
    }
  }

  lemma AddSubscriberValid(b: Broker, session: Uuid, k: nat, capacity: nat)
    requires Valid(b, capacity) && k < |b.streams| && OnAir(b, session, k)
    ensures Valid(AddSubscriber(b, k), capacity)
  {
    var b' := AddSubscriber(b, k);
    AddSubscriberChannels(b, k, capacity);
    forall k': nat | k' < |b'.streams| ensures StreamValid(b', k') {
      assert StreamValid(b, k');
    }
  }

  lemma AddSubscriberChannels(b: Broker, k: nat, capacity: nat)
    requires k < |b.streams| && SubscribersValid(b) && ChannelsValid(b, capacity)
    ensures SubscribersValid(AddSubscriber(b, k)) && ChannelsValid(AddSubscriber(b, k), capacity)
  {
    var b' := AddSubscriber(b, k);
    forall id: nat | id < |b'.channels| ensures ChannelValid(b', id, capacity) {
      if id < |b.channels| {
        assert ChannelValid(b, id, capacity);
      }
    }
    forall k': nat | k' < |b'.streams| ensures ListValid(b', k') {
      assert ListValid(b, k');
    }
  }

  lemma BeginInitValid(b: Broker, session: Uuid, capacity: nat)
    requires Valid(b, capacity) && !b.closed
    requires session !in b.sessions && session !in b.initializing
    ensures Valid(BeginInit(b, session), capacity)
  {
    SameTablesValid(b, BeginInit(b, session), capacity);
  }

  lemma SameTablesValid(b: Broker, b': Broker, capacity: nat)
    requires StreamsValid(b) && SubscribersValid(b) && ChannelsValid(b, capacity)
    requires b'.sessions == b.sessions && b'.streams == b.streams && b'.channels == b.channels
    ensures StreamsValid(b') && SubscribersValid(b') && ChannelsValid(b', capacity)
  {
    forall k: nat | k < |b'.streams| ensures StreamValid(b', k) {
      assert StreamValid(b, k);
    }
    forall id: nat | id < |b'.channels| ensures ChannelValid(b', id, capacity) {
      assert ChannelValid(b, id, capacity);
    }
    forall k': nat | k' < |b'.streams| ensures ListValid(b', k') {
      assert ListValid(b, k');
    }
  }

  lemma FinishInitValid(b: Broker, session: Uuid, pending: nat, latest: Option<int>, capacity: nat)
    requires Valid(b, capacity)
    requires session in b.initializing && b.initializing[session] == pending
    ensures Valid(FinishInit(b, session, pending, latest), capacity)
  {
    if latest.Some? && !b.closed {
      FinishInitChannels(b, session, pending, latest.value, capacity);
      FinishInitStreams(b, session, pending, latest.value);
    } else {
      SameTablesValid(b, FinishInit(b, session, pending, latest), capacity);
    }
  }

  lemma FinishInitStreams(b: Broker, session: Uuid, pending: nat, latest: int)
    requires SessionsValid(b) && StreamsValid(b) && InitializationsValid(b) && !b.closed
    requires session in b.initializing && b.initializing[session] == pending
    ensures var b' := FinishInit(b, session, pending, Some(latest));
            SessionsValid(b') && StreamsValid(b') && InitializationsValid(b')
  {
    var b' := FinishInit(b, session, pending, Some(latest));
    forall k': nat | k' < |b'.streams| ensures StreamValid(b', k') {
      if k' < |b.streams| { assert StreamValid(b, k'); }
    }
  }

  lemma FinishInitChannels(b: Broker, session: Uuid, pending: nat, latest: int, capacity: nat)
    requires SubscribersValid(b) && ChannelsValid(b, capacity) && !b.closed && pending < |b.outcomes|
    ensures var b' := FinishInit(b, session, pending, Some(latest));
            SubscribersValid(b') && ChannelsValid(b', capacity)
  {
    var b' := FinishInit(b, session, pending, Some(latest));
    forall id: nat | id < |b'.channels| ensures ChannelValid(b', id, capacity) {
      if id < |b.channels| {
        assert ChannelValid(b, id, capacity);
      }
    }
    forall k': nat | k' < |b'.streams| ensures ListValid(b', k') {
      if k' < |b.streams| {
        assert ListValid(b, k');
      }
    }
  }

  // --- What a critical section does to channels it does not send to -----------

  ghost predicate SameStreams(b: Broker, b': Broker) {
    && |b'.streams| == |b.streams|
    && forall k :: 0 <= k < |b.streams| ==>
         b'.streams[k].session == b.streams[k].session && b'.streams[k].cursor == b.streams[k].cursor
  }

  /** Streams keep their identity and cursor, and channels at most close. */
  ghost predicate OnlyCloses(b: Broker, b': Broker) {
    && SameStreams(b, b')
    && |b'.channels| == |b.channels|
    && forall id :: 0 <= id < |b.channels| ==>
         b'.channels[id] == b.channels[id] || b'.channels[id] == b.channels[id].(open := false)
  }

  lemma FailOnlyCloses(b: Broker, session: Uuid, k: nat)
    requires k < |b.streams|
    ensures OnlyCloses(b, Fail(b, session, k))
  {
  }

  lemma UnsubscribeOnlyCloses(b: Broker, session: Uuid, k: nat, id: nat)
    requires k < |b.streams|
    ensures OnlyCloses(b, Unsubscribe(b, session, k, id))
  {
  }

  lemma ShutdownOnlyCloses(b: Broker)
    ensures OnlyCloses(b, Shutdown(b))
  {
  }

  /** publish touches the stream's own open channels only: each gets the row, or is closed. */
  ghost predicate Sends(b: Broker, b': Broker, k: nat, e: Event) {
    && SameStreams(b, b')
    && |b'.channels| == |b.channels|
    && (forall id :: 0 <= id < |b.channels| && b.channels[id].owner != k ==> b'.channels[id] == b.channels[id])
    && (forall id :: 0 <= id < |b.channels| && b.channels[id].owner == k ==>
          || b'.channels[id] == b.channels[id].(open := false)
          || (b.channels[id].open && b'.channels[id] == b.channels[id].(buffer := b.channels[id].buffer + [e])))
  }

  lemma PublishSends(b: Broker, session: Uuid, k: nat, e: Event, capacity: nat)
    requires SubscribersValid(b) && ChannelsValid(b, capacity) && StreamsValid(b)
    requires k < |b.streams| && session == b.streams[k].session
    ensures Sends(b, Publish(b, session, k, e, capacity), k, e)
  {
    var b' := Publish(b, session, k, e, capacity);
    assert StreamValid(b, k) && ListValid(b, k);
    forall id | 0 <= id < |b.channels|
      ensures b.channels[id].owner != k ==> b'.channels[id] == b.channels[id]
      ensures b.channels[id].owner == k ==>
          || b'.channels[id] == b.channels[id].(open := false)
          || (b.channels[id].open && b'.channels[id] == b.channels[id].(buffer := b.channels[id].buffer + [e]))
    {
      assert ChannelValid(b, id, capacity);
    }
  }

  // --- What each critical section does to every channel ---------------------------

  /** A subscriber with room gets the row; one whose buffer is full is closed; nobody else notices. */
  function Told(ch: Channel, k: nat, e: Event, capacity: nat): Channel {
    if ch.owner != k || !ch.open then ch
    else if |ch.buffer| < capacity then Channel(ch.owner, ch.buffer + [e], true)
    else Channel(ch.owner, ch.buffer, false)
  }

  lemma PublishTells(b: Broker, session: Uuid, k: nat, e: Event, capacity: nat)
    requires Valid(b, capacity) && k < |b.streams| && session == b.streams[k].session
    ensures var b' := Publish(b, session, k, e, capacity);
      |b'.channels| == |b.channels| && forall id: nat :: id < |b.channels| ==> b'.channels[id] == Told(b.channels[id], k, e, capacity)
  {
    var b' := Publish(b, session, k, e, capacity);
    assert StreamValid(b, k) && ListValid(b, k);
    forall id: nat | id < |b.channels| ensures b'.channels[id] == Told(b.channels[id], k, e, capacity) {
      assert ChannelValid(b, id, capacity);
    }
  }

  /** The channels of stream k, or one of them, are closed; nobody else notices. */
  function Hushed(ch: Channel, hush: bool): Channel {
    Channel(ch.owner, ch.buffer, ch.open && !hush)
  }

  lemma FailHushes(b: Broker, session: Uuid, k: nat, capacity: nat)
    requires Valid(b, capacity) && k < |b.streams| && session == b.streams[k].session
    ensures var b' := Fail(b, session, k);
      |b'.channels| == |b.channels| && forall id: nat :: id < |b.channels| ==> b'.channels[id] == Hushed(b.channels[id], b.channels[id].owner == k)
  {
    var b' := Fail(b, session, k);
    assert StreamValid(b, k) && ListValid(b, k);
    forall id: nat | id < |b.channels| ensures b'.channels[id] == Hushed(b.channels[id], b.channels[id].owner == k) {
      assert ChannelValid(b, id, capacity);
    }
  }

  lemma UnsubscribeHushes(b: Broker, session: Uuid, k: nat, one: nat, capacity: nat)
    requires Valid(b, capacity) && k < |b.streams| && session == b.streams[k].session
    ensures var b' := Unsubscribe(b, session, k, one);
      |b'.channels| == |b.channels| && forall id: nat :: id < |b.channels| ==> b'.channels[id] == Hushed(b.channels[id], id == one && b.channels[id].owner == k)
  {
    var b' := Unsubscribe(b, session, k, one);
    assert StreamValid(b, k) && ListValid(b, k);
    forall id: nat | id < |b.channels| ensures b'.channels[id] == Hushed(b.channels[id], id == one && b.channels[id].owner == k) {
      assert ChannelValid(b, id, capacity);
    }
  }

  lemma TakeRowValid(b: Broker, id: nat, capacity: nat, b': Broker)
    requires Valid(b, capacity) && id < |b.channels| && b.channels[id].buffer != []
    requires b' == b.(channels := b.channels[id := b.channels[id].(buffer := b.channels[id].buffer[1..])])
    ensures Valid(b', capacity)
  {
    SameStreamsValid(b, b');
    forall id': nat | id' < |b'.channels| ensures ChannelValid(b', id', capacity) {
      assert ChannelValid(b, id', capacity);
    }
    forall k': nat | k' < |b'.streams| ensures ListValid(b', k') {
      assert ListValid(b, k');
    }
  }

  lemma MoveCursorValid(b: Broker, k: nat, cursor: int, capacity: nat, b': Broker)
    requires Valid(b, capacity) && k < |b.streams|
    requires b' == b.(streams := b.streams[k := b.streams[k].(cursor := cursor)])
    ensures Valid(b', capacity)
  {
    forall id': nat | id' < |b'.channels| ensures ChannelValid(b', id', capacity) {
      assert ChannelValid(b, id', capacity);
    }
    forall k': nat | k' < |b'.streams| ensures StreamValid(b', k') {
      assert StreamValid(b, k');
    }
    forall k': nat | k' < |b'.streams| ensures ListValid(b', k') {
      assert ListValid(b, k');
    }
  }
}

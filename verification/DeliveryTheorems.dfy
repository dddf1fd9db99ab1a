/** What every run of the delivery protocol guarantees. */
module DeliveryTheorems {
  import opened Prelude
  import opened LiveEvents
  import opened EventLog
  import opened EventStream
  import opened Delivery
  import opened DeliverySteps
  import B = BrokerModel

  /** The steps can be taken one after the other. */
  ghost predicate Run(s: System, steps: seq<Step>)
    decreases |steps|
  {
    steps == [] || (Enabled(s, steps[0]) && Run(Apply(s, steps[0]), steps[1..]))
  }

  ghost function End(s: System, steps: seq<Step>): System
    requires Run(s, steps)
    decreases |steps|
  {
    if steps == [] then s else End(Apply(s, steps[0]), steps[1..])
  }

  lemma {:induction false} RunKeeps(s: System, steps: seq<Step>)
    requires Inv(s) && Run(s, steps)
    ensures Inv(End(s, steps))
    decreases |steps|
  {
    if steps != [] {
      StepKeeps(s, steps[0]);
      RunKeeps(Apply(s, steps[0]), steps[1..]);
    }
  }

  ghost predicate Reachable(s: System) {
    exists capacity: nat, steps: seq<Step> :: Run(Start(capacity), steps) && s == End(Start(capacity), steps)
  }

  lemma ReachableInv(s: System)
    requires Reachable(s)
    ensures Inv(s)
  {
    var capacity: nat, steps :| Run(Start(capacity), steps) && s == End(Start(capacity), steps);
    StartOk(capacity);
    RunKeeps(Start(capacity), steps);
  }

  /** The broker's own rule holds in every reachable state: no session is both on the air and initialising,
      streams serve somebody exactly while they are registered, channels are open exactly while they are
      listed, and nothing is registered after Close. */
  lemma BrokerAlwaysValid(s: System)
    requires Reachable(s)
    ensures B.Valid(s.broker, s.capacity)
  {
    ReachableInv(s);
  }

  lemma RuleHolds(s: System, c: nat)
    requires Reachable(s) && c < |s.conns|
    ensures c < |s.broker.channels| && s.conns[c].stream < |s.published|
    ensures GoodConn(Log(s, s.conns[c].session), s.conns[c], s.broker.channels[c], s.published[s.conns[c].stream])
    ensures Increasing(Log(s, s.conns[c].session))
  {
    ReachableInv(s);
    DeliveryFrames.RuleFor(s, c, GoodConn);
  }

  lemma KeyPrefix(role: Role, a: seq<Event>, b: seq<Event>, both: seq<Event>)
    requires both == a + b
    ensures Key(role, a) <= Key(role, both)
  {
    KeyConcat(role, a, b, both);
  }

  /** No gap, no repeat: what a connection has written, presence counts aside, is a prefix of the ledger past
      its Last-Event-ID as its role may see it. Overflow, failure and shutdown can only cut it short. */
  lemma NoGapNoRepeat(s: System, c: nat)
    requires Reachable(s) && c < |s.conns|
    ensures var conn := s.conns[c];
            Key(conn.role, conn.written) <= Key(conn.role, Above(Log(s, conn.session), conn.last))
    ensures Ascending(s.conns[c].last, s.conns[c].after, s.conns[c].written)
  {
    RuleHolds(s, c);
    var conn := s.conns[c];
    var log := Log(s, conn.session);
    CountUpToMonotone(log, conn.last, conn.after);
    var rest := log[CountUpTo(log, conn.after)..];
    KeyPrefix(conn.role, conn.written, conn.queue, Output(conn));
    assert Above(log, conn.last) == Covered(log, conn) + rest;
    KeyPrefix(conn.role, Covered(log, conn), rest, Above(log, conn.last));
    PrefixOfOutput(conn);
  }

  lemma PrefixOfOutput(conn: Conn)
    requires Ascending(conn.last, conn.after, Output(conn))
    ensures Ascending(conn.last, conn.after, conn.written)
  {
    var out := Output(conn);
    assert forall i :: 0 <= i < |conn.written| ==> conn.written[i] == out[i];
  }

  /** A live connection whose channel is open and whose pipeline is drained has written everything. */
  lemma NothingWithheld(s: System, c: nat)
    requires Reachable(s) && c < |s.conns| && c < |s.broker.channels|
    requires var conn, ch := s.conns[c], s.broker.channels[c];
      && conn.live && ch.open && conn.queue == [] && ch.buffer == []
      && conn.stream < |s.outbox| && s.outbox[conn.stream] == []
      && conn.stream < |s.broker.streams| && s.broker.streams[conn.stream].cursor == LatestId(Log(s, conn.session))
    ensures var conn := s.conns[c];
      && Key(conn.role, conn.written) == Key(conn.role, Above(Log(s, conn.session), conn.last))
      && Deltas(conn.written) == Joins(Above(Log(s, conn.session), conn.last)) + conn.overcount
  {
    RuleHolds(s, c);
    PollerHolds(s, c);
    var conn := s.conns[c];
    var log := Log(s, conn.session);
    AllUpToLatest(log);
    CountUpToMonotone(log, conn.last, conn.after);
    assert Covered(log, conn) == Above(log, conn.last);
    assert Output(conn) == conn.written;
  }

  lemma PollerHolds(s: System, c: nat)
    requires Reachable(s) && c < |s.conns|
    ensures var k := s.conns[c].stream;
      && k < |s.broker.streams| && k < |s.outbox| && k < |s.published|
      && s.broker.streams[k].session == s.conns[c].session
      && PollerOk(Log(s, s.conns[c].session), s.broker.streams[k].cursor, s.outbox[k], s.published[k])
  {
    ReachableInv(s);
    DeliveryFrames.RuleFor(s, c, GoodConn);
  }

  /** Until then something can always move: a row still owed to a live, open connection is one poll,
      publication, receipt or write away from its next stage. */
  lemma SomethingCanMove(s: System, c: nat)
    requires Reachable(s) && Active(s, c) && s.conns[c].live && s.broker.channels[c].open
    requires Key(s.conns[c].role, s.conns[c].written) != Key(s.conns[c].role, Above(Log(s, s.conns[c].session), s.conns[c].last))
    ensures var k := s.conns[c].stream;
      Enabled(s, Write(c)) || Enabled(s, Receive(c)) || Enabled(s, PublishNext(k)) || Enabled(s, Poll(k))
  {
    var conn := s.conns[c];
    var k := conn.stream;
    var log := Log(s, conn.session);
    PollerHolds(s, c);
    if conn.queue == [] && s.broker.channels[c].buffer == [] && s.outbox[k] == [] && Page(log, s.broker.streams[k].cursor) == [] {
      RuleHolds(s, c);
      CountUpToSplits(log, s.broker.streams[k].cursor);
      if log == [] {
        NothingOwed(log, conn);
      } else {
        NothingWithheld(s, c);
      }
    }
  }

  lemma NothingOwed(log: seq<Event>, conn: Conn)
    requires Faithful(log, conn) && log == [] && conn.queue == []
    ensures Key(conn.role, conn.written) == Key(conn.role, Above(log, conn.last))
  {
    assert Covered(log, conn) == [] && Above(log, conn.last) == [];
    assert Output(conn) == conn.written;
  }

  /** Joins announced on a connection are the joins it has passed, plus those announced twice. */
  lemma JoinsConserved(s: System, c: nat)
    requires Reachable(s) && c < |s.conns|
    ensures var conn := s.conns[c];
            Deltas(Output(conn)) == Joins(Covered(Log(s, conn.session), conn)) + conn.overcount
  {
    RuleHolds(s, c);
  }

  // --- When joins are announced twice ---------------------------------------------

  function Overcount(s: System, c: nat): nat {
    if c < |s.conns| then s.conns[c].overcount else 0
  }

  /** This step hands the connection a compacted run of joins, some of which it had already passed. */
  ghost predicate Straddles(s: System, step: Step, c: nat)
    requires Enabled(s, step)
  {
    && step == Receive(c)
    && var conn, item := s.conns[c], s.broker.channels[c].buffer[0];
       var log := Log(s, conn.session);
       && IsPresence(item)
       && conn.after < item.id
       && exists k :: conn.base <= k < conn.base + Width(item) && k < |log| && log[k].id <= conn.after
  }

  ghost predicate NeverStraddles(s: System, steps: seq<Step>, c: nat)
    requires Run(s, steps)
    decreases |steps|
  {
    steps == [] || (!Straddles(s, steps[0], c) && NeverStraddles(Apply(s, steps[0]), steps[1..], c))
  }

  lemma StepOvercount(s: System, step: Step, c: nat)
    requires Inv(s) && Enabled(s, step)
    ensures Overcount(s, c) <= Overcount(Apply(s, step), c)
    ensures Overcount(s, c) == Overcount(Apply(s, step), c) <==> !Straddles(s, step, c)
  {
    if step == Receive(c) {
      GoodConnHeads();
      ReceiveOvercount(s, c, GoodConn);
    } else {
      OtherOvercount(s, step, c);
    }
  }

  ghost predicate HeadsAreTiles(p: ConnRule) {
    forall log, c, ch, n :: p(log, c, ch, n) && ch.buffer != [] ==> Tile(log, c.base, ch.buffer[0])
  }

  lemma GoodConnHeads()
    ensures HeadsAreTiles(GoodConn)
  {
  }

  lemma ReceiveOvercount(s: System, c: nat, p: ConnRule)
    requires LogsOk(s) && ConnsObey(s, p) && HeadsAreTiles(p) && Enabled(s, Receive(c))
    ensures Overcount(s, c) <= Overcount(ReceiveStep(s, c), c)
    ensures Overcount(s, c) == Overcount(ReceiveStep(s, c), c) <==> !Straddles(s, Receive(c), c)
  {
    var conn, item := s.conns[c], s.broker.channels[c].buffer[0];
    var log := Log(s, conn.session);
    DeliveryFrames.RuleFor(s, c, p);
    StraddleCounts(log, conn.base, item, conn.after);
    assert ReceiveStep(s, c).conns[c] == ReceiveRow(conn, item, log);
  }

  lemma OtherOvercount(s: System, step: Step, c: nat)
    requires Enabled(s, step) && step != Receive(c)
    ensures Overcount(s, c) == Overcount(Apply(s, step), c)
  {
  }

  lemma StraddleCounts(log: seq<Event>, base: nat, item: Event, after: int)
    requires Increasing(log) && Tile(log, base, item)
    ensures Repeated(log, base, item, after) > 0 && after < item.id <==>
      IsPresence(item) && after < item.id
        && exists k :: base <= k < base + Width(item) && k < |log| && log[k].id <= after
  {
    CountUpToSplits(log, after);
    if CountUpTo(log, after) > base {
      assert log[base].id <= after;
    }
  }

  lemma {:induction false} RunOvercount(s: System, steps: seq<Step>, c: nat)
    requires Inv(s) && Run(s, steps)
    ensures Overcount(s, c) <= Overcount(End(s, steps), c)
    ensures Overcount(s, c) == Overcount(End(s, steps), c) <==> NeverStraddles(s, steps, c)
    decreases |steps|
  {
    if steps != [] {
      StepOvercount(s, steps[0], c);
      StepKeeps(s, steps[0]);
      RunOvercount(Apply(s, steps[0]), steps[1..], c);
    }
  }

  /** Over any run from the start, the joins announced on a connection equal the joins it has passed if and
      only if it never took a compacted run containing an id at or below its cursor; otherwise they exceed them. */
  lemma DeltasExactIff(capacity: nat, steps: seq<Step>, c: nat)
    requires Run(Start(capacity), steps) && c < |End(Start(capacity), steps).conns|
    ensures var s := End(Start(capacity), steps);
            var announced, passed := Deltas(Output(s.conns[c])), Joins(Covered(Log(s, s.conns[c].session), s.conns[c]));
            announced >= passed && (announced == passed <==> NeverStraddles(Start(capacity), steps, c))
  {
    StartOk(capacity);
    RunOvercount(Start(capacity), steps, c);
    assert Reachable(End(Start(capacity), steps));
    JoinsConserved(End(Start(capacity), steps), c);
  }

  // --- Reconnecting ------------------------------------------------------------------

  lemma {:induction false} KeyIsPart(role: Role, s: seq<Event>)
    ensures forall e <- Key(role, s) :: e in s
    decreases |s|
  {
    if s != [] {
      KeyIsPart(role, s[..|s| - 1]);
    }
  }

  /** Two ways of cutting one sequence at the same id are the same cut. */
  lemma SameCut(a: seq<Event>, b: seq<Event>, x: seq<Event>, y: seq<Event>, cut: int)
    requires a + b == x + y
    requires (forall e <- a :: e.id <= cut) && (forall e <- x :: e.id <= cut)
    requires (forall e <- b :: cut < e.id) && (forall e <- y :: cut < e.id)
    ensures a == x
  {
    var both := a + b;
    assert forall i :: 0 <= i < |both| ==> (both[i].id <= cut <==> i < |a|);
    assert forall i :: 0 <= i < |both| ==> (both[i].id <= cut <==> i < |x|) by {
      assert both == x + y;
    }
    assert |a| < |both| ==> both[|a|].id > cut;
    assert |x| < |both| ==> both[|x|].id > cut;
    assert a == both[..|a|] && x == both[..|x|];
  }

  /** Everything due up to the last id on the wire is on the wire. */
  lemma WrittenUpToLastId(log: seq<Event>, conn: Conn)
    requires Increasing(log) && ConnOk(log, conn) && conn.written != []
    ensures var cut := conn.written[|conn.written| - 1].id;
      && conn.last < cut
      && CountUpTo(log, conn.last) <= CountUpTo(log, cut)
      && Key(conn.role, conn.written) == Key(conn.role, log[CountUpTo(log, conn.last)..CountUpTo(log, cut)])
  {
    var n := |conn.written|;
    var cut := conn.written[n - 1].id;
    OutputIds(conn);
    CountUpToMonotone(log, conn.last, cut);
    CountUpToMonotone(log, cut, conn.after);
    CountUpToSplits(log, cut);
    var head := log[CountUpTo(log, conn.last)..CountUpTo(log, cut)];
    var rest := log[CountUpTo(log, cut)..CountUpTo(log, conn.after)];
    assert Covered(log, conn) == head + rest;
    KeyConcat(conn.role, conn.written, conn.queue, Output(conn));
    KeyConcat(conn.role, head, rest, Covered(log, conn));
    KeyIsPart(conn.role, conn.written);
    KeyIsPart(conn.role, conn.queue);
    KeyIsPart(conn.role, head);
    KeyIsPart(conn.role, rest);
    SameCut(Key(conn.role, conn.written), Key(conn.role, conn.queue), Key(conn.role, head), Key(conn.role, rest), cut);
  }

  lemma OutputIds(conn: Conn)
    requires Ascending(conn.last, conn.after, Output(conn)) && conn.written != []
    ensures var cut := conn.written[|conn.written| - 1].id;
      && conn.last < cut <= conn.after
      && (forall e <- conn.written :: e.id <= cut)
      && (forall e <- conn.queue :: cut < e.id)
  {
    var out, n := Output(conn), |conn.written|;
    assert forall i :: 0 <= i < n ==> out[i] == conn.written[i];
    assert forall i :: 0 <= i < |conn.queue| ==> out[n + i] == conn.queue[i];
  }

  /** A client that comes back with the last id it saw goes on exactly where its previous connection was cut:
      the two together still have no gap and no repeat. */
  lemma ResumeIsSeamless(s: System, first: nat, second: nat)
    requires Reachable(s) && first < |s.conns| && second < |s.conns|
    requires var c1, c2 := s.conns[first], s.conns[second];
      && c2.session == c1.session && c2.role == c1.role
      && c1.written != [] && c2.last == c1.written[|c1.written| - 1].id
    ensures var c1, c2 := s.conns[first], s.conns[second];
      Key(c1.role, c1.written) + Key(c1.role, c2.written) <= Key(c1.role, Above(Log(s, c1.session), c1.last))
  {
    var c1, c2 := s.conns[first], s.conns[second];
    var log := Log(s, c1.session);
    RuleHolds(s, first);
    WrittenUpToLastId(log, c1);
    NoGapNoRepeat(s, second);
    var i, j := CountUpTo(log, c1.last), CountUpTo(log, c2.last);
    Halves(log, i, j);
    Chained(c1.role, log[i..j], log[j..], log[i..], c1.written, c2.written);
  }

  /** What fills the rows passed, followed by a beginning of those ahead, is a beginning of all that is due. */
  lemma Chained(role: Role, passed: seq<Event>, ahead: seq<Event>, due: seq<Event>, first: seq<Event>, second: seq<Event>)
    requires due == passed + ahead
    requires Key(role, first) == Key(role, passed) && Key(role, second) <= Key(role, ahead)
    ensures Key(role, first) + Key(role, second) <= Key(role, due)
  {
    KeyConcat(role, passed, ahead, due);
    PrefixAfter(Key(role, first), Key(role, second), Key(role, ahead));
  }

  lemma Halves<T>(s: seq<T>, i: nat, j: nat)
    requires i <= j <= |s|
    ensures s[i..] == s[i..j] + s[j..]
  {
  }

  lemma PrefixAfter<T>(a: seq<T>, b: seq<T>, c: seq<T>)
    requires b <= c
    ensures a + b <= a + c
  {
  }
}

/** How joins are counted when some become visible late: which of them the rows on a connection announce, by id. */
module LateCounts {
  import opened Prelude
  import opened LiveEvents
  import opened EventLog
  import opened EventStream
  import opened Delivery
  import opened LateJoins
  import opened DeliverySteps
  import B = BrokerModel

  /** Joins among these rows, but for those with an id in late. */
  function JoinsBut(late: set<int>, s: seq<Event>): nat {
    if s == [] then 0
    else JoinsBut(late, s[..|s| - 1]) + if IsPresence(s[|s| - 1]) && s[|s| - 1].id !in late then 1 else 0
  }

  /** Joins among these rows with an id in late. */
  function JoinsIn(late: set<int>, s: seq<Event>): nat {
    if s == [] then 0
    else JoinsIn(late, s[..|s| - 1]) + if IsPresence(s[|s| - 1]) && s[|s| - 1].id in late then 1 else 0
  }

  lemma {:induction false} ButAndIn(late: set<int>, s: seq<Event>)
    ensures Joins(s) == JoinsBut(late, s) + JoinsIn(late, s)
    decreases |s|
  {
    if s != [] {
      ButAndIn(late, s[..|s| - 1]);
    }
  }

  lemma {:induction false} ButConcat(late: set<int>, a: seq<Event>, b: seq<Event>, both: seq<Event>)
    requires both == a + b
    ensures JoinsBut(late, both) == JoinsBut(late, a) + JoinsBut(late, b)
    decreases |b|
  {
    if b == [] {
      assert both == a;
    } else {
      ButConcat(late, a, b[..|b| - 1], both[..|both| - 1]);
      assert both[|both| - 1] == b[|b| - 1];
    }
  }

  lemma {:induction false} ButSame(late: set<int>, late': set<int>, s: seq<Event>)
    requires forall e <- s :: e.id in late <==> e.id in late'
    ensures JoinsBut(late, s) == JoinsBut(late', s)
    decreases |s|
  {
    if s != [] {
      assert s[|s| - 1] in s;
      ButSame(late, late', s[..|s| - 1]);
    }
  }

  // --- Joins between two ids ------------------------------------------------------------------------

  function Count(log: seq<Event>, late: set<int>, lo: int, hi: int): nat {
    JoinsBut(late, Stretch(log, lo, hi))
  }

  /** No row lies above base but not above after. */
  predicate Behind(base: int, after: int) {
    base <= after || base <= 0
  }

  lemma BehindPlaces(log: seq<Event>, base: int, after: int)
    requires Increasing(log) && Behind(base, after)
    ensures CountUpTo(log, base) <= CountUpTo(log, after)
  {
    if base <= after {
      CountUpToMonotone(log, base, after);
    } else {
      CountUpToIs(log, base, 0);
    }
  }

  lemma CountSplits(log: seq<Event>, late: set<int>, lo: int, mid: int, hi: int)
    requires Increasing(log) && Behind(lo, mid) && mid <= hi
    ensures Count(log, late, lo, hi) == Count(log, late, lo, mid) + Count(log, late, mid, hi)
  {
    BehindPlaces(log, lo, mid);
    CountUpToMonotone(log, mid, hi);
    ButConcat(late, Stretch(log, lo, mid), Stretch(log, mid, hi), Stretch(log, lo, hi));
  }

  lemma CountNone(log: seq<Event>, late: set<int>, lo: int)
    ensures Count(log, late, lo, lo) == 0
  {
    assert Stretch(log, lo, lo) == [];
  }

  /** Only ids between the two matter. */
  lemma CountSame(log: seq<Event>, late: set<int>, late': set<int>, lo: int, hi: int)
    requires Increasing(log) && forall x: int :: lo < x <= hi ==> (x in late <==> x in late')
    ensures Count(log, late, lo, hi) == Count(log, late', lo, hi)
  {
    StretchRows(log, lo, hi);
    ButSame(late, late', Stretch(log, lo, hi));
  }

  lemma StretchRows(log: seq<Event>, lo: int, hi: int)
    requires Increasing(log)
    ensures forall e <- Stretch(log, lo, hi) :: lo < e.id <= hi && e in log
  {
    CountUpToSplits(log, lo);
    CountUpToSplits(log, hi);
  }

  lemma CountAppend(log: seq<Event>, e: Event, longer: seq<Event>, late: set<int>, lo: int, hi: int)
    requires Increasing(longer) && longer == log + [e] && hi <= LatestId(log)
    ensures Count(longer, late, lo, hi) == Count(log, late, lo, hi)
  {
    StretchAppend(log, e, longer, lo, hi);
  }

  /** A late join within the stretch does not count if it is put down as late. */
  lemma CountInserted(log: seq<Event>, e: Event, longer: seq<Event>, late: set<int>, late': set<int>, lo: int, hi: int)
    requires Increasing(log) && MayArrive(log, e) && longer == Inserted(log, e) && lo <= hi
    requires (late' == late || late' == late + {e.id}) && (lo < e.id <= hi ==> e.id in late')
    ensures Count(longer, late', lo, hi) == Count(log, late, lo, hi)
  {
    var i, n, j, before, upTo := InsertedEnds(log, e, longer, lo, hi);
    OthersSame(log, e, late, late');
    CountAround(log, e, longer, late, late', i, n, j, before, upTo);
  }

  lemma CountAround(log: seq<Event>, e: Event, longer: seq<Event>, late: set<int>, late': set<int>, i: nat, n: nat, j: nat, before: bool, upTo: bool)
    requires i <= j <= |log| && n <= |log| && longer == log[..n] + [e] + log[n..] && (before ==> upTo)
    requires (if before then n <= i else i <= n) && (if upTo then n <= j else j <= n)
    requires (upTo && !before ==> e.id in late') && forall r <- log :: r.id in late <==> r.id in late'
    ensures JoinsBut(late', longer[i + (if before then 1 else 0)..j + if upTo then 1 else 0]) == JoinsBut(late, log[i..j])
  {
    if upTo && !before {
      InsertedWithin(log, e, longer, i, n, j);
      ButWithJoin(late, late', log[i..n], e, log[n..j], log[i..j], longer[i..j + 1]);
    } else {
      InsertedOutside(log, e, longer, i, n, j);
      ButSame(late, late', log[i..j]);
    }
  }

  lemma OthersSame(log: seq<Event>, e: Event, late: set<int>, late': set<int>)
    requires MayArrive(log, e) && (late' == late || late' == late + {e.id})
    ensures forall r <- log :: r.id in late <==> r.id in late'
  {
  }

  lemma ButWithJoin(late: set<int>, late': set<int>, a: seq<Event>, e: Event, b: seq<Event>, both: seq<Event>, more: seq<Event>)
    requires both == a + b && more == a + [e] + b && e.id in late'
    requires forall r <- both :: r.id in late <==> r.id in late'
    ensures JoinsBut(late', more) == JoinsBut(late, both)
  {
    assert [e][..0] == [];
    assert JoinsBut(late', [e]) == 0;
    ButConcat(late', a, [e], a + [e]);
    ButConcat(late', a + [e], b, more);
    ButConcat(late', a, b, both);
    ButSame(late, late', both);
  }

  // --- Rows laid over the ids -----------------------------------------------------------------------------

  /** How many joins a row announces. */
  function Told(item: Event): nat {
    if IsPresence(item) then Width(item) else 0
  }

  function Zeros(n: nat): (r: seq<nat>)
    ensures |r| == n && forall i :: 0 <= i < n ==> r[i] == 0
  {
    seq(n, _ => 0)
  }

  function Sum(s: seq<nat>): nat {
    if s == [] then 0 else s[0] + Sum(s[1..])
  }

  /** The item stands for some rows and carries the id and version of one. */
  ghost predicate Stamped(log: seq<Event>, item: Event) {
    0 < Width(item) && exists r <- log :: r.id == item.id && r.version == item.version
  }

  /** The items, ids rising from lo to hi, carry ids and versions of the log; each announces the joins since the one
      before, those in late aside, and agains[i] joins that lie before it. */
  ghost predicate Laid(log: seq<Event>, late: set<int>, lo: int, items: seq<Event>, agains: seq<nat>, hi: int)
    decreases |items|
  {
    && |agains| == |items|
    && if items == [] then lo <= hi && Count(log, late, lo, hi) == 0
       else
         && lo < items[0].id <= hi
         && Stamped(log, items[0])
         && Told(items[0]) == Count(log, late, lo, items[0].id) + agains[0]
         && Laid(log, late, items[0].id, items[1..], agains[1..], hi)
  }

  lemma {:induction false} LaidUp(log: seq<Event>, late: set<int>, lo: int, items: seq<Event>, agains: seq<nat>, hi: int)
    requires Laid(log, late, lo, items, agains, hi)
    ensures lo <= hi && (items != [] ==> lo < hi) && forall e <- items :: lo < e.id <= hi
    decreases |items|
  {
    if items != [] {
      LaidUp(log, late, items[0].id, items[1..], agains[1..], hi);
      assert items == [items[0]] + items[1..];
    }
  }

  lemma LaidBefore(log: seq<Event>, late: set<int>, lo: int, mid: int, b: seq<Event>, y: seq<nat>, hi: int)
    requires Increasing(log) && lo <= mid && Count(log, late, lo, mid) == 0 && Laid(log, late, mid, b, y, hi)
    ensures Laid(log, late, lo, b, y, hi)
  {
    CountSplits(log, late, lo, mid, if b == [] then hi else b[0].id);
  }

  lemma StampedLater(log: seq<Event>, longer: seq<Event>, item: Event)
    requires Stamped(log, item) && forall r <- log :: r in longer
    ensures Stamped(longer, item)
  {
    var r :| r in log && r.id == item.id && r.version == item.version;
    assert r in longer;
  }

  lemma Tail<T>(a: seq<T>, b: seq<T>, both: seq<T>)
    requires both == a + b
    ensures if a == [] then both == b else both != [] && both[0] == a[0] && both[1..] == a[1..] + b
  {
  }

  lemma {:induction false} LaidJoin(log: seq<Event>, late: set<int>, lo: int, a: seq<Event>, x: seq<nat>, mid: int,
                                    b: seq<Event>, y: seq<nat>, hi: int, both: seq<Event>, z: seq<nat>)
    requires Increasing(log) && Laid(log, late, lo, a, x, mid) && Laid(log, late, mid, b, y, hi) && both == a + b && z == x + y
    ensures Laid(log, late, lo, both, z, hi)
    decreases |a|
  {
    Tail(a, b, both);
    Tail(x, y, z);
    if a == [] {
      LaidBefore(log, late, lo, mid, b, y, hi);
    } else {
      LaidJoin(log, late, a[0].id, a[1..], x[1..], mid, b, y, hi, both[1..], z[1..]);
      LaidUp(log, late, a[0].id, both[1..], z[1..], hi);
    }
  }

  lemma {:induction false} LaidAppend(log: seq<Event>, e: Event, longer: seq<Event>, late: set<int>, lo: int, items: seq<Event>, agains: seq<nat>, hi: int)
    requires Increasing(longer) && longer == log + [e] && hi <= LatestId(log) && Laid(log, late, lo, items, agains, hi)
    ensures Laid(longer, late, lo, items, agains, hi)
    decreases |items|
  {
    if items == [] {
      CountAppend(log, e, longer, late, lo, hi);
    } else {
      CountAppend(log, e, longer, late, lo, items[0].id);
      StampedLater(log, longer, items[0]);
      LaidAppend(log, e, longer, late, items[0].id, items[1..], agains[1..], hi);
    }
  }

  lemma {:induction false} LaidInserted(log: seq<Event>, e: Event, longer: seq<Event>, late: set<int>, late': set<int>,
                                        lo: int, items: seq<Event>, agains: seq<nat>, hi: int)
    requires Increasing(log) && MayArrive(log, e) && longer == Inserted(log, e) && Laid(log, late, lo, items, agains, hi)
    requires (late' == late || late' == late + {e.id}) && (lo < e.id <= hi ==> e.id in late')
    ensures Laid(longer, late', lo, items, agains, hi)
    decreases |items|
  {
    if items == [] {
      CountInserted(log, e, longer, late, late', lo, hi);
    } else {
      CountInserted(log, e, longer, late, late', lo, items[0].id);
      InsertedRows(log, e);
      StampedLater(log, longer, items[0]);
      LaidInserted(log, e, longer, late, late', items[0].id, items[1..], agains[1..], hi);
    }
  }

  /** What all the items announce together. */
  lemma {:induction false} LaidSum(log: seq<Event>, late: set<int>, lo: int, items: seq<Event>, agains: seq<nat>, hi: int)
    requires Increasing(log) && Laid(log, late, lo, items, agains, hi)
    ensures Deltas(items) == Count(log, late, lo, hi) + Sum(agains)
    decreases |items|
  {
    if items != [] {
      var item, rest := items[0], items[1..];
      LaidSum(log, late, item.id, rest, agains[1..], hi);
      LaidUp(log, late, item.id, rest, agains[1..], hi);
      CountSplits(log, late, lo, item.id, hi);
      OneDelta(item);
      DeltasConcat([item], rest, items);
    }
  }

  lemma OneDelta(item: Event)
    ensures Deltas([item]) == Told(item)
  {
    assert [item][..0] == [];
  }

  /** Where the n-th item begins. */
  function IdAt(lo: int, items: seq<Event>, n: nat): int
    requires n <= |items|
  {
    if n == 0 then lo else items[n - 1].id
  }

  lemma {:induction false} LaidAt(log: seq<Event>, late: set<int>, lo: int, items: seq<Event>, agains: seq<nat>, hi: int, n: nat)
    requires Laid(log, late, lo, items, agains, hi) && n < |items|
    ensures lo <= IdAt(lo, items, n) < items[n].id <= hi && Stamped(log, items[n])
    ensures Told(items[n]) == Count(log, late, IdAt(lo, items, n), items[n].id) + agains[n]
    decreases n
  {
    if n > 0 {
      LaidAt(log, late, items[0].id, items[1..], agains[1..], hi, n - 1);
    }
  }

  // --- A page ---------------------------------------------------------------------------------------------------

  /** A compacted page announces all joins it holds, if none is late yet. */
  lemma {:induction false} LaidTiles(log: seq<Event>, late: set<int>, lo: int, i: nat, items: seq<Event>, agains: seq<nat>, hi: int)
    requires Increasing(log) && Tiles(log, i, items) && i == CountUpTo(log, lo) && agains == Zeros(|items|)
    requires forall x <- late :: x <= lo
    requires hi == if items == [] then lo else items[|items| - 1].id
    ensures Laid(log, late, lo, items, agains, hi)
    decreases |items|
  {
    if items == [] {
      CountNone(log, late, lo);
    } else {
      var end := i + Width(items[0]);
      TileCounts(log, late, lo, i, items[0]);
      LaidTiles(log, late, items[0].id, end, items[1..], agains[1..], hi);
      LaidUp(log, late, items[0].id, items[1..], agains[1..], hi);
    }
  }

  /** Where a tile ends, and that it is all there is from its beginning to its id. */
  lemma TileStretch(log: seq<Event>, lo: int, i: nat, item: Event)
    requires Increasing(log) && Tile(log, i, item) && i == CountUpTo(log, lo)
    ensures lo < item.id && CountUpTo(log, item.id) == i + Width(item)
    ensures Stretch(log, lo, item.id) == log[i..i + Width(item)] && Stamped(log, item)
  {
    var end := i + Width(item);
    CountUpToSplits(log, lo);
    assert log[end - 1] in log && log[end - 1].id == item.id && log[end - 1].version == item.version;
    CountUpToIs(log, item.id, end);
  }

  lemma TileCounts(log: seq<Event>, late: set<int>, lo: int, i: nat, item: Event)
    requires Increasing(log) && Tile(log, i, item) && i == CountUpTo(log, lo) && forall x <- late :: x <= lo
    ensures lo < item.id && CountUpTo(log, item.id) == i + Width(item)
    ensures Told(item) == Count(log, late, lo, item.id) && Stamped(log, item)
  {
    var rows := log[i..i + Width(item)];
    TileStretch(log, lo, i, item);
    StretchRows(log, lo, item.id);
    if IsPresence(item) {
      AllCount(late, rows);
    } else {
      assert rows == [item];
      OtherRow(late, item);
    }
  }

  lemma OtherRow(late: set<int>, item: Event)
    requires !IsPresence(item)
    ensures JoinsBut(late, [item]) == 0
  {
    assert [item][..0] == [];
  }

  lemma {:induction false} AllCount(late: set<int>, s: seq<Event>)
    requires forall e <- s :: IsPresence(e) && e.id !in late
    ensures JoinsBut(late, s) == |s|
    decreases |s|
  {
    if s != [] {
      assert s[|s| - 1] in s;
      AllCount(late, s[..|s| - 1]);
    }
  }

  lemma {:induction false} VisibleConcat(role: Role, a: seq<Event>, b: seq<Event>, both: seq<Event>)
    requires both == a + b
    ensures Visible(role, both) == Visible(role, a) + Visible(role, b)
    decreases |b|
  {
    if b == [] {
      assert both == a;
    } else {
      VisibleConcat(role, a, b[..|b| - 1], both[..|both| - 1]);
      assert both[|both| - 1] == b[|b| - 1];
    }
  }

  /** One row, as the role sees it. */
  lemma LaidOne(role: Role, log: seq<Event>, late: set<int>, lo: int, item: Event, again: nat, shown: seq<Event>, agains: seq<nat>)
    requires lo < item.id && Told(item) == Count(log, late, lo, item.id) + again && Stamped(log, item) && shown == Visible(role, [item])
    requires agains == if shown == [] then [] else [again]
    ensures Laid(log, late, lo, shown, agains, item.id)
  {
    assert [item][..0] == [];
    CountNone(log, late, item.id);
    if VisibleTo(role, item) {
      assert shown == [item] && shown[1..] == [] && agains[1..] == [];
      assert Laid(log, late, item.id, [], [], item.id);
    } else {
      assert shown == [];
    }
  }

  lemma FirstVisible(role: Role, log: seq<Event>, late: set<int>, lo: int, item: Event, shown: seq<Event>)
    requires lo < item.id && Told(item) == Count(log, late, lo, item.id) && Stamped(log, item) && shown == Visible(role, [item])
    ensures Laid(log, late, lo, shown, Zeros(|shown|), item.id)
  {
    assert [item][..0] == [];
    LaidOne(role, log, late, lo, item, 0, shown, Zeros(|shown|));
  }

  lemma VisibleHead(role: Role, items: seq<Event>, shown: seq<Event>) returns (head: seq<Event>, tail: seq<Event>)
    requires items != [] && shown == Visible(role, items)
    ensures head == Visible(role, [items[0]]) && tail == Visible(role, items[1..]) && shown == head + tail
    ensures Zeros(|shown|) == Zeros(|head|) + Zeros(|tail|) && Zeros(|items|)[1..] == Zeros(|items[1..]|)
  {
    head, tail := Visible(role, [items[0]]), Visible(role, items[1..]);
    VisibleConcat(role, [items[0]], items[1..], items);
  }

  lemma {:induction false} LaidVisible(role: Role, log: seq<Event>, late: set<int>, lo: int, items: seq<Event>, agains: seq<nat>, hi: int,
                                       shown: seq<Event>, agains': seq<nat>)
    requires Increasing(log) && Laid(log, late, lo, items, agains, hi) && agains == Zeros(|items|)
    requires shown == Visible(role, items) && agains' == Zeros(|shown|)
    ensures Laid(log, late, lo, shown, agains', hi)
    decreases |items|
  {
    if items != [] {
      var head, tail := VisibleHead(role, items, shown);
      LaidVisible(role, log, late, items[0].id, items[1..], agains[1..], hi, tail, Zeros(|tail|));
      FirstVisible(role, log, late, lo, items[0], head);
      LaidJoin(log, late, lo, head, Zeros(|head|), items[0].id, tail, Zeros(|tail|), hi, shown, agains');
    }
  }
}

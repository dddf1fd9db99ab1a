/** Slide order in apps/api/internal/presentations/postgres_store.go: rows carry positions under a uniqueness rule
    that the database checks after every single row update, so moves go by way of a band far above the deck. */
module Slides {
  import opened Prelude

  const BAND: int := 1_000_000

  datatype Row = Row(position: int, revision: int, body: string)

  datatype Error = NotFound | EditConflict | InvalidPosition | HasResults

  type Rows = map<Uuid, Row>

  // --- The deck as a list ------------------------------------------------------------

  /** The rows are the list: each id at its position, and positions are 0 to n - 1. */
  ghost predicate IsDeck(rows: Rows, order: seq<Uuid>) {
    && |order| < BAND
    && Distinct(order)
    && (forall i :: 0 <= i < |order| ==> order[i] in rows && rows[order[i]].position == i)
    && (forall id <- rows :: id in order)
  }

  function Inserted(order: seq<Uuid>, position: nat, id: Uuid): seq<Uuid>
    requires position <= |order|
  {
    order[..position] + [id] + order[position..]
  }

  function Removed(order: seq<Uuid>, position: nat): seq<Uuid>
    requires position < |order|
  {
    order[..position] + order[position + 1..]
  }

  /** Nobody else stands where this row is about to stand. */
  ghost predicate Vacant(rows: Rows, id: Uuid, position: int) {
    forall other <- rows :: other != id ==> rows[other].position != position
  }

  ghost predicate NoTwoCollide(rows: Rows) {
    forall a, b :: a in rows && b in rows && a != b ==> rows[a].position != rows[b].position
  }

  /** Moving any of the rows at or above low by delta never lands on another row, moved or not. */
  ghost predicate Clear(rows: Rows, low: int, delta: int) {
    forall a, b :: a in rows && b in rows && a != b && rows[a].position >= low ==> rows[a].position + delta != rows[b].position
  }

  /** An UPDATE of the rows at or above low by delta breaks no rule after any single row, in any order. */
  ghost predicate Movable(rows: Rows, low: int, delta: int) {
    && NoTwoCollide(rows) && Clear(rows, low, delta)
    && forall id <- rows :: rows[id].position >= low ==> rows[id].position + delta >= 0
  }

  function Shifted(row: Row, low: int, delta: int, bump: bool): Row {
    if row.position >= low then row.(position := row.position + delta, revision := row.revision + if bump then 1 else 0) else row
  }

  /** after is before with every row at or above low moved by delta, and revised if asked for. */
  ghost predicate AllShifted(before: Rows, after: Rows, low: int, delta: int, bump: bool) {
    && after.Keys == before.Keys
    && forall id <- before ::
         var row := before[id];
         after[id] == if row.position >= low then Row(row.position + delta, if bump then row.revision + 1 else row.revision, row.body) else row
  }

  lemma DeckFacts(rows: Rows, order: seq<Uuid>)
    requires IsDeck(rows, order)
    ensures NoTwoCollide(rows)
    ensures forall id <- rows :: 0 <= rows[id].position < |order| && order[rows[id].position] == id
  {
    forall id <- rows ensures 0 <= rows[id].position < |order| && order[rows[id].position] == id {
      var i :| 0 <= i < |order| && order[i] == id;
    }
  }

  /** id is new at position, at revision 1; whoever stood there or behind stands one further, revised once, with the same
      content; nobody else changed. */
  ghost predicate RoomMade(before: Rows, after: Rows, position: int, id: Uuid, body: string) {
    && after.Keys == before.Keys + {id} && after[id] == Row(position, 1, body)
    && forall other <- before ::
         var row := before[other];
         after[other] == if row.position >= position then Row(row.position + 1, row.revision + 1, row.body) else row
  }

  /** id is gone; whoever stood behind it stands one place lower, revised once, with the same content; nobody else changed. */
  ghost predicate RoomClosed(before: Rows, after: Rows, id: Uuid) {
    && id in before && after.Keys == before.Keys - {id}
    && forall other <- after :: other in before &&
         var row := before[other];
         after[other] == if row.position > before[id].position then Row(row.position - 1, row.revision + 1, row.body) else row
  }

  /** What an edit that puts id at position leaves: the rows from there on moved up by one and revised. */
  lemma InsertMakesDeck(before: Rows, order: seq<Uuid>, position: nat, id: Uuid, body: string, after: Rows)
    requires IsDeck(before, order) && position <= |order| && |order| + 1 < BAND && id !in before
    requires RoomMade(before, after, position, id, body)
    ensures IsDeck(after, Inserted(order, position, id))
  {
    var order' := Inserted(order, position, id);
    forall i | 0 <= i < |order'| ensures order'[i] in after && after[order'[i]].position == i {
      if i < position { assert order'[i] == order[i]; } else if i > position { assert order'[i] == order[i - 1]; }
    }
    forall i, j | 0 <= i < j < |order'| ensures order'[i] != order'[j] {
      assert after[order'[i]].position == i && after[order'[j]].position == j;
    }
    forall other <- after ensures other in order' {
      if other != id {
        assert other in order;
        var i :| 0 <= i < |order| && order[i] == other;
        assert order'[if i < position then i else i + 1] == other;
      } else {
        assert order'[position] == id;
      }
    }
  }

  lemma RemoveMakesDeck(before: Rows, order: seq<Uuid>, position: nat, after: Rows)
    requires IsDeck(before, order) && position < |order| && order[position] in before && before[order[position]].position == position
    requires RoomClosed(before, after, order[position])
    ensures IsDeck(after, Removed(order, position))
  {
    var order' := Removed(order, position);
    forall i | 0 <= i < |order'| ensures order'[i] in after && after[order'[i]].position == i {
      assert order'[i] == order[if i < position then i else i + 1];
    }
    forall i, j | 0 <= i < j < |order'| ensures order'[i] != order'[j] {
      assert after[order'[i]].position == i && after[order'[j]].position == j;
    }
    forall other <- after ensures other in order' {
      assert other in order;
      var i :| 0 <= i < |order| && order[i] == other;
      assert order'[if i < position then i else i - 1] == other;
    }
  }

  /** Rows below low, and rows lifted from low or above into the band over a deck of fewer than n rows. */
  ghost predicate Lifted(rows: Rows, low: int, n: int) {
    && NoTwoCollide(rows)
    && forall id <- rows :: 0 <= rows[id].position < low || low + BAND <= rows[id].position < n + BAND
  }

  /** Lifting is safe row by row. */
  lemma LiftIsSafe(rows: Rows, low: int, n: int)
    requires NoTwoCollide(rows) && n < BAND && forall id <- rows :: 0 <= rows[id].position < n
    ensures Movable(rows, low, BAND)
  {
  }

  /** It leaves every place from low to the band free. */
  lemma LiftLeavesRoom(rows: Rows, after: Rows, low: int, n: int)
    requires NoTwoCollide(rows) && 0 <= low && n < BAND && forall id <- rows :: 0 <= rows[id].position < n
    requires AllShifted(rows, after, low, BAND, false)
    ensures Lifted(after, low, n)
  {
    forall a, b | a in after && b in after && a != b ensures after[a].position != after[b].position {
      assert after[a] == Shifted(rows[a], low, BAND, false) && after[b] == Shifted(rows[b], low, BAND, false);
    }
  }

  /** Putting lifted rows down one place higher is safe with the new row where they stood. */
  lemma PutDownHigherIsSafe(rows: Rows, id: Uuid, low: int, n: int)
    requires id in rows && rows[id].position == low && 0 <= low <= n && n + 1 < BAND && Lifted(rows - {id}, low, n)
    ensures Movable(rows, BAND, 1 - BAND)
  {
    forall a, b | a in rows && b in rows && a != b
      ensures rows[a].position != rows[b].position
      ensures rows[a].position >= BAND ==> rows[a].position + 1 - BAND != rows[b].position
    {
      assert a != id ==> a in rows - {id} && (rows - {id})[a] == rows[a];
      assert b != id ==> b in rows - {id} && (rows - {id})[b] == rows[b];
    }
  }

  /** Putting lifted rows down one place lower is safe once the row below them is gone. */
  lemma PutDownLowerIsSafe(rows: Rows, low: int, n: int)
    requires 0 < low <= n < BAND && Lifted(rows, low, n) && forall id <- rows :: rows[id].position != low - 1
    ensures Movable(rows, BAND + 1, -BAND - 1)
  {
  }

  /** Rows lifted into the band and put down again one place further. */
  lemma TwoShifts(before: Rows, lifted: Rows, after: Rows, low: int, down: int, threshold: int)
    requires AllShifted(before, lifted, low, BAND, false) && AllShifted(lifted, after, threshold, down - BAND, true)
    requires forall id <- before :: 0 <= before[id].position < BAND
    requires 0 <= low && threshold <= low + BAND && BAND <= threshold
    ensures after.Keys == before.Keys && forall id <- before :: after[id] == Shifted(before[id], low, down, true)
  {
    forall id <- before ensures after[id] == Shifted(before[id], low, down, true) {
      assert lifted[id] == Shifted(before[id], low, BAND, false);
      assert after[id] == Shifted(lifted[id], threshold, down - BAND, true);
    }
  }

  // --- Putting every row in its place -----------------------------------------------------

  /** What becomes of a row put at a position. */
  type Settling = (Uuid, Row, int) -> Row

  ghost predicate Settles(settle: Settling) {
    forall id: Uuid, row: Row, position: int :: settle(id, row, position).position == position
  }

  /** The first k ids stand settled at their places, everybody else is still lifted. */
  ghost predicate Halfway(before: Rows, rows: Rows, ordered: seq<Uuid>, k: nat, settle: Settling) {
    && k <= |ordered| && rows.Keys == before.Keys
    && (forall j :: 0 <= j < k ==> ordered[j] in rows && rows[ordered[j]] == settle(ordered[j], before[ordered[j]], j))
    && (forall id <- rows :: id !in ordered[..k] ==> rows[id] == before[id].(position := before[id].position + BAND))
  }

  ghost predicate Plan(before: Rows, ordered: seq<Uuid>, settle: Settling) {
    Settles(settle) && Distinct(ordered) && |ordered| < BAND && forall other <- before :: before[other].position >= 0
  }

  lemma SpotIsFree(before: Rows, rows: Rows, ordered: seq<Uuid>, k: nat, settle: Settling)
    requires Halfway(before, rows, ordered, k, settle) && Plan(before, ordered, settle) && k < |ordered|
    ensures Vacant(rows, ordered[k], k)
  {
    forall other <- rows | other != ordered[k] ensures rows[other].position != k {
      if other in ordered[..k] {
        var j :| 0 <= j < k && ordered[j] == other;
      }
    }
  }

  lemma NextHalfway(before: Rows, rows: Rows, ordered: seq<Uuid>, k: nat, settle: Settling, id: Uuid, after: Rows)
    requires Halfway(before, rows, ordered, k, settle) && Distinct(ordered) && k < |ordered| && ordered[k] == id && id in rows
    requires after == rows[id := settle(id, before[id], k)]
    ensures Halfway(before, after, ordered, k + 1, settle)
  {
    forall j | 0 <= j < k + 1 ensures ordered[j] in after && after[ordered[j]] == settle(ordered[j], before[ordered[j]], j) {
      assert j < k ==> ordered[j] != id;
    }
    forall other <- after | other !in ordered[..k + 1] ensures after[other] == before[other].(position := before[other].position + BAND) {
      assert ordered[k] in ordered[..k + 1];
      assert other !in ordered[..k] by {
        assert ordered[..k] == ordered[..k + 1][..k];
      }
    }
  }

  lemma AllPlaced(before: Rows, rows: Rows, ordered: seq<Uuid>, settle: Settling)
    requires Halfway(before, rows, ordered, |ordered|, settle) && Plan(before, ordered, settle) && |ordered| == |before|
    ensures IsDeck(rows, ordered)
    ensures forall id <- rows :: rows[id] == settle(id, before[id], rows[id].position)
  {
    DistinctCount(ordered);
    assert Elements(ordered) <= rows.Keys && |rows.Keys| == |before.Keys|;
    SubsetOfSameSize(Elements(ordered), rows.Keys);
    forall id <- rows ensures id in ordered && rows[id] == settle(id, before[id], rows[id].position) {
      assert id in Elements(ordered);
      var j :| 0 <= j < |ordered| && ordered[j] == id;
    }
  }

  /** What ReplaceSlide makes of a row: the target is revised and gets the new content, the others are revised if they moved. */
  function Resettled(before: Row, position: int, replaced: bool, body: string): Row {
    if replaced then Row(position, before.revision + 1, body)
    else if before.position != position then before.(position := position, revision := before.revision + 1)
    else before
  }

  function Replacing(target: Uuid, body: string): Settling {
    (id: Uuid, row: Row, position: int) => Resettled(row, position, id == target, body)
  }

  function Reordering(): Settling {
    (id: Uuid, row: Row, position: int) => row.(position := position, revision := row.revision + 1)
  }

  lemma BothSettle(target: Uuid, body: string)
    ensures Settles(Replacing(target, body)) && Settles(Reordering())
  {
    forall id: Uuid, row: Row, position: int ensures Replacing(target, body)(id, row, position).position == position {
      assert Resettled(row, position, id == target, body).position == position;
    }
  }

  lemma PlansHold(before: Rows, order: seq<Uuid>, ordered: seq<Uuid>, target: Uuid, body: string)
    requires IsDeck(before, order) && Distinct(ordered) && |ordered| < BAND
    ensures Plan(before, ordered, Replacing(target, body)) && Plan(before, ordered, Reordering())
  {
    DeckFacts(before, order);
    BothSettle(target, body);
  }

  lemma ReplacedWhenSettled(before: Rows, after: Rows, target: Uuid, body: string)
    requires after.Keys == before.Keys
    requires forall id <- after :: after[id] == Replacing(target, body)(id, before[id], after[id].position)
    ensures Replaced(before, after, target, body)
  {
    forall id <- before
      ensures after[id].body == (if id == target then body else before[id].body)
      ensures after[id].revision == before[id].revision + if id == target || after[id].position != before[id].position then 1 else 0
    {
      assert after[id] == Resettled(before[id], after[id].position, id == target, body);
    }
  }

  /** Revisions rise by one for exactly the target and the rows that moved, and only the target's content changes. */
  ghost predicate Replaced(before: Rows, after: Rows, target: Uuid, body: string) {
    && after.Keys == before.Keys
    && forall id <- before ::
         && after[id].body == (if id == target then body else before[id].body)
         && after[id].revision == before[id].revision + if id == target || after[id].position != before[id].position then 1 else 0
  }

  lemma ReplacementDone(before: Rows, rows: Rows, ordered: seq<Uuid>, target: Uuid, body: string)
    requires Plan(before, ordered, Replacing(target, body)) && Halfway(before, rows, ordered, |ordered|, Replacing(target, body))
    requires |ordered| == |before|
    ensures IsDeck(rows, ordered) && Replaced(before, rows, target, body)
  {
    AllPlaced(before, rows, ordered, Replacing(target, body));
    ReplacedWhenSettled(before, rows, target, body);
  }

  class Deck {
    var rows: Rows
    var revision: int
    ghost var order: seq<Uuid>

    ghost predicate Valid()
      reads this
    {
      IsDeck(rows, order)
    }

    constructor ()
      ensures Valid() && order == [] && revision == 1
    {
      rows, revision, order := map[], 1, [];
    }

    /** One row updated: the uniqueness and sign rules are checked at once. */
    method UpdateRow(id: Uuid, row: Row)
      requires id in rows && Vacant(rows, id, row.position) && row.position >= 0
      modifies this`rows
      ensures rows == old(rows)[id := row]
    {
      rows := rows[id := row];
    }

    method InsertRow(id: Uuid, row: Row)
      requires id !in rows && Vacant(rows, id, row.position) && row.position >= 0
      modifies this`rows
      ensures rows == old(rows)[id := row]
    {
      rows := rows[id := row];
    }

    /** UPDATE slides SET position=position+delta WHERE position>=low, row by row, in whatever order. */
    method Shift(low: int, delta: int, bump: bool)
      requires Movable(rows, low, delta)
      modifies this`rows
      ensures AllShifted(old(rows), rows, low, delta, bump)
    {
      ghost var before := rows;
      var rest := rows.Keys;
      while rest != {}
        invariant rest <= before.Keys == rows.Keys
        invariant forall id <- before :: rows[id] == if id in rest then before[id] else Shifted(before[id], low, delta, bump)
        decreases rest
      {
        var id := Pick(rest);
        rest := rest - {id};
        if rows[id].position >= low {
          UpdateRow(id, Shifted(rows[id], low, delta, bump));
        }
      }
    }

    /** CreateSlide: insert into the list; the slides behind the new one are revised. */
    method CreateSlide(owned: bool, expected: Option<int>, position: int, id: Uuid, body: string) returns (error: Option<Error>)
      requires Valid() && |order| + 1 < BAND && id !in rows
      modifies this
      ensures Valid()
      ensures error == if !owned then Some(NotFound) else if expected.Some? && expected.value != old(revision) then Some(EditConflict)
                       else if position < 0 || position > |old(order)| then Some(InvalidPosition) else None
      ensures error.Some? ==> unchanged(this)
      ensures error.None? ==> order == Inserted(old(order), position, id) && revision == old(revision) + 1
      ensures error.None? ==> RoomMade(old(rows), rows, position, id, body)
    {
      if !owned {
        return Some(NotFound);
      }
      if expected.Some? && revision != expected.value {
        return Some(EditConflict);
      }
      DeckFacts(rows, order);
      Counted(rows, order);
      var count := |rows|;
      if position < 0 || position > count {
        return Some(InvalidPosition);
      }
      PutIn(position, id, body);
      revision := revision + 1;
      return None;
    }

    /** The three statements that make room and insert. */
    method PutIn(position: nat, id: Uuid, body: string)
      requires Valid() && |order| + 1 < BAND && id !in rows && position <= |order|
      modifies this`rows, this`order
      ensures Valid() && order == Inserted(old(order), position, id)
      ensures RoomMade(old(rows), rows, position, id, body)
    {
      ghost var before := rows;
      DeckFacts(rows, order);
      Lift(position, |order|);
      ghost var lifted := rows;
      InsertRow(id, Row(position, 1, body));
      ghost var inserted := rows;
      assert inserted - {id} == lifted;
      PutDownHigherIsSafe(rows, id, position, |order|);
      Shift(BAND, 1 - BAND, true);
      RoomIsMade(before, lifted, inserted, rows, position, |order|, id, body);
      InsertMakesDeck(before, order, position, id, body, rows);
      order := Inserted(order, position, id);
    }

    /** ReplaceSlide: move one slide in the list and give it new content. */
    method ReplaceSlide(owned: bool, expected: Option<int>, id: Uuid, position: int, body: string, answered: bool)
      returns (error: Option<Error>)
      requires Valid()
      modifies this
      ensures Valid()
      ensures error == if !owned || id !in old(rows) then Some(NotFound)
                       else if expected.Some? && expected.value != old(rows)[id].revision then Some(EditConflict)
                       else if answered && body != old(rows)[id].body then Some(HasResults)
                       else if position < 0 || position >= |old(order)| then Some(InvalidPosition) else None
      ensures error.Some? ==> unchanged(this)
      ensures error.None? ==> 0 <= old(rows)[id].position < |old(order)| && revision == old(revision) + 1
      ensures error.None? ==> order == Inserted(Removed(old(order), old(rows)[id].position), position, id)
      ensures error.None? ==> Replaced(old(rows), rows, id, body)
    {
      if !owned || id !in rows {
        return Some(NotFound);
      }
      if expected.Some? && rows[id].revision != expected.value {
        return Some(EditConflict);
      }
      if answered && body != rows[id].body {
        return Some(HasResults);
      }
      error := MoveTo(id, position, body);
      if error.None? {
        revision := revision + 1;
      }
    }

    method MoveTo(id: Uuid, position: int, body: string) returns (error: Option<Error>)
      requires Valid() && id in rows
      modifies this`rows, this`order
      ensures Valid() && 0 <= old(rows)[id].position < |old(order)|
      ensures error == if position < 0 || position >= |old(order)| then Some(InvalidPosition) else None
      ensures error.Some? ==> rows == old(rows) && order == old(order)
      ensures error.None? ==> order == Inserted(Removed(old(order), old(rows)[id].position), position, id)
      ensures error.None? ==> Replaced(old(rows), rows, id, body)
    {
      DeckFacts(rows, order);
      var ids := Others(id);
      if position < 0 || position > |ids| {
        return Some(InvalidPosition);
      }
      var ordered := MakeRoom(ids, position, id);
      MovedIsDistinct(order, rows[id].position, position, id);
      Counted(rows, order);
      Resettle(ordered, id, body);
      return None;
    }

    /** SELECT id ... ORDER BY position, leaving out the target. */
    method Others(target: Uuid) returns (ids: seq<Uuid>)
      requires Valid() && target in rows && 0 <= rows[target].position < |order| && order[rows[target].position] == target
      ensures ids == Removed(order, rows[target].position)
    {
      ids := [];
      Counted(rows, order);
      ghost var at := rows[target].position;
      for n := 0 to |rows|
        invariant ids == OthersUpTo(order, at, n)
      {
        assert order[n] in rows && rows[order[n]].position == n;
        var id :| id in rows && rows[id].position == n;
        OneAtEach(rows, order, id, n);
        OneMoreOther(order, at, n);
        if id != target {
          ids := ids + [id];
        }
      }
    }

    /** The lift and the row-by-row loop of ReplaceSlide. */
    method Resettle(ordered: seq<Uuid>, target: Uuid, body: string)
      requires Valid() && Distinct(ordered) && |ordered| == |rows| && |ordered| < BAND
      requires forall id <- ordered :: id in rows
      modifies this`rows, this`order
      ensures Valid() && order == ordered && Replaced(old(rows), rows, target, body)
    {
      var before := rows;
      PlansHold(before, order, ordered, target, body);
      LiftAll(ordered, Replacing(target, body));
      SettleEach(before, ordered, target, body);
      ReplacementDone(before, rows, ordered, target, body);
      order := ordered;
    }

    /** The loop of ReplaceSlide over the new list; originals are the rows as they were selected. */
    method SettleEach(originals: Rows, ordered: seq<Uuid>, target: Uuid, body: string)
      requires Plan(originals, ordered, Replacing(target, body)) && Halfway(originals, rows, ordered, 0, Replacing(target, body))
      requires forall id <- ordered :: id in originals
      modifies this`rows
      ensures Halfway(originals, rows, ordered, |ordered|, Replacing(target, body))
    {
      for index := 0 to |ordered|
        invariant Halfway(originals, rows, ordered, index, Replacing(target, body))
      {
        var id := ordered[index];
        assert id in originals;
        Place(id, Resettled(originals[id], index, id == target, body), originals, ordered, index, Replacing(target, body));
      }
    }

    method LiftAll(ghost ordered: seq<Uuid>, ghost settle: Settling)
      requires Valid()
      modifies this`rows
      ensures Halfway(old(rows), rows, ordered, 0, settle)
    {
      DeckFacts(rows, order);
      Lift(0, |order|);
      assert ordered[..0] == [];
    }

    /** One UPDATE of the loop. */
    method Place(id: Uuid, row: Row, ghost before: Rows, ghost ordered: seq<Uuid>, ghost k: nat, ghost settle: Settling)
      requires Halfway(before, rows, ordered, k, settle) && Plan(before, ordered, settle)
      requires k < |ordered| && ordered[k] == id && id in rows && row == settle(id, before[id], k)
      modifies this`rows
      ensures Halfway(before, rows, ordered, k + 1, settle)
    {
      SpotIsFree(before, rows, ordered, k, settle);
      NextHalfway(before, rows, ordered, k, settle, id, rows[id := row]);
      UpdateRow(id, row);
    }

    /** ReorderSlides: the list becomes ids, or nothing changes. The handler has refused lists with repeats. */
    method ReorderSlides(owned: bool, expected: Option<int>, ids: seq<Uuid>) returns (error: Option<Error>)
      requires Valid() && Distinct(ids)
      modifies this
      ensures Valid()
      ensures error == if !owned then Some(NotFound) else if expected.Some? && expected.value != old(revision) then Some(EditConflict)
                       else if |ids| != |old(order)| || exists id :: id in ids && id !in old(rows) then Some(NotFound) else None
      ensures error.Some? ==> unchanged(this)
      ensures error.None? ==> order == ids && multiset(ids) == multiset(old(order))
      ensures error.None? ==> revision == old(revision) + 1 && rows.Keys == old(rows).Keys
      ensures error.None? ==> forall id <- rows :: rows[id].body == old(rows)[id].body && rows[id].revision == old(rows)[id].revision + 1
    {
      if !owned {
        return Some(NotFound);
      }
      if expected.Some? && revision != expected.value {
        return Some(EditConflict);
      }
      Counted(rows, order);
      if |rows| != |ids| {
        return Some(NotFound);
      }
      ghost var was := order;
      var ok := Arrange(ids);
      if !ok {
        return Some(NotFound);
      }
      SameElements(was, ids, rows);
      revision := revision + 1;
      return None;
    }

    /** The lift and the loop of ReorderSlides, rolled back at the first id that is not a slide of this deck. */
    method Arrange(ids: seq<Uuid>) returns (ok: bool)
      requires Valid() && Distinct(ids) && |ids| == |rows| == |order|
      modifies this`rows, this`order
      ensures Valid() && (ok <==> forall id <- ids :: id in old(rows))
      ensures !ok ==> rows == old(rows) && order == old(order)
      ensures ok ==> order == ids && rows.Keys == old(rows).Keys
      ensures ok ==> forall id <- rows :: rows[id].body == old(rows)[id].body && rows[id].revision == old(rows)[id].revision + 1
    {
      var before := rows;
      PlansHold(before, order, ids, 0, "");
      LiftAll(ids, Reordering());
      ok := ArrangeEach(before, ids);
      if !ok {
        rows := before;
        return;
      }
      AllPlaced(before, rows, ids, Reordering());
      order := ids;
    }

    /** The loop of ReorderSlides, up to the first id that is not a slide of this deck. */
    method ArrangeEach(originals: Rows, ids: seq<Uuid>) returns (ok: bool)
      requires Plan(originals, ids, Reordering()) && Halfway(originals, rows, ids, 0, Reordering())
      modifies this`rows
      ensures ok <==> forall id <- ids :: id in originals
      ensures ok ==> Halfway(originals, rows, ids, |ids|, Reordering())
    {
      for position := 0 to |ids|
        invariant Halfway(originals, rows, ids, position, Reordering())
      {
        var id := ids[position];
        if id !in rows {
          assert id in ids;
          return false;
        }
        Place(id, originals[id].(position := position, revision := originals[id].revision + 1), originals, ids, position, Reordering());
      }
      return true;
    }

    /** DeleteSlide: remove from the list; the slides behind it are revised. */
    method DeleteSlide(owned: bool, expected: Option<int>, id: Uuid, answered: bool) returns (error: Option<Error>)
      requires Valid()
      modifies this
      ensures Valid()
      ensures error == if !owned || id !in old(rows) then Some(NotFound)
                       else if expected.Some? && expected.value != old(rows)[id].revision then Some(EditConflict)
                       else if answered then Some(HasResults) else None
      ensures error.Some? ==> unchanged(this)
      ensures error.None? ==> 0 <= old(rows)[id].position < |old(order)| && order == Removed(old(order), old(rows)[id].position)
      ensures error.None? ==> revision == old(revision) + 1 && RoomClosed(old(rows), rows, id)
    {
      if !owned || id !in rows {
        return Some(NotFound);
      }
      if expected.Some? && rows[id].revision != expected.value {
        return Some(EditConflict);
      }
      if answered {
        return Some(HasResults);
      }
      TakeOut(id);
      revision := revision + 1;
      return None;
    }

    method TakeOut(id: Uuid)
      requires Valid() && id in rows
      modifies this`rows, this`order
      ensures Valid() && 0 <= old(rows)[id].position < |old(order)| && order == Removed(old(order), old(rows)[id].position)
      ensures RoomClosed(old(rows), rows, id)
    {
      ghost var before := rows;
      DeckFacts(rows, order);
      var position := rows[id].position;
      rows := rows - {id};
      ghost var kept := rows;
      KeptFacts(before, kept, id, position, |order|);
      CloseGap(position, |order|);
      GapClosed(before, kept, rows, id, position);
      RemoveMakesDeck(before, order, position, rows);
      order := Removed(order, position);
    }

    /** The two statements that move everything behind an empty position down by one. */
    method CloseGap(position: int, ghost n: int)
      requires NoTwoCollide(rows) && 0 <= position < n < BAND
      requires forall other <- rows :: 0 <= rows[other].position < n && rows[other].position != position
      modifies this`rows
      ensures rows.Keys == old(rows).Keys && forall other <- old(rows) :: rows[other] == Shifted(old(rows)[other], position + 1, -1, true)
    {
      ghost var kept := rows;
      Lift(position + 1, n);
      ghost var lifted := rows;
      GapStays(kept, lifted, position);
      Lower(position + 1, n);
      TwoShifts(kept, lifted, rows, position + 1, -1, BAND + 1);
    }

    method Lower(low: int, ghost n: int)
      requires 0 < low <= n < BAND && Lifted(rows, low, n) && forall id <- rows :: rows[id].position != low - 1
      modifies this`rows
      ensures AllShifted(old(rows), rows, BAND + 1, -BAND - 1, true)
    {
      PutDownLowerIsSafe(rows, low, n);
      Shift(BAND + 1, -BAND - 1, true);
    }

    /** The statement that lifts every row at or above low into the band. */
    method Lift(low: int, ghost n: int)
      requires NoTwoCollide(rows) && 0 <= low && n < BAND && forall id <- rows :: 0 <= rows[id].position < n
      modifies this`rows
      ensures AllShifted(old(rows), rows, low, BAND, false) && Lifted(rows, low, n)
    {
      LiftIsSafe(rows, low, n);
      Shift(low, BAND, false);
      LiftLeavesRoom(old(rows), rows, low, n);
    }
  }

  lemma KeptFacts(before: Rows, kept: Rows, id: Uuid, position: int, n: int)
    requires NoTwoCollide(before) && kept == before - {id} && id in before && before[id].position == position
    requires forall other <- before :: 0 <= before[other].position < n
    ensures NoTwoCollide(kept) && forall other <- kept :: 0 <= kept[other].position < n && kept[other].position != position
  {
    forall other <- kept ensures kept[other] == before[other] && before[other].position != position {
      assert other in before && other != id;
    }
  }

  lemma GapStays(kept: Rows, lifted: Rows, position: int)
    requires AllShifted(kept, lifted, position + 1, BAND, false) && 0 <= position
    requires forall other <- kept :: kept[other].position != position && kept[other].position >= 0
    ensures forall other <- lifted :: lifted[other].position != position
  {
    forall other <- lifted ensures lifted[other].position != position {
      assert other in kept && lifted[other] == Shifted(kept[other], position + 1, BAND, false);
    }
  }

  lemma GapClosed(before: Rows, kept: Rows, after: Rows, id: Uuid, position: int)
    requires kept == before - {id} && after.Keys == kept.Keys
    requires forall other <- kept :: after[other] == Shifted(kept[other], position + 1, -1, true)
    requires id in before && before[id].position == position
    ensures RoomClosed(before, after, id)
  {
    forall other <- after ensures other in before && after[other] == Shifted(before[other], position + 1, -1, true) {
      assert other in kept && kept[other] == before[other];
    }
  }

  lemma RoomIsMade(before: Rows, lifted: Rows, inserted: Rows, after: Rows, position: int, n: int, id: Uuid, body: string)
    requires id !in before && AllShifted(before, lifted, position, BAND, false)
    requires inserted == lifted[id := Row(position, 1, body)] && AllShifted(inserted, after, BAND, 1 - BAND, true)
    requires 0 <= position <= n < BAND && forall other <- before :: 0 <= before[other].position < n
    ensures RoomMade(before, after, position, id, body)
  {
    assert inserted.Keys == before.Keys + {id};
    assert after[id] == Shifted(inserted[id], BAND, 1 - BAND, true);
    forall other <- before ensures after[other] == Shifted(before[other], position, 1, true) {
      assert inserted[other] == lifted[other] == Shifted(before[other], position, BAND, false);
      assert after[other] == Shifted(inserted[other], BAND, 1 - BAND, true);
    }
  }

  lemma Counted(rows: Rows, order: seq<Uuid>)
    requires IsDeck(rows, order)
    ensures |rows| == |order|
  {
    DistinctCount(order);
    assert Elements(order) == rows.Keys;
  }

  /** The first n of the list without its member at `at`. */
  function OthersUpTo(order: seq<Uuid>, at: nat, n: nat): seq<Uuid>
    requires at < |order| && n <= |order|
  {
    if n <= at then order[..n] else order[..at] + order[at + 1..n]
  }

  lemma OneMoreOther(order: seq<Uuid>, at: nat, n: nat)
    requires Distinct(order) && at < |order| && n < |order|
    ensures order[n] == order[at] <==> n == at
    ensures OthersUpTo(order, at, n + 1) == if n == at then OthersUpTo(order, at, n) else OthersUpTo(order, at, n) + [order[n]]
    ensures OthersUpTo(order, at, |order|) == Removed(order, at)
  {
    assert order[n] == order[at] <==> n == at;
  }

  lemma OneAtEach(rows: Rows, order: seq<Uuid>, id: Uuid, n: nat)
    requires IsDeck(rows, order) && n < |order| && id in rows && rows[id].position == n
    ensures id == order[n]
  {
    DeckFacts(rows, order);
  }

  /** append, copy and assign: the slice ReplaceSlide shifts in place. */
  method MakeRoom(ids: seq<Uuid>, position: nat, id: Uuid) returns (ordered: seq<Uuid>)
    requires position <= |ids|
    ensures ordered == Inserted(ids, position, id)
  {
    var slice := new Uuid[|ids| + 1](i => if 0 <= i < |ids| then ids[i] else 0);
    var i := |ids|;
    while i > position
      invariant position <= i <= |ids|
      invariant forall j :: 0 <= j < i ==> slice[j] == ids[j]
      invariant forall j :: i < j <= |ids| ==> slice[j] == ids[j - 1]
    {
      slice[i] := slice[i - 1];
      i := i - 1;
    }
    slice[position] := id;
    ordered := slice[..];
    InsertedPlaces(ids, position, id, ordered);
  }

  lemma InsertedPlaces(ids: seq<Uuid>, position: nat, id: Uuid, ordered: seq<Uuid>)
    requires position <= |ids| && |ordered| == |ids| + 1 && ordered[position] == id
    requires forall j :: 0 <= j < position ==> ordered[j] == ids[j]
    requires forall j :: position < j <= |ids| ==> ordered[j] == ids[j - 1]
    ensures ordered == Inserted(ids, position, id)
  {
  }

  /** A list with one member moved still has every member once. */
  lemma MovedIsDistinct(order: seq<Uuid>, at: nat, position: nat, id: Uuid)
    requires Distinct(order) && at < |order| && order[at] == id && position < |order|
    ensures var moved := Inserted(Removed(order, at), position, id);
      Distinct(moved) && |moved| == |order| && id in moved && forall x <- moved :: x in order
  {
    var kept := Removed(order, at);
    KeptIsDistinct(order, at, kept);
    var moved := Inserted(kept, position, id);
    forall i, j | 0 <= i < j < |moved| ensures moved[i] != moved[j] {
      assert i != position ==> moved[i] == kept[if i < position then i else i - 1];
      assert j != position ==> moved[j] == kept[if j < position then j else j - 1];
    }
    assert moved[position] == id;
  }

  lemma KeptIsDistinct(order: seq<Uuid>, at: nat, kept: seq<Uuid>)
    requires Distinct(order) && at < |order| && kept == Removed(order, at)
    ensures Distinct(kept) && |kept| == |order| - 1 && order[at] !in kept && forall x <- kept :: x in order
  {
    assert forall i :: 0 <= i < |kept| ==> kept[i] == order[if i < at then i else i + 1];
  }

  lemma SameElements(a: seq<Uuid>, b: seq<Uuid>, rows: Rows)
    requires Distinct(a) && Distinct(b) && forall id :: id in a <==> id in rows
    requires forall id :: id in b <==> id in rows
    ensures multiset(a) == multiset(b)
  {
    forall id ensures multiset(a)[id] == multiset(b)[id] {
      DistinctOnce(a, id);
      DistinctOnce(b, id);
    }
  }

  lemma {:induction false} DistinctOnce(s: seq<Uuid>, x: Uuid)
    requires Distinct(s)
    ensures multiset(s)[x] == if x in s then 1 else 0
    decreases |s|
  {
    if s != [] {
      var n := |s| - 1;
      assert s == s[..n] + [s[n]];
      DistinctOnce(s[..n], x);
    }
  }
}

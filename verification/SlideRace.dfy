/** DeleteSlide and CreateSlide on the same deck at the same time, statement by statement. CreateSlide locks the
    presentation row first; DeleteSlide locks its slide, and the presentation row only with its last statement. */
module SlideRace {
  import opened Prelude
  import Slides

  /** Ready is after the DELETE, and after the count; Lifting is an UPDATE that has taken its snapshot and waits for
      its rows. */
  datatype Stage = Idle | Locked | Ready | Lifting | Lifted | Inserted | Dropped | Touched | Done | Aborted

  /** What a transaction has written, or only locked, in a row. */
  datatype Pending = Free | Holds(value: Option<int>)

  /** position is the committed one, None without a row. found says that the delete's first UPDATE saw the row. */
  datatype Row = Row(position: Option<int>, deletion: Pending, found: bool, creation: Pending)

  datatype Who = Deleter | Creator

  /** early and unseen are history: the delete's first UPDATE took its snapshot before the create committed; the
      create locked the presentation before the delete committed. */
  datatype Edits = Edits(
    target: nat,
    deletion: Stage,
    from: int,
    added: nat,
    creation: Stage,
    to: int,
    holder: Option<Who>,
    early: bool,
    unseen: bool)

  /** The rows by slide id. */
  datatype Race = Race(rows: seq<Row>, edits: Edits)

  datatype Step =
    | DeleteLocks | DeleteRemoves | DeleteSnapshots | DeleteLifts | DeleteDrops | DeleteTouches | DeleteCommits | DeleteAborts
    | CreateLocks | CreateCounts | CreateLifts | CreateInserts | CreateDrops | CreateCommits | CreateAborts

  type Table = seq<Option<int>>

  const BAND := Slides.BAND

  predicate CreateActive(stage: Stage) {
    stage == Locked || stage == Ready || stage == Lifted || stage == Inserted || stage == Dropped
  }

  predicate DeleteActive(stage: Stage) {
    stage == Locked || stage == Ready || HasFound(stage)
  }

  predicate HasFound(stage: Stage) {
    stage == Lifting || HasLifted(stage)
  }

  predicate HasLifted(stage: Stage) {
    stage == Lifted || HasDropped(stage)
  }

  predicate HasDropped(stage: Stage) {
    stage == Dropped || stage == Touched
  }

  // --- Statements ---------------------------------------------------------------------------

  /** A row as the transaction holding pending sees it. */
  function Seen(row: Row, pending: Pending): Option<int> {
    if pending.Holds? then pending.value else row.position
  }

  /** UPDATE ... SET position = position + delta WHERE position >= low, for one row. */
  function Update(row: Row, pending: Pending, low: int, delta: int): Pending {
    var seen := Seen(row, pending);
    if seen.Some? && seen.value >= low then Holds(Some(seen.value + delta)) else pending
  }

  function RowAfter(e: Edits, step: Step, id: nat, row: Row): Row {
    match step
    case DeleteLocks => if id == e.target then row.(deletion := Holds(row.position)) else row
    case DeleteRemoves => if id == e.target then row.(deletion := Holds(None)) else row
    case DeleteSnapshots => row.(found := Update(row, row.deletion, e.from + 1, BAND) != row.deletion)
    // A row that changed while the statement waited is read and tested again.
    case DeleteLifts => if row.found then row.(deletion := Update(row, row.deletion, e.from + 1, BAND)) else row
    case DeleteDrops => row.(deletion := Update(row, row.deletion, BAND + 1, -BAND - 1))
    case DeleteCommits => row.(position := Seen(row, row.deletion), deletion := Free)
    case DeleteAborts => row.(deletion := Free)
    case CreateLifts => row.(creation := Update(row, row.creation, e.to, BAND))
    case CreateInserts => if id == e.added then row.(creation := Holds(Some(e.to))) else row
    case CreateDrops => row.(creation := Update(row, row.creation, BAND, 1 - BAND))
    case CreateCommits => row.(position := Seen(row, row.creation), creation := Free)
    case CreateAborts => row.(creation := Free)
    case DeleteTouches | CreateLocks | CreateCounts => row
  }

  function RowsAfter(e: Edits, step: Step, rows: seq<Row>): (after: seq<Row>)
    ensures |after| == |rows| && forall id: nat :: id < |rows| ==> after[id] == RowAfter(e, step, id, rows[id])
  {
    seq(|rows|, id requires 0 <= id < |rows| => RowAfter(e, step, id, rows[id]))
  }

  function EditsAfter(e: Edits, step: Step, position: Option<int>): Edits {
    match step
    case DeleteLocks => e.(deletion := Locked, from := if position.Some? then position.value else 0)
    case DeleteRemoves => e.(deletion := Ready)
    case DeleteSnapshots => e.(deletion := Lifting, early := e.creation != Done)
    case DeleteLifts => e.(deletion := Lifted)
    case DeleteDrops => e.(deletion := Dropped)
    case DeleteTouches => e.(deletion := Touched, holder := Some(Deleter))
    case DeleteCommits => e.(deletion := Done, holder := None)
    case DeleteAborts => e.(deletion := Aborted, holder := if e.holder == Some(Deleter) then None else e.holder)
    case CreateLocks => e.(creation := Locked, holder := Some(Creator), unseen := e.deletion != Done)
    case CreateCounts => e.(creation := Ready)
    case CreateLifts => e.(creation := Lifted)
    case CreateInserts => e.(creation := Inserted)
    case CreateDrops => e.(creation := Dropped)
    case CreateCommits => e.(creation := Done, holder := None)
    case CreateAborts => e.(creation := Aborted, holder := None)
  }

  function Apply(s: Race, step: Step): Race
    requires s.edits.target < |s.rows|
  {
    Race(RowsAfter(s.edits, step, s.rows), EditsAfter(s.edits, step, s.rows[s.edits.target].position))
  }

  /** The uniqueness rule on what the delete writes: no other row stands there, committed or as the create left it. */
  ghost predicate DeleteFits(rows: seq<Row>) {
    forall i: nat, j: nat :: i < |rows| && j < |rows| && i != j && rows[i].deletion.Holds? && rows[i].deletion.value.Some? ==>
      && Seen(rows[j], rows[j].deletion) != rows[i].deletion.value
      && rows[j].creation != Holds(rows[i].deletion.value)
  }

  ghost predicate CreateFits(rows: seq<Row>) {
    forall i: nat, j: nat :: i < |rows| && j < |rows| && i != j && rows[i].creation.Holds? && rows[i].creation.value.Some? ==>
      && Seen(rows[j], rows[j].creation) != rows[i].creation.value
      && rows[j].deletion != Holds(rows[i].creation.value)
  }

  function Positions(rows: seq<Row>): (r: Table)
    ensures |r| == |rows| && forall id: nat :: id < |r| ==> r[id] == rows[id].position
  {
    seq(|rows|, id requires 0 <= id < |rows| => rows[id].position)
  }

  function Standing(table: Table): (r: set<nat>)
    ensures forall id: nat :: id in r <==> id < |table| && table[id].Some?
  {
    set id: nat | id < |table| && table[id].Some?
  }

  /** A statement runs once the rows and the presentation it needs are free and no two positions clash. */
  ghost predicate Enabled(s: Race, step: Step)
    requires s.edits.target < |s.rows|
  {
    var e, rows, after := s.edits, s.rows, RowsAfter(s.edits, step, s.rows);
    match step
    case DeleteLocks => e.deletion == Idle && rows[e.target].position.Some? && rows[e.target].creation.Free?
    case DeleteRemoves => e.deletion == Locked
    case DeleteSnapshots => e.deletion == Ready
    case DeleteLifts => e.deletion == Lifting && (forall id: nat :: id < |rows| && rows[id].found ==> rows[id].creation.Free?)
    case DeleteDrops => e.deletion == Lifted && DeleteFits(after)
    case DeleteTouches => e.deletion == Dropped && e.holder == None
    case DeleteCommits => e.deletion == Touched
    case DeleteAborts => DeleteActive(e.deletion)
    case CreateLocks => e.creation == Idle && e.holder == None
    case CreateCounts => e.creation == Locked && 0 <= e.to <= |Standing(Positions(rows))|
    case CreateLifts => e.creation == Ready && (forall id: nat :: id < |rows| && after[id] != rows[id] ==> rows[id].deletion.Free?)
    case CreateInserts => e.creation == Lifted && CreateFits(after)
    case CreateDrops => e.creation == Inserted && CreateFits(after)
    case CreateCommits => e.creation == Dropped
    case CreateAborts => CreateActive(e.creation)
  }

  // --- Decks as tables ------------------------------------------------------------------------

  /** The table is the list. */
  ghost predicate Lists(table: Table, order: seq<nat>) {
    && (forall i :: 0 <= i < |order| ==> order[i] < |table| && table[order[i]] == Some(i))
    && (forall id: nat :: id < |table| && table[id].Some? ==> id in order)
  }

  ghost predicate IsPacked(table: Table) {
    exists order :: Lists(table, order)
  }

  /** A row after a create at position. */
  function MadeAt(v: Option<int>, isNew: bool, position: int): Option<int> {
    if isNew then Some(position) else if v.Some? && v.value >= position then Some(v.value + 1) else v
  }

  /** A row after a delete of the one at position. */
  function ClosedAt(v: Option<int>, isTarget: bool, position: int): Option<int> {
    if isTarget then None else if v.Some? && v.value > position then Some(v.value - 1) else v
  }

  function Made(table: Table, added: nat, position: int): (r: Table)
    ensures |r| == |table| && forall id: nat :: id < |r| ==> r[id] == MadeAt(table[id], id == added, position)
  {
    seq(|table|, id requires 0 <= id < |table| => MadeAt(table[id], id == added, position))
  }

  function Closed(table: Table, target: nat, position: int): (r: Table)
    ensures |r| == |table| && forall id: nat :: id < |r| ==> r[id] == ClosedAt(table[id], id == target, position)
  {
    seq(|table|, id requires 0 <= id < |table| => ClosedAt(table[id], id == target, position))
  }

  lemma Within(table: Table, order: seq<nat>, id: nat)
    requires Lists(table, order) && id < |table| && table[id].Some?
    ensures 0 <= table[id].value < |order| && order[table[id].value] == id
  {
    var i :| 0 <= i < |order| && order[i] == id;
  }

  lemma MadeIsPacked(table: Table, order: seq<nat>, added: nat, position: nat)
    requires Lists(table, order) && added < |table| && table[added].None? && position <= |order|
    ensures Lists(Made(table, added, position), Slides.Inserted(order, position, added))
  {
    var after, order' := Made(table, added, position), Slides.Inserted(order, position, added);
    forall i | 0 <= i < |order'| ensures order'[i] < |after| && after[order'[i]] == Some(i) {
      if i != position { assert order'[i] == order[if i < position then i else i - 1]; }
    }
    forall id: nat | id < |after| && after[id].Some? ensures id in order' {
      if id != added {
        Within(table, order, id);
        var i := table[id].value;
        assert order'[if i < position then i else i + 1] == id;
      } else {
        assert order'[position] == id;
      }
    }
  }

  lemma ClosedIsPacked(table: Table, order: seq<nat>, target: nat)
    requires Lists(table, order) && target < |table| && table[target].Some?
    ensures 0 <= table[target].value < |order|
    ensures Lists(Closed(table, target, table[target].value), Slides.Removed(order, table[target].value))
  {
    Within(table, order, target);
    var position := table[target].value;
    var after, order' := Closed(table, target, position), Slides.Removed(order, position);
    forall i | 0 <= i < |order'| ensures order'[i] < |after| && after[order'[i]] == Some(i) {
      assert order'[i] == order[if i < position then i else i + 1];
    }
    forall id: nat | id < |after| && after[id].Some? ensures id in order' {
      Within(table, order, id);
      StillListed(order, position, table[id].value, order');
    }
  }

  lemma StillListed(order: seq<nat>, position: nat, i: nat, order': seq<nat>)
    requires position < |order| && i < |order| && i != position && order' == Slides.Removed(order, position)
    ensures order[i] in order'
  {
    assert order'[if i < position then i else i - 1] == order[i];
  }

  /** The count CreateSlide takes. */
  lemma StandingIsCount(table: Table, order: seq<nat>)
    requires Lists(table, order)
    ensures |Standing(table)| == |order|
  {
    assert Distinct(order);
    DistinctCount(order);
    assert Elements(order) == Standing(table);
  }

  /** A deck of n slides has no slide at n. */
  lemma OutOfReach(table: Table, id: nat)
    requires id < |table| && table[id].Some? && table[id].value >= |Standing(table)|
    ensures !IsPacked(table)
  {
    if IsPacked(table) {
      var order :| Lists(table, order);
      StandingIsCount(table, order);
      Within(table, order, id);
    }
  }

  // --- What every run keeps -------------------------------------------------------------------

  /** The deck both edits start from, the target's position in it, and its length. */
  ghost predicate Fits(start: Table, order: seq<nat>, e: Edits) {
    && Lists(start, order)
    && e.target < |start| && start[e.target].Some?
    && e.added < |start| && start[e.added].None?
    && |order| + 1 < BAND
  }

  ghost predicate Begins(s: Race, order: seq<nat>) {
    && Fits(Positions(s.rows), order, s.edits)
    && (forall id: nat :: id < |s.rows| ==> s.rows[id] == Row(s.rows[id].position, Free, false, Free))
    && s.edits.deletion == Idle && s.edits.creation == Idle && s.edits.holder == None
  }

  /** Where the target stands before the delete reads it. */
  function Home(e: Edits, home: int): int {
    if e.creation == Done && e.to <= home then home + 1 else home
  }

  /** The committed row, from what it was at the start. */
  function Committed(e: Edits, home: int, id: nat, v: Option<int>): Option<int> {
    var isNew, isTarget := id == e.added, id == e.target;
    if e.creation != Done then
      if e.deletion != Done then v else ClosedAt(v, isTarget, home)
    else if e.deletion != Done then MadeAt(v, isNew, e.to)
    else if !e.unseen then MadeAt(ClosedAt(v, isTarget, home), isNew, e.to)
    else if !e.early then ClosedAt(MadeAt(v, isNew, e.to), isTarget, Home(e, home))
    else if isNew then Some(e.to)
    else ClosedAt(v, isTarget, home)
  }

  /** The rows the delete's first UPDATE found. */
  predicate WasFound(e: Edits, id: nat, v: Option<int>) {
    var seen := if e.early then v else MadeAt(v, id == e.added, e.to);
    id != e.target && seen.Some? && seen.value > e.from
  }

  predicate DeleteRowOk(e: Edits, id: nat, v: Option<int>, row: Row) {
    && (!DeleteActive(e.deletion) ==> row.deletion == Free)
    && (DeleteActive(e.deletion) && id == e.target ==>
          row.position == Some(e.from) && row.deletion == Holds(if e.deletion == Locked then row.position else None))
    && (DeleteActive(e.deletion) && id != e.target && !HasLifted(e.deletion) ==> row.deletion == Free)
    && (HasFound(e.deletion) ==> row.found == WasFound(e, id, v))
    && (HasLifted(e.deletion) && id != e.target ==>
          if row.found then row.position.Some? && row.deletion == Holds(Some(row.position.value + if e.deletion == Lifted then BAND else -1))
          else row.deletion == Free)
  }

  predicate CreateRowOk(e: Edits, id: nat, row: Row) {
    var hit := row.position.Some? && row.position.value >= e.to;
    match e.creation
    case Lifted => row.creation == if hit then Holds(Some(row.position.value + BAND)) else Free
    case Inserted =>
      row.creation == if id == e.added then Holds(Some(e.to)) else if hit then Holds(Some(row.position.value + BAND)) else Free
    case Dropped =>
      row.creation == if id == e.added then Holds(Some(e.to)) else if hit then Holds(Some(row.position.value + 1)) else Free
    case _ => row.creation == Free
  }

  predicate RowOk(e: Edits, home: int, id: nat, v: Option<int>, row: Row) {
    && row.position == Committed(e, home, id, v)
    && DeleteRowOk(e, id, v, row)
    && CreateRowOk(e, id, row)
    && (row.deletion.Free? || row.creation.Free?)
  }

  predicate EditsOk(e: Edits, home: int, n: int) {
    && 0 <= home < n && n + 1 < BAND
    && (e.holder == Some(Creator) <==> CreateActive(e.creation))
    && (e.holder == Some(Deleter) <==> e.deletion == Touched)
    && (CreateActive(e.creation) ==> (e.unseen <==> e.deletion != Done))
    && (e.creation == Done && e.deletion != Done ==> e.unseen)
    && ((CreateActive(e.creation) && e.creation != Locked) || e.creation == Done ==> 0 <= e.to <= n && (!e.unseen ==> e.to < n))
    && (DeleteActive(e.deletion) ==> e.from == Home(e, home))
    && (HasFound(e.deletion) && !e.early ==> e.creation == Done)
    && (HasFound(e.deletion) && e.early && e.creation == Done ==> home < e.to)
    && (HasDropped(e.deletion) && e.early && e.creation == Done ==> e.to == n)
    && (e.deletion == Done && e.creation == Done && e.early && e.unseen ==> e.to == n)
  }

  ghost predicate Inv(start: Table, order: seq<nat>, s: Race) {
    && Fits(start, order, s.edits)
    && |s.rows| == |start|
    && EditsOk(s.edits, start[s.edits.target].value, |order|)
    && forall id: nat :: id < |start| ==> RowOk(s.edits, start[s.edits.target].value, id, start[id], s.rows[id])
  }

  /** What a row of the deck at the start is. */
  predicate StartRow(e: Edits, home: int, n: int, id: nat, v: Option<int>) {
    && (id == e.added ==> v.None?)
    && (id == e.target ==> v == Some(home))
    && (v.Some? ==> 0 <= v.value < n && (id != e.target ==> v.value != home))
  }

  lemma StartRows(start: Table, order: seq<nat>, e: Edits, id: nat)
    requires Fits(start, order, e) && id < |start|
    ensures StartRow(e, start[e.target].value, |order|, id, start[id])
  {
    Within(start, order, e.target);
    if start[id].Some? { Within(start, order, id); }
  }

  // --- One statement ------------------------------------------------------------------------------

  /** What the guards say about one row. */
  predicate RowFree(e: Edits, step: Step, id: nat, row: Row) {
    match step
    case DeleteLocks => id == e.target ==> row.creation.Free?
    case DeleteLifts => row.found ==> row.creation.Free?
    case CreateLifts => RowAfter(e, step, id, row) != row ==> row.deletion.Free?
    case _ => true
  }

  /** What they say about the stages. */
  predicate InStage(e: Edits, step: Step) {
    match step
    case DeleteLocks => e.deletion == Idle
    case DeleteRemoves => e.deletion == Locked
    case DeleteSnapshots => e.deletion == Ready
    case DeleteLifts => e.deletion == Lifting
    case DeleteDrops => e.deletion == Lifted
    case DeleteTouches => e.deletion == Dropped && e.holder == None
    case DeleteCommits => e.deletion == Touched
    case DeleteAborts => DeleteActive(e.deletion)
    case CreateLocks => e.creation == Idle && e.holder == None
    case CreateCounts => e.creation == Locked
    case CreateLifts => e.creation == Ready
    case CreateInserts => e.creation == Lifted
    case CreateDrops => e.creation == Inserted
    case CreateCommits => e.creation == Dropped
    case CreateAborts => CreateActive(e.creation)
  }

  ghost predicate RowStep(e: Edits, home: int, n: int, step: Step, position: Option<int>, id: nat, v: Option<int>, row: Row) {
    && StartRow(e, home, n, id, v) && EditsOk(e, home, n) && RowOk(e, home, id, v, row)
    && InStage(e, step) && RowFree(e, step, id, row)
    && EditsOk(EditsAfter(e, step, position), home, n)
    && (step == DeleteLocks ==> position == Some(Home(e, home)))
  }

  lemma DeleteBeginsRow(e: Edits, home: int, n: int, step: Step, position: Option<int>, id: nat, v: Option<int>, row: Row)
    requires RowStep(e, home, n, step, position, id, v, row)
    requires (step == DeleteLocks || step == DeleteRemoves || step == DeleteSnapshots)
    ensures RowOk(EditsAfter(e, step, position), home, id, v, RowAfter(e, step, id, row))
  {
  }

  lemma DeleteMovesRow(e: Edits, home: int, n: int, step: Step, position: Option<int>, id: nat, v: Option<int>, row: Row)
    requires RowStep(e, home, n, step, position, id, v, row) && (step == DeleteLifts || step == DeleteDrops)
    ensures RowOk(EditsAfter(e, step, position), home, id, v, RowAfter(e, step, id, row))
  {
  }

  lemma DeleteEndsRow(e: Edits, home: int, n: int, step: Step, position: Option<int>, id: nat, v: Option<int>, row: Row)
    requires RowStep(e, home, n, step, position, id, v, row) && (step == DeleteTouches || step == DeleteAborts)
    ensures RowOk(EditsAfter(e, step, position), home, id, v, RowAfter(e, step, id, row))
  {
  }

  lemma DeleteCommitsRow(e: Edits, home: int, n: int, position: Option<int>, id: nat, v: Option<int>, row: Row)
    requires RowStep(e, home, n, DeleteCommits, position, id, v, row)
    ensures RowOk(EditsAfter(e, DeleteCommits, position), home, id, v, RowAfter(e, DeleteCommits, id, row))
  {
  }

  lemma CreateMovesRow(e: Edits, home: int, n: int, step: Step, position: Option<int>, id: nat, v: Option<int>, row: Row)
    requires RowStep(e, home, n, step, position, id, v, row)
    requires (step == CreateInserts || step == CreateDrops)
    ensures RowOk(EditsAfter(e, step, position), home, id, v, RowAfter(e, step, id, row))
  {
  }

  lemma CreateBeginsRow(e: Edits, home: int, n: int, step: Step, position: Option<int>, id: nat, v: Option<int>, row: Row)
    requires RowStep(e, home, n, step, position, id, v, row) && (step == CreateLocks || step == CreateCounts || step == CreateLifts)
    ensures RowOk(EditsAfter(e, step, position), home, id, v, RowAfter(e, step, id, row))
  {
  }

  lemma CreateEndsRow(e: Edits, home: int, n: int, step: Step, position: Option<int>, id: nat, v: Option<int>, row: Row)
    requires RowStep(e, home, n, step, position, id, v, row) && (step == CreateCommits || step == CreateAborts)
    ensures RowOk(EditsAfter(e, step, position), home, id, v, RowAfter(e, step, id, row))
  {
  }

  lemma StepRow(e: Edits, home: int, n: int, step: Step, position: Option<int>, id: nat, v: Option<int>, row: Row)
    requires RowStep(e, home, n, step, position, id, v, row)
    ensures RowOk(EditsAfter(e, step, position), home, id, v, RowAfter(e, step, id, row))
  {
    match step
    case DeleteLocks | DeleteRemoves | DeleteSnapshots => DeleteBeginsRow(e, home, n, step, position, id, v, row);
    case DeleteLifts | DeleteDrops => DeleteMovesRow(e, home, n, step, position, id, v, row);
    case DeleteCommits => DeleteCommitsRow(e, home, n, position, id, v, row);
    case DeleteTouches | DeleteAborts => DeleteEndsRow(e, home, n, step, position, id, v, row);
    case CreateLocks | CreateCounts | CreateLifts => CreateBeginsRow(e, home, n, step, position, id, v, row);
    case CreateInserts | CreateDrops => CreateMovesRow(e, home, n, step, position, id, v, row);
    case CreateCommits | CreateAborts => CreateEndsRow(e, home, n, step, position, id, v, row);
  }

  /** A slide the create moved up would come down again. */
  lemma MovedRowDrops(e: Edits, home: int, n: int, id: nat, v: Option<int>, row: Row)
    requires StartRow(e, home, n, id, v) && EditsOk(e, home, n) && RowOk(e, home, id, v, row) && v == Some(e.to)
    requires e.deletion == Lifted && e.early && e.creation == Done
    ensures id != e.added && RowAfter(e, DeleteDrops, id, row).deletion == Holds(Some(e.to))
  {
  }

  lemma NewRowStays(e: Edits, home: int, n: int, v: Option<int>, row: Row)
    requires StartRow(e, home, n, e.added, v) && EditsOk(e, home, n) && RowOk(e, home, e.added, v, row)
    requires e.deletion == Lifted && e.early && e.creation == Done && e.to < n
    ensures RowAfter(e, DeleteDrops, e.added, row) == row && row.position == Some(e.to) && row.deletion == Free
  {
  }

  /** It would come down onto the new one. */
  lemma DropLandsOnNewSlide(start: Table, order: seq<nat>, s: Race)
    requires Inv(start, order, s) && s.edits.deletion == Lifted && s.edits.early && s.edits.creation == Done
    requires 0 <= s.edits.to < |order|
    ensures order[s.edits.to] < |s.rows| && order[s.edits.to] != s.edits.added
    ensures RowAfter(s.edits, DeleteDrops, order[s.edits.to], s.rows[order[s.edits.to]]).deletion == Holds(Some(s.edits.to))
    ensures RowAfter(s.edits, DeleteDrops, s.edits.added, s.rows[s.edits.added]) == s.rows[s.edits.added]
    ensures s.rows[s.edits.added].position == Some(s.edits.to) && s.rows[s.edits.added].deletion == Free
  {
    var e, home := s.edits, start[s.edits.target].value;
    var id := order[e.to];
    StartRows(start, order, e, id);
    StartRows(start, order, e, e.added);
    MovedRowDrops(e, home, |order|, id, start[id], s.rows[id]);
    NewRowStays(e, home, |order|, start[e.added], s.rows[e.added]);
  }

  /** So the delete can only go on if the create moved none. */
  lemma DropMeetsNewSlide(start: Table, order: seq<nat>, s: Race)
    requires Inv(start, order, s) && Enabled(s, DeleteDrops) && s.edits.early && s.edits.creation == Done
    ensures s.edits.to == |order|
  {
    if s.edits.to < |order| { DropLandsOnNewSlide(start, order, s); }
  }

  /** The create moves everything from its position on, and no slide the delete has locked. */
  lemma NotBoth(e: Edits, home: int, n: int, id: nat, v: Option<int>, row: Row)
    requires StartRow(e, home, n, id, v) && EditsOk(e, home, n) && RowOk(e, home, id, v, row)
    requires e.creation == Dropped && DeleteActive(e.deletion)
    ensures id == e.target ==> home < e.to
    ensures HasLifted(e.deletion) && home < e.to ==> v != Some(e.to)
  {
  }

  lemma CommitLeavesTarget(start: Table, order: seq<nat>, s: Race)
    requires Inv(start, order, s) && s.edits.creation == Dropped && DeleteActive(s.edits.deletion)
    ensures start[s.edits.target].value < s.edits.to
    ensures HasLifted(s.edits.deletion) ==> s.edits.to == |order|
  {
    var e, home := s.edits, start[s.edits.target].value;
    forall id: nat | id < |start|
      ensures id == e.target ==> home < e.to
      ensures HasLifted(e.deletion) && home < e.to ==> start[id] != Some(e.to)
    {
      StartRows(start, order, e, id);
      assert RowOk(e, home, id, start[id], s.rows[id]);
      NotBoth(e, home, |order|, id, start[id], s.rows[id]);
    }
    assert 0 <= e.to < |order| ==> start[order[e.to]] == Some(e.to);
  }

  lemma CountIsLength(start: Table, order: seq<nat>, s: Race)
    requires Inv(start, order, s) && Enabled(s, CreateCounts)
    ensures s.edits.to <= if s.edits.deletion == Done then |order| - 1 else |order|
  {
    var e, home, table := s.edits, start[s.edits.target].value, Positions(s.rows);
    forall id: nat | id < |start| ensures table[id] == if e.deletion == Done then ClosedAt(start[id], id == e.target, home) else start[id] {
      assert RowOk(e, home, id, start[id], s.rows[id]);
    }
    if e.deletion == Done {
      ClosedIsPacked(start, order, e.target);
      assert table == Closed(start, e.target, home);
      StandingIsCount(table, Slides.Removed(order, home));
    } else {
      assert table == start;
      StandingIsCount(start, order);
    }
  }

  lemma StagesStep(e: Edits, home: int, n: int, step: Step, position: Option<int>)
    requires EditsOk(e, home, n) && InStage(e, step)
    requires step == DeleteLocks ==> position == Some(Home(e, home))
    requires step == DeleteDrops && e.early && e.creation == Done ==> e.to == n
    requires step == CreateCounts ==> 0 <= e.to <= if e.deletion == Done then n - 1 else n
    requires step == CreateCommits && DeleteActive(e.deletion) ==> home < e.to && (HasLifted(e.deletion) ==> e.to == n)
    ensures EditsOk(EditsAfter(e, step, position), home, n)
  {
  }

  lemma TargetStands(start: Table, order: seq<nat>, s: Race)
    requires Inv(start, order, s) && s.edits.deletion == Idle && s.rows[s.edits.target].position.Some?
    ensures s.rows[s.edits.target].position == Some(Home(s.edits, start[s.edits.target].value))
  {
    var e, home := s.edits, start[s.edits.target].value;
    StartRows(start, order, e, e.target);
    assert RowOk(e, home, e.target, start[e.target], s.rows[e.target]);
  }

  lemma EditsStep(start: Table, order: seq<nat>, s: Race, step: Step)
    requires Inv(start, order, s) && Enabled(s, step)
    ensures EditsOk(EditsAfter(s.edits, step, s.rows[s.edits.target].position), start[s.edits.target].value, |order|)
    ensures step == DeleteLocks ==> s.rows[s.edits.target].position == Some(Home(s.edits, start[s.edits.target].value))
  {
    var e, home := s.edits, start[s.edits.target].value;
    if step == DeleteLocks { TargetStands(start, order, s); }
    if step == DeleteDrops && e.early && e.creation == Done { DropMeetsNewSlide(start, order, s); }
    if step == CreateCommits && DeleteActive(e.deletion) { CommitLeavesTarget(start, order, s); }
    if step == CreateCounts { CountIsLength(start, order, s); }
    StagesStep(e, home, |order|, step, s.rows[e.target].position);
  }

  lemma GuardFor(s: Race, step: Step, id: nat)
    requires s.edits.target < |s.rows| && id < |s.rows| && Enabled(s, step)
    ensures InStage(s.edits, step) && RowFree(s.edits, step, id, s.rows[id])
  {
  }

  lemma StepKeeps(start: Table, order: seq<nat>, s: Race, step: Step)
    requires Inv(start, order, s) && Enabled(s, step)
    ensures Inv(start, order, Apply(s, step))
  {
    var e, home, next := s.edits, start[s.edits.target].value, Apply(s, step);
    EditsStep(start, order, s, step);
    forall id: nat | id < |start| ensures RowOk(next.edits, home, id, start[id], next.rows[id]) {
      StartRows(start, order, e, id);
      GuardFor(s, step, id);
      StepRow(e, home, |order|, step, s.rows[e.target].position, id, start[id], s.rows[id]);
    }
  }

  // --- Runs -----------------------------------------------------------------------------------------

  ghost predicate IsRun(s: Race, steps: seq<Step>)
    requires s.edits.target < |s.rows|
    decreases |steps|
  {
    steps == [] || (Enabled(s, steps[0]) && IsRun(Apply(s, steps[0]), steps[1..]))
  }

  function Run(s: Race, steps: seq<Step>): (r: Race)
    requires s.edits.target < |s.rows|
    ensures |r.rows| == |s.rows| && r.edits.target < |r.rows|
    decreases |steps|
  {
    if steps == [] then s else Run(Apply(s, steps[0]), steps[1..])
  }

  lemma {:induction false} RunKeeps(start: Table, order: seq<nat>, s: Race, steps: seq<Step>)
    requires Inv(start, order, s) && IsRun(s, steps)
    ensures Inv(start, order, Run(s, steps))
    decreases |steps|
  {
    if steps != [] {
      StepKeeps(start, order, s, steps[0]);
      RunKeeps(start, order, Apply(s, steps[0]), steps[1..]);
    }
  }

  lemma BeginsInv(s: Race, order: seq<nat>)
    requires Begins(s, order)
    ensures Inv(Positions(s.rows), order, s)
  {
    Within(Positions(s.rows), order, s.edits.target);
  }

  /** The two overlapped: the delete looked for slides to move before the create committed, and the create locked the
      presentation before the delete committed. */
  predicate Overlapped(e: Edits) {
    e.deletion == Done && e.creation == Done && e.early && e.unseen
  }

  lemma CommittedTable(start: Table, order: seq<nat>, s: Race)
    requires Inv(start, order, s)
    ensures |Positions(s.rows)| == |start|
    ensures forall id: nat :: id < |start| ==> Positions(s.rows)[id] == Committed(s.edits, start[s.edits.target].value, id, start[id])
  {
    forall id: nat | id < |start| ensures Positions(s.rows)[id] == Committed(s.edits, start[s.edits.target].value, id, start[id]) {
      assert RowOk(s.edits, start[s.edits.target].value, id, start[id], s.rows[id]);
    }
  }

  lemma CreateAloneIsPacked(start: Table, order: seq<nat>, s: Race)
    requires Inv(start, order, s) && s.edits.creation == Done && s.edits.deletion != Done
    ensures IsPacked(Positions(s.rows))
  {
    CommittedTable(start, order, s);
    MadeIsPacked(start, order, s.edits.added, s.edits.to);
    assert Positions(s.rows) == Made(start, s.edits.added, s.edits.to);
  }

  lemma DeleteAloneIsPacked(start: Table, order: seq<nat>, s: Race)
    requires Inv(start, order, s) && s.edits.creation != Done && s.edits.deletion == Done
    ensures IsPacked(Positions(s.rows))
  {
    CommittedTable(start, order, s);
    ClosedIsPacked(start, order, s.edits.target);
    assert Positions(s.rows) == Closed(start, s.edits.target, start[s.edits.target].value);
  }

  lemma OneIsPacked(start: Table, order: seq<nat>, s: Race)
    requires Inv(start, order, s) && (s.edits.creation != Done || s.edits.deletion != Done)
    ensures IsPacked(Positions(s.rows))
  {
    if s.edits.creation == Done {
      CreateAloneIsPacked(start, order, s);
    } else if s.edits.deletion == Done {
      DeleteAloneIsPacked(start, order, s);
    } else {
      CommittedTable(start, order, s);
      assert Positions(s.rows) == start;
    }
  }

  lemma DeleteFirstIsPacked(start: Table, order: seq<nat>, s: Race)
    requires Inv(start, order, s) && s.edits.creation == Done && s.edits.deletion == Done && !s.edits.unseen
    ensures IsPacked(Positions(s.rows))
  {
    var e, home, table := s.edits, start[s.edits.target].value, Positions(s.rows);
    CommittedTable(start, order, s);
    var closed := Closed(start, e.target, home);
    ClosedIsPacked(start, order, e.target);
    MadeIsPacked(closed, Slides.Removed(order, home), e.added, e.to);
    assert table == Made(closed, e.added, e.to);
  }

  lemma MadeThenClosed(start: Table, order: seq<nat>, s: Race)
    requires Inv(start, order, s) && s.edits.creation == Done && s.edits.deletion == Done && s.edits.unseen && !s.edits.early
    ensures var made := Made(start, s.edits.added, s.edits.to);
      made[s.edits.target].Some? && Positions(s.rows) == Closed(made, s.edits.target, made[s.edits.target].value)
  {
    CommittedTable(start, order, s);
    StartRows(start, order, s.edits, s.edits.target);
  }

  lemma CreateFirstIsPacked(start: Table, order: seq<nat>, s: Race)
    requires Inv(start, order, s) && s.edits.creation == Done && s.edits.deletion == Done && s.edits.unseen && !s.edits.early
    ensures IsPacked(Positions(s.rows))
  {
    var e, made := s.edits, Made(start, s.edits.added, s.edits.to);
    MadeThenClosed(start, order, s);
    MadeIsPacked(start, order, e.added, e.to);
    ClosedIsPacked(made, Slides.Inserted(order, e.to, e.added), e.target);
  }

  lemma OverlapLeavesGap(start: Table, order: seq<nat>, s: Race)
    requires Inv(start, order, s) && Overlapped(s.edits)
    ensures !IsPacked(Positions(s.rows))
    ensures forall id: nat :: id < |s.rows| ==> s.rows[id].position != Some(|order| - 1)
  {
    var e, home, table := s.edits, start[s.edits.target].value, Positions(s.rows);
    CommittedTable(start, order, s);
    StandingIsCount(start, order);
    assert Standing(table) == Standing(start) - {e.target} + {e.added};
    OutOfReach(table, e.added);
    forall id: nat | id < |s.rows| ensures table[id] != Some(|order| - 1) {
      StartRows(start, order, e, id);
      StartRows(start, order, e, e.target);
    }
  }

  /** After any run of the two edits the committed slides are numbered from 0 without a gap if and only if the two
      did not overlap and both commit. When they did, the new slide was put at the end and the last place before it
      is empty. */
  lemma PackedIff(s: Race, order: seq<nat>, steps: seq<Step>)
    requires Begins(s, order) && IsRun(s, steps)
    ensures IsPacked(Positions(Run(s, steps).rows)) <==> !Overlapped(Run(s, steps).edits)
    ensures Overlapped(Run(s, steps).edits) ==>
      && Run(s, steps).edits.to == |order|
      && forall id: nat :: id < |s.rows| ==> Run(s, steps).rows[id].position != Some(|order| - 1)
  {
    BeginsInv(s, order);
    RunKeeps(Positions(s.rows), order, s, steps);
    var start, next := Positions(s.rows), Run(s, steps);
    if Overlapped(next.edits) {
      OverlapLeavesGap(start, order, next);
    } else if next.edits.creation != Done || next.edits.deletion != Done {
      OneIsPacked(start, order, next);
    } else if !next.edits.unseen {
      DeleteFirstIsPacked(start, order, next);
    } else {
      CreateFirstIsPacked(start, order, next);
    }
  }
}

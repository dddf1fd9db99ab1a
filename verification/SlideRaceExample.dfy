/** A run of the two edits after which the deck has a gap. */
module SlideRaceExample {
  import opened Prelude
  import opened SlideRace

  lemma {:induction false} RunSnoc(s: Race, steps: seq<Step>, step: Step)
    requires s.edits.target < |s.rows| && IsRun(s, steps) && Enabled(Run(s, steps), step)
    ensures IsRun(s, steps + [step]) && Run(s, steps + [step]) == Apply(Run(s, steps), step)
    decreases |steps|
  {
    var longer := steps + [step];
    if steps == [] {
      assert longer[1..] == [];
    } else {
      RunSnoc(Apply(s, steps[0]), steps[1..], step);
      assert longer[1..] == steps[1..] + [step];
    }
  }

  /** What the two edits can come to from start. */
  ghost predicate Reachable(start: Race, s: Race)
    requires start.edits.target < |start.rows|
  {
    exists steps :: IsRun(start, steps) && s == Run(start, steps)
  }

  lemma ReachNext(start: Race, s: Race, step: Step, s': Race)
    requires start.edits.target < |start.rows| && Reachable(start, s) && Goes(s, step, s')
    ensures Reachable(start, s')
  {
    var steps :| IsRun(start, steps) && s == Run(start, steps);
    RunSnoc(start, steps, step);
  }

  ghost predicate Goes(s: Race, step: Step, next: Race) {
    && s.edits.target < |s.rows|
    && Enabled(s, step)
    && Apply(s, step) == next
  }

  /** Two slides, the first being deleted while a third is put at the end. */
  function Deck(first: Row, second: Row, third: Row, deletion: Stage, creation: Stage): Race {
    Race([first, second, third], Edits(
      0, deletion, 0, 2, creation, 2,
      if CreateActive(creation) then Some(Creator) else if deletion == Touched then Some(Deleter) else None,
      HasFound(deletion) || deletion == Done,
      creation != Idle))
  }

  const STANDING := Row(Some(0), Free, false, Free)
  const REMOVED := Row(Some(0), Holds(None), false, Free)
  const BEHIND := Row(Some(1), Free, false, Free)
  const LIFTED := Row(Some(1), Holds(Some(1 + BAND)), true, Free)
  const MOVED := Row(Some(1), Holds(Some(0)), true, Free)
  const ABSENT := Row(None, Free, false, Free)
  const PUT := Row(None, Free, false, Holds(Some(2)))
  const KEPT := Row(Some(2), Free, false, Free)

  function Before(): seq<Race> {
    [
      Deck(STANDING, BEHIND, ABSENT, Idle, Idle),
      Deck(STANDING.(deletion := Holds(Some(0))), BEHIND, ABSENT, Locked, Idle),
      Deck(REMOVED, BEHIND, ABSENT, Ready, Idle),
      Deck(REMOVED, BEHIND.(found := true), ABSENT, Lifting, Idle),
      Deck(REMOVED, LIFTED, ABSENT, Lifted, Idle)
    ]
  }

  function Between(): seq<Race> {
    [
      Deck(REMOVED, LIFTED, ABSENT, Lifted, Locked),
      Deck(REMOVED, LIFTED, ABSENT, Lifted, Ready),
      Deck(REMOVED, LIFTED, ABSENT, Lifted, Lifted),
      Deck(REMOVED, LIFTED, PUT, Lifted, Inserted),
      Deck(REMOVED, LIFTED, PUT, Lifted, Dropped),
      Deck(REMOVED, LIFTED, KEPT, Lifted, Done)
    ]
  }

  function After(): seq<Race> {
    [
      Deck(REMOVED, MOVED, KEPT, Dropped, Done),
      Deck(REMOVED, MOVED, KEPT, Touched, Done),
      Deck(ABSENT, Row(Some(0), Free, true, Free), KEPT, Done, Done)
    ]
  }

  lemma ThreeRows(s: Race, step: Step, next: Race)
    requires |s.rows| == |next.rows| == 3 && s.edits.target == 0
    requires next.edits == EditsAfter(s.edits, step, s.rows[0].position)
    requires next.rows[0] == RowAfter(s.edits, step, 0, s.rows[0])
    requires next.rows[1] == RowAfter(s.edits, step, 1, s.rows[1])
    requires next.rows[2] == RowAfter(s.edits, step, 2, s.rows[2])
    ensures Apply(s, step) == next
  {
  }

  lemma BeforeGoes(k: nat)
    requires k < 4
    ensures Goes(Before()[k], [DeleteLocks, DeleteRemoves, DeleteSnapshots, DeleteLifts][k], Before()[k + 1])
  {
    ThreeRows(Before()[k], [DeleteLocks, DeleteRemoves, DeleteSnapshots, DeleteLifts][k], Before()[k + 1]);
  }

  lemma CountsTwo()
    ensures |Standing(Positions(Between()[0].rows))| == 2
  {
    StandingIsCount(Positions(Between()[0].rows), [0, 1]);
  }

  lemma BetweenGoes(k: nat)
    requires k < 5
    ensures Goes(Between()[k], [CreateCounts, CreateLifts, CreateInserts, CreateDrops, CreateCommits][k], Between()[k + 1])
  {
    CountsTwo();
    ThreeRows(Between()[k], [CreateCounts, CreateLifts, CreateInserts, CreateDrops, CreateCommits][k], Between()[k + 1]);
  }

  lemma AfterGoes(k: nat)
    requires k < 2
    ensures Goes(After()[k], [DeleteTouches, DeleteCommits][k], After()[k + 1])
  {
    ThreeRows(After()[k], [DeleteTouches, DeleteCommits][k], After()[k + 1]);
  }

  lemma Joints()
    ensures Goes(Before()[4], CreateLocks, Between()[0])
    ensures Goes(Between()[5], DeleteDrops, After()[0])
  {
    ThreeRows(Before()[4], CreateLocks, Between()[0]);
    ThreeRows(Between()[5], DeleteDrops, After()[0]);
  }

  function States(): seq<Race> {
    Before() + Between() + After()
  }

  function Steps(): seq<Step> {
    [DeleteLocks, DeleteRemoves, DeleteSnapshots, DeleteLifts]
    + [CreateLocks, CreateCounts, CreateLifts, CreateInserts, CreateDrops, CreateCommits]
    + [DeleteDrops, DeleteTouches, DeleteCommits]
  }

  lemma StatesGo(k: nat)
    requires k < |Steps()|
    ensures Goes(States()[k], Steps()[k], States()[k + 1])
  {
    if k < 4 {
      BeforeGoes(k);
    } else if 5 <= k < 10 {
      BetweenGoes(k - 5);
    } else if k >= 11 {
      AfterGoes(k - 11);
    } else {
      Joints();
    }
  }

  lemma {:induction false} StatesReached(k: nat)
    requires k <= 13
    ensures Reachable(States()[0], States()[k])
  {
    if k == 0 {
      assert IsRun(States()[0], []) && States()[0] == Run(States()[0], []);
    } else {
      StatesReached(k - 1);
      StatesGo(k - 1);
      ReachNext(States()[0], States()[k - 1], Steps()[k - 1], States()[k]);
    }
  }

  lemma Ends(start: Race, finish: Race)
    requires start == States()[0] && finish == States()[13]
    ensures Begins(start, [0, 1])
    ensures Positions(finish.rows) == [None, Some(0), Some(2)] && Overlapped(finish.edits)
  {
    assert start == Before()[0] && finish == After()[2];
    assert Positions(start.rows) == [Some(0), Some(1), None];
    assert Lists(Positions(start.rows), [0, 1]);
  }

  /** The delete has lifted the slide behind its own when the create counts two slides, adds a third at 2 and
      commits; then the delete goes on, and no slide is left at 1. */
  lemma ADeckCanHaveAGap() returns (start: Race, s: Race)
    ensures Begins(start, [0, 1]) && Reachable(start, s)
    ensures Positions(s.rows) == [None, Some(0), Some(2)] && !IsPacked(Positions(s.rows))
  {
    StatesReached(13);
    start, s := FirstAndLast();
    Ends(start, s);
    var steps :| IsRun(start, steps) && s == Run(start, steps);
    PackedIff(start, [0, 1], steps);
  }

  lemma FirstAndLast() returns (start: Race, s: Race)
    ensures start == States()[0] && s == States()[13]
  {
    start, s := States()[0], States()[13];
  }
}

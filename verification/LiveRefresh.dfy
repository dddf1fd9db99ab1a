/** refreshAuthoritative of LiveRuntime.ts: one fetch at a time, repeated while anybody has asked meanwhile. */
module LiveRefresh {
  import opened Prelude

  /** Waiting for the snapshot, Applying it (the roster is being loaded), Leaving between the loop's last test
      and the moment the shared promise is cleared. */
  datatype Phase = Idle | Waiting | Applying | Leaving

  /** asked counts the calls so far; covered is how many of them the last fetch sent was sent after. Both are history. */
  datatype Refresh = Refresh(phase: Phase, dirty: bool, stored: bool, asked: nat, covered: nat)

  datatype Step = Ask | Arrive(accepted: bool) | Test | Clear

  const START: Refresh := Refresh(Idle, false, true, 0, 0)

  predicate Enabled(r: Refresh, step: Step) {
    match step
    case Ask => true
    case Arrive(_) => r.phase == Waiting
    case Test => r.phase == Applying
    case Clear => r.phase == Leaving
  }

  function Fetch(r: Refresh): Refresh {
    r.(phase := Waiting, dirty := false, covered := r.asked)
  }

  function Apply(r: Refresh, step: Step): Refresh {
    match step
    case Ask =>
      var more := r.(asked := r.asked + 1);
      if r.phase == Idle then Fetch(more) else more.(dirty := true)
    case Arrive(accepted) => r.(phase := Applying, stored := accepted, dirty := r.dirty || !accepted)
    case Test => if r.dirty then Fetch(r) else r.(phase := Leaving)
    case Clear => r.(phase := Idle)
  }

  ghost predicate Run(r: Refresh, steps: seq<Step>)
    decreases |steps|
  {
    steps == [] || (Enabled(r, steps[0]) && Run(Apply(r, steps[0]), steps[1..]))
  }

  ghost function End(r: Refresh, steps: seq<Step>): Refresh
    requires Run(r, steps)
    decreases |steps|
  {
    if steps == [] then r else End(Apply(r, steps[0]), steps[1..])
  }

  ghost predicate Inv(r: Refresh) {
    && r.covered <= r.asked
    && (r.phase == Waiting || r.phase == Applying ==> r.covered < r.asked ==> r.dirty)
    && (r.phase == Applying ==> !r.stored ==> r.dirty)
    && (r.phase == Leaving || r.phase == Idle ==> r.stored && (r.covered < r.asked <==> r.dirty))
  }

  lemma {:induction false} RunKeeps(r: Refresh, steps: seq<Step>)
    requires Inv(r) && Run(r, steps)
    ensures Inv(End(r, steps))
    decreases |steps|
  {
    if steps != [] {
      RunKeeps(Apply(r, steps[0]), steps[1..]);
    }
  }

  /** No fetch is sent in the run: the loop stays between its last test and the next call after it is at rest. */
  ghost predicate NoFetch(r: Refresh, steps: seq<Step>)
    requires Run(r, steps)
    decreases |steps|
  {
    && (r.phase == Leaving || r.phase == Idle)
    && (steps == [] || NoFetch(Apply(r, steps[0]), steps[1..]))
  }

  /** Somebody called in the last Leaving phase of the run. */
  ghost predicate LateAsk(r: Refresh, steps: seq<Step>)
    requires Run(r, steps)
    decreases |steps|
  {
    steps != []
    && ((steps[0].Ask? && r.phase == Leaving && NoFetch(Apply(r, Ask), steps[1..]))
        || LateAsk(Apply(r, steps[0]), steps[1..]))
  }

  lemma {:induction false} EndsDirtyIff(r: Refresh, steps: seq<Step>)
    requires Inv(r) && Run(r, steps) && (End(r, steps).phase == Idle || End(r, steps).phase == Leaving)
    ensures End(r, steps).dirty <==> LateAsk(r, steps) || (r.dirty && NoFetch(r, steps))
    decreases |steps|
  {
    if steps != [] {
      EndsDirtyIff(Apply(r, steps[0]), steps[1..]);
    }
  }

  /** Whenever the loop has come to rest a call has been lost exactly if somebody called in the last Leaving phase. */
  lemma AtRestLostIff(steps: seq<Step>)
    requires Run(START, steps) && End(START, steps).phase == Idle
    ensures var r := End(START, steps); r.stored && (r.covered < r.asked <==> LateAsk(START, steps))
  {
    RunKeeps(START, steps);
    EndsDirtyIff(START, steps);
  }

  /** No call falls between the loop's last test and the clearing of the promise. */
  ghost predicate NoLateAsk(r: Refresh, steps: seq<Step>)
    requires Run(r, steps)
    decreases |steps|
  {
    steps == [] || (!(steps[0].Ask? && r.phase == Leaving) && NoLateAsk(Apply(r, steps[0]), steps[1..]))
  }

  /** Without such a call nothing is lost. */
  lemma {:induction false} NothingLost(r: Refresh, steps: seq<Step>)
    requires Inv(r) && Run(r, steps) && NoLateAsk(r, steps)
    requires r.phase == Leaving || r.phase == Idle ==> !r.dirty
    ensures var end := End(r, steps); end.phase == Idle ==> end.covered == end.asked
    decreases |steps|
  {
    if steps != [] {
      NothingLost(Apply(r, steps[0]), steps[1..]);
    }
  }

  /** A call, its snapshot stored, the loop's last test, a second call, the promise cleared: the second call is lost. */
  lemma ACallCanBeLost()
    ensures var steps := [Ask, Arrive(true), Test, Ask, Clear];
      Run(START, steps) && End(START, steps) == Refresh(Idle, true, true, 2, 1)
  {
    var r1, r2 := Apply(START, Ask), Apply(Apply(START, Ask), Arrive(true));
    var r3, r4, r5 := Apply(r2, Test), Apply(Apply(r2, Test), Ask), Apply(Apply(Apply(r2, Test), Ask), Clear);
    var steps := [Ask, Arrive(true), Test, Ask, Clear];
    assert steps[1..] == [Arrive(true), Test, Ask, Clear] && steps[1..][1..] == [Test, Ask, Clear];
    assert [Test, Ask, Clear][1..] == [Ask, Clear] && [Ask, Clear][1..] == [Clear] && [Clear][1..] == [];
    assert Run(r5, []) && End(r5, []) == r5;
    assert Run(r4, [Clear]) && End(r4, [Clear]) == r5;
    assert Run(r3, [Ask, Clear]) && End(r3, [Ask, Clear]) == r5;
    assert Run(r2, [Test, Ask, Clear]) && End(r2, [Test, Ask, Clear]) == r5;
    assert Run(r1, steps[1..]) && End(r1, steps[1..]) == r5;
  }
}

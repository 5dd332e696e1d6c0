/** The schedules on which overlapping manual runs go wrong, from the initial state, in
    both sequencers. They are why runs must start quietly and leave nothing behind. */
module Overlaps {
  import opened Prelude
  import opened Types
  import opened NamespaceKeys
  import opened Sequencer
  import opened Account
  import opened Protocol
  import opened OneAtATime
  import opened LockStep
  import opened SimpleOneAtATime
  import S = SimpleSemantics
  import H = SimpleHistory

  lemma {:induction false} SimpleUnfold(events: seq<S.SimpleEvent>) returns (worlds: seq<H.SimpleWorld>)
    ensures H.SimpleSchedule(worlds, events)
    decreases |events|
  {
    hide H.SimpleNext;
    if events == [] {
      worlds := [H.SimpleInitial];
    } else {
      var n := |events| - 1;
      var before := SimpleUnfold(events[..n]);
      worlds := before + [H.SimpleNext(before[n], events[n])];
      forall i | 0 <= i < |events|
        ensures worlds[i + 1] == H.SimpleNext(worlds[i], events[i])
      {
        if i < n {
          assert before[i + 1] == H.SimpleNext(before[i], events[..n][i]);
        }
      }
    }
  }

  lemma KeysDiffer(caller: string, id: string, id': string)
    requires id != id'
    ensures StepKey(caller, id) != StepKey(caller, id')
  {
    KeyRoundTrip(caller, id);
    KeyRoundTrip(caller, id');
  }

  /** Three or four different steps a caller may register. */
  ghost predicate Usable(calls: seq<S.SimpleStep>) {
    && (forall i | 0 <= i < |calls| :: S.ValidSimpleStep(calls[i]))
    && (forall i, j | 0 <= i < j < |calls| :: calls[i].stepId != calls[j].stepId)
  }

  function Key(caller: string, call: S.SimpleStep): string {
    StepKey(caller, call.stepId)
  }

  function Entry(y: YieldId, call: S.SimpleStep): S.SimpleRegistered {
    S.SimpleRegistered(y, call)
  }

  function Link(caller: string, call: S.SimpleStep, phase: S.SimplePhase): S.SimpleChain {
    S.SimpleChain(caller, call.stepId, phase)
  }

  // --- Two steps executed by one call ---

  lemma RegisterTwo(t: S.SimpleState, caller: string, a: S.SimpleStep, b: S.SimpleStep)
    requires S.ValidSimpleStep(a) && S.ValidSimpleStep(b) && Key(caller, a) != Key(caller, b)
    requires Key(caller, a) !in t.steps && Key(caller, b) !in t.steps
    ensures
      var o := S.RegisterAll(t, caller, [a, b]);
      var y := t.nextYield;
      && o.Some?
      && o.value.state == t.(steps := t.steps[Key(caller, a) := Entry(y, a)][Key(caller, b) := Entry(y + 1, b)],
                             chains := t.chains[y := Link(caller, a, S.Waiting)][y + 1 := Link(caller, b, S.Waiting)],
                             nextYield := y + 2)
  {
    hide StepKey, S.ValidSimpleStep;
    var first := S.RegisterStep(t, caller, a).value;
    var second := S.RegisterStep(first.state, caller, b).value;
    assert [a, b][1..] == [b] && [b][1..] == [];
    assert S.RegisterAll(second.state, caller, []) == Some(S.SimpleOutcome(second.state, []));
    assert S.RegisterAll(first.state, caller, [b]).value.state == second.state;
  }

  lemma StartTwo(t: S.SimpleState, caller: string, y: YieldId, a: S.SimpleStep, b: S.SimpleStep)
    requires Key(caller, a) in t.steps && Key(caller, b) in t.steps && caller !in t.queue
    requires t.steps[Key(caller, a)] == Entry(y, a) && y in t.chains && t.chains[y] == Link(caller, a, S.Waiting)
    ensures
      var o := S.StartRelease(t, caller, [a.stepId, b.stepId]);
      && o.Some?
      && o.value.state == t.(queue := t.queue[caller := [b.stepId]], chains := t.chains[y := Link(caller, a, S.Woken)])
  {
    hide StepKey;
    var order := [a.stepId, b.stepId];
    assert order[1..] == [b.stepId];
    forall i | 0 <= i < |order|
      ensures StepKey(caller, order[i]) in t.steps
    {
    }
  }

  /** Registering two fresh steps and waking the first, from any state. */
  lemma ExecuteTwo(t: S.SimpleState, caller: string, a: S.SimpleStep, b: S.SimpleStep)
    requires Usable([a, b]) && Key(caller, a) !in t.steps && Key(caller, b) !in t.steps && caller !in t.queue
    requires forall y | y in t.chains :: y < t.nextYield
    ensures
      var o := S.SimpleApply(t, S.Execute(caller, [a, b]));
      var y := t.nextYield;
      && o.Some?
      && o.value.state == S.SimpleState(t.steps[Key(caller, a) := Entry(y, a)][Key(caller, b) := Entry(y + 1, b)],
                                        t.queue[caller := [b.stepId]],
                                        t.chains[y := Link(caller, a, S.Woken)][y + 1 := Link(caller, b, S.Waiting)], y + 2)
      && Silent(o.value.acts)
  {
    hide StepKey, S.RegisterAll, S.StartRelease, S.ValidSimpleStep;
    var calls := [a, b];
    assert calls[0].stepId != calls[1].stepId && S.ValidSimpleStep(calls[0]) && S.ValidSimpleStep(calls[1]);
    KeysDiffer(caller, a.stepId, b.stepId);
    RegisterTwo(t, caller, a, b);
    assert S.StepIds(calls) == [a.stepId, b.stepId];
    var registered := S.RegisterAll(t, caller, calls).value.state;
    StartTwo(registered, caller, t.nextYield, a, b);
    RegisterAllSilent(t, caller, calls);
    StartSilent(registered, caller, [a.stepId, b.stepId]);
  }

  lemma ExecuteOne(t: S.SimpleState, caller: string, a: S.SimpleStep)
    requires Usable([a]) && Key(caller, a) !in t.steps && caller !in t.queue
    ensures
      var o := S.SimpleApply(t, S.Execute(caller, [a]));
      var y := t.nextYield;
      && o.Some?
      && o.value.state == S.SimpleState(t.steps[Key(caller, a) := Entry(y, a)], t.queue,
                                        t.chains[y := Link(caller, a, S.Woken)], y + 1)
      && Silent(o.value.acts)
  {
    hide StepKey;
    var calls := [a];
    assert calls[0] == a && calls[1..] == [];
    var first := S.RegisterStep(t, caller, a).value;
    assert S.RegisterAll(first.state, caller, []) == Some(S.SimpleOutcome(first.state, []));
    assert S.StepIds(calls) == [a.stepId];
    RegisterAllSilent(t, caller, calls);
  }

  // --- A run started while a step is on its way ---

  /** Run a alone, call it, start b then d, and let a succeed. */
  function OverlapEvents(caller: string, a: S.SimpleStep, b: S.SimpleStep, d: S.SimpleStep): seq<S.SimpleEvent> {
    [S.Execute(caller, [a]), S.Receipt(0, Failure), S.Execute(caller, [b, d]), S.Receipt(0, Success(""))]
  }

  lemma OverlapStates(worlds: seq<H.SimpleWorld>, caller: string, a: S.SimpleStep, b: S.SimpleStep, d: S.SimpleStep)
    requires Usable([a, b, d]) && H.SimpleSchedule(worlds, OverlapEvents(caller, a, b, d))
    ensures |worlds| == 5
    ensures worlds[2].state.chains == map[0 := Link(caller, a, S.Calling(a))]
    ensures worlds[4].state.chains == map[1 := Link(caller, b, S.Woken), 2 := Link(caller, d, S.Woken)]
    ensures S.SimpleApply(worlds[2].state, S.Execute(caller, [b, d])).Some?
    ensures forall i | 0 <= i < |worlds[4].history| && worlds[4].history[i].Called? :: worlds[4].history[i].y == 0
  {
    hide StepKey, Usable, S.ExecuteSteps, S.RegisterAll, S.StartRelease, S.ResumeStep;
    var events := OverlapEvents(caller, a, b, d);
    UsableParts(caller, a, b, d);
    var t0 := worlds[0].state;
    ExecuteOne(t0, caller, a);
    assert worlds[0 + 1] == H.SimpleNext(worlds[0], events[0]);
    var t1 := S.SimpleState(map[Key(caller, a) := Entry(0, a)], map[], map[0 := Link(caller, a, S.Woken)], 1);
    assert worlds[1].state == t1;
    var t2 := t1.(chains := map[0 := Link(caller, a, S.Calling(a))]);
    assert worlds[1 + 1] == H.SimpleNext(worlds[1], events[1]);
    assert worlds[2].state == t2;
    ExecuteTwo(t2, caller, b, d);
    assert worlds[2 + 1] == H.SimpleNext(worlds[2], events[2]);
    assert worlds[3 + 1] == H.SimpleNext(worlds[3], events[3]);
    assert CheckedReply(Success("")) == Some("");
    OverlapEnd(t2, worlds[3].state, caller, a, b, d);
  }

  lemma UsableParts(caller: string, a: S.SimpleStep, b: S.SimpleStep, d: S.SimpleStep)
    requires Usable([a, b, d])
    ensures Usable([a]) && Usable([b, d]) && a.stepId != b.stepId && a.stepId != d.stepId && b.stepId != d.stepId
    ensures Key(caller, a) != Key(caller, b) && Key(caller, a) != Key(caller, d) && Key(caller, b) != Key(caller, d)
  {
    var calls := [a, b, d];
    assert calls[0].stepId != calls[1].stepId && calls[0].stepId != calls[2].stepId && calls[1].stepId != calls[2].stepId;
    assert S.ValidSimpleStep(calls[0]) && S.ValidSimpleStep(calls[1]) && S.ValidSimpleStep(calls[2]);
    KeysDiffer(caller, a.stepId, b.stepId);
    KeysDiffer(caller, a.stepId, d.stepId);
    KeysDiffer(caller, b.stepId, d.stepId);
  }

  /** a succeeds while b is only woken up: d is released. */
  lemma OverlapEnd(t2: S.SimpleState, t3: S.SimpleState, caller: string, a: S.SimpleStep, b: S.SimpleStep, d: S.SimpleStep)
    requires Key(caller, a) != Key(caller, b) && Key(caller, a) != Key(caller, d) && Key(caller, b) != Key(caller, d)
    requires t3.steps == map[Key(caller, a) := Entry(0, a), Key(caller, b) := Entry(1, b), Key(caller, d) := Entry(2, d)]
    requires t3.queue == map[caller := [d.stepId]]
    requires t3.chains == map[0 := Link(caller, a, S.Calling(a)), 1 := Link(caller, b, S.Woken), 2 := Link(caller, d, S.Waiting)]
    ensures
      var o := S.OnStepResolved(t3, 0, Success(""));
      && o.state.chains == map[1 := Link(caller, b, S.Woken), 2 := Link(caller, d, S.Woken)]
      && Silent(o.acts)
  {
    hide StepKey;
    assert CheckedReply(Success("")) == Some("");
  }

  lemma TwoBusy(t: S.SimpleState, caller: string, y: YieldId, z: YieldId)
    requires y != z && y in t.chains && z in t.chains && t.chains[y].caller == t.chains[z].caller == caller
    requires Busy(t.chains[y].phase) && Busy(t.chains[z].phase)
    ensures !OneBusy(t, caller)
  {
  }

  /** Without quiet starts the promised order fails, in both contracts: on this schedule
      of accepted calls from the initial state, d is released although b, declared before
      it, has never been called. The one start that was not quiet is the run of b and d. */
  lemma OverlapReleasesEarly(caller: string, a: S.SimpleStep, b: S.SimpleStep, d: S.SimpleStep)
    returns (worlds: seq<H.SimpleWorld>, twins: seq<World>)
    requires HashFree(caller) && Usable([a, b, d])
    ensures H.SimpleSchedule(worlds, OverlapEvents(caller, a, b, d))
    ensures !NoneBusy(worlds[2].state, caller) && Starts(worlds[2].state, S.Execute(caller, [b, d]), caller)
    ensures
      var t := worlds[4].state;
      && t.chains == map[1 := Link(caller, b, S.Woken), 2 := Link(caller, d, S.Woken)]
      && !OneBusy(t, caller)
      && forall i | 0 <= i < |worlds[4].history| && worlds[4].history[i].Called? :: worlds[4].history[i].y == 0
    ensures Schedule(twins, TwinEvents(OverlapEvents(caller, a, b, d))) && |twins| == 5
    ensures
      var chains := ChainsIn(twins[4], ManualNamespace(caller));
      && 1 in chains && chains[1].stepId == b.stepId && chains[1].phase == Resumed
      && 2 in chains && chains[2].stepId == d.stepId && chains[2].phase == Resumed
      && !OneActive(chains)
  {
    hide StepKey, Next, Allowed, InStep, SameStep, ManualNamespace, H.SimpleNext, ChainsIn, HashFree;
    var events := OverlapEvents(caller, a, b, d);
    worlds := SimpleUnfold(events);
    OverlapStates(worlds, caller, a, b, d);
    assert 0 in worlds[2].state.chains;
    TwoBusy(worlds[4].state, caller, 1, 2);
    twins := TwinsInStep(worlds, events);
    ViewChains(twins[4], worlds[4], caller);
  }

  // --- A step left over from a halted run ---

  /** Run a then b, let a fail, run x then d, and let the leftover b time out. */
  function LeftoverEvents(caller: string, a: S.SimpleStep, b: S.SimpleStep, x: S.SimpleStep, d: S.SimpleStep): seq<S.SimpleEvent> {
    [S.Execute(caller, [a, b]), S.Receipt(0, Failure), S.Receipt(0, Failure),
     S.Execute(caller, [x, d]), S.Timeout(1), S.Receipt(1, Failure)]
  }

  lemma FourKeys(caller: string, a: S.SimpleStep, b: S.SimpleStep, x: S.SimpleStep, d: S.SimpleStep)
    requires Usable([a, b, x, d])
    ensures Usable([a, b]) && Usable([x, d]) && Key(caller, a) != Key(caller, b)
    ensures Key(caller, b) != Key(caller, x) && Key(caller, b) != Key(caller, d) && Key(caller, x) != Key(caller, d)
  {
    var calls := [a, b, x, d];
    assert calls[0].stepId != calls[1].stepId && calls[1].stepId != calls[2].stepId;
    assert calls[1].stepId != calls[3].stepId && calls[2].stepId != calls[3].stepId;
    assert S.ValidSimpleStep(calls[0]) && S.ValidSimpleStep(calls[1]);
    assert S.ValidSimpleStep(calls[2]) && S.ValidSimpleStep(calls[3]);
    KeysDiffer(caller, a.stepId, b.stepId);
    KeysDiffer(caller, b.stepId, x.stepId);
    KeysDiffer(caller, b.stepId, d.stepId);
    KeysDiffer(caller, x.stepId, d.stepId);
  }

  /** The first run fails and leaves b registered. */
  lemma LeftoverFirst(worlds: seq<H.SimpleWorld>, caller: string, a: S.SimpleStep, b: S.SimpleStep,
                      x: S.SimpleStep, d: S.SimpleStep)
    requires Usable([a, b, x, d]) && H.SimpleSchedule(worlds, LeftoverEvents(caller, a, b, x, d))
    ensures |worlds| == 7
    ensures worlds[3].state == S.SimpleState(map[Key(caller, b) := Entry(1, b)], map[], map[1 := Link(caller, b, S.Waiting)], 2)
  {
    hide StepKey, Usable, S.ExecuteSteps, S.RegisterAll, S.StartRelease, S.ResumeStep;
    var events := LeftoverEvents(caller, a, b, x, d);
    FourKeys(caller, a, b, x, d);
    ExecuteTwo(worlds[0].state, caller, a, b);
    assert worlds[0 + 1] == H.SimpleNext(worlds[0], events[0]);
    var t1 := S.SimpleState(map[Key(caller, a) := Entry(0, a), Key(caller, b) := Entry(1, b)], map[caller := [b.stepId]],
                            map[0 := Link(caller, a, S.Woken), 1 := Link(caller, b, S.Waiting)], 2);
    assert worlds[1].state == t1;
    var t2 := t1.(chains := map[0 := Link(caller, a, S.Calling(a)), 1 := Link(caller, b, S.Waiting)]);
    assert worlds[1 + 1] == H.SimpleNext(worlds[1], events[1]);
    assert worlds[2].state == t2;
    assert worlds[2 + 1] == H.SimpleNext(worlds[2], events[2]);
  }

  lemma LeftoverStates(worlds: seq<H.SimpleWorld>, caller: string, a: S.SimpleStep, b: S.SimpleStep,
                       x: S.SimpleStep, d: S.SimpleStep)
    requires Usable([a, b, x, d]) && H.SimpleSchedule(worlds, LeftoverEvents(caller, a, b, x, d))
    ensures |worlds| == 7
    ensures worlds[3].state == S.SimpleState(map[Key(caller, b) := Entry(1, b)], map[], map[1 := Link(caller, b, S.Waiting)], 2)
    ensures worlds[4].state.queue == map[caller := [d.stepId]]
    ensures worlds[6].state == S.SimpleState(map[Key(caller, x) := Entry(2, x), Key(caller, d) := Entry(3, d)], map[],
                                             map[2 := Link(caller, x, S.Woken), 3 := Link(caller, d, S.Waiting)], 4)
  {
    hide StepKey, Usable, S.ExecuteSteps, S.RegisterAll, S.StartRelease, S.ResumeStep;
    var events := LeftoverEvents(caller, a, b, x, d);
    FourKeys(caller, a, b, x, d);
    LeftoverFirst(worlds, caller, a, b, x, d);
    ExecuteTwo(worlds[3].state, caller, x, d);
    assert worlds[3 + 1] == H.SimpleNext(worlds[3], events[3]);
    assert worlds[4 + 1] == H.SimpleNext(worlds[4], events[4]);
    assert worlds[5 + 1] == H.SimpleNext(worlds[5], events[5]);
  }

  /** What a halted run leaves registered takes the next run's queue with it, in both
      contracts: on this schedule of accepted calls from the initial state, with every
      start quiet, the queue behind x is gone although no receipt of x or d has come in. */
  lemma LeftoverDropsQueue(caller: string, a: S.SimpleStep, b: S.SimpleStep, x: S.SimpleStep, d: S.SimpleStep)
    returns (worlds: seq<H.SimpleWorld>, twins: seq<World>)
    requires HashFree(caller) && Usable([a, b, x, d])
    ensures H.SimpleSchedule(worlds, LeftoverEvents(caller, a, b, x, d))
    ensures NoneBusy(worlds[3].state, caller)
    ensures Get(worlds[4].state.queue, caller) == Some([d.stepId]) && Get(worlds[6].state.queue, caller) == None
    ensures worlds[6].state.chains == map[2 := Link(caller, x, S.Woken), 3 := Link(caller, d, S.Waiting)]
    ensures Schedule(twins, TwinEvents(LeftoverEvents(caller, a, b, x, d))) && |twins| == 7
    ensures Get(twins[4].state.queues, ManualNamespace(caller)) == Some([d.stepId])
    ensures Get(twins[6].state.queues, ManualNamespace(caller)) == None
    ensures
      var chains := ChainsIn(twins[6], ManualNamespace(caller));
      2 in chains && chains[2].phase == Resumed && 3 in chains && chains[3].phase == Yielded
  {
    hide StepKey, Next, Allowed, InStep, SameStep, ManualNamespace, H.SimpleNext, ChainsIn, HashFree;
    var events := LeftoverEvents(caller, a, b, x, d);
    worlds := SimpleUnfold(events);
    LeftoverStates(worlds, caller, a, b, x, d);
    twins := TwinsInStep(worlds, events);
    SameMaps(twins[4], worlds[4], caller, "");
    SameMaps(twins[6], worlds[6], caller, "");
    ViewChains(twins[6], worlds[6], caller);
  }
}

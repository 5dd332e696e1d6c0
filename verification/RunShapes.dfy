/** How the sequencer's moves change the shape of a run's namespace. */
module RunShapes {
  import opened Prelude
  import opened Types
  import opened Sequencer
  import opened RunInvariant

  lemma PositionOf(l: Local, plan: seq<Step>, base: YieldId, ns: string, k: nat)
    requires FlightShape(l, plan, base, ns, k)
    ensures Position(l, plan) == k
  {
  }

  /** The current step is registered under its own yield. */
  lemma CurrentStep(l: Local, plan: seq<Step>, base: YieldId, ns: string, k: nat)
    requires FlightShape(l, plan, base, ns, k)
    ensures l.chains[base + k].stepId == plan[k].stepId
    ensures plan[k].stepId in l.steps && l.steps[plan[k].stepId] == RegisteredStep(base + k, plan[k])
    ensures Active(l.chains[base + k].phase)
  {
    StepsFromAt(plan, base, k, k);
  }

  lemma AdvanceShape(l: Local, plan: seq<Step>, base: YieldId, ns: string, k: nat, phase: Phase)
    requires FlightShape(l, plan, base, ns, k) && Active(phase)
    ensures FlightShape(Advance(l, base + k, phase), plan, base, ns, k)
    ensures NoneTimedOut(l.chains) ==> NoneTimedOut(Advance(l, base + k, phase).chains)
    ensures SavedResults(Advance(l, base + k, phase)) == SavedResults(l)
    ensures Advance(l, base + k, phase).run == l.run
    ensures Advance(l, base + k, phase).chains[base + k].phase == phase
  {
    hide ChainsFrom, NoneTimedOut;
    ActiveChains(l.chains, plan, base, ns, k, phase);
  }

  lemma ActiveChains(chains: map<YieldId, Chain>, plan: seq<Step>, base: YieldId, ns: string, k: nat, phase: Phase)
    requires ChainsFrom(chains, plan, base, ns, k) && base + k in chains && Active(phase)
    ensures
      var chains' := chains[base + k := chains[base + k].(phase := phase)];
      ChainsFrom(chains', plan, base, ns, k) && (NoneTimedOut(chains) ==> NoneTimedOut(chains'))
  {
  }

  lemma TimeOutShape(l: Local, plan: seq<Step>, base: YieldId, ns: string, k: nat, y: YieldId)
    requires FlightShape(l, plan, base, ns, k) && y in l.chains
    ensures FlightShape(TimeOut(l, y), plan, base, ns, k)
    ensures TimeOut(l, y).chains[base + k] == l.chains[base + k]
  {
    hide ChainsFrom;
    if l.chains[y].phase.Yielded? {
      TimeOutChains(l.chains, plan, base, ns, k, y);
    }
  }

  lemma TimeOutChains(chains: map<YieldId, Chain>, plan: seq<Step>, base: YieldId, ns: string, k: nat, y: YieldId)
    requires ChainsFrom(chains, plan, base, ns, k) && y in chains && chains[y].phase.Yielded?
    ensures ChainsFrom(chains[y := chains[y].(phase := TimedOut)], plan, base, ns, k)
    ensures y != base + k || base + k !in chains
  {
  }

  /** A namespace whose run leaves flight keeps only chains it already had. */
  lemma LeavesFlight(l: Local, plan: seq<Step>, base: YieldId, ns: string, k: nat, l': Local)
    requires FlightShape(l, plan, base, ns, k)
    requires l'.steps == map[] && l'.queue == None && l'.context == None
    requires forall y | y in l'.chains :: y in l.chains && l'.chains[y] == l.chains[y]
    ensures WipedShape(l', ns)
    ensures forall y | y in l'.chains && Active(l'.chains[y].phase) :: y == base + k
  {
  }

  /** After step k resolved: the state Progress starts from. */
  function Resolved(l: Local, y: YieldId, stepId: string, context: Option<map<string, Bytes>>): Local {
    Drop(l, y).(steps := l.steps - {stepId}, context := context)
  }

  /** The chains once step k is gone and step k + 1 is woken up. */
  function WakeNext(chains: map<YieldId, Chain>, y: YieldId): map<YieldId, Chain>
    requires y + 1 in chains
  {
    (chains - {y})[y + 1 := chains[y + 1].(phase := Resumed)]
  }

  lemma WakeNextChains(chains: map<YieldId, Chain>, plan: seq<Step>, base: YieldId, ns: string, k: nat)
    requires ChainsFrom(chains, plan, base, ns, k) && k + 1 < |plan|
    ensures base + k + 1 in chains
    ensures ChainsFrom(WakeNext(chains, base + k), plan, base, ns, k + 1)
    ensures NoneTimedOut(chains) ==> NoneTimedOut(WakeNext(chains, base + k))
  {
  }

  lemma NextOfQueue(plan: seq<Step>, k: nat)
    requires k + 1 < |plan|
    ensures IdsOf(plan)[k + 1..][0] == plan[k + 1].stepId
    ensures k + 2 < |plan| ==> IdsOf(plan)[k + 1..][1..] == IdsOf(plan)[k + 2..]
  {
  }

  /** The namespace once step k is gone and the next step is woken up. */
  function Woken(l: Local, y: YieldId, stepId: string, context: Option<map<string, Bytes>>): Local
    requires y + 1 in l.chains && l.queue.Some? && l.queue.value != []
  {
    l.(queue := if |l.queue.value| == 1 then None else Some(l.queue.value[1..]), steps := l.steps - {stepId},
       context := context, chains := WakeNext(l.chains, y))
  }

  lemma ProgressWakes(l: Local, y: YieldId, stepId: string, context: Option<map<string, Bytes>>)
    requires l.queue.Some? && l.queue.value != []
    requires l.queue.value[0] in l.steps && l.queue.value[0] != stepId
    requires l.steps[l.queue.value[0]].yieldId == y + 1 && y + 1 in l.chains && l.chains[y + 1].phase.Yielded?
    ensures Progress(Resolved(l, y, stepId, context)) == Woken(l, y, stepId, context)
  {
  }

  lemma DistinctNext(plan: seq<Step>, k: nat)
    requires DistinctIds(plan) && k + 1 < |plan|
    ensures plan[k].stepId != plan[k + 1].stepId
  {
  }

  /** Step k resolved and step k + 1 can be woken up. */
  lemma ReleaseWakes(l: Local, plan: seq<Step>, base: YieldId, ns: string, k: nat, context: Option<map<string, Bytes>>)
    requires FlightShape(l, plan, base, ns, k) && k + 1 < |plan|
    requires l.chains[base + k + 1].phase.Yielded?
    ensures Progress(Resolved(l, base + k, plan[k].stepId, context)) == Woken(l, base + k, plan[k].stepId, context)
  {
    hide ChainsFrom, Progress, Resolved, Woken, DistinctIds;
    WakeNextChains(l.chains, plan, base, ns, k);
    DistinctNext(plan, k);
    StepsFromAt(plan, base, k, k + 1);
    NextOfQueue(plan, k);
    ProgressWakes(l, base + k, plan[k].stepId, context);
  }

  lemma WokenShape(l: Local, plan: seq<Step>, base: YieldId, ns: string, k: nat, context: Option<map<string, Bytes>>)
    requires FlightShape(l, plan, base, ns, k) && k + 1 < |plan|
    ensures
      var l' := Woken(l, base + k, plan[k].stepId, context);
      FlightShape(l', plan, base, ns, k + 1) && (NoneTimedOut(l.chains) ==> NoneTimedOut(l'.chains))
  {
    StepsFromNext(plan, base, k);
    NextOfQueue(plan, k);
    WakeNextChains(l.chains, plan, base, ns, k);
  }

  /** The next step can no longer be resumed. */
  lemma ProgressHalts(l: Local, y: YieldId, stepId: string, context: Option<map<string, Bytes>>)
    requires RunInFlight(l) && l.queue.Some? && l.queue.value != []
    requires l.queue.value[0] in l.steps && l.queue.value[0] != stepId
    requires l.steps[l.queue.value[0]].yieldId == y + 1 && y + 1 in l.chains && !l.chains[y + 1].phase.Yielded?
    ensures Progress(Resolved(l, y, stepId, context)) ==
            Local(map[], None, None, Some(l.run.value.(status := ResumeFailed, failedStepId := Some(l.queue.value[0]))),
                  l.chains - {y})
  {
  }

  lemma ReleaseFails(l: Local, plan: seq<Step>, base: YieldId, ns: string, k: nat, context: Option<map<string, Bytes>>)
    requires RunInFlight(l) && FlightShape(l, plan, base, ns, k) && k + 1 < |plan|
    requires !l.chains[base + k + 1].phase.Yielded?
    ensures
      var l' := Progress(Resolved(l, base + k, plan[k].stepId, context));
      && WipedShape(l', ns) && NoneActive(l'.chains)
      && l'.run == Some(l.run.value.(status := ResumeFailed, failedStepId := Some(plan[k + 1].stepId)))
  {
    hide Progress, DistinctIds, ChainsFrom, StepsFrom, WipedShape, Resolved, Active;
    var l1 := Resolved(l, base + k, plan[k].stepId, context);
    var next := plan[k + 1].stepId;
    StepsFromAt(plan, base, k, k + 1);
    NextOfQueue(plan, k);
    DistinctNext(plan, k);
    WakeNextChains(l.chains, plan, base, ns, k);
    ProgressHalts(l, base + k, plan[k].stepId, context);
    LeavesFlight(l, plan, base, ns, k, Progress(l1));
  }

  lemma CompletionShape(l: Local, plan: seq<Step>, base: YieldId, ns: string, k: nat, context: Option<map<string, Bytes>>)
    requires RunInFlight(l) && FlightShape(l, plan, base, ns, k) && k + 1 == |plan|
    ensures
      var l' := Progress(Resolved(l, base + k, plan[k].stepId, context));
      && WipedShape(l', ns) && NoneActive(l'.chains)
      && l'.run == Some(l.run.value.(status := Succeeded, failedStepId := None))
  {
    LeavesFlight(l, plan, base, ns, k, Progress(Resolved(l, base + k, plan[k].stepId, context)));
  }

  /** The current step fails: its chain goes, its run halts. */
  lemma FailureShape(l: Local, plan: seq<Step>, base: YieldId, ns: string, k: nat)
    requires RunInFlight(l) && FlightShape(l, plan, base, ns, k)
    ensures
      var l' := Halt(Drop(l, base + k), plan[k].stepId, DownstreamFailed);
      && WipedShape(l', ns) && NoneActive(l'.chains)
      && l'.run == Some(l.run.value.(status := DownstreamFailed, failedStepId := Some(plan[k].stepId)))
  {
    LeavesFlight(l, plan, base, ns, k, Halt(Drop(l, base + k), plan[k].stepId, DownstreamFailed));
  }

  /** A yielded step timed out before its turn: the run halts, the current chain stays. */
  lemma TimedOutShape(l: Local, plan: seq<Step>, base: YieldId, ns: string, k: nat, y: YieldId)
    requires RunInFlight(l) && FlightShape(l, plan, base, ns, k)
    requires y in l.chains && l.chains[y].phase.TimedOut?
    ensures
      var l' := OnStepResumed(l, y).local;
      && OnStepResumed(l, y).sent == []
      && WipedShape(l', ns)
      && (forall z | z in l'.chains :: z in l.chains && l'.chains[z] == l.chains[z])
      && (forall z | z in l'.chains && Active(l'.chains[z].phase) :: z == base + k)
      && l'.run == Some(l.run.value.(status := ResumeFailed, failedStepId := Some(plan[y - base].stepId)))
  {
    StepsFromAt(plan, base, k, y - base);
    LeavesFlight(l, plan, base, ns, k, OnStepResumed(l, y).local);
  }

  // --- Firing ---

  /** The chains of a freshly registered plan, from its i-th step on. */
  function NewChains(plan: seq<Step>, base: YieldId, ns: string, i: nat): map<YieldId, Chain>
    decreases |plan| - i
  {
    if i >= |plan| then map[]
    else NewChains(plan, base, ns, i + 1)[base + i := Chain(ns, plan[i].stepId, Yielded)]
  }

  lemma {:induction false} NewChainsAt(plan: seq<Step>, base: YieldId, ns: string, i: nat, y: YieldId)
    ensures y in NewChains(plan, base, ns, i) <==> base + i <= y < base + |plan|
    ensures y in NewChains(plan, base, ns, i) ==>
              NewChains(plan, base, ns, i)[y] == Chain(ns, plan[y - base].stepId, Yielded)
    decreases |plan| - i
  {
    if i < |plan| {
      NewChainsAt(plan, base, ns, i + 1, y);
    }
  }

  lemma RegisterOne(l: Local, ns: string, plan: seq<Step>, base: YieldId, i: nat)
    requires i < |plan| && plan[i].stepId !in l.steps
    ensures
      var l1 := l.(steps := l.steps[plan[i].stepId := RegisteredStep(base + i, plan[i])],
                   chains := l.chains[base + i := Chain(ns, plan[i].stepId, Yielded)]);
      RegisterAll(l, ns, plan[i..], base + i) == RegisterAll(l1, ns, plan[i + 1..], base + (i + 1))
  {
    assert plan[i..][0] == plan[i] && plan[i..][1..] == plan[i + 1..];
  }

  lemma {:induction false} RegisterAllExact(l: Local, ns: string, plan: seq<Step>, base: YieldId, i: nat)
    requires i <= |plan| && DistinctIds(plan)
    requires forall j | i <= j < |plan| :: plan[j].stepId !in l.steps
    ensures RegisterAll(l, ns, plan[i..], base + i) ==
            Some(l.(steps := l.steps + StepsFrom(plan, base, i), chains := l.chains + NewChains(plan, base, ns, i)))
    decreases |plan| - i
  {
    hide Register;
    if i == |plan| {
      assert l.steps + StepsFrom(plan, base, i) == l.steps;
      assert l.chains + NewChains(plan, base, ns, i) == l.chains;
    } else {
      var step, chain := RegisteredStep(base + i, plan[i]), Chain(ns, plan[i].stepId, Yielded);
      var l1 := l.(steps := l.steps[plan[i].stepId := step], chains := l.chains[base + i := chain]);
      RegisterOne(l, ns, plan, base, i);
      RegisterAllExact(l1, ns, plan, base, i + 1);
      StepsFromKeys(plan, base, i + 1, plan[i].stepId);
      MergeUpdate(l.steps, StepsFrom(plan, base, i + 1), plan[i].stepId, step);
      NewChainsAt(plan, base, ns, i + 1, base + i);
      MergeUpdate(l.chains, NewChains(plan, base, ns, i + 1), base + i, chain);
    }
  }

  lemma WakeFirstChains(plan: seq<Step>, base: YieldId, ns: string)
    requires plan != []
    ensures
      var chains := NewChains(plan, base, ns, 0)[base := Chain(ns, plan[0].stepId, Resumed)];
      ChainsFrom(chains, plan, base, ns, 0) && NoneTimedOut(chains)
  {
    forall y: YieldId {
      NewChainsAt(plan, base, ns, 0, y);
    }
  }

  /** The state right after firing a plan into a quiet namespace. */
  function Fired(l: Local, ns: string, run: AutomationRun, plan: seq<Step>, base: YieldId): Local
    requires plan != []
  {
    Local(StepsFrom(plan, base, 0),
          if |plan| > 1 then Some(IdsOf(plan)[1..]) else None,
          l.context, Some(run),
          NewChains(plan, base, ns, 0)[base := Chain(ns, plan[0].stepId, Resumed)])
  }

  ghost predicate Quiet(l: Local) {
    l.steps == map[] && l.queue == None && l.run == None && l.chains == map[]
  }

  lemma FireExact(l: Local, ns: string, run: AutomationRun, plan: seq<Step>, base: YieldId)
    requires Quiet(l) && plan != [] && DistinctIds(plan)
    ensures Fire(l, ns, run, plan, base) == Some(Fired(l, ns, run, plan, base))
  {
    assert plan[0..] == plan;
    RegisterAllExact(l, ns, plan, base, 0);
    assert map[] + StepsFrom(plan, base, 0) == StepsFrom(plan, base, 0);
    assert map[] + NewChains(plan, base, ns, 0) == NewChains(plan, base, ns, 0);
    var l1 := l.(steps := StepsFrom(plan, base, 0), chains := NewChains(plan, base, ns, 0));
    assert RegisterAll(l, ns, plan, base) == Some(l1);
    StartsFirst(l1, ns, plan, base);
  }

  lemma StartsFirst(l: Local, ns: string, plan: seq<Step>, base: YieldId)
    requires plan != [] && DistinctIds(plan) && l.queue == None
    requires l.steps == StepsFrom(plan, base, 0) && l.chains == NewChains(plan, base, ns, 0)
    ensures StartRelease(l, IdsOf(plan)) ==
            Some(l.(queue := if |plan| > 1 then Some(IdsOf(plan)[1..]) else None,
                    chains := l.chains[base := Chain(ns, plan[0].stepId, Resumed)]))
  {
    forall i | 0 <= i < |plan|
      ensures plan[i].stepId in l.steps
    {
      StepsFromAt(plan, base, 0, i);
    }
    StepsFromAt(plan, base, 0, 0);
    NewChainsAt(plan, base, ns, 0, base);
  }

  /** Firing into a quiet namespace puts the run in flight at its first step. */
  lemma FiredShape(l: Local, ns: string, run: AutomationRun, plan: seq<Step>, base: YieldId)
    requires plan != [] && DistinctIds(plan)
    ensures FlightShape(Fired(l, ns, run, plan, base), plan, base, ns, 0)
    ensures NoneTimedOut(Fired(l, ns, run, plan, base).chains)
  {
    WakeFirstChains(plan, base, ns);
  }
}

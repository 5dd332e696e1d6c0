/** Reusing an automation namespace while receipts of an earlier run are outstanding:
    exactly which receipts can disturb the new run, and a schedule on which one does. */
module StaleReceipts {
  import opened Prelude
  import opened Types
  import opened Materialize
  import opened NamespaceKeys
  import opened Sequencer
  import opened RunInvariant
  import opened RunShapes
  import opened Account
  import opened Protocol
  import opened ProtocolSteps

  // --- Which stale receipts can disturb a run ---

  /** What is registered are steps of this plan, each under its own yield. */
  ghost predicate RegisteredFrom(l: Local, plan: seq<Step>, base: YieldId) {
    forall id | id in l.steps ::
      exists i :: 0 <= i < |plan| && id == plan[i].stepId && l.steps[id] == RegisteredStep(base + i, plan[i])
  }

  /** Judged by the receipt's step and phase alone: it is past its dispatch, or its step
      is one of the plan (a gated one, if it waits for a gate). */
  predicate Harmful(plan: seq<Step>, chain: Chain) {
    match chain.phase
    case Dispatched(_) => true
    case Postchecking(_) => true
    case Resolving(_) => true
    case Gating => exists i :: 0 <= i < |plan| && plan[i].stepId == chain.stepId && plan[i].preGate.Some?
    case _ => exists i :: 0 <= i < |plan| && plan[i].stepId == chain.stepId
  }

  /** Delivering this receipt sends a gate or target call, or changes what the run
      stands on: its steps, queue, saved values or row. */
  predicate Disturbs(l: Local, z: YieldId, reply: Reply)
    requires z in l.chains && !l.chains[z].phase.Yielded?
  {
    var r := Deliver(l, z, reply);
    || (exists i :: 0 <= i < |r.sent| && !r.sent[i].CheckCall?)
    || r.local.steps != l.steps || r.local.queue != l.queue || r.local.context != l.context || r.local.run != l.run
  }

  /** Some receipt of the chain does, after at most n timeouts and receipts of it alone. */
  ghost predicate CanDisturb(l: Local, z: YieldId, n: nat)
    requires z in l.chains
    decreases n
  {
    n > 0 &&
    if l.chains[z].phase.Yielded? then CanDisturb(TimeOut(l, z), z, n - 1)
    else
      exists reply ::
        || Disturbs(l, z, reply)
        || (z in Deliver(l, z, reply).local.chains && CanDisturb(Deliver(l, z, reply).local, z, n - 1))
  }

  /** A harmless receipt comes to nothing, whatever the run has got to meanwhile. */
  lemma HarmlessReceipt(l: Local, plan: seq<Step>, base: YieldId, z: YieldId, reply: Reply)
    requires RegisteredFrom(l, plan, base) && z in l.chains && !Harmful(plan, l.chains[z]) && !l.chains[z].phase.Yielded?
    ensures Deliver(l, z, reply) == Reaction(Drop(l, z), []) && !Disturbs(l, z, reply)
  {
    var stepId := l.chains[z].stepId;
    if stepId in l.steps {
      var i :| 0 <= i < |plan| && stepId == plan[i].stepId && l.steps[stepId] == RegisteredStep(base + i, plan[i]);
    }
  }

  lemma HarmlessNever(l: Local, plan: seq<Step>, base: YieldId, z: YieldId, n: nat)
    requires RegisteredFrom(l, plan, base) && z in l.chains && !Harmful(plan, l.chains[z])
    ensures !CanDisturb(l, z, n)
    decreases n
  {
    if n > 0 {
      if l.chains[z].phase.Yielded? {
        HarmlessNever(TimeOut(l, z), plan, base, z, n - 1);
      } else {
        forall reply
          ensures !Disturbs(l, z, reply) && z !in Deliver(l, z, reply).local.chains
        {
          HarmlessReceipt(l, plan, base, z, reply);
        }
      }
    }
  }

  /** A harmful receipt, by phase, in a run whose steps are all still registered. */
  lemma HarmfulReceipt(l: Local, plan: seq<Step>, base: YieldId, z: YieldId)
    requires RunInFlight(l) && l.steps == StepsFrom(plan, base, 0) && DistinctIds(plan)
    requires l.queue.Some? ==> l.queue.value != []
    requires z in l.chains && Harmful(plan, l.chains[z])
    ensures CanDisturb(l, z, 3)
  {
    var chain := l.chains[z];
    match chain.phase
    case Dispatched(call) =>
      if call.policy.Asserted? {
        assert Deliver(l, z, Failure).local == Advance(l, z, Resolving(Failure));
        ResolvingDisturbs(Advance(l, z, Resolving(Failure)), z, 2);
        assert CanDisturb(l, z, 3);
      } else {
        assert Disturbs(l, z, Failure);
      }
    case Postchecking(expectedReturn) =>
      assert Deliver(l, z, Failure).local == Advance(l, z, Resolving(Failure));
      ResolvingDisturbs(Advance(l, z, Resolving(Failure)), z, 2);
      assert CanDisturb(l, z, 3);
    case Resolving(_) => ResolvingDisturbs(l, z, 3);
    case Gating =>
      var i :| 0 <= i < |plan| && plan[i].stepId == chain.stepId && plan[i].preGate.Some?;
      StepsFromAt(plan, base, 0, i);
      assert Disturbs(l, z, Failure);
    case Resumed =>
      RegisteredHere(plan, base, chain.stepId);
      WakeDisturbs(l, z);
    case TimedOut =>
      RegisteredHere(plan, base, chain.stepId);
      TimedOutDisturbs(l, z, 3);
    case Yielded =>
      RegisteredHere(plan, base, chain.stepId);
      TimedOutDisturbs(TimeOut(l, z), z, 2);
      assert CanDisturb(l, z, 3);
  }

  lemma RegisteredHere(plan: seq<Step>, base: YieldId, id: string)
    requires DistinctIds(plan) && exists i :: 0 <= i < |plan| && plan[i].stepId == id
    ensures id in StepsFrom(plan, base, 0)
  {
    var i :| 0 <= i < |plan| && plan[i].stepId == id;
    StepsFromAt(plan, base, 0, i);
  }

  lemma ResolvingDisturbs(l: Local, z: YieldId, n: nat)
    requires RunInFlight(l) && (l.queue.Some? ==> l.queue.value != []) && n > 0
    requires z in l.chains && l.chains[z].phase.Resolving?
    ensures CanDisturb(l, z, n)
  {
    assert Disturbs(l, z, Failure);
  }

  lemma TimedOutDisturbs(l: Local, z: YieldId, n: nat)
    requires RunInFlight(l) && n > 0 && z in l.chains && l.chains[z].phase.TimedOut? && l.chains[z].stepId in l.steps
    ensures CanDisturb(l, z, n)
  {
    assert Disturbs(l, z, Failure);
  }

  lemma WakeDisturbs(l: Local, z: YieldId)
    requires RunInFlight(l) && z in l.chains && l.chains[z].phase.Resumed? && l.chains[z].stepId in l.steps
    ensures CanDisturb(l, z, 3)
  {
    hide MaterializeStep;
    var r := Deliver(l, z, Failure);
    if r.sent != [] {
      assert !r.sent[0].CheckCall?;
    }
    assert Disturbs(l, z, Failure);
  }

  /** The exact condition: right after a plan is fired into a namespace with this receipt
      of an earlier run outstanding, the receipt can disturb the run if and only if it is
      harmful; and a harmless one never can, however far the run has got. */
  lemma StaleDisturbsIff(l: Local, ns: string, run: AutomationRun, plan: seq<Step>, base: YieldId, z: YieldId, chain: Chain)
    requires plan != [] && DistinctIds(plan) && run.status == InFlight && !(base <= z < base + |plan|)
    ensures
      var fired := WithStale(Fired(l, ns, run, plan, base), z, chain);
      (exists n: nat :: CanDisturb(fired, z, n)) <==> Harmful(plan, chain)
  {
    var fired := WithStale(Fired(l, ns, run, plan, base), z, chain);
    FiredRegisters(l, ns, run, plan, base, z, chain);
    if Harmful(plan, chain) {
      var n: nat := 3;
      HarmfulReceipt(fired, plan, base, z);
      assert CanDisturb(fired, z, n);
    } else {
      forall n: nat
        ensures !CanDisturb(fired, z, n)
      {
        HarmlessNever(fired, plan, base, z, n);
      }
    }
  }

  lemma FiredRegisters(l: Local, ns: string, run: AutomationRun, plan: seq<Step>, base: YieldId, z: YieldId, chain: Chain)
    requires plan != [] && DistinctIds(plan)
    ensures RegisteredFrom(WithStale(Fired(l, ns, run, plan, base), z, chain), plan, base)
  {
    var steps := StepsFrom(plan, base, 0);
    forall id | id in steps
      ensures exists i :: 0 <= i < |plan| && id == plan[i].stepId && steps[id] == RegisteredStep(base + i, plan[i])
    {
      StepsFromKeys(plan, base, 0, id);
      var i :| 0 <= i < |plan| && plan[i].stepId == id;
      StepsFromAt(plan, base, 0, i);
    }
  }

  // --- What one of them does ---

  /** The new run's state with a receipt of an earlier run still out. */
  function WithStale(l: Local, z: YieldId, chain: Chain): Local {
    l.(chains := l.chains[z := chain])
  }

  /** When an old result of the first step's name arrives, the new run's second step is
      woken up although its first was never called, and the first step's own wake-up
      then comes to nothing, so it never is. */
  lemma StaleReceiptSkipsStep(l: Local, ns: string, run: AutomationRun, plan: seq<Step>, base: YieldId,
                              y: YieldId, call: Step, stale: Reply, reply: Reply)
    requires |plan| > 1 && DistinctIds(plan) && !(base <= y < base + |plan|)
    requires !call.policy.Asserted? && CheckedReply(stale).Some?
    ensures
      var fired := WithStale(Fired(l, ns, run, plan, base), y, Chain(ns, plan[0].stepId, Dispatched(call)));
      var r := Deliver(fired, y, stale);
      && r.sent == []
      && base in r.local.chains && r.local.chains[base] == Chain(ns, plan[0].stepId, Resumed)
      && base + 1 in r.local.chains && r.local.chains[base + 1].phase == Resumed
      && plan[0].stepId !in r.local.steps
      && Deliver(r.local, base, reply) == Reaction(Drop(r.local, base), [])
  {
    var fired := WithStale(Fired(l, ns, run, plan, base), y, Chain(ns, plan[0].stepId, Dispatched(call)));
    NewChainsAt(plan, base, ns, 0, base + 1);
    StepsFromAt(plan, base, 0, 0);
    StepsFromAt(plan, base, 0, 1);
    StaleRelease(fired, y, stale, plan[0].stepId, plan[1].stepId, base + 1);
  }

  lemma StaleRelease(l: Local, y: YieldId, stale: Reply, first: string, second: string, z: YieldId)
    requires y in l.chains && l.chains[y].stepId == first && l.chains[y].phase.Dispatched?
    requires !l.chains[y].phase.call.policy.Asserted? && CheckedReply(stale).Some?
    requires l.queue.Some? && l.queue.value != [] && l.queue.value[0] == second && first != second
    requires second in l.steps && l.steps[second].yieldId == z && z != y && z in l.chains && l.chains[z].phase.Yielded?
    ensures
      var r := Deliver(l, y, stale);
      && r.sent == [] && r.local.steps == l.steps - {first}
      && r.local.chains == (l.chains - {y})[z := l.chains[z].(phase := Resumed)]
  {
  }

  // --- The schedule ---

  /** An account whose only namespace is this one, in this state. */
  function Alone(triggers: map<string, BalanceTrigger>, templates: map<string, SequenceTemplate>, next: YieldId,
                 ns: string, l: Local): State
  {
    Put(State(map[], map[], map[], map[], triggers, templates, map[], next), ns, l)
  }

  ghost predicate AllOwn(l: Local, ns: string) {
    forall y | y in l.chains :: l.chains[y].ns == ns
  }

  lemma AloneProject(triggers: map<string, BalanceTrigger>, templates: map<string, SequenceTemplate>, next: YieldId,
                     ns: string, l: Local)
    requires AllOwn(l, ns)
    ensures
      var s := Alone(triggers, templates, next, ns, l);
      && Project(s, ns) == l && s.chains == l.chains && Get(s.runs, ns) == l.run
      && s.triggers == triggers && s.templates == templates && s.nextYield == next
  {
    hide Slice, Splice;
    ProjectPut(State(map[], map[], map[], map[], triggers, templates, map[], next), ns, l);
  }

  /** Putting another state of the namespace in place of this one. */
  lemma AlonePut(triggers: map<string, BalanceTrigger>, templates: map<string, SequenceTemplate>, next: YieldId,
                 ns: string, l: Local, l': Local)
    requires AllOwn(l, ns)
    ensures Put(Alone(triggers, templates, next, ns, l), ns, l') == Alone(triggers, templates, next, ns, l')
  {
    hide Slice, Splice, SpliceChains, Get, Set;
    PutPut(State(map[], map[], map[], map[], triggers, templates, map[], next), ns, l, l');
  }

  lemma AloneDeliver(triggers: map<string, BalanceTrigger>, templates: map<string, SequenceTemplate>, next: YieldId,
                     ns: string, l: Local, y: YieldId, reply: Reply)
    requires AllOwn(l, ns) && y in l.chains && !l.chains[y].phase.Yielded?
    ensures
      var s := Alone(triggers, templates, next, ns, l);
      var r := Deliver(l, y, reply);
      Apply(s, DeliverReceipt(y, reply)) ==
      Some(Outcome(Alone(ReleaseTrigger(triggers, l.run, r.local.run), templates, next, ns, r.local), r.sent))
  {
    hide Put, Project, Deliver, ReleaseTrigger;
    AloneProject(triggers, templates, next, ns, l);
    AlonePut(triggers, templates, next, ns, l, Deliver(l, y, reply).local);
    AloneTriggers(triggers, ReleaseTrigger(triggers, l.run, Deliver(l, y, reply).local.run), templates, next, ns,
                  Deliver(l, y, reply).local);
  }

  lemma AloneTriggers(triggers: map<string, BalanceTrigger>, triggers': map<string, BalanceTrigger>,
                      templates: map<string, SequenceTemplate>, next: YieldId, ns: string, l: Local)
    ensures Alone(triggers, templates, next, ns, l).(triggers := triggers') == Alone(triggers', templates, next, ns, l)
  {
  }

  lemma AloneTimeOut(triggers: map<string, BalanceTrigger>, templates: map<string, SequenceTemplate>, next: YieldId,
                     ns: string, l: Local, y: YieldId)
    requires AllOwn(l, ns) && y in l.chains && l.chains[y].phase.Yielded?
    ensures
      Apply(Alone(triggers, templates, next, ns, l), TimeoutYield(y)) ==
      Some(Outcome(Alone(triggers, templates, next, ns, TimeOut(l, y)), []))
  {
    hide Put, Project, TimeOut;
    AloneProject(triggers, templates, next, ns, l);
    AlonePut(triggers, templates, next, ns, l, TimeOut(l, y));
  }

  lemma AlonePrune(triggers: map<string, BalanceTrigger>, templates: map<string, SequenceTemplate>, next: YieldId,
                   ns: string, l: Local)
    requires l.run.Some? && l.run.value.status != InFlight
    ensures
      Apply(Alone(triggers, templates, next, ns, l), PruneFinishedRuns) ==
      Some(Outcome(Alone(triggers, templates, next, ns, l.(run := None)), []))
  {
    hide Splice, SpliceChains;
  }

  lemma AloneFire(triggers: map<string, BalanceTrigger>, templates: map<string, SequenceTemplate>, next: YieldId,
                  ns: string, l: Local, t: string, balance: u128, l': Local)
    requires AllOwn(l, ns) && t in triggers && triggers[t].sequenceId in templates
    requires !triggers[t].inFlight && triggers[t].runsStarted < triggers[t].maxRuns
    requires ns == AutomationNamespace(t, triggers[t].runsStarted + 1)
    requires balance >= triggers[t].minBalance && balance >= templates[triggers[t].sequenceId].totalDeposit
    requires
      var run := AutomationRun(t, triggers[t].sequenceId, triggers[t].runsStarted + 1, InFlight, None);
      Fire(l, ns, run, templates[triggers[t].sequenceId].calls, next) == Some(l')
    ensures
      var o := Apply(Alone(triggers, templates, next, ns, l), ExecuteTrigger(true, t, balance));
      var trigger := triggers[t];
      var fired := trigger.(runsStarted := trigger.runsStarted + 1, inFlight := true,
                            lastRunNamespace := Some(ns), lastRunOutcome := Some(InFlight));
      o == Some(Outcome(Alone(triggers[t := fired], templates, next + |templates[trigger.sequenceId].calls|, ns, l'), []))
  {
    hide Put, Project, Fire, AutomationNamespace;
    AloneProject(triggers, templates, next, ns, l);
    AlonePut(triggers, templates, next, ns, l, l');
    AloneFields(triggers, templates, next, ns, l');
  }

  lemma AloneFields(triggers: map<string, BalanceTrigger>, templates: map<string, SequenceTemplate>, next: YieldId,
                    ns: string, l: Local)
    ensures forall triggers', next' ::
      Alone(triggers, templates, next, ns, l).(triggers := triggers', nextYield := next')
      == Alone(triggers', templates, next', ns, l)
  {
  }

  /** Two steps registered and the first woken up, beside whatever chains there are. */
  function FiredTwo(l: Local, ns: string, run: AutomationRun, a: Step, b: Step, y: YieldId): Local {
    Local(map[a.stepId := RegisteredStep(y, a), b.stepId := RegisteredStep(y + 1, b)], Some([b.stepId]), l.context, Some(run),
          l.chains[y := Chain(ns, a.stepId, Resumed)][y + 1 := Chain(ns, b.stepId, Yielded)])
  }

  lemma FireTwo(l: Local, ns: string, run: AutomationRun, a: Step, b: Step, y: YieldId)
    requires l.steps == map[] && l.queue == None && l.run == None && a.stepId != b.stepId
    ensures Fire(l, ns, run, [a, b], y) == Some(FiredTwo(l, ns, run, a, b, y))
  {
    var l1 := Register(l, ns, a, y).value;
    var l2 := Register(l1, ns, b, y + 1).value;
    assert [a, b][1..] == [b] && [b][1..] == [];
    assert RegisterAll(l2, ns, [], y + 2) == Some(l2);
    assert RegisterAll(l1, ns, [b], y + 1) == Some(l2);
    var order := [a.stepId, b.stepId];
    assert IdsOf([a, b]) == order && order[1..] == [b.stepId];
    assert order[0] in l2.steps && order[1] in l2.steps;
    var chains := l.chains[y := Chain(ns, a.stepId, Resumed)][y + 1 := Chain(ns, b.stepId, Yielded)];
    assert l2.chains[y := l2.chains[y].(phase := Resumed)] == chains;
    assert StartRelease(l2, order) == Some(l2.(queue := Some([b.stepId]), chains := chains));
  }

  // The steps and names of the schedule: a is called as soon as it is woken up.
  datatype Scene = Scene(t: string, q: string, a: Step, b: Step, balance: u128)

  ghost predicate Playable(c: Scene) {
    && c.t != "" && HashFree(c.t) && c.q != ""
    && ValidateTemplate([c.a, c.b]).Some? && ValidateTemplate([c.a, c.b]).value.totalDeposit <= c.balance
    && !c.a.policy.Asserted? && c.a.preGate.None? && c.a.argsTemplate.None?
  }

  /** Fire, call a, let b time out; then prune, delete and create the trigger again, fire
      it again, and let the old result of a arrive before the new wake-up of a. */
  function StaleEvents(c: Scene): seq<Event> {
    [SaveTemplate(true, c.q, [c.a, c.b]), CreateTrigger(true, c.t, c.q, 0, 1), ExecuteTrigger(true, c.t, c.balance),
     DeliverReceipt(0, Failure), TimeoutYield(1), DeliverReceipt(1, Failure),
     PruneFinishedRuns, DeleteTrigger(true, c.t), CreateTrigger(true, c.t, c.q, 0, 1), ExecuteTrigger(true, c.t, c.balance),
     DeliverReceipt(0, Success("")), DeliverReceipt(2, Failure)]
  }

  function Name(c: Scene): string {
    AutomationNamespace(c.t, 1)
  }

  function Row(c: Scene): AutomationRun {
    AutomationRun(c.t, c.q, 1, InFlight, None)
  }

  function Idle(c: Scene): map<string, BalanceTrigger> {
    map[c.t := BalanceTrigger(c.q, 0, 1, 0, false, None, None)]
  }

  function Busy(c: Scene): map<string, BalanceTrigger> {
    map[c.t := BalanceTrigger(c.q, 0, 1, 1, true, Some(Name(c)), Some(InFlight))]
  }

  function Spent(c: Scene): map<string, BalanceTrigger> {
    map[c.t := BalanceTrigger(c.q, 0, 1, 1, false, Some(Name(c)), Some(ResumeFailed))]
  }

  function Saved(c: Scene): map<string, SequenceTemplate>
    requires ValidateTemplate([c.a, c.b]).Some?
  {
    map[c.q := ValidateTemplate([c.a, c.b]).value]
  }

  /** The old receipt, with its result still to come. */
  function Left(c: Scene): Local {
    Local(map[], None, None, None, map[0 := Chain(Name(c), c.a.stepId, Dispatched(c.a))])
  }

  /** The first run's state once a has been called. */
  function Called(c: Scene): Local {
    Advance(FiredTwo(EmptyNamespace, Name(c), Row(c), c.a, c.b, 0), 0, Dispatched(c.a))
  }

  lemma SceneIds(c: Scene)
    requires Playable(c)
    ensures c.a.stepId != c.b.stepId && ValidateTemplate([c.a, c.b]).value.calls == [c.a, c.b]
  {
    assert [c.a, c.b][0].stepId != [c.a, c.b][1].stepId;
  }

  // What the receipts do to the namespace in the first run.

  lemma FirstCall(c: Scene)
    requires Playable(c)
    ensures
      var l := FiredTwo(EmptyNamespace, Name(c), Row(c), c.a, c.b, 0);
      Deliver(l, 0, Failure) == Reaction(Advance(l, 0, Dispatched(c.a)), [TargetRequest(c.a)])
  {
    hide Name, TargetRequest;
    SceneIds(c);
    var l := FiredTwo(EmptyNamespace, Name(c), Row(c), c.a, c.b, 0);
    assert MaterializeStep(c.a, SavedResults(l)) == Ok(c.a);
  }

  lemma FirstHalt(c: Scene)
    requires Playable(c)
    ensures
      var timedOut := TimeOut(Called(c), 1);
      1 in timedOut.chains && !timedOut.chains[1].phase.Yielded? && Deliver(timedOut, 1, Failure) ==
      Reaction(Left(c).(run := Some(Row(c).(status := ResumeFailed, failedStepId := Some(c.b.stepId)))), [])
  {
    hide Name;
    SceneIds(c);
  }

  /** The same namespace after the second firing. */
  function Refired(c: Scene): Local {
    FiredTwo(Left(c), Name(c), Row(c), c.a, c.b, 2)
  }

  lemma SecondRun(c: Scene)
    requires Playable(c)
    ensures
      var r := Deliver(Refired(c), 0, Success(""));
      && r.sent == [] && r.local.run == Some(Row(c)) && r.local.steps == map[c.b.stepId := RegisteredStep(3, c.b)]
      && r.local.chains == map[2 := Chain(Name(c), c.a.stepId, Resumed), 3 := Chain(Name(c), c.b.stepId, Resumed)]
      && Deliver(r.local, 2, Failure) == Reaction(Drop(r.local, 2), [])
  {
    hide Name;
    SceneIds(c);
    assert CheckedReply(Success("")) == Some("");
    StaleRelease(Refired(c), 0, Success(""), c.a.stepId, c.b.stepId, 3);
  }

  // --- The schedule, world by world ---

  ghost predicate Stage(w: World, triggers: map<string, BalanceTrigger>, templates: map<string, SequenceTemplate>,
                        next: YieldId, ns: string, l: Local)
  {
    w.state == Alone(triggers, templates, next, ns, l)
  }

  lemma StageDeliver(w: World, triggers: map<string, BalanceTrigger>, templates: map<string, SequenceTemplate>, next: YieldId,
                     ns: string, l: Local, y: YieldId, reply: Reply)
    requires Stage(w, triggers, templates, next, ns, l) && AllOwn(l, ns) && y in l.chains && !l.chains[y].phase.Yielded?
    ensures
      var r := Deliver(l, y, reply);
      Stage(Next(w, DeliverReceipt(y, reply)), ReleaseTrigger(triggers, l.run, r.local.run), templates, next, ns, r.local)
    ensures Apply(w.state, DeliverReceipt(y, reply)).Some?
    ensures Apply(w.state, DeliverReceipt(y, reply)).value.sent == Deliver(l, y, reply).sent
  {
    hide Alone, Apply, Deliver, ReleaseTrigger, LogsAfter;
    AloneDeliver(triggers, templates, next, ns, l, y, reply);
  }

  lemma FirstSetUp(worlds: seq<World>, c: Scene)
    requires Playable(c) && Unfolds(worlds, StaleEvents(c), Initial)
    ensures Stage(worlds[2], Idle(c), Saved(c), 0, Name(c), EmptyNamespace)
  {
    hide Alone, ValidateTemplate, HashFree, LogsAfter, AutomationNamespace;
    assert worlds[0 + 1] == Next(worlds[0], StaleEvents(c)[0]);
    assert worlds[1 + 1] == Next(worlds[1], StaleEvents(c)[1]);
    EmptyAlone(Idle(c), Saved(c), 0, Name(c));
  }

  lemma EmptyAlone(triggers: map<string, BalanceTrigger>, templates: map<string, SequenceTemplate>, next: YieldId, ns: string)
    ensures Alone(triggers, templates, next, ns, EmptyNamespace) ==
            State(map[], map[], map[], map[], triggers, templates, map[], next)
  {
    hide Slice, Splice, ChainsOf, SpliceChains, Get, Set;
    var s := State(map[], map[], map[], map[], triggers, templates, map[], next);
    InitialProjects(ns);
    SameProjection(Initial.state, s, ns);
    PutProject(s, ns);
  }

  lemma StageFire(w: World, triggers: map<string, BalanceTrigger>, next: YieldId, l: Local, c: Scene)
    requires Playable(c) && Stage(w, triggers, Saved(c), next, Name(c), l) && AllOwn(l, Name(c)) && triggers == Idle(c)
    requires l.steps == map[] && l.queue == None && l.run == None
    ensures
      Stage(Next(w, ExecuteTrigger(true, c.t, c.balance)), Busy(c), Saved(c), next + 2, Name(c),
            FiredTwo(l, Name(c), Row(c), c.a, c.b, next))
  {
    hide Alone, Apply, ValidateTemplate, HashFree, LogsAfter, AutomationNamespace, FiredTwo, Fire;
    SceneIds(c);
    FireTwo(l, Name(c), Row(c), c.a, c.b, next);
    AloneFire(triggers, Saved(c), next, Name(c), l, c.t, c.balance, FiredTwo(l, Name(c), Row(c), c.a, c.b, next));
    assert Idle(c)[c.t := Busy(c)[c.t]] == Busy(c);
  }

  lemma Releases(c: Scene)
    ensures ReleaseTrigger(Busy(c), Some(Row(c)), Some(Row(c))) == Busy(c)
    ensures Spent(c) ==
            ReleaseTrigger(Busy(c), Some(Row(c)), Some(Row(c).(status := ResumeFailed, failedStepId := Some(c.b.stepId))))
  {
    hide Name;
  }

  lemma FirstCalled(worlds: seq<World>, c: Scene)
    requires Playable(c) && Unfolds(worlds, StaleEvents(c), Initial)
    ensures Stage(worlds[4], Busy(c), Saved(c), 2, Name(c), Called(c))
  {
    hide Stage, Apply, Next, HashFree, ValidateTemplate, ReleaseTrigger, Busy, Saved, Name, AutomationNamespace, Deliver;
    var events, ns := StaleEvents(c), Name(c);
    FirstSetUp(worlds, c);
    StageFire(worlds[2], Idle(c), 0, EmptyNamespace, c);
    assert worlds[2 + 1] == Next(worlds[2], events[2]);
    var l := FiredTwo(EmptyNamespace, ns, Row(c), c.a, c.b, 0);
    FirstCall(c);
    Releases(c);
    assert AllOwn(l, ns) && 0 in l.chains && l.chains[0].phase.Resumed? && l.run == Some(Row(c));
    StageDeliver(worlds[3], Busy(c), Saved(c), 2, ns, l, 0, Failure);
    assert worlds[3 + 1] == Next(worlds[3], events[3]);
  }

  /** The first run: a is called, b times out, the run halts with a's result out. */
  lemma FirstRun(worlds: seq<World>, c: Scene)
    requires Playable(c) && Unfolds(worlds, StaleEvents(c), Initial)
    ensures
      Stage(worlds[6], Spent(c), Saved(c), 2, Name(c),
            Left(c).(run := Some(Row(c).(status := ResumeFailed, failedStepId := Some(c.b.stepId)))))
  {
    hide Stage, Apply, Next, HashFree, ValidateTemplate, ReleaseTrigger, Busy, Spent, Saved, Name, AutomationNamespace,
      Deliver, TimeOut, Called, AllOwn;
    var events, ns := StaleEvents(c), Name(c);
    FirstCalled(worlds, c);
    FirstHalt(c);
    Releases(c);
    CalledParts(c);
    StageTimeOut(worlds[4], Busy(c), Saved(c), 2, ns, Called(c), 1);
    assert worlds[4 + 1] == Next(worlds[4], events[4]);
    StageDeliver(worlds[5], Busy(c), Saved(c), 2, ns, TimeOut(Called(c), 1), 1, Failure);
    assert worlds[5 + 1] == Next(worlds[5], events[5]);
  }

  lemma CalledParts(c: Scene)
    ensures
      var called := Called(c);
      && AllOwn(called, Name(c)) && 1 in called.chains && called.chains[1].phase.Yielded? && called.run == Some(Row(c))
      && AllOwn(TimeOut(called, 1), Name(c)) && TimeOut(called, 1).run == Some(Row(c))
      && 1 in TimeOut(called, 1).chains && TimeOut(called, 1).chains[1].phase.TimedOut?
  {
  }

  lemma StageTimeOut(w: World, triggers: map<string, BalanceTrigger>, templates: map<string, SequenceTemplate>, next: YieldId,
                     ns: string, l: Local, y: YieldId)
    requires Stage(w, triggers, templates, next, ns, l) && AllOwn(l, ns) && y in l.chains && l.chains[y].phase.Yielded?
    ensures Stage(Next(w, TimeoutYield(y)), triggers, templates, next, ns, TimeOut(l, y))
  {
    hide Alone, Apply, TimeOut, LogsAfter;
    AloneTimeOut(triggers, templates, next, ns, l, y);
  }

  lemma StagePrune(w: World, c: Scene, row: AutomationRun)
    requires Playable(c) && row.status != InFlight && Stage(w, Spent(c), Saved(c), 2, Name(c), Left(c).(run := Some(row)))
    ensures Stage(Next(w, PruneFinishedRuns), Spent(c), Saved(c), 2, Name(c), Left(c))
  {
    hide Alone, Apply, LogsAfter, Name, Spent, Saved;
    AlonePrune(Spent(c), Saved(c), 2, Name(c), Left(c).(run := Some(row)));
    assert Left(c).(run := Some(row)).(run := None) == Left(c);
  }

  lemma ApplyDelete(s: State, t: string)
    requires t in s.triggers && !s.triggers[t].inFlight
    ensures Apply(s, DeleteTrigger(true, t)) == Some(Outcome(s.(triggers := s.triggers - {t}), []))
  {
  }

  lemma ApplyCreate(s: State, t: string, q: string)
    requires t != "" && q != "" && t !in s.triggers && q in s.templates
    ensures
      Apply(s, CreateTrigger(true, t, q, 0, 1)) ==
      Some(Outcome(s.(triggers := s.triggers[t := BalanceTrigger(q, 0, 1, 0, false, None, None)]), []))
  {
  }

  lemma StageDelete(w: World, c: Scene)
    requires Playable(c) && Stage(w, Spent(c), Saved(c), 2, Name(c), Left(c))
    ensures Stage(Next(w, DeleteTrigger(true, c.t)), map[], Saved(c), 2, Name(c), Left(c))
  {
    hide Alone, Apply, LogsAfter, Name, Saved, Left, AllOwn;
    LeftParts(c);
    AloneProject(Spent(c), Saved(c), 2, Name(c), Left(c));
    AloneTriggers(Spent(c), map[], Saved(c), 2, Name(c), Left(c));
    assert Spent(c) - {c.t} == map[];
    ApplyDelete(w.state, c.t);
  }

  lemma StageCreate(w: World, c: Scene)
    requires Playable(c) && Stage(w, map[], Saved(c), 2, Name(c), Left(c))
    ensures Stage(Next(w, CreateTrigger(true, c.t, c.q, 0, 1)), Idle(c), Saved(c), 2, Name(c), Left(c))
    ensures !NoReceiptsOf(w.state, c.t)
  {
    hide Alone, Apply, LogsAfter, AutomationNamespace;
    AloneProject(map[], Saved(c), 2, Name(c), Left(c));
    ApplyCreate(w.state, c.t, c.q);
    AloneTriggers(map[], Idle(c), Saved(c), 2, Name(c), Left(c));
    assert w.state.chains[0].ns == AutomationNamespace(c.t, 1);
  }

  /** Pruned, deleted, created again: only the old receipt is left, and the name is free. */
  lemma Recreated(worlds: seq<World>, c: Scene)
    requires Playable(c) && Unfolds(worlds, StaleEvents(c), Initial)
    ensures Stage(worlds[9], Idle(c), Saved(c), 2, Name(c), Left(c))
    ensures !NoReceiptsOf(worlds[8].state, c.t)
  {
    hide Stage, Playable, Next, NoReceiptsOf, Idle, Spent, Left, Name, Saved;
    var events := StaleEvents(c);
    FirstRun(worlds, c);
    StagePrune(worlds[6], c, Row(c).(status := ResumeFailed, failedStepId := Some(c.b.stepId)));
    assert worlds[6 + 1] == Next(worlds[6], events[6]);
    StageDelete(worlds[7], c);
    assert worlds[7 + 1] == Next(worlds[7], events[7]);
    StageCreate(worlds[8], c);
    assert worlds[8 + 1] == Next(worlds[8], events[8]);
  }

  /** The assumption is needed: on this schedule from the initial state, in which every
      event is allowed except the one that creates the trigger again while an old result
      is outstanding, the second run wakes up b without ever having called a, and then
      the wake-up of a comes to nothing. */
  lemma ReuseBreaksRun(c: Scene) returns (worlds: seq<World>)
    requires Playable(c)
    ensures Unfolds(worlds, StaleEvents(c), Initial)
    ensures forall i | 0 <= i < |StaleEvents(c)| :: Allowed(worlds[i], StaleEvents(c)[i]) <==> i != 8
    ensures
      var ns := Name(c);
      var halfway, end := Project(worlds[11].state, ns), Project(worlds[12].state, ns);
      && RunInFlight(halfway) && c.a.stepId !in halfway.steps
      && halfway.chains == map[2 := Chain(ns, c.a.stepId, Resumed), 3 := Chain(ns, c.b.stepId, Resumed)]
      && RunInFlight(end) && end.chains == map[3 := Chain(ns, c.b.stepId, Resumed)]
      && Apply(worlds[10].state, StaleEvents(c)[10]).Some? && Apply(worlds[10].state, StaleEvents(c)[10]).value.sent == []
      && Apply(worlds[11].state, StaleEvents(c)[11]).Some? && Apply(worlds[11].state, StaleEvents(c)[11]).value.sent == []
  {
    hide Apply, Next, ValidateTemplate, HashFree, AutomationNamespace, Deliver, Alone, Project, FiredTwo, NoReceiptsOf;
    var events, ns := StaleEvents(c), Name(c);
    worlds := Unfold(events, Initial);
    SceneIds(c);
    Recreated(worlds, c);
    AllowedBut(worlds, c);
    LeftParts(c);
    StageFire(worlds[9], Idle(c), 2, Left(c), c);
    assert worlds[9 + 1] == Next(worlds[9], events[9]);
    SecondRun(c);
    Releases(c);
    var r := Deliver(Refired(c), 0, Success(""));
    assert AllOwn(r.local, ns) && AllOwn(Drop(r.local, 2), ns);
    StageDeliver(worlds[10], Busy(c), Saved(c), 4, ns, Refired(c), 0, Success(""));
    assert worlds[10 + 1] == Next(worlds[10], events[10]);
    StageDeliver(worlds[11], Busy(c), Saved(c), 4, ns, r.local, 2, Failure);
    assert worlds[11 + 1] == Next(worlds[11], events[11]);
    AloneProject(Busy(c), Saved(c), 4, ns, r.local);
    AloneProject(Busy(c), Saved(c), 4, ns, Drop(r.local, 2));
    assert Project(worlds[11].state, ns) == r.local;
    assert Project(worlds[12].state, ns) == Drop(r.local, 2);
    assert Drop(r.local, 2).chains == map[3 := Chain(ns, c.b.stepId, Resumed)];
  }

  lemma LeftParts(c: Scene)
    ensures AllOwn(Left(c), Name(c)) && AllOwn(Refired(c), Name(c))
    ensures 0 in Refired(c).chains && Refired(c).chains[0].phase.Dispatched? && Refired(c).run == Some(Row(c))
  {
  }

  lemma AllowedBut(worlds: seq<World>, c: Scene)
    requires Playable(c) && Unfolds(worlds, StaleEvents(c), Initial) && !NoReceiptsOf(worlds[8].state, c.t)
    ensures forall i | 0 <= i < |StaleEvents(c)| :: Allowed(worlds[i], StaleEvents(c)[i]) <==> i != 8
  {
    hide Next, ValidateTemplate, HashFree;
    var events := StaleEvents(c);
    assert worlds[0 + 1] == Next(worlds[0], events[0]);
    NoChainsYet(worlds[0], c);
    forall i | 0 <= i < |events|
      ensures Allowed(worlds[i], events[i]) <==> i != 8
    {
    }
  }

  /** Saving a template leaves no receipts. */
  lemma NoChainsYet(w: World, c: Scene)
    requires w == Initial
    ensures NoReceiptsOf(Next(w, SaveTemplate(true, c.q, [c.a, c.b])).state, c.t)
  {
    hide ValidateTemplate, AutomationNamespace;
  }
}

/** Every call ever sent for an automation run, accounted for by a step of its plan:
    whom it goes to, with which method, arguments, deposit and gas. */
module SentCalls {
  import opened Prelude
  import opened Types
  import opened Materialize
  import opened NamespaceKeys
  import opened Sequencer
  import opened RunInvariant
  import opened RunShapes
  import opened RunProofs
  import opened Account
  import opened Protocol
  import opened ProtocolSteps
  import opened Theorems
  import opened Completion
  import opened Decisions

  // --- The calls a chain stands for are those of its own step ---

  /** Chain y belongs to the step it was created for, and expects what that declares. */
  ghost predicate OfPlan(chain: Chain, plan: seq<Step>, base: YieldId, y: YieldId) {
    && base <= y < base + |plan| && chain.stepId == plan[y - base].stepId
    && (chain.phase.Dispatched? ==> chain.phase.call == plan[y - base].(args := chain.phase.call.args))
    && (chain.phase.Postchecking? ==>
          plan[y - base].policy.Asserted? && chain.phase.expectedReturn == plan[y - base].policy.expectedReturn)
  }

  ghost predicate AllOfPlan(l: Local, log: Log) {
    forall y | y in l.chains :: OfPlan(l.chains[y], log.plan, log.base, y)
  }

  /** Chains only disappear or wake up, but for the one that moves. */
  predicate Onward(l: Local, l': Local, y: YieldId) {
    forall z | z in l'.chains ::
      z in l.chains && l'.chains[z].stepId == l.chains[z].stepId
      && (l'.chains[z].phase == l.chains[z].phase || l'.chains[z].phase.Resumed? || z == y)
  }

  lemma ProgressOnward(l: Local, l1: Local, y: YieldId)
    requires Onward(l, l1, y)
    ensures Onward(l, Progress(l1), y)
  {
  }

  lemma ResolvedOnward(l: Local, y: YieldId, reply: Reply)
    requires y in l.chains
    ensures Onward(l, OnStepResolved(l, y, reply), y)
  {
    hide Progress;
    var id := l.chains[y].stepId;
    var spec := if id in l.steps then l.steps[id].call.saveResult else None;
    if CheckedReply(reply).Some? {
      ProgressOnward(l, SaveStepResult(Drop(l, y).(steps := l.steps - {id}), spec, CheckedReply(reply).value), y);
    }
  }

  lemma DeliverOnward(l: Local, y: YieldId, reply: Reply)
    requires y in l.chains && !l.chains[y].phase.Yielded?
    ensures Onward(l, Deliver(l, y, reply).local, y)
  {
    hide OnStepResolved, MaterializeStep, GatePasses, PostcheckOutcome, TargetRequest;
    forall outcome: Reply {
      ResolvedOnward(l, y, outcome);
    }
  }

  /** The chain that moves still stands for its step. */
  lemma MovedOfPlan(l: Local, log: Log, y: YieldId, reply: Reply)
    requires y in l.chains && !l.chains[y].phase.Yielded? && OfPlan(l.chains[y], log.plan, log.base, y)
    requires l.chains[y].stepId in l.steps ==> l.steps[l.chains[y].stepId].call == log.plan[y - log.base]
    ensures
      var l' := Deliver(l, y, reply).local;
      y in l'.chains ==> OfPlan(l'.chains[y], log.plan, log.base, y)
  {
    hide Deliver, Admits, Readable, CallsTarget, AsksGate, AsksCheck, Filled;
    match l.chains[y].phase
    case Resumed => WakeUpDecides(l, y, reply);
    case TimedOut => WakeUpDecides(l, y, reply);
    case Gating => GateReplyDecides(l, y, reply);
    case Dispatched(call) =>
      if call.policy.Asserted? {
        AssertedReplyDecides(l, y, reply);
      } else {
        LastReceiptGone(l, y, reply);
      }
    case Postchecking(_) => CheckReplyDecides(l, y, reply);
    case Resolving(_) => LastReceiptGone(l, y, reply);
  }

  lemma LastReceiptGone(l: Local, y: YieldId, reply: Reply)
    requires y in l.chains && Verdict(l.chains[y].phase, reply).Some?
    ensures y !in Deliver(l, y, reply).local.chains
  {
  }

  // --- Every call sent is explained ---

  /** The call is one step k of the plan makes: of its gate, of its postcheck, or of its
      target, with arguments made from exactly what the steps before it saved. */
  ghost predicate MadeBy(r: Request, plan: seq<Step>, results: seq<Bytes>, k: nat)
    requires k < |plan|
  {
    || AsksGate(r, plan[k])
    || AsksCheck(r, plan[k])
    || (k <= |results| && Filled(plan[k], SavedBy(plan, results[..k])).Some?
        && CallsTarget(r, plan[k], Filled(plan[k], SavedBy(plan, results[..k])).value))
  }

  ghost predicate Explained(r: Request, plan: seq<Step>, results: seq<Bytes>) {
    exists k: nat :: k < |plan| && MadeBy(r, plan, results, k)
  }

  ghost predicate AllExplained(log: Log) {
    forall i | 0 <= i < |log.requests| :: Explained(log.requests[i], log.plan, log.results)
  }

  lemma MadeByGrows(r: Request, plan: seq<Step>, results: seq<Bytes>, results': seq<Bytes>, k: nat)
    requires k < |plan| && results <= results' && MadeBy(r, plan, results, k)
    ensures MadeBy(r, plan, results', k)
  {
    hide SavedBy, Filled, CallsTarget, AsksGate, AsksCheck;
    if k <= |results| {
      assert results'[..k] == results[..k];
    }
  }

  lemma ExplainedGrows(r: Request, plan: seq<Step>, results: seq<Bytes>, results': seq<Bytes>)
    requires results <= results' && Explained(r, plan, results)
    ensures Explained(r, plan, results')
  {
    hide MadeBy;
    var k: nat :| k < |plan| && MadeBy(r, plan, results, k);
    MadeByGrows(r, plan, results, results', k);
  }

  /** What a chain sends is made by its own step. */
  lemma SentByOwn(l: Local, log: Log, y: YieldId, reply: Reply, i: nat)
    requires y in l.chains && !l.chains[y].phase.Yielded? && OfPlan(l.chains[y], log.plan, log.base, y)
    requires l.chains[y].stepId in l.steps ==>
               && l.steps[l.chains[y].stepId].call == log.plan[y - log.base]
               && (!l.chains[y].phase.TimedOut? ==>
                     |log.results| == y - log.base && SavedResults(l) == SavedBy(log.plan, log.results))
    requires i < |Deliver(l, y, reply).sent|
    ensures Explained(Deliver(l, y, reply).sent[i], log.plan, log.results)
  {
    hide Deliver, Admits, GivenUp, Readable, CallsTarget, Filled, SavedBy;
    var k := y - log.base;
    var r := Deliver(l, y, reply).sent[i];
    assert |log.results| == k ==> log.results[..k] == log.results;
    match l.chains[y].phase {
      case Resumed => WakeUpDecides(l, y, reply);
      case TimedOut => WakeUpDecides(l, y, reply);
      case Gating => GateReplyDecides(l, y, reply);
      case Dispatched(call) =>
        if call.policy.Asserted? {
          AssertedReplyDecides(l, y, reply);
        } else {
          LastReplyDecides(l, y, reply);
        }
      case Postchecking(_) => CheckReplyDecides(l, y, reply);
      case Resolving(_) => LastReplyDecides(l, y, reply);
    }
    assert MadeBy(r, log.plan, log.results, k);
  }

  /** In a run's namespace a registered step is the plan's, and the current one is
      about to use what the steps before it saved. */
  lemma RegisteredIsPlan(l: Local, log: Log, ns: string, y: YieldId)
    requires RunInv(l, log, ns) && y in l.chains && l.chains[y].stepId in l.steps
    ensures log.base <= y < log.base + |log.plan| && l.steps[l.chains[y].stepId].call == log.plan[y - log.base]
    ensures Active(l.chains[y].phase) ==>
              |log.results| == y - log.base && SavedResults(l) == SavedBy(log.plan, log.results)
  {
    hide Follows, Prefix, SavedBy, SavedResults, OutcomeExplained, NoneTimedOut;
    var k := Position(l, log.plan);
    StepsFromAt(log.plan, log.base, k, y - log.base);
  }

  ghost predicate Accounted(l: Local, log: Log) {
    AllOfPlan(l, log) && AllExplained(log)
  }

  lemma DeliverAccounted(l: Local, log: Log, ns: string, y: YieldId, reply: Reply)
    requires RunInv(l, log, ns) && y in l.chains && !l.chains[y].phase.Yielded? && Accounted(l, log)
    ensures
      var r := Deliver(l, y, reply);
      Accounted(r.local, LogDelivery(log, l.chains[y].phase, reply, r.sent))
  {
    hide RunInv, Deliver, OfPlan, Explained, SavedBy;
    var r := Deliver(l, y, reply);
    var log' := LogDelivery(log, l.chains[y].phase, reply, r.sent);
    assert OfPlan(l.chains[y], log.plan, log.base, y);
    if l.chains[y].stepId in l.steps {
      RegisteredIsPlan(l, log, ns, y);
    }
    DeliverOnward(l, y, reply);
    MovedOfPlan(l, log, y, reply);
    forall z | z in r.local.chains
      ensures OfPlan(r.local.chains[z], log.plan, log.base, z)
    {
      assert OfPlan(l.chains[z], log.plan, log.base, z);
      if z != y {
        OfPlanIgnores(l.chains[z], r.local.chains[z], log.plan, log.base, z);
      }
    }
    forall i | 0 <= i < |log'.requests|
      ensures Explained(log'.requests[i], log.plan, log'.results)
    {
      if i < |log.requests| {
        assert Explained(log.requests[i], log.plan, log.results);
      } else {
        SentByOwn(l, log, y, reply, i - |log.requests|);
      }
      ExplainedGrows(log'.requests[i], log.plan, log.results, log'.results);
    }
  }

  lemma OfPlanIgnores(chain: Chain, chain': Chain, plan: seq<Step>, base: YieldId, y: YieldId)
    requires OfPlan(chain, plan, base, y) && chain'.stepId == chain.stepId
    requires chain'.phase == chain.phase || chain'.phase.Resumed? || chain'.phase.TimedOut?
    ensures OfPlan(chain', plan, base, y)
  {
  }

  lemma TimeOutAccounted(l: Local, log: Log, y: YieldId)
    requires y in l.chains && Accounted(l, log)
    ensures Accounted(TimeOut(l, y), log.(timedOut := true))
  {
    hide OfPlan, Explained;
    forall z | z in l.chains
      ensures OfPlan(TimeOut(l, y).chains[z], log.plan, log.base, z)
    {
      assert OfPlan(l.chains[z], log.plan, log.base, z);
      OfPlanIgnores(l.chains[z], TimeOut(l, y).chains[z], log.plan, log.base, z);
    }
  }

  lemma FiredAccounted(l: Local, ns: string, run: AutomationRun, plan: seq<Step>, base: YieldId, balance: nat)
    requires plan != []
    ensures Accounted(Fired(l, ns, run, plan, base), Log(plan, base, [], [], [], false, balance))
  {
    hide StepsFrom;
    forall y: YieldId {
      NewChainsAt(plan, base, ns, 0, y);
    }
  }

  lemma PrunedAccounted(l: Local, log: Log)
    requires Accounted(l, log)
    ensures Accounted(l.(run := None), log)
  {
  }

  // --- Over every schedule ---

  ghost predicate AccountedAt(w: World, ns: string) {
    ns in w.logs ==> Accounted(Project(w.state, ns), w.logs[ns])
  }

  lemma NoNewLog(w: World, e: Event, ns: string)
    requires ns !in w.logs && (Apply(w.state, e).None? || Touched(w.state, e) != Some(ns))
    ensures ns !in Next(w, e).logs
  {
    hide Apply, LogDelivery, AutomationNamespace;
  }

  lemma FiredInto(w: World, e: Event, ns: string)
    requires Sound(w) && Fires(w, e, ns)
    ensures ns in Next(w, e).logs
    ensures
      var l', log := LocalAfter(w.state, Project(w.state, ns), ns, e), Next(w, e).logs[ns];
      && log == Log(log.plan, w.state.nextYield, [], [], [], false, log.funded) && log.plan != []
      && log.plan == w.state.templates[w.state.triggers[e.triggerId].sequenceId].calls
      && exists run :: l' == Some(Fired(Project(w.state, ns), ns, run, log.plan, log.base))
  {
    hide HashFree, IsAutomation, AutomationNamespace, AllLinked, RunsSound, ChainsSound, TriggersAgree,
      FreshNamespaces, Fire, Quiet, Put, Project, Fired;
    var s, t := w.state, e.triggerId;
    TriggerSound(s, t);
    var trigger, plan := s.triggers[t], s.templates[s.triggers[t].sequenceId].calls;
    var run := AutomationRun(t, trigger.sequenceId, trigger.runsStarted + 1, InFlight, None);
    AutomationIsAutomation(t, trigger.runsStarted + 1);
    FiringNamespaceFree(s, t);
    FireNeedsNoRow(s, ns, run, plan);
    QuietNamespace(w, ns);
    FireExact(Project(s, ns), ns, run, plan, s.nextYield);
  }

  lemma TouchedLogs(w: World, e: Event, ns: string)
    requires ns in w.logs && Touched(w.state, e) == Some(ns) && Apply(w.state, e).Some?
    requires e.TimeoutYield? || e.DeliverReceipt?
    ensures ns in Next(w, e).logs && e.y in Project(w.state, ns).chains
    ensures e.TimeoutYield? ==> Next(w, e).logs[ns] == w.logs[ns].(timedOut := true)
    ensures e.DeliverReceipt? ==>
              var chain := Project(w.state, ns).chains[e.y];
              && !chain.phase.Yielded?
              && Next(w, e).logs[ns] ==
                 LogDelivery(w.logs[ns], chain.phase, e.reply, Deliver(Project(w.state, ns), e.y, e.reply).sent)
  {
    hide Project, Deliver, TimeOut, Put, ReleaseTrigger, LogDelivery;
    ProjectedRun(w.state, ns);
  }

  lemma AccountedStep(w: World, e: Event, ns: string)
    requires Sound(w) && Allowed(w, e) && IsAutomation(ns) && HashFree(ns) && AccountedAt(w, ns)
    ensures AccountedAt(Next(w, e), ns)
  {
    hide Invariant, FreshNamespaces, HashFree, IsAutomation, Allowed, Apply, Next, Project, Touched, Accounted, RunInv,
      Fired, Deliver;
    var s, l := w.state, Project(w.state, ns);
    NextProjects(w, e, ns);
    if Apply(s, e).Some? && Touched(s, e) == Some(ns) {
      TouchesAutomation(s, e, ns);
      if e.ExecuteTrigger? {
        FiredInto(w, e, ns);
        var log := Next(w, e).logs[ns];
        var run :| LocalAfter(s, l, ns, e) == Some(Fired(l, ns, run, log.plan, log.base));
        FiredAccounted(l, ns, run, log.plan, log.base, log.funded);
      } else {
        TouchedKnown(w, e, ns);
        TouchedLogs(w, e, ns);
        TrackedRun(w, ns);
        match e
        case TimeoutYield(y) => TimeOutAccounted(l, w.logs[ns], y);
        case DeliverReceipt(y, reply) => DeliverAccounted(l, w.logs[ns], ns, y, reply);
      }
    } else if ns in w.logs {
      NextLogs(w, e, ns);
      PrunedAccounted(l, w.logs[ns]);
    } else {
      NoNewLog(w, e, ns);
    }
  }

  lemma TouchedKnown(w: World, e: Event, ns: string)
    requires Sound(w) && IsAutomation(ns) && HashFree(ns) && Touched(w.state, e) == Some(ns)
    requires e.TimeoutYield? || e.DeliverReceipt?
    ensures ns in w.logs
  {
    hide HashFree, IsAutomation, RunInv, Project, AllLinked, TriggersAgree, TemplatesSound, LogsFunded, FreshNamespaces;
    ProjectedRun(w.state, ns);
    KnownNamespace(w, ns, e.y);
  }

  lemma {:induction false} AlwaysAccounted(worlds: seq<World>, events: seq<Event>, ns: string, i: nat)
    requires Schedule(worlds, events) && IsAutomation(ns) && HashFree(ns) && i <= |events|
    ensures AccountedAt(worlds[i], ns)
  {
    hide Sound, HashFree, IsAutomation, Allowed, Next, Project, Accounted;
    if i == 0 {
      assert worlds[0] == Initial;
    } else {
      AlwaysAccounted(worlds, events, ns, i - 1);
      ScheduleSound(worlds, events, i - 1);
      assert worlds[i - 1 + 1] == Next(worlds[i - 1], events[i - 1]);
      AccountedStep(worlds[i - 1], events[i - 1], ns);
    }
  }

  lemma ReachableAccounted(w: World, ns: string)
    requires Reachable(w) && Tracked(w, ns)
    ensures Accounted(Project(w.state, ns), w.logs[ns])
  {
    hide HashFree, IsAutomation, Allowed, Next, Project, Accounted;
    var worlds, events :| Schedule(worlds, events) && worlds[|events|] == w;
    AlwaysAccounted(worlds, events, ns, |events|);
  }

  /** In every reachable world every call a run has ever sent belongs to a step of its
      plan, and goes where that step says: the gate call to the gate, the postcheck to the
      assertion's contract, and the target call to the target or to the adapter, with the
      step's whole deposit and its own arguments, filled in from what the steps before it
      returned. */
  lemma EveryCallIsExplained(w: World, ns: string, i: nat)
    requires Reachable(w) && Tracked(w, ns) && i < |w.logs[ns].requests|
    ensures
      var log := w.logs[ns];
      exists k: nat :: k < |log.plan| && MadeBy(log.requests[i], log.plan, log.results, k)
  {
    hide Reachable, Tracked, MadeBy, Project, AllOfPlan;
    InLogs(w, ns);
    ReachableAccounted(w, ns);
    assert Explained(w.logs[ns].requests[i], w.logs[ns].plan, w.logs[ns].results);
  }

  /** The call that reaches the target in the end. */
  datatype Arrival = Arrival(receiver: string, methodName: string, args: Bytes, deposit: nat, gas: nat)

  /** A plain call arrives itself; an adapter makes the call it was handed. */
  function Arrives(r: Request): Arrival
    requires r.TargetCall?
  {
    match r.payload
    case Plain(args) => Arrival(r.receiver, r.methodName, args, r.deposit, r.gas)
    case Wrapped(targetId, methodName, args, deposit, gas) => Arrival(targetId, methodName, args, deposit, gas)
  }

  /** Under all three policies the target is meant to see the same call: the step's. */
  lemma SameArrival(w: World, ns: string, i: nat)
    requires Reachable(w) && Tracked(w, ns) && i < |w.logs[ns].requests| && w.logs[ns].requests[i].TargetCall?
    ensures
      var r, log := w.logs[ns].requests[i], w.logs[ns];
      exists k: nat ::
        && k < |log.plan| && k <= |log.results|
        && var step, args := log.plan[k], Filled(log.plan[k], SavedBy(log.plan, log.results[..k]));
           args.Some? && Arrives(r) == Arrival(step.targetId, step.methodName, args.value, step.deposit, step.gas)
  {
    hide Reachable, Tracked, SavedBy, Filled;
    InLogs(w, ns);
    EveryCallIsExplained(w, ns, i);
    var r, log := w.logs[ns].requests[i], w.logs[ns];
    var k: nat :| k < |log.plan| && MadeBy(r, log.plan, log.results, k);
  }
}

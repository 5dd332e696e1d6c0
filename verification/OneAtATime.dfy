/** One step at a time: exactly when a namespace never has two steps on their way at
    once, and that a step is then released only by the success of the step before it. */
module OneAtATime {
  import opened Prelude
  import opened Types
  import opened Materialize
  import opened NamespaceKeys
  import opened Sequencer
  import opened RunInvariant
  import opened Account
  import opened Protocol
  import opened ProtocolSteps
  import opened Theorems
  import opened Completion

  /** At most one chain is past its yield. */
  ghost predicate OneActive(chains: map<YieldId, Chain>) {
    forall y, z | y in chains && z in chains && Active(chains[y].phase) && Active(chains[z].phase) :: y == z
  }

  predicate StartsRelease(e: Event) {
    e.ExecuteTrigger? || e.ExecuteSteps? || e.RunSequence?
  }

  // --- Which chains are active after a move of the namespace ---

  ghost predicate SameActive(chains: map<YieldId, Chain>, chains': map<YieldId, Chain>) {
    && (forall y | y in chains && Active(chains[y].phase) :: y in chains' && Active(chains'[y].phase))
    && (forall y | y in chains' && Active(chains'[y].phase) :: y in chains && Active(chains[y].phase))
  }

  /** Exactly one more chain is active. */
  ghost predicate OneMore(chains: map<YieldId, Chain>, chains': map<YieldId, Chain>, z: YieldId) {
    && z in chains' && Active(chains'[z].phase) && (z in chains ==> !Active(chains[z].phase))
    && (forall y | y in chains && Active(chains[y].phase) :: y in chains' && Active(chains'[y].phase))
    && (forall y | y in chains' && Active(chains'[y].phase) :: y == z || (y in chains && Active(chains[y].phase)))
  }

  lemma {:induction false} RegisterAllActive(l: Local, ns: string, calls: seq<Step>, y: YieldId)
    requires (forall z | z in l.chains :: z < y) && RegisterAll(l, ns, calls, y).Some?
    ensures SameActive(l.chains, RegisterAll(l, ns, calls, y).value.chains)
    decreases |calls|
  {
    if calls != [] {
      RegisterAllActive(Register(l, ns, calls[0], y).value, ns, calls[1..], y + 1);
    }
  }

  lemma ResumeActive(l: Local, stepId: string) returns (z: YieldId)
    requires ResumeStep(l, stepId).Some?
    ensures z in l.chains && l.chains[z].phase.Yielded? && l.steps[stepId].yieldId == z
    ensures OneMore(l.chains, ResumeStep(l, stepId).value.chains, z)
  {
    z := l.steps[stepId].yieldId;
  }

  lemma StartActive(l: Local, order: seq<string>) returns (z: YieldId)
    requires StartRelease(l, order).Some?
    ensures OneMore(l.chains, StartRelease(l, order).value.chains, z)
  {
    z := ResumeActive(l.(queue := if |order| > 1 then Some(order[1..]) else None), order[0]);
  }

  lemma PlanActive(l: Local, ns: string, calls: seq<Step>, y: YieldId) returns (z: YieldId)
    requires (forall z | z in l.chains :: z < y) && ReleasePlan(l, ns, calls, y).Some?
    ensures OneMore(l.chains, ReleasePlan(l, ns, calls, y).value.chains, z)
  {
    hide RegisterAll, StartRelease;
    RegisterAllActive(l, ns, calls, y);
    z := StartActive(RegisterAll(l, ns, calls, y).value, IdsOf(calls));
  }

  lemma OneMoreIff(chains: map<YieldId, Chain>, chains': map<YieldId, Chain>, z: YieldId)
    requires OneActive(chains) && OneMore(chains, chains', z)
    ensures OneActive(chains') <==> NoneActive(chains)
  {
  }

  /** Once the only active chain is gone, waking the next step leaves one. */
  lemma ProgressActive(l: Local)
    requires NoneActive(l.chains)
    ensures OneActive(Progress(l).chains)
  {
    var (l1, next) := TakeNextQueuedStep(l);
    if next.Some? && ResumeStep(l1, next.value).Some? {
      var z := ResumeActive(l1, next.value);
    }
  }

  /** A receipt never leaves more than one active chain behind. */
  lemma DeliverActive(l: Local, y: YieldId, reply: Reply)
    requires OneActive(l.chains) && y in l.chains && !l.chains[y].phase.Yielded?
    ensures OneActive(Deliver(l, y, reply).local.chains)
  {
    hide MaterializeStep, GatePasses, Progress;
    var phase := l.chains[y].phase;
    if phase.Resolving? {
      ResolvedActive(l, y, phase.outcome);
    } else if phase.Dispatched? && !phase.call.policy.Asserted? {
      ResolvedActive(l, y, reply);
    }
  }

  lemma ResolvedActive(l: Local, y: YieldId, reply: Reply)
    requires OneActive(l.chains) && y in l.chains && Active(l.chains[y].phase)
    ensures OneActive(OnStepResolved(l, y, reply).chains)
  {
    hide Progress;
    var stepId := l.chains[y].stepId;
    var spec := if stepId in l.steps then l.steps[stepId].call.saveResult else None;
    var l1 := Drop(l, y).(steps := l.steps - {stepId});
    if CheckedReply(reply).Some? {
      ProgressActive(SaveStepResult(l1, spec, CheckedReply(reply).value));
    }
  }

  /** One event of a namespace: it keeps one step at a time unless it starts a release
      while another step is on its way. */
  lemma LocalOneIff(s: State, l: Local, ns: string, e: Event)
    requires OneActive(l.chains) && (forall y | y in l.chains :: y < s.nextYield) && LocalAfter(s, l, ns, e).Some?
    ensures OneActive(LocalAfter(s, l, ns, e).value.chains) <==> (StartsRelease(e) ==> NoneActive(l.chains))
  {
    hide ReleasePlan, StartRelease, Deliver, OneMore, OneActive, NoneActive;
    var l' := LocalAfter(s, l, ns, e).value;
    match e
    case ExecuteTrigger(_, t, _) =>
      var z := PlanActive(l, ns, s.templates[s.triggers[t].sequenceId].calls, s.nextYield);
      OneMoreIff(l.chains, l'.chains, z);
    case ExecuteSteps(_, _, calls) =>
      var z := PlanActive(l, ns, calls, s.nextYield);
      OneMoreIff(l.chains, l'.chains, z);
    case RunSequence(_, _, order) =>
      var z := StartActive(l, order);
      OneMoreIff(l.chains, l'.chains, z);
    case RegisterStep(_, call) => OneActiveRegister(l, ns, call, s.nextYield);
    case TimeoutYield(y) => OneActiveTimeOut(l, y);
    case DeliverReceipt(y, reply) => DeliverActive(l, y, reply);
    case _ =>
  }

  lemma OneActiveRegister(l: Local, ns: string, call: Step, y: YieldId)
    requires OneActive(l.chains) && Register(l, ns, call, y).Some?
    ensures OneActive(Register(l, ns, call, y).value.chains)
  {
  }

  lemma OneActiveTimeOut(l: Local, y: YieldId)
    requires OneActive(l.chains) && y in l.chains
    ensures OneActive(TimeOut(l, y).chains)
  {
  }

  // --- Over schedules ---

  function ChainsIn(w: World, ns: string): map<YieldId, Chain> {
    ChainsOf(w.state.chains, ns)
  }

  /** A release is accepted in the namespace. */
  predicate Releases(w: World, e: Event, ns: string) {
    StartsRelease(e) && Apply(w.state, e).Some? && Touched(w.state, e) == Some(ns)
  }

  lemma ChainsOfProject(w: World, ns: string)
    ensures Project(w.state, ns).chains == ChainsIn(w, ns)
  {
    hide Slice, ChainsOf;
  }

  lemma OneStepIff(w: World, e: Event, ns: string)
    requires Sound(w) && Allowed(w, e) && HashFree(ns) && OneActive(ChainsIn(w, ns))
    ensures OneActive(ChainsIn(Next(w, e), ns)) <==> (Releases(w, e, ns) ==> NoneActive(ChainsIn(w, ns)))
  {
    hide Invariant, FreshNamespaces, HashFree, Allowed, Apply, Next, Project, LocalAfter, OneActive, NoneActive, ChainsIn;
    var l := Project(w.state, ns);
    ChainsOfProject(w, ns);
    ChainsOfProject(Next(w, e), ns);
    NextProjects(w, e, ns);
    if Apply(w.state, e).Some? && Touched(w.state, e) == Some(ns) {
      InvariantParts(w);
      BelowNext(w.state, ns);
      LocalOneIff(w.state, l, ns, e);
    }
  }

  /** Every release accepted in the namespace so far found no step on its way. */
  ghost predicate QuietStarts(worlds: seq<World>, events: seq<Event>, ns: string, n: nat)
    requires n <= |events| <= |worlds|
  {
    forall i | 0 <= i < n :: Releases(worlds[i], events[i], ns) ==> NoneActive(ChainsIn(worlds[i], ns))
  }

  /** A namespace has at most one step on its way at all times if and only if every
      release accepted in it started while none was. */
  lemma {:induction false} OneAtATimeIff(worlds: seq<World>, events: seq<Event>, ns: string, n: nat)
    requires Schedule(worlds, events) && HashFree(ns) && n <= |events|
    ensures (forall i | 0 <= i <= n :: OneActive(ChainsIn(worlds[i], ns))) <==> QuietStarts(worlds, events, ns, n)
  {
    hide Sound, HashFree, Allowed, Next, Releases, ChainsIn, NoneActive, OneActive;
    if n == 0 {
      assert worlds[0] == Initial;
      InitiallyNone(ns);
    } else {
      OneAtATimeIff(worlds, events, ns, n - 1);
      if QuietStarts(worlds, events, ns, n - 1) {
        assert OneActive(ChainsIn(worlds[n - 1], ns));
        ScheduleSound(worlds, events, n - 1);
        OneStepIff(worlds[n - 1], events[n - 1], ns);
        assert worlds[n - 1 + 1] == Next(worlds[n - 1], events[n - 1]);
      } else {
        assert !(forall i | 0 <= i <= n - 1 :: OneActive(ChainsIn(worlds[i], ns)));
      }
    }
  }

  lemma InitiallyNone(ns: string)
    ensures OneActive(ChainsIn(Initial, ns))
  {
  }

  /** Automation namespaces meet the condition by themselves. */
  lemma AutomationOneAtATime(worlds: seq<World>, events: seq<Event>, ns: string, i: nat)
    requires Schedule(worlds, events) && IsAutomation(ns) && HashFree(ns) && i <= |events|
    ensures OneActive(ChainsIn(worlds[i], ns))
  {
    hide Sound, HashFree, Allowed, Next, IsAutomation, OneActive;
    forall m | 0 <= m < i && Releases(worlds[m], events[m], ns)
      ensures NoneActive(ChainsIn(worlds[m], ns))
    {
      ScheduleSound(worlds, events, m);
      FiresIntoNothing(worlds[m], events[m], ns);
    }
    OneAtATimeIff(worlds, events, ns, i);
  }

  lemma FiresIntoNothing(w: World, e: Event, ns: string)
    requires Sound(w) && IsAutomation(ns) && Releases(w, e, ns)
    ensures ChainsIn(w, ns) == map[]
  {
    hide Invariant, FreshNamespaces, HashFree, IsAutomation, Apply, AutomationNamespace;
    TouchesAutomation(w.state, e, ns);
    FiringNamespaceFree(w.state, e.triggerId);
  }
}

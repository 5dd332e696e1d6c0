/** Every allowed event keeps the global invariant. */
module ProtocolSteps {
  import opened Prelude
  import opened Types
  import opened NamespaceKeys
  import opened Sequencer
  import opened Interpreter
  import opened RunInvariant
  import opened RunShapes
  import opened RunProofs
  import opened RunEndings
  import opened Links
  import opened Account
  import opened Protocol

  // --- Triggers and rows ---

  lemma ReactTriggers(s: State, s': State, ns: string, l: Local, l': Local)
    requires TriggersAgree(s) && l.run == Get(s.runs, ns) && RunStaysOrEnds(l, l')
    requires s'.runs == Set(s.runs, ns, l'.run) && s'.templates == s.templates
    requires s'.triggers == ReleaseTrigger(s.triggers, l.run, l'.run)
    ensures TriggersAgree(s')
  {
    hide AutomationNamespace, HashFree, IsAutomation;
    if l'.run == l.run {
      assert s'.runs == s.runs && s'.triggers == s.triggers;
    } else {
      EndedRun(s, s', ns, l.run.value, l'.run.value);
    }
  }

  /** A run that ends frees exactly its own trigger. */
  lemma EndedRun(s: State, s': State, ns: string, run: AutomationRun, run': AutomationRun)
    requires TriggersAgree(s) && Get(s.runs, ns) == Some(run)
    requires run.status == InFlight && run'.status != InFlight && run'.triggerId == run.triggerId
    requires s'.runs == s.runs[ns := run'] && s'.templates == s.templates
    requires s'.triggers == ReleaseTrigger(s.triggers, Some(run), Some(run'))
    ensures TriggersAgree(s')
  {
    hide AutomationNamespace, HashFree, IsAutomation;
    assert RowInFlight(s, ns);
    forall t | t in s'.triggers
      ensures s'.triggers[t].inFlight <==> RowInFlight(s', CurrentNamespace(s', t))
    {
      if CurrentNamespace(s, t) == ns {
        AutomationNamespaceInjective(t, s.triggers[t].runsStarted,
                                     run.triggerId, s.triggers[run.triggerId].runsStarted);
      }
    }
    forall other | RowInFlight(s', other)
      ensures s'.runs[other].triggerId in s'.triggers && other == CurrentNamespace(s', s'.runs[other].triggerId)
    {
      assert RowInFlight(s, other);
    }
  }

  lemma SameTriggers(s: State, s': State)
    requires TriggersAgree(s) && s'.runs == s.runs && s'.triggers == s.triggers
    requires forall id | id in s.templates :: id in s'.templates
    ensures TriggersAgree(s')
  {
    hide AutomationNamespace, HashFree, IsAutomation;
    forall ns | RowInFlight(s', ns)
      ensures ns == CurrentNamespace(s', s'.runs[ns].triggerId)
    {
      assert RowInFlight(s, ns);
    }
  }

  /** What firing makes of a namespace. */
  function FireLocal(s: State, l: Local, ns: string, t: string): Option<Local>
    requires t in s.triggers
  {
    var trigger := s.triggers[t];
    if trigger.sequenceId !in s.templates || trigger.runsStarted >= trigger.maxRuns then None
    else
      Fire(l, ns, AutomationRun(t, trigger.sequenceId, trigger.runsStarted + 1, InFlight, None),
           s.templates[trigger.sequenceId].calls, s.nextYield)
  }

  /** What an event makes of the namespace it works on, if it can happen. */
  function LocalAfter(s: State, l: Local, ns: string, e: Event): Option<Local> {
    match e
    case ExecuteTrigger(_, t, _) => if t in s.triggers then FireLocal(s, l, ns, t) else None
    case RegisterStep(_, call) => Register(l, ns, call, s.nextYield)
    case ExecuteSteps(_, _, calls) => ReleasePlan(l, ns, calls, s.nextYield)
    case RunSequence(_, _, order) => StartRelease(l, order)
    case TimeoutYield(y) => if y in l.chains then Some(TimeOut(l, y)) else None
    case DeliverReceipt(y, reply) =>
      if y in l.chains && !l.chains[y].phase.Yielded? then Some(Deliver(l, y, reply).local) else None
    case _ => None
  }

  /** A successful event changes the namespace it works on and leaves the rest alone. */
  ghost predicate FitsTouched(w: World, e: Event) {
    Apply(w.state, e).Some? && Touched(w.state, e).Some? ==>
      var ns := Touched(w.state, e).value;
      var after := LocalAfter(w.state, Project(w.state, ns), ns, e);
      HashFree(ns) && after.Some? && LocalFits(w.state, Next(w, e).state, ns, after.value)
  }

  // --- Receipts ---

  lemma ProjectedRun(s: State, ns: string)
    ensures Project(s, ns).run == Get(s.runs, ns)
    ensures forall y | y in Project(s, ns).chains ::
              y in s.chains && s.chains[y].ns == ns && Project(s, ns).chains[y] == s.chains[y]
    ensures forall y | y in s.chains && s.chains[y].ns == ns :: y in Project(s, ns).chains
  {
  }

  /** A delivered receipt keeps the run invariant of its namespace. */
  lemma DeliverRunInv(l: Local, log: Log, ns: string, y: YieldId, reply: Reply)
    requires RunInv(l, log, ns) && y in l.chains && !l.chains[y].phase.Yielded?
    ensures
      var r := Deliver(l, y, reply);
      RunInv(r.local, LogDelivery(log, l.chains[y].phase, reply, r.sent), ns)
  {
    hide Deliver, LogDelivery, Follows, Prefix, Wiped, OutcomeExplained;
    if RunInFlight(l) {
      var k := Position(l, log.plan);
      if y == log.base + k {
        DeliverCurrentKeeps(l, log, ns, k, reply);
      } else {
        assert l.chains[y].phase.TimedOut?;
        DeliverTimedOutKeeps(l, log, ns, k, y, reply);
      }
    } else {
      LateReceiptKeeps(l, log, ns, y, reply);
    }
  }

  lemma KnownNamespace(w: World, ns: string, y: YieldId)
    requires RunsSound(w) && IsAutomation(ns) && HashFree(ns) && y in Project(w.state, ns).chains
    ensures ns in w.logs && RunInv(Project(w.state, ns), w.logs[ns], ns)
  {
    hide RunInv, HashFree, IsAutomation, Project;
  }

  lemma LinkedAt(s: State, ns: string)
    requires AllLinked(s) && HashFree(ns)
    ensures Linked(Project(s, ns))
  {
    hide Linked, HashFree, Project;
  }

  /** The state of a namespace after a receipt fits back into the account. */
  lemma DeliverFits(s: State, y: YieldId, reply: Reply)
    requires ChainsSound(s) && AllLinked(s) && y in s.chains && !s.chains[y].phase.Yielded?
    ensures
      var ns := s.chains[y].ns;
      && y in Project(s, ns).chains && Project(s, ns).chains[y] == s.chains[y]
      && LocalFits(s, React(s, ns, Deliver(Project(s, ns), y, reply).local), ns, Deliver(Project(s, ns), y, reply).local)
      && RunStaysOrEnds(Project(s, ns), Deliver(Project(s, ns), y, reply).local)
  {
    hide Deliver, HashFree, Linked, Project, Put, RunStaysOrEnds;
    var ns := s.chains[y].ns;
    LinkedAt(s, ns);
    ProjectedRun(s, ns);
    DeliverKept(Project(s, ns), y, reply);
    PutCounts(s, ns, Deliver(Project(s, ns), y, reply).local);
  }

  lemma PutCounts(s: State, ns: string, l: Local)
    ensures Put(s, ns, l).nextYield == s.nextYield && Put(s, ns, l).templates == s.templates
    ensures Put(s, ns, l).triggers == s.triggers && Put(s, ns, l).runs == Set(s.runs, ns, l.run)
  {
  }

  lemma DeliverKeeps(w: World, y: YieldId, reply: Reply)
    requires Invariant(w) && y in w.state.chains && !w.state.chains[y].phase.Yielded?
    ensures Invariant(Next(w, DeliverReceipt(y, reply)))
    ensures FitsTouched(w, DeliverReceipt(y, reply))
  {
    hide Deliver, RunInv, HashFree, IsAutomation, Linked, AllLinked, RunsSound, TriggersAgree, ChainsSound, Put, Project,
      LocalFits, ReleaseTrigger, RunStaysOrEnds;
    var s := w.state;
    var ns := s.chains[y].ns;
    var l := Project(s, ns);
    DeliverFits(s, y, reply);
    ProjectedRun(s, ns);
    var r := Deliver(l, y, reply);
    var w' := Next(w, DeliverReceipt(y, reply));
    assert w'.state == React(s, ns, r.local);
    PutCounts(s, ns, r.local);
    ReactTriggers(s, w'.state, ns, l, r.local);
    ChainsHashFree(s, y);
    if IsAutomation(ns) {
      KnownNamespace(w, ns, y);
      DeliverRunInv(l, w.logs[ns], ns, y, reply);
    }
    LocalKeeps(w, w', ns, r.local);
  }

  lemma ChainsHashFree(s: State, y: YieldId)
    requires ChainsSound(s) && y in s.chains
    ensures HashFree(s.chains[y].ns)
  {
    hide HashFree;
  }

  // --- Timeouts ---

  lemma TimeOutKeeps(w: World, y: YieldId)
    requires Invariant(w) && y in w.state.chains && w.state.chains[y].phase.Yielded?
    ensures Invariant(Next(w, TimeoutYield(y)))
    ensures FitsTouched(w, TimeoutYield(y))
  {
    hide TimeOut, RunInv, HashFree, IsAutomation, Linked, AllLinked, RunsSound, TriggersAgree, ChainsSound, Put, Project,
      LocalFits, RunStaysOrEnds;
    var s := w.state;
    var ns := s.chains[y].ns;
    var l := Project(s, ns);
    TimeOutFits(s, y);
    ProjectedRun(s, ns);
    var w' := Next(w, TimeoutYield(y));
    PutCounts(s, ns, TimeOut(l, y));
    SetAfterSet(s.runs, ns, None, None);
    SameTriggers(s, w'.state);
    ChainsHashFree(s, y);
    if IsAutomation(ns) {
      KnownNamespace(w, ns, y);
      TimeOutRunInv(l, w.logs[ns], ns, y);
    }
    LocalKeeps(w, w', ns, TimeOut(l, y));
  }

  lemma TimeOutFits(s: State, y: YieldId)
    requires ChainsSound(s) && AllLinked(s) && y in s.chains
    ensures
      var ns := s.chains[y].ns;
      && y in Project(s, ns).chains
      && LocalFits(s, Put(s, ns, TimeOut(Project(s, ns), y)), ns, TimeOut(Project(s, ns), y))
      && TimeOut(Project(s, ns), y).run == Project(s, ns).run
  {
    hide HashFree, Linked, Project, Put;
    var ns := s.chains[y].ns;
    LinkedAt(s, ns);
    ProjectedRun(s, ns);
    TimeOutKept(Project(s, ns), y);
    PutCounts(s, ns, TimeOut(Project(s, ns), y));
  }

  lemma TimeOutRunInv(l: Local, log: Log, ns: string, y: YieldId)
    requires RunInv(l, log, ns) && y in l.chains
    ensures RunInv(TimeOut(l, y), log.(timedOut := true), ns)
  {
    hide TimeOut, Follows, Prefix;
    if RunInFlight(l) {
      TimeOutFlightKeeps(l, log, ns, Position(l, log.plan), y);
    } else {
      TimeOutWipedKeeps(l, log, ns, y);
    }
  }

  // --- Manual namespaces ---

  /** A manual entry point changes its own namespace and the yield counter. */
  lemma ManualKeeps(w: World, s': State, ns: string, l': Local, count: nat)
    requires Invariant(w) && HashFree(ns) && !IsAutomation(ns)
    requires Grown(Project(w.state, ns), l', ns, w.state.nextYield, count)
    requires s' == Put(w.state, ns, l').(nextYield := w.state.nextYield + count)
    ensures Invariant(World(s', w.logs)) && LocalFits(w.state, s', ns, l')
  {
    hide RunInv, HashFree, IsAutomation, Linked, AllLinked, RunsSound, TriggersAgree, Put, Project;
    var s := w.state;
    ProjectedRun(s, ns);
    PutCounts(s, ns, l');
    SetAfterSet(s.runs, ns, None, None);
    SameTriggers(s, s');
    ManualFits(s, s', ns, l', count);
    LocalKeeps(w, World(s', w.logs), ns, l');
  }

  lemma ManualFits(s: State, s': State, ns: string, l': Local, count: nat)
    requires ChainsSound(s)
    requires Grown(Project(s, ns), l', ns, s.nextYield, count)
    requires s' == Put(s, ns, l').(nextYield := s.nextYield + count)
    ensures LocalFits(s, s', ns, l')
  {
    hide HashFree, Linked, Put, Project;
    ProjectedRun(s, ns);
    PutCounts(s, ns, l');
    assert s' == Put(s, ns, l').(triggers := s'.triggers, nextYield := s'.nextYield);
  }

  lemma ManualName(caller: string)
    requires HashFree(caller)
    ensures HashFree(ManualNamespace(caller)) && !IsAutomation(ManualNamespace(caller))
  {
    ManualIsNotAutomation(caller);
  }

  lemma BelowNext(s: State, ns: string)
    requires ChainsSound(s)
    ensures forall z | z in Project(s, ns).chains :: z < s.nextYield
  {
    ProjectedRun(s, ns);
  }

  lemma RegisterStepKeeps(w: World, caller: string, call: Step)
    requires Invariant(w) && HashFree(caller)
    ensures Invariant(Next(w, RegisterStep(caller, call)))
    ensures FitsTouched(w, RegisterStep(caller, call))
  {
    hide Invariant, HashFree, Put, Project, Register;
    if RegisterStepOutcome(w.state, caller, call).Some? {
      var s, ns := w.state, ManualNamespace(caller);
      InvariantParts(w);
      ManualName(caller);
      LinkedAt(s, ns);
      BelowNext(s, ns);
      RegisterGrown(Project(s, ns), ns, call, s.nextYield);
      var l' := Register(Project(s, ns), ns, call, s.nextYield).value;
      ManualKeeps(w, Put(s, ns, l').(nextYield := s.nextYield + 1), ns, l', 1);
    }
  }

  lemma InvariantParts(w: World)
    requires Invariant(w)
    ensures ChainsSound(w.state) && AllLinked(w.state) && RunsSound(w) && TriggersAgree(w.state)
    ensures TemplatesSound(w.state) && LogsFunded(w)
  {
    hide ChainsSound, AllLinked, RunsSound, TriggersAgree, TemplatesSound, LogsFunded;
  }

  lemma ExecuteStepsKeeps(w: World, authorized: bool, caller: string, calls: seq<Step>)
    requires Invariant(w) && HashFree(caller)
    ensures Invariant(Next(w, ExecuteSteps(authorized, caller, calls)))
    ensures FitsTouched(w, ExecuteSteps(authorized, caller, calls))
  {
    hide Invariant, HashFree, Put, Project, ReleasePlan, ChainsSound, AllLinked, RunsSound, TriggersAgree;
    if ExecuteStepsOutcome(w.state, authorized, caller, calls).Some? {
      var s, ns := w.state, ManualNamespace(caller);
      InvariantParts(w);
      ManualName(caller);
      LinkedAt(s, ns);
      BelowNext(s, ns);
      ReleasePlanGrown(Project(s, ns), ns, calls, s.nextYield);
      var l' := ReleasePlan(Project(s, ns), ns, calls, s.nextYield).value;
      ManualKeeps(w, Put(s, ns, l').(nextYield := s.nextYield + |calls|), ns, l', |calls|);
    }
  }

  lemma RunSequenceKeeps(w: World, authorized: bool, caller: string, order: seq<string>)
    requires Invariant(w) && HashFree(caller)
    ensures Invariant(Next(w, RunSequence(authorized, caller, order)))
    ensures FitsTouched(w, RunSequence(authorized, caller, order))
  {
    hide Invariant, HashFree, Put, Project, StartRelease, ChainsSound, AllLinked, RunsSound, TriggersAgree;
    if RunSequenceOutcome(w.state, authorized, caller, order).Some? {
      var s, ns := w.state, ManualNamespace(caller);
      InvariantParts(w);
      ManualName(caller);
      LinkedAt(s, ns);
      StartKept(Project(s, ns), order);
      var l' := StartRelease(Project(s, ns), order).value;
      PutCounts(s, ns, l');
      assert Put(s, ns, l') == Put(s, ns, l').(nextYield := s.nextYield + 0);
      ManualKeeps(w, Put(s, ns, l'), ns, l', 0);
    }
  }

  // --- Firing a trigger ---

  /** A namespace without outstanding receipts and without a run row is empty. */
  lemma QuietNamespace(w: World, ns: string)
    requires RunsSound(w) && IsAutomation(ns) && HashFree(ns)
    requires ChainsOf(w.state.chains, ns) == map[] && Project(w.state, ns).run == None
    ensures Quiet(Project(w.state, ns)) && Project(w.state, ns).context == None
  {
    hide HashFree, IsAutomation, Prefix;
    assert Project(w.state, ns).chains == map[];
  }

  lemma FiredFits(s: State, s': State, ns: string, run: AutomationRun, calls: seq<Step>)
    requires ChainsSound(s) && Quiet(Project(s, ns)) && calls != [] && DistinctIds(calls)
    requires Fire(Project(s, ns), ns, run, calls, s.nextYield) == Some(Fired(Project(s, ns), ns, run, calls, s.nextYield))
    requires s' == Put(s, ns, Fired(Project(s, ns), ns, run, calls, s.nextYield))
                   .(triggers := s'.triggers, nextYield := s.nextYield + |calls|)
    ensures LocalFits(s, s', ns, Fired(Project(s, ns), ns, run, calls, s.nextYield))
  {
    hide Put, Project, ReleasePlan, Fired;
    var l := Project(s, ns);
    ReleasePlanGrown(l, ns, calls, s.nextYield);
    var l1 := ReleasePlan(l, ns, calls, s.nextYield).value;
    LinkedIgnoresRun(l1, Some(run));
  }

  lemma LinkedIgnoresRun(l: Local, run: Option<AutomationRun>)
    requires Linked(l)
    ensures Linked(l.(run := run))
  {
  }

  lemma FireTriggers(s: State, s': State, t: string, ns: string, run: AutomationRun, fired: BalanceTrigger)
    requires TriggersAgree(s) && t in s.triggers && !s.triggers[t].inFlight
    requires fired.runsStarted == s.triggers[t].runsStarted + 1 <= fired.maxRuns && fired.inFlight
    requires fired.sequenceId == s.triggers[t].sequenceId
    requires ns == AutomationNamespace(t, fired.runsStarted) && run.status == InFlight && run.triggerId == t
    requires s'.runs == s.runs[ns := run] && s'.triggers == s.triggers[t := fired] && s'.templates == s.templates
    ensures TriggersAgree(s')
  {
    hide AutomationNamespace, HashFree, IsAutomation;
    AutomationIsAutomation(t, fired.runsStarted);
    forall t' | t' in s'.triggers
      ensures s'.triggers[t'].inFlight <==> RowInFlight(s', CurrentNamespace(s', t'))
    {
      if t' != t && CurrentNamespace(s, t') == ns {
        AutomationNamespaceInjective(t', s.triggers[t'].runsStarted, t, fired.runsStarted);
      }
    }
    forall other | RowInFlight(s', other)
      ensures s'.runs[other].triggerId in s'.triggers && other == CurrentNamespace(s', s'.runs[other].triggerId)
    {
      if other != ns {
        assert RowInFlight(s, other);
      }
    }
  }

  lemma ExecuteTriggerKeeps(w: World, authorized: bool, t: string, balance: u128)
    requires Invariant(w) && FreshNamespaces(w.state)
    requires ExecuteTriggerOutcome(w.state, authorized, t, balance).Some?
    ensures Invariant(Next(w, ExecuteTrigger(authorized, t, balance)))
    ensures FitsTouched(w, ExecuteTrigger(authorized, t, balance))
  {
    hide RunInv, HashFree, IsAutomation, AutomationNamespace, Linked, AllLinked, RunsSound, ChainsSound, TriggersAgree,
      LocalFits, Put, Project, Fire, Fired, Quiet;
    var s := w.state;
    TriggerSound(s, t);
    var trigger, template := s.triggers[t], s.templates[s.triggers[t].sequenceId];
    var ns := FiringNamespace(s, t);
    var run := AutomationRun(t, trigger.sequenceId, trigger.runsStarted + 1, InFlight, None);
    AutomationIsAutomation(t, trigger.runsStarted + 1);
    FiringNamespaceFree(s, t);
    FireNeedsNoRow(s, ns, run, template.calls);
    QuietNamespace(w, ns);
    FireExact(Project(s, ns), ns, run, template.calls, s.nextYield);
    var l' := Fired(Project(s, ns), ns, run, template.calls, s.nextYield);
    FiredRun(Project(s, ns), ns, run, template.calls, s.nextYield);
    var w' := Next(w, ExecuteTrigger(authorized, t, balance));
    PutCounts(s, ns, l');
    FiredFits(s, w'.state, ns, run, template.calls);
    FireTriggers(s, w'.state, t, ns, run, w'.state.triggers[t]);
    FiredKeeps(Project(s, ns), ns, run, template.calls, s.nextYield, balance);
    LocalKeeps(w, w', ns, l');
  }

  /** A firing namespace has no receipts of an earlier run. */
  lemma FiringNamespaceFree(s: State, t: string)
    requires FreshNamespaces(s) && t in s.triggers
    ensures ChainsOf(s.chains, FiringNamespace(s, t)) == map[]
  {
    hide AutomationNamespace;
  }

  lemma FiredRun(l: Local, ns: string, run: AutomationRun, plan: seq<Step>, base: YieldId)
    requires plan != []
    ensures Fired(l, ns, run, plan, base).run == Some(run)
  {
  }

  lemma TriggerSound(s: State, t: string)
    requires TriggersAgree(s) && t in s.triggers
    ensures HashFree(t) && s.triggers[t].sequenceId in s.templates
  {
    hide HashFree, AutomationNamespace;
  }

  lemma FireNeedsNoRow(s: State, ns: string, run: AutomationRun, calls: seq<Step>)
    requires Fire(Project(s, ns), ns, run, calls, s.nextYield).Some?
    ensures Project(s, ns).run == None
  {
    hide Project, ReleasePlan;
  }

  // --- Templates, triggers, pruning ---

  lemma {:induction false} TotalIsPlanDeposit(calls: seq<Step>)
    ensures TotalDeposit(calls) == PlanDeposit(calls)
  {
    if calls != [] {
      TotalIsPlanDeposit(calls[..|calls| - 1]);
      PlanDepositSnoc(calls[..|calls| - 1], calls[|calls| - 1]);
      assert calls == calls[..|calls| - 1] + [calls[|calls| - 1]];
    }
  }

  lemma {:induction false} PlanDepositSnoc(calls: seq<Step>, last: Step)
    ensures PlanDeposit(calls + [last]) == PlanDeposit(calls) + last.deposit
  {
    if calls == [] {
      assert [last][1..] == [];
    } else {
      assert (calls + [last])[1..] == calls[1..] + [last];
      PlanDepositSnoc(calls[1..], last);
    }
  }

  lemma SaveTemplateKeeps(w: World, owner: bool, sequenceId: string, calls: seq<Step>)
    requires Invariant(w)
    ensures Invariant(Next(w, SaveTemplate(owner, sequenceId, calls)))
  {
    hide AllLinked, RunsSound, TriggersAgree, ValidateTemplate;
    var w' := Next(w, SaveTemplate(owner, sequenceId, calls));
    if w' != w {
      SavedTemplateSound(calls);
      SameTriggers(w.state, w'.state);
      SameRuns(w, w');
    }
  }

  lemma SavedTemplateSound(calls: seq<Step>)
    requires ValidateTemplate(calls).Some?
    ensures
      var template := ValidateTemplate(calls).value;
      template.calls == calls && DistinctIds(calls) && template.totalDeposit == PlanDeposit(calls)
  {
    TotalIsPlanDeposit(calls);
  }

  /** Nothing that the run and link invariants look at changed. */
  lemma SameRuns(w: World, w': World)
    requires AllLinked(w.state) && RunsSound(w) && w'.logs == w.logs
    requires w'.state.steps == w.state.steps && w'.state.queues == w.state.queues
    requires w'.state.contexts == w.state.contexts && w'.state.runs == w.state.runs && w'.state.chains == w.state.chains
    ensures AllLinked(w'.state) && RunsSound(w')
  {
    hide Project, HashFree, IsAutomation, RunInv, Linked;
    forall ns {
      SameProjection(w.state, w'.state, ns);
    }
  }

  lemma DeleteTemplateKeeps(w: World, owner: bool, sequenceId: string)
    requires Invariant(w)
    ensures Invariant(Next(w, DeleteTemplate(owner, sequenceId)))
  {
    hide AllLinked, RunsSound, AutomationNamespace, HashFree, IsAutomation;
    var w' := Next(w, DeleteTemplate(owner, sequenceId));
    if w' != w {
      SameRuns(w, w');
      forall ns | RowInFlight(w'.state, ns)
        ensures ns == CurrentNamespace(w'.state, w'.state.runs[ns].triggerId)
      {
        assert RowInFlight(w.state, ns);
      }
    }
  }

  lemma CreateTriggerKeeps(w: World, owner: bool, t: string, sequenceId: string, minBalance: u128, maxRuns: u32)
    requires Invariant(w) && HashFree(t)
    ensures Invariant(Next(w, CreateTrigger(owner, t, sequenceId, minBalance, maxRuns)))
  {
    hide AllLinked, RunsSound, AutomationNamespace, HashFree, IsAutomation;
    var w' := Next(w, CreateTrigger(owner, t, sequenceId, minBalance, maxRuns));
    if w' != w {
      SameRuns(w, w');
      var s, s' := w.state, w'.state;
      if RowInFlight(s, AutomationNamespace(t, 0)) {
        var other := s.runs[AutomationNamespace(t, 0)].triggerId;
        AutomationNamespaceInjective(t, 0, other, s.triggers[other].runsStarted);
      }
      forall ns | RowInFlight(s', ns)
        ensures ns == CurrentNamespace(s', s'.runs[ns].triggerId)
      {
        assert RowInFlight(s, ns);
      }
    }
  }

  lemma DeleteTriggerKeeps(w: World, owner: bool, t: string)
    requires Invariant(w)
    ensures Invariant(Next(w, DeleteTrigger(owner, t)))
  {
    hide AllLinked, RunsSound, AutomationNamespace, HashFree, IsAutomation;
    var w' := Next(w, DeleteTrigger(owner, t));
    if w' != w {
      SameRuns(w, w');
      var s, s' := w.state, w'.state;
      forall ns | RowInFlight(s', ns)
        ensures s'.runs[ns].triggerId in s'.triggers && ns == CurrentNamespace(s', s'.runs[ns].triggerId)
      {
        assert RowInFlight(s, ns);
      }
    }
  }

  /** Pruning forgets finished rows and nothing else. */
  lemma PruneProjects(s: State, s': State, ns: string)
    requires s' == s.(runs := map n | n in s.runs && s.runs[n].status == InFlight :: s.runs[n])
    ensures Project(s', ns) == if RunInFlight(Project(s, ns)) then Project(s, ns) else Project(s, ns).(run := None)
  {
    hide Slice, ChainsOf;
  }

  lemma PrunedRunInv(l: Local, log: Log, ns: string)
    requires RunInv(l, log, ns) && !RunInFlight(l)
    ensures RunInv(l.(run := None), log, ns)
  {
    hide Prefix, Follows;
  }

  lemma PruneKeeps(w: World)
    requires Invariant(w)
    ensures Invariant(Next(w, PruneFinishedRuns))
  {
    hide AutomationNamespace, HashFree, IsAutomation, Project, RunInv, Linked, PlanDeposit;
    var w' := Next(w, PruneFinishedRuns);
    var s, s' := w.state, w'.state;
    forall ns | HashFree(ns)
      ensures Linked(Project(s', ns))
    {
      PruneProjects(s, s', ns);
      LinkedIgnoresRun(Project(s, ns), None);
    }
    forall ns | IsAutomation(ns) && HashFree(ns)
      ensures if ns in w'.logs then RunInv(Project(s', ns), w'.logs[ns], ns) else Project(s', ns) == EmptyNamespace
    {
      PruneProjects(s, s', ns);
      if ns in w.logs && !RunInFlight(Project(s, ns)) {
        PrunedRunInv(Project(s, ns), w.logs[ns], ns);
      }
    }
    forall t | t in s.triggers
      ensures RowInFlight(s', CurrentNamespace(s', t)) <==> RowInFlight(s, CurrentNamespace(s, t))
    {
    }
    forall ns | RowInFlight(s', ns)
      ensures ns == CurrentNamespace(s', s'.runs[ns].triggerId)
    {
      assert RowInFlight(s, ns);
    }
  }

  /** The whole step relation keeps the invariant. */
  lemma NextKeeps(w: World, e: Event)
    requires Invariant(w) && FreshNamespaces(w.state) && Allowed(w, e)
    ensures Invariant(Next(w, e)) && (Touched(w.state, e).Some? ==> FitsTouched(w, e))
  {
    hide Invariant, FreshNamespaces, HashFree, LocalFits, LocalAfter, NoReceiptsOf, ExecuteTriggerOutcome,
      RegisterStepOutcome, ExecuteStepsOutcome, RunSequenceOutcome, LogsAfter;
    if Apply(w.state, e).Some? {
      match e
      case SaveTemplate(owner, sequenceId, calls) => SaveTemplateKeeps(w, owner, sequenceId, calls);
      case DeleteTemplate(owner, sequenceId) => DeleteTemplateKeeps(w, owner, sequenceId);
      case CreateTrigger(owner, t, sequenceId, minBalance, maxRuns) =>
        CreateTriggerKeeps(w, owner, t, sequenceId, minBalance, maxRuns);
      case DeleteTrigger(owner, t) => DeleteTriggerKeeps(w, owner, t);
      case ExecuteTrigger(authorized, t, balance) => ExecuteTriggerKeeps(w, authorized, t, balance);
      case PruneFinishedRuns => PruneKeeps(w);
      case RegisterStep(caller, call) => RegisterStepKeeps(w, caller, call);
      case ExecuteSteps(authorized, caller, calls) => ExecuteStepsKeeps(w, authorized, caller, calls);
      case RunSequence(authorized, caller, order) => RunSequenceKeeps(w, authorized, caller, order);
      case TimeoutYield(y) => TimeOutKeeps(w, y);
      case DeliverReceipt(y, reply) => DeliverKeeps(w, y, reply);
    }
  }

  /** New receipts appear only in the namespace a call works on; receipts that are
      delivered or time out create none. */
  lemma NextOrigins(w: World, e: Event, y: YieldId)
    requires Invariant(w) && FreshNamespaces(w.state) && Allowed(w, e) && y in Next(w, e).state.chains
    ensures
      var s, s' := w.state, Next(w, e).state;
      || (y in s.chains && s.chains[y].ns == s'.chains[y].ns)
      || (!e.TimeoutYield? && !e.DeliverReceipt? && Apply(s, e).Some? && Touched(s, e) == Some(s'.chains[y].ns))
  {
    hide Invariant, FreshNamespaces, HashFree, LocalFits, LocalAfter, NoReceiptsOf, ExecuteTriggerOutcome, LogsAfter,
      RegisterStepOutcome, ExecuteStepsOutcome, RunSequenceOutcome, Allowed, Put, Project, Deliver, TimeOut;
    NextKeeps(w, e);
    if Apply(w.state, e).Some? && Touched(w.state, e).Some? {
      var ns := Touched(w.state, e).value;
      FitsOrigins(w.state, Next(w, e).state, ns, LocalAfter(w.state, Project(w.state, ns), ns, e).value);
      if e.TimeoutYield? || e.DeliverReceipt? {
        CallbackCounts(w, e);
      }
    } else {
      UntouchedChains(w, e);
    }
  }

  lemma UntouchedChains(w: World, e: Event)
    requires Apply(w.state, e).None? || Touched(w.state, e).None?
    ensures Next(w, e).state.chains == w.state.chains
  {
    hide LogsAfter;
  }

  lemma CallbackCounts(w: World, e: Event)
    requires e.TimeoutYield? || e.DeliverReceipt?
    ensures Next(w, e).state.nextYield == w.state.nextYield
  {
    hide Project, Deliver, TimeOut, ReleaseTrigger;
  }

  /** No event puts a receipt into a namespace its trigger has yet to use. */
  lemma NextFresh(w: World, e: Event)
    requires Invariant(w) && FreshNamespaces(w.state) && Allowed(w, e)
    ensures FreshNamespaces(Next(w, e).state)
  {
    hide Invariant, HashFree, AutomationNamespace, Next, Allowed;
    var s, s' := w.state, Next(w, e).state;
    forall t, n: nat, y | t in s'.triggers && y in s'.chains && n > s'.triggers[t].runsStarted
      ensures s'.chains[y].ns != AutomationNamespace(t, n)
    {
      NextOrigins(w, e, y);
      NextTriggers(w, e, t);
      if !(y in s.chains && s.chains[y].ns == s'.chains[y].ns) {
        NewReceipt(w, e, t, n);
      } else if t in s.triggers {
        assert n > s.triggers[t].runsStarted;
      }
    }
  }

  /** Counters only grow; a trigger that appears is one without receipts. */
  lemma NextTriggers(w: World, e: Event, t: string)
    requires Allowed(w, e) && t in Next(w, e).state.triggers
    ensures t in w.state.triggers ==> w.state.triggers[t].runsStarted <= Next(w, e).state.triggers[t].runsStarted
    ensures t !in w.state.triggers ==> NoReceiptsOf(w.state, t) && Next(w, e).state.chains == w.state.chains
  {
    hide Project, Deliver, TimeOut, Fire, Register, ReleasePlan, StartRelease, Splice, SpliceChains, Set, NoReceiptsOf, LogsAfter;
  }

  lemma NewReceipt(w: World, e: Event, t: string, n: nat)
    requires Touched(w.state, e).Some? && Apply(w.state, e).Some? && !e.TimeoutYield? && !e.DeliverReceipt?
    requires t in Next(w, e).state.triggers && n > Next(w, e).state.triggers[t].runsStarted
    ensures Touched(w.state, e).value != AutomationNamespace(t, n)
  {
    hide AutomationNamespace, ManualNamespace, IsAutomation, Fire, Register, ReleasePlan, StartRelease, Put, LogsAfter;
    AutomationIsAutomation(t, n);
    match e
    case ExecuteTrigger(_, fired, _) =>
      if AutomationNamespace(fired, w.state.triggers[fired].runsStarted + 1) == AutomationNamespace(t, n) {
        AutomationNamespaceInjective(fired, w.state.triggers[fired].runsStarted + 1, t, n);
      }
    case RegisterStep(caller, _) => ManualIsNotAutomation(caller);
    case ExecuteSteps(_, caller, _) => ManualIsNotAutomation(caller);
    case RunSequence(_, caller, _) => ManualIsNotAutomation(caller);
    case _ =>
  }

  lemma InitialInvariant()
    ensures Invariant(Initial)
  {
    forall ns {
      InitialProjects(ns);
    }
  }

  lemma InitialProjects(ns: string)
    ensures Project(Initial.state, ns) == EmptyNamespace
  {
    assert Slice<RegisteredStep>(map[], ns) == map[];
    assert ChainsOf(map[], ns) == map[];
  }

  /** Every world of every allowed schedule satisfies the invariant. */
  lemma {:induction false} ReachableInvariant(worlds: seq<World>, events: seq<Event>, i: nat)
    requires Schedule(worlds, events) && i < |worlds|
    ensures Invariant(worlds[i]) && FreshNamespaces(worlds[i].state)
  {
    hide Invariant, Allowed, Next;
    if i == 0 {
      InitialInvariant();
    } else {
      ReachableInvariant(worlds, events, i - 1);
      NextKeeps(worlds[i - 1], events[i - 1]);
      NextFresh(worlds[i - 1], events[i - 1]);
    }
  }
}

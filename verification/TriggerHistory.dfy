/** What triggers and templates say, read off the events that led to them: the terms
    of the latest creation, how often they were used, and how the last run came out. */
module TriggerHistories {
  import opened Prelude
  import opened Types
  import opened Materialize
  import opened NamespaceKeys
  import opened Sequencer
  import opened Interpreter
  import opened RunInvariant
  import opened Account
  import opened Protocol
  import opened ProtocolSteps
  import opened Theorems
  import opened Completion
  import opened SentCalls

  ghost predicate Happens(w: World, e: Event) {
    Apply(w.state, e).Some?
  }

  // --- Terms and counts ---

  predicate FiresTrigger(e: Event, t: string) {
    e.ExecuteTrigger? && e.triggerId == t
  }

  predicate Ends(e: Event, t: string) {
    e.DeleteTrigger? && e.triggerId == t
  }

  /** How often a trigger was fired between two times. */
  ghost function Firings(worlds: seq<World>, events: seq<Event>, t: string, i: nat, n: nat): nat
    requires i <= n <= |events| <= |worlds|
  {
    if i == n then 0
    else
      Firings(worlds, events, t, i, n - 1)
      + (if FiresTrigger(events[n - 1], t) && Happens(worlds[n - 1], events[n - 1]) then 1 else 0)
  }

  /** A trigger's terms are as given. */
  predicate HasTerms(trigger: BalanceTrigger, e: Event) {
    e.CreateTrigger? && trigger.sequenceId == e.sequenceId && trigger.minBalance == e.minBalance && trigger.maxRuns == e.maxRuns
  }

  /** The trigger keeps its terms and counts its firings. */
  predicate SameTerms(trigger: BalanceTrigger, trigger': BalanceTrigger) {
    && trigger'.sequenceId == trigger.sequenceId && trigger'.minBalance == trigger.minBalance
    && trigger'.maxRuns == trigger.maxRuns
  }

  lemma ReceiptTerms(s: State, y: YieldId, reply: Reply, t: string)
    requires DeliverOutcome(s, y, reply).Some?
    ensures
      var triggers' := DeliverOutcome(s, y, reply).value.state.triggers;
      && (t in triggers' <==> t in s.triggers)
      && (t in s.triggers ==> SameTerms(s.triggers[t], triggers'[t]) && triggers'[t].runsStarted == s.triggers[t].runsStarted)
  {
    hide Project, Deliver, Put;
  }

  lemma OtherTerms(s: State, e: Event)
    requires Apply(s, e).Some? && (e.TimeoutYield? || e.RegisterStep? || e.ExecuteSteps? || e.RunSequence?)
    ensures Apply(s, e).value.state.triggers == s.triggers
  {
    hide Project, TimeOut, Register, ReleasePlan, StartRelease, Splice, SpliceChains, Set, UniqueIds;
  }

  /** A trigger is new, created by the owner, or keeps its terms and counts its firings. */
  lemma TriggerAfter(w: World, e: Event, t: string)
    requires t in Next(w, e).state.triggers
    ensures
      var trigger := Next(w, e).state.triggers[t];
      if t in w.state.triggers then
        && !(Ends(e, t) && Happens(w, e))
        && SameTerms(w.state.triggers[t], trigger)
        && trigger.runsStarted == w.state.triggers[t].runsStarted + (if FiresTrigger(e, t) && Happens(w, e) then 1 else 0)
      else
        && Happens(w, e) && HasTerms(trigger, e) && e.owner && e.triggerId == t
        && trigger.runsStarted == 0 && e.maxRuns > 0 && e.sequenceId in w.state.templates
  {
    hide DeliverOutcome, Fire, Put, Project, RegisterStepOutcome, ExecuteStepsOutcome, RunSequenceOutcome, LogsAfter,
      ValidateTemplate, SequenceReferenced, AutomationNamespace, TimeOut;
    if Apply(w.state, e).Some? {
      match e
      case DeliverReceipt(y, reply) => ReceiptTerms(w.state, y, reply, t);
      case TimeoutYield(_) => OtherTerms(w.state, e);
      case RegisterStep(_, _) => OtherTerms(w.state, e);
      case ExecuteSteps(_, _, _) => OtherTerms(w.state, e);
      case RunSequence(_, _, _) => OtherTerms(w.state, e);
      case _ =>
    }
  }

  /** The creation a trigger goes back to: nothing has deleted it since. */
  ghost predicate CreatedAt(worlds: seq<World>, events: seq<Event>, t: string, i: nat, n: nat)
    requires n <= |events| <= |worlds|
  {
    && i < n && Happens(worlds[i], events[i]) && events[i].CreateTrigger? && events[i].owner && events[i].triggerId == t
    && forall m | i < m < n :: !(Ends(events[m], t) && Happens(worlds[m], events[m]))
  }

  /** A trigger has the terms its owner created it with, and has started exactly as many
      runs as it was fired since, never more than those terms allow. */
  lemma {:induction false} TriggerTerms(worlds: seq<World>, events: seq<Event>, t: string, n: nat) returns (i: nat)
    requires Schedule(worlds, events) && n <= |events| && t in worlds[n].state.triggers
    ensures CreatedAt(worlds, events, t, i, n) && HasTerms(worlds[n].state.triggers[t], events[i])
    ensures worlds[n].state.triggers[t].runsStarted == Firings(worlds, events, t, i + 1, n) <= events[i].maxRuns
    decreases n
  {
    hide Next, Happens, Allowed, Sound;
    if n == 0 {
      assert false;
    } else {
      assert worlds[n - 1 + 1] == Next(worlds[n - 1], events[n - 1]);
      TriggerAfter(worlds[n - 1], events[n - 1], t);
      if t in worlds[n - 1].state.triggers {
        i := TriggerTerms(worlds, events, t, n - 1);
      } else {
        i := n - 1;
      }
      CountsBounded(worlds, events, t, n);
    }
  }

  lemma CountsBounded(worlds: seq<World>, events: seq<Event>, t: string, n: nat)
    requires Schedule(worlds, events) && n <= |events| && t in worlds[n].state.triggers
    ensures worlds[n].state.triggers[t].runsStarted <= worlds[n].state.triggers[t].maxRuns
  {
    hide Next, Allowed, FreshNamespaces, AllLinked, RunsSound, ChainsSound, HashFree, AutomationNamespace, RowInFlight;
    ScheduleSound(worlds, events, n);
  }

  // --- Templates ---

  predicate Drops(e: Event, q: string) {
    (e.SaveTemplate? || e.DeleteTemplate?) && e.sequenceId == q
  }

  lemma TemplateAfter(w: World, e: Event, q: string)
    requires q in Next(w, e).state.templates
    ensures
      var template := Next(w, e).state.templates[q];
      if Drops(e, q) && Happens(w, e) then
        && e.SaveTemplate? && e.owner && template.calls == e.calls && template.totalDeposit == PlanDeposit(e.calls)
      else q in w.state.templates && template == w.state.templates[q]
  {
    hide Project, Deliver, TimeOut, Fire, Register, ReleasePlan, StartRelease, Splice, SpliceChains, Set, LogsAfter,
      SequenceReferenced, AutomationNamespace, PlanDeposit, TotalDeposit;
    if e.SaveTemplate? {
      TotalIsPlanDeposit(e.calls);
    }
  }

  /** The save a template goes back to: nothing has replaced or deleted it since. */
  ghost predicate SavedAt(worlds: seq<World>, events: seq<Event>, q: string, i: nat, n: nat)
    requires n <= |events| <= |worlds|
  {
    && i < n && Happens(worlds[i], events[i]) && events[i].SaveTemplate? && events[i].owner && events[i].sequenceId == q
    && forall m | i < m < n :: !(Drops(events[m], q) && Happens(worlds[m], events[m]))
  }

  /** A template holds the steps its owner saved last, and their deposits' total. */
  lemma {:induction false} TemplateIsLastSaved(worlds: seq<World>, events: seq<Event>, q: string, n: nat) returns (i: nat)
    requires Schedule(worlds, events) && n <= |events| && q in worlds[n].state.templates
    ensures SavedAt(worlds, events, q, i, n) && worlds[n].state.templates[q].calls == events[i].calls
    ensures worlds[n].state.templates[q].totalDeposit == PlanDeposit(events[i].calls)
    decreases n
  {
    hide Next, Happens, Allowed, PlanDeposit;
    if n == 0 {
      assert false;
    } else {
      assert worlds[n - 1 + 1] == Next(worlds[n - 1], events[n - 1]);
      TemplateAfter(worlds[n - 1], events[n - 1], q);
      if Drops(events[n - 1], q) && Happens(worlds[n - 1], events[n - 1]) {
        i := n - 1;
      } else {
        i := TemplateIsLastSaved(worlds, events, q, n - 1);
      }
    }
  }

  lemma LogAfter(w: World, e: Event, ns: string)
    requires Sound(w) && Allowed(w, e) && IsAutomation(ns) && HashFree(ns) && ns in Next(w, e).logs
    ensures
      var plan := Next(w, e).logs[ns].plan;
      if Fires(w, e, ns) then
        && e.triggerId in w.state.triggers && w.state.triggers[e.triggerId].sequenceId in w.state.templates
        && plan == w.state.templates[w.state.triggers[e.triggerId].sequenceId].calls
      else ns in w.logs && plan == w.logs[ns].plan
  {
    hide Sound, HashFree, IsAutomation, Allowed, Apply, Next, LocalAfter;
    if Fires(w, e, ns) {
      FiredSound(w, e, ns);
      FiredInto(w, e, ns);
    } else if Apply(w.state, e).Some? && Touched(w.state, e) == Some(ns) {
      TouchesAutomation(w.state, e, ns);
      TouchedKnown(w, e, ns);
      TouchedLog(w, e, ns);
    } else {
      if ns !in w.logs {
        NoNewLog(w, e, ns);
      }
      NextLogs(w, e, ns);
    }
  }

  lemma FiredSound(w: World, e: Event, ns: string)
    requires Sound(w) && Fires(w, e, ns)
    ensures e.triggerId in w.state.triggers && w.state.triggers[e.triggerId].sequenceId in w.state.templates
  {
    hide FreshNamespaces, AllLinked, RunsSound, ChainsSound, HashFree, AutomationNamespace, RowInFlight;
    TriggerSound(w.state, e.triggerId);
  }

  /** The plan a run follows is the one its trigger's template held when it was fired. */
  lemma {:induction false} PlanIsLastSaved(worlds: seq<World>, events: seq<Event>, ns: string, n: nat)
    returns (fired: nat, saved: nat)
    requires Schedule(worlds, events) && n <= |events| && Tracked(worlds[n], ns)
    ensures fired < n && Fires(worlds[fired], events[fired], ns)
    ensures forall m | fired < m < n :: !Fires(worlds[m], events[m], ns)
    ensures events[fired].triggerId in worlds[fired].state.triggers
    ensures SavedAt(worlds, events, worlds[fired].state.triggers[events[fired].triggerId].sequenceId, saved, fired)
    ensures worlds[n].logs[ns].plan == events[saved].calls
    decreases n
  {
    hide Next, Happens, Allowed, Sound, IsAutomation, HashFree, Fires, SavedAt;
    if n == 0 {
      assert false;
    } else {
      var w, e := worlds[n - 1], events[n - 1];
      assert worlds[n - 1 + 1] == Next(w, e);
      ScheduleSound(worlds, events, n - 1);
      LogAfter(w, e, ns);
      if Fires(w, e, ns) {
        FiringEvent(w, e, ns);
        fired := n - 1;
        saved := TemplateIsLastSaved(worlds, events, w.state.triggers[e.triggerId].sequenceId, n - 1);
      } else {
        fired, saved := PlanIsLastSaved(worlds, events, ns, n - 1);
      }
    }
  }

  lemma FiringEvent(w: World, e: Event, ns: string)
    requires Fires(w, e, ns)
    ensures e.ExecuteTrigger?
  {
  }

  // --- What a trigger says of its last run ---

  /** A trigger that has fired names its last run and says how that came out; the run's
      row, unless it was pruned, says the same. One that has not fired says nothing. */
  ghost predicate Records(s: State, t: string)
    requires t in s.triggers
  {
    var trigger := s.triggers[t];
    if trigger.runsStarted == 0 then !trigger.inFlight && trigger.lastRunNamespace == None && trigger.lastRunOutcome == None
    else
      && trigger.lastRunNamespace == Some(CurrentNamespace(s, t)) && trigger.lastRunOutcome.Some?
      && (trigger.lastRunOutcome == Some(InFlight) <==> RowInFlight(s, CurrentNamespace(s, t)))
      && (CurrentNamespace(s, t) in s.runs ==>
            var run := s.runs[CurrentNamespace(s, t)];
            && Some(run.status) == trigger.lastRunOutcome && run.triggerId == t && run.runNonce == trigger.runsStarted
            && run.sequenceId == trigger.sequenceId)
  }

  ghost predicate AllRecord(s: State) {
    forall t | t in s.triggers :: Records(s, t)
  }

  lemma RecordsSame(s: State, s': State, t: string)
    requires t in s.triggers && t in s'.triggers && s'.triggers[t] == s.triggers[t] && Records(s, t)
    requires Get(s'.runs, CurrentNamespace(s, t)) == Get(s.runs, CurrentNamespace(s, t))
    ensures Records(s', t)
  {
    hide AutomationNamespace;
  }

  /** A row is what it was, or only ends. */
  ghost predicate RowEnds(run: Option<AutomationRun>, run': Option<AutomationRun>) {
    || run' == run
    || (run.Some? && run.value.status == InFlight && run'.Some? && run'.value.status != InFlight
        && run'.value == run.value.(status := run'.value.status, failedStepId := run'.value.failedStepId))
  }

  lemma FinishEnds(l: Local, status: RunStatus, failedStepId: Option<string>)
    requires status != InFlight
    ensures RowEnds(l.run, Finish(l, status, failedStepId).run)
  {
  }

  lemma ProgressEnds(l: Local)
    ensures RowEnds(l.run, Progress(l).run)
  {
  }

  lemma ResolvedEnds(l: Local, y: YieldId, reply: Reply)
    requires y in l.chains
    ensures RowEnds(l.run, OnStepResolved(l, y, reply).run)
  {
    hide Progress, Finish, RowEnds;
    var id := l.chains[y].stepId;
    var l1 := Drop(l, y).(steps := l.steps - {id});
    FinishEnds(l1.(queue := None, context := None), DownstreamFailed, Some(id));
    if CheckedReply(reply).Some? {
      ProgressEnds(SaveStepResult(l1, if id in l.steps then l.steps[id].call.saveResult else None, CheckedReply(reply).value));
    }
  }

  lemma DispatchEnds(l: Local, y: YieldId)
    requires y in l.chains && l.chains[y].stepId in l.steps
    ensures RowEnds(l.run, Dispatch(l, y).local.run)
  {
    hide MaterializeStep;
  }

  lemma DeliverEnds(l: Local, y: YieldId, reply: Reply)
    requires y in l.chains && !l.chains[y].phase.Yielded?
    ensures RowEnds(l.run, Deliver(l, y, reply).local.run)
  {
    hide OnStepResolved, Dispatch, GatePasses, PostcheckOutcome;
    if l.chains[y].stepId in l.steps {
      DispatchEnds(l, y);
    }
    forall outcome: Reply {
      ResolvedEnds(l, y, outcome);
    }
  }

  lemma ReceiptRecords(s: State, ns: string, run': Option<AutomationRun>, s': State, t: string)
    requires TriggersAgree(s) && AllRecord(s) && t in s.triggers && RowEnds(Get(s.runs, ns), run')
    requires s'.runs == Set(s.runs, ns, run') && s'.triggers == ReleaseTrigger(s.triggers, Get(s.runs, ns), run')
    ensures t in s'.triggers && Records(s', t)
  {
    hide AutomationNamespace, HashFree, IsAutomation;
    assert Records(s, t);
    var run := Get(s.runs, ns);
    if run' == run {
      assert s'.triggers == s.triggers;
      GetAfterSet(s.runs, ns, run', CurrentNamespace(s, t));
      RecordsSame(s, s', t);
    } else {
      assert RowInFlight(s, ns);
      var other := run.value.triggerId;
      if t != other {
        if CurrentNamespace(s, t) == ns {
          AutomationNamespaceInjective(t, s.triggers[t].runsStarted, other, s.triggers[other].runsStarted);
        }
        GetAfterSet(s.runs, ns, run', CurrentNamespace(s, t));
        RecordsSame(s, s', t);
      }
    }
  }

  lemma FiringRecords(s: State, s': State, t: string, nonce: u32, u: string)
    requires AllRecord(s) && t in s.triggers && nonce == s.triggers[t].runsStarted + 1 && u in s'.triggers
    requires s'.triggers == s.triggers[t := s.triggers[t].(runsStarted := nonce, inFlight := true,
               lastRunNamespace := Some(AutomationNamespace(t, nonce)), lastRunOutcome := Some(InFlight))]
    requires s'.runs == s.runs[AutomationNamespace(t, nonce) :=
               AutomationRun(t, s.triggers[t].sequenceId, nonce, InFlight, None)]
    ensures Records(s', u)
  {
    hide AutomationNamespace;
    if u != t {
      assert Records(s, u);
      if CurrentNamespace(s, u) == AutomationNamespace(t, nonce) {
        AutomationNamespaceInjective(u, s.triggers[u].runsStarted, t, nonce);
      }
      RecordsSame(s, s', u);
    }
  }

  lemma PruneRecords(s: State, s': State, t: string)
    requires AllRecord(s) && t in s.triggers && s'.triggers == s.triggers
    requires s'.runs == map n | n in s.runs && s.runs[n].status == InFlight :: s.runs[n]
    ensures Records(s', t)
  {
    hide AutomationNamespace;
    assert Records(s, t);
  }

  lemma FiredRow(l: Local, ns: string, run: AutomationRun, calls: seq<Step>, y: YieldId)
    requires Fire(l, ns, run, calls, y).Some?
    ensures Fire(l, ns, run, calls, y).value.run == Some(run)
  {
    hide ReleasePlan;
  }

  /** Rows are touched by firings, receipts and pruning only. */
  lemma RowsAfter(w: World, e: Event)
    requires Apply(w.state, e).Some? && !e.ExecuteTrigger? && !e.DeliverReceipt? && !e.PruneFinishedRuns?
    ensures Next(w, e).state.runs == w.state.runs
  {
    hide LogsAfter, ChainsOf, Slice, Splice, SpliceChains, Set, ValidateTemplate, SequenceReferenced;
    match e
    case RegisterStep(caller, _) => SetAfterSet(w.state.runs, ManualNamespace(caller), None, None);
    case ExecuteSteps(_, caller, calls) =>
      SetAfterSet(w.state.runs, ManualNamespace(caller), None, None);
      PlanRow(Project(w.state, ManualNamespace(caller)), ManualNamespace(caller), calls, w.state.nextYield);
    case RunSequence(_, caller, order) => SetAfterSet(w.state.runs, ManualNamespace(caller), None, None);
    case TimeoutYield(y) => SetAfterSet(w.state.runs, w.state.chains[y].ns, None, None);
    case _ =>
  }

  lemma PlanRow(l: Local, ns: string, calls: seq<Step>, y: YieldId)
    requires ReleasePlan(l, ns, calls, y).Some?
    ensures ReleasePlan(l, ns, calls, y).value.run == l.run
  {
    RegisterAllRow(l, ns, calls, y);
  }

  lemma {:induction false} RegisterAllRow(l: Local, ns: string, calls: seq<Step>, y: YieldId)
    requires RegisterAll(l, ns, calls, y).Some?
    ensures RegisterAll(l, ns, calls, y).value.run == l.run
    decreases |calls|
  {
    if calls != [] {
      RegisterAllRow(Register(l, ns, calls[0], y).value, ns, calls[1..], y + 1);
    }
  }

  lemma FiringState(w: World, e: Event)
    requires e.ExecuteTrigger? && Apply(w.state, e).Some?
    ensures e.triggerId in w.state.triggers
    ensures
      var s, s', t := w.state, Next(w, e).state, e.triggerId;
      var trigger := s.triggers[t];
      var nonce, ns := trigger.runsStarted + 1, AutomationNamespace(t, trigger.runsStarted + 1);
      && nonce < TWO_32
      && s'.triggers == s.triggers[t := trigger.(runsStarted := nonce, inFlight := true,
                                     lastRunNamespace := Some(ns), lastRunOutcome := Some(InFlight))]
      && s'.runs == s.runs[ns := AutomationRun(t, trigger.sequenceId, nonce, InFlight, None)]
  {
    hide LogsAfter, Fire, Project, AutomationNamespace, Splice, SpliceChains;
    var s, t := w.state, e.triggerId;
    var trigger := s.triggers[t];
    var ns := AutomationNamespace(t, trigger.runsStarted + 1);
    var run := AutomationRun(t, trigger.sequenceId, trigger.runsStarted + 1, InFlight, None);
    FiredRow(Project(s, ns), ns, run, s.templates[trigger.sequenceId].calls, s.nextYield);
  }

  lemma ReceiptState(w: World, y: YieldId, reply: Reply)
    requires Apply(w.state, DeliverReceipt(y, reply)).Some?
    ensures y in w.state.chains
    ensures
      var s, s', ns := w.state, Next(w, DeliverReceipt(y, reply)).state, w.state.chains[y].ns;
      exists run' ::
        && RowEnds(Get(s.runs, ns), run')
        && s'.runs == Set(s.runs, ns, run') && s'.triggers == ReleaseTrigger(s.triggers, Get(s.runs, ns), run')
  {
    hide LogsAfter, Deliver, Project, Put, RowEnds, Set, ReleaseTrigger;
    var ns := w.state.chains[y].ns;
    ProjectedRun(w.state, ns);
    DeliverEnds(Project(w.state, ns), y, reply);
    PutCounts(w.state, ns, Deliver(Project(w.state, ns), y, reply).local);
  }

  lemma NewRecords(s: State, t: string)
    requires t in s.triggers && s.triggers[t].runsStarted == 0
    requires !s.triggers[t].inFlight && s.triggers[t].lastRunNamespace == None && s.triggers[t].lastRunOutcome == None
    ensures Records(s, t)
  {
  }

  /** Creation, deletion and all that leaves triggers and rows alone. */
  lemma OtherRecords(w: World, e: Event, t: string)
    requires AllRecord(w.state) && t in Next(w, e).state.triggers && Apply(w.state, e).Some?
    requires !e.ExecuteTrigger? && !e.DeliverReceipt? && !e.PruneFinishedRuns?
    ensures Records(Next(w, e).state, t)
  {
    hide LogsAfter, Records, RegisterStepOutcome, ExecuteStepsOutcome, RunSequenceOutcome, TimeOut, Project, Put,
      ValidateTemplate, SequenceReferenced, AutomationNamespace;
    RowsAfter(w, e);
    if e.TimeoutYield? || e.RegisterStep? || e.ExecuteSteps? || e.RunSequence? {
      OtherTerms(w.state, e);
    }
    if e.CreateTrigger? && e.triggerId == t {
      NewRecords(Next(w, e).state, t);
    } else {
      RecordsSame(w.state, Next(w, e).state, t);
    }
  }

  lemma RecordsStep(w: World, e: Event)
    requires Sound(w) && AllRecord(w.state)
    ensures AllRecord(Next(w, e).state)
  {
    hide LogsAfter, Records, HashFree, RunsSound, AllLinked, ChainsSound, TriggersAgree, FreshNamespaces, ReleaseTrigger,
      RowEnds, DeliverOutcome, ExecuteTriggerOutcome, AutomationNamespace, Next;
    var s, s' := w.state, Next(w, e).state;
    forall t | t in s'.triggers
      ensures Records(s', t)
    {
      if Apply(s, e).None? {
        Stays(w, e);
      } else if e.ExecuteTrigger? {
        FiringState(w, e);
        FiringRecords(s, s', e.triggerId, s.triggers[e.triggerId].runsStarted + 1, t);
      } else if e.DeliverReceipt? {
        ReceiptState(w, e.y, e.reply);
        var ns := s.chains[e.y].ns;
        var run' :| && RowEnds(Get(s.runs, ns), run') && s'.runs == Set(s.runs, ns, run')
                    && s'.triggers == ReleaseTrigger(s.triggers, Get(s.runs, ns), run');
        ReleasedDomain(s.triggers, Get(s.runs, ns), run', t);
        ReceiptRecords(s, ns, run', s', t);
      } else if e.PruneFinishedRuns? {
        Pruned(w);
        PruneRecords(s, s', t);
      } else {
        OtherRecords(w, e, t);
      }
    }
  }

  lemma Stays(w: World, e: Event)
    requires Apply(w.state, e).None?
    ensures Next(w, e) == w
  {
  }

  lemma Pruned(w: World)
    ensures
      Next(w, PruneFinishedRuns).state ==
      w.state.(runs := map n | n in w.state.runs && w.state.runs[n].status == InFlight :: w.state.runs[n])
  {
  }

  lemma ReleasedDomain(triggers: map<string, BalanceTrigger>, run: Option<AutomationRun>, run': Option<AutomationRun>, t: string)
    requires t in ReleaseTrigger(triggers, run, run')
    ensures t in triggers
  {
  }

  lemma {:induction false} AlwaysRecords(worlds: seq<World>, events: seq<Event>, i: nat)
    requires Schedule(worlds, events) && i <= |events|
    ensures AllRecord(worlds[i].state)
  {
    hide Sound, Allowed, Next, Records;
    if i == 0 {
      assert worlds[0] == Initial;
    } else {
      AlwaysRecords(worlds, events, i - 1);
      ScheduleSound(worlds, events, i - 1);
      assert worlds[i - 1 + 1] == Next(worlds[i - 1], events[i - 1]);
      RecordsStep(worlds[i - 1], events[i - 1]);
    }
  }

  /** In every reachable world a trigger says truthfully which run was its last and how
      that came out, even after the run's row was pruned. */
  lemma TriggerRecordsLastRun(w: World, t: string)
    requires Reachable(w) && t in w.state.triggers
    ensures Records(w.state, t)
  {
    hide Allowed, Next, Records;
    var worlds, events :| Schedule(worlds, events) && worlds[|events|] == w;
    AlwaysRecords(worlds, events, |events|);
  }
}

/** When a call goes through: the exact condition of every entry point in every reachable
    world, in terms of what the account holds. `Completion.TriggerFiresIff` is the one
    for `execute_trigger`. */
module Acceptance {
  import opened Prelude
  import opened Types
  import opened NamespaceKeys
  import opened Sequencer
  import opened Interpreter
  import opened RunInvariant
  import opened Links
  import opened Gas
  import opened Account
  import opened Protocol
  import opened ProtocolSteps
  import opened Theorems
  import opened Completion
  import opened AssertedResults
  import opened Decisions

  /** Step ids do not repeat, and none of them is registered for the caller. */
  predicate FreshIds(s: State, ns: string, calls: seq<Step>) {
    && (forall i, j | 0 <= i < j < |calls| :: calls[i].stepId != calls[j].stepId)
    && (forall i | 0 <= i < |calls| :: StepKey(ns, calls[i].stepId) !in s.steps)
  }

  lemma {:induction false} RegisterAllIff(l: Local, ns: string, calls: seq<Step>, y: YieldId)
    ensures RegisterAll(l, ns, calls, y).Some? <==>
            && (forall i, j | 0 <= i < j < |calls| :: calls[i].stepId != calls[j].stepId)
            && (forall i | 0 <= i < |calls| :: calls[i].stepId !in l.steps)
    ensures RegisterAll(l, ns, calls, y).Some? ==>
              var l' := RegisterAll(l, ns, calls, y).value;
              && l'.queue == l.queue
              && forall id :: id in l'.steps <==> id in l.steps || exists i :: 0 <= i < |calls| && calls[i].stepId == id
    decreases |calls|
  {
    if calls != [] && calls[0].stepId !in l.steps {
      var l1, rest := Register(l, ns, calls[0], y).value, calls[1..];
      RegisterAllIff(l1, ns, rest, y + 1);
      forall i | 0 < i < |calls|
        ensures calls[i] == rest[i - 1]
      {
      }
    }
  }

  lemma {:induction false} RegistrationStays(l: Local, ns: string, calls: seq<Step>, y: YieldId, id: string)
    requires RegisterAll(l, ns, calls, y).Some? && id in l.steps && l.steps[id].yieldId < y && l.steps[id].yieldId in l.chains
    ensures
      var l' := RegisterAll(l, ns, calls, y).value;
      && id in l'.steps && l'.steps[id] == l.steps[id]
      && l.steps[id].yieldId in l'.chains && l'.chains[l.steps[id].yieldId] == l.chains[l.steps[id].yieldId]
    decreases |calls|
  {
    if calls != [] {
      RegistrationStays(Register(l, ns, calls[0], y).value, ns, calls[1..], y + 1, id);
    }
  }

  lemma ReleasePlanIff(l: Local, ns: string, calls: seq<Step>, y: YieldId)
    ensures ReleasePlan(l, ns, calls, y).Some? <==>
            && calls != [] && l.queue == None
            && (forall i, j | 0 <= i < j < |calls| :: calls[i].stepId != calls[j].stepId)
            && (forall i | 0 <= i < |calls| :: calls[i].stepId !in l.steps)
  {
    hide RegisterAll, IdsOf;
    RegisterAllIff(l, ns, calls, y);
    if RegisterAll(l, ns, calls, y).Some? && calls != [] {
      FirstYields(l, ns, calls, y);
    }
  }

  lemma FirstYields(l: Local, ns: string, calls: seq<Step>, y: YieldId)
    requires RegisterAll(l, ns, calls, y).Some? && calls != []
    ensures
      var l' := RegisterAll(l, ns, calls, y).value;
      calls[0].stepId in l'.steps && l'.steps[calls[0].stepId].yieldId == y && y in l'.chains && l'.chains[y].phase.Yielded?
  {
    RegistrationStays(Register(l, ns, calls[0], y).value, ns, calls[1..], y + 1, calls[0].stepId);
  }

  lemma StepsOf(s: State, ns: string)
    ensures forall id :: id in Project(s, ns).steps <==> StepKey(ns, id) in s.steps
    ensures forall id | id in Project(s, ns).steps :: Project(s, ns).steps[id] == s.steps[StepKey(ns, id)]
  {
    hide Project, StepKey;
    forall id {
      StepProjected(s, ns, id);
    }
  }

  /** A caller's plan is accepted whenever it is well formed, none of its ids is taken and
      the caller has no release pending; no yield ever stands in the way. */
  lemma ExecuteStepsIff(s: State, authorized: bool, caller: string, calls: seq<Step>)
    ensures Apply(s, ExecuteSteps(authorized, caller, calls)).Some? <==>
            && authorized && calls != [] && (forall i | 0 <= i < |calls| :: ValidStep(calls[i]))
            && FreshIds(s, ManualNamespace(caller), calls) && ManualNamespace(caller) !in s.queues
  {
    hide Project, ReleasePlan, Put, ValidStep, StepKey, ManualNamespace;
    var ns := ManualNamespace(caller);
    ReleasePlanIff(Project(s, ns), ns, calls, s.nextYield);
    QueueProjected(s, ns);
    StepsOf(s, ns);
  }

  lemma RegisterStepIff(s: State, caller: string, call: Step)
    ensures Apply(s, RegisterStep(caller, call)).Some? <==>
            ValidStep(call) && StepKey(ManualNamespace(caller), call.stepId) !in s.steps
  {
    hide Project, Put, ValidStep, StepKey;
    StepProjected(s, ManualNamespace(caller), call.stepId);
  }

  lemma StartIff(l: Local, order: seq<string>)
    requires Linked(l)
    ensures StartRelease(l, order).Some? <==>
            && order != [] && l.queue == None && (forall i | 0 <= i < |order| :: order[i] in l.steps)
            && l.steps[order[0]].yieldId in l.chains && l.chains[l.steps[order[0]].yieldId].phase.Yielded?
  {
  }

  lemma StartInAccount(s: State, ns: string, order: seq<string>)
    requires Linked(Project(s, ns))
    ensures StartRelease(Project(s, ns), order).Some? <==>
            && order != [] && ns !in s.queues
            && (forall i | 0 <= i < |order| :: StepKey(ns, order[i]) in s.steps)
            && var y := s.steps[StepKey(ns, order[0])].yieldId;
               y in s.chains && s.chains[y].phase.Yielded?
  {
    hide Project, StepKey, StartRelease, Linked;
    StartIff(Project(s, ns), order);
    QueueProjected(s, ns);
    StepsOf(s, ns);
    if order != [] && order[0] in Project(s, ns).steps {
      HasChain(Project(s, ns), order[0]);
    }
  }

  lemma HasChain(l: Local, id: string)
    requires Linked(l) && id in l.steps
    ensures l.steps[id].yieldId in l.chains
  {
  }

  /** A release starts exactly if it names something, all it names is registered, none is
      pending, and the first step named still waits to be woken up. */
  lemma RunSequenceIff(w: World, authorized: bool, caller: string, order: seq<string>)
    requires Reachable(w) && HashFree(caller)
    ensures
      var s, ns := w.state, ManualNamespace(caller);
      Apply(s, RunSequence(authorized, caller, order)).Some? <==>
        && authorized && order != [] && ns !in s.queues
        && (forall i | 0 <= i < |order| :: StepKey(ns, order[i]) in s.steps)
        && var y := s.steps[StepKey(ns, order[0])].yieldId;
           y in s.chains && s.chains[y].phase.Yielded?
  {
    hide Project, Put, StepKey, Reachable, Invariant, FreshNamespaces, HashFree, Linked, StartRelease, ManualNamespace;
    ReachableSound(w);
    InvariantParts(w);
    ManualName(caller);
    LinkedAt(w.state, ManualNamespace(caller));
    StartInAccount(w.state, ManualNamespace(caller), order);
  }

  /** The owner's calls: exactly when each is accepted. A trigger cannot be deleted while
      one of its runs is in flight, a template not while a trigger refers to it. */
  lemma OwnerCallsIff(w: World, owner: bool, t: string, q: string, calls: seq<Step>, minBalance: u128, maxRuns: u32)
    requires Reachable(w)
    ensures
      var s := w.state;
      && (Apply(s, SaveTemplate(owner, q, calls)).Some? <==>
            && owner && q != "" && calls != [] && (forall i | 0 <= i < |calls| :: ValidStep(calls[i]))
            && (forall i, j | 0 <= i < j < |calls| :: calls[i].stepId != calls[j].stepId)
            && PlanDeposit(calls) < TWO_128)
      && (Apply(s, DeleteTemplate(owner, q)).Some? <==>
            owner && q in s.templates && forall u | u in s.triggers :: s.triggers[u].sequenceId != q)
      && (Apply(s, CreateTrigger(owner, t, q, minBalance, maxRuns)).Some? <==>
            owner && t != "" && q != "" && maxRuns > 0 && t !in s.triggers && q in s.templates)
      && (Apply(s, DeleteTrigger(owner, t)).Some? <==>
            && owner && t in s.triggers
            && forall ns | ns in s.runs && s.runs[ns].triggerId == t :: s.runs[ns].status != InFlight)
  {
    hide ValidStep, TotalDeposit, PlanDeposit, Reachable;
    TotalIsPlanDeposit(calls);
    if t in w.state.triggers {
      NoRunInFlight(w, t);
    }
  }

  lemma NoRunInFlight(w: World, t: string)
    requires Reachable(w) && t in w.state.triggers
    ensures w.state.triggers[t].inFlight <==>
            exists ns :: ns in w.state.runs && w.state.runs[ns].triggerId == t && w.state.runs[ns].status == InFlight
  {
    hide Reachable, CurrentNamespace;
    TriggerAgreement(w, t);
    if w.state.triggers[t].inFlight {
      var ns :| RowInFlight(w.state, ns) && w.state.runs[ns].triggerId == t;
    }
    if ns :| ns in w.state.runs && w.state.runs[ns].triggerId == t && w.state.runs[ns].status == InFlight {
      assert RowInFlight(w.state, ns);
    }
  }
}

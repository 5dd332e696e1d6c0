/** What an Asserted step saves: the empty return of its last callback, in every
    namespace and on every schedule. */
module AssertedResults {
  import opened Prelude
  import opened Types
  import opened Materialize
  import opened NamespaceKeys
  import opened Sequencer
  import opened RunInvariant
  import opened RunProofs
  import opened Account
  import opened Protocol
  import opened ProtocolSteps
  import opened Theorems
  import opened Completion

  predicate EmptyOutcome(outcome: Reply) {
    outcome == Failure || outcome == Success("")
  }

  /** The step a chain stands for is still registered under it. */
  predicate Own(l: Local, y: YieldId) {
    y in l.chains && l.chains[y].stepId in l.steps && l.steps[l.chains[y].stepId].yieldId == y
  }

  /** What a phase says agrees with the chain's own registered step: the call sent is the
      step's but for its arguments, the bytes expected are the ones the step declares, and
      a postcheck has nothing but empty bytes to pass on. */
  ghost predicate PhaseFits(l: Local, y: YieldId, phase: Phase)
    requires y in l.chains
  {
    match phase
    case Dispatched(call) => Own(l, y) ==> call == l.steps[l.chains[y].stepId].call.(args := call.args)
    case Postchecking(expectedReturn) =>
      Own(l, y) ==>
        var policy := l.steps[l.chains[y].stepId].call.policy;
        policy.Asserted? && policy.expectedReturn == expectedReturn
    case Resolving(outcome) =>
      EmptyOutcome(outcome) && (Own(l, y) ==> l.steps[l.chains[y].stepId].call.policy.Asserted?)
    case _ => true
  }

  ghost predicate Policed(l: Local) {
    forall y | y in l.chains :: PhaseFits(l, y, l.chains[y].phase)
  }

  predicate Early(phase: Phase) {
    phase.Yielded? || phase.Resumed? || phase.TimedOut? || phase.Gating?
  }

  /** Nothing went past its gate, and steps were added under fresh yields only. */
  ghost predicate Plainly(l: Local, l': Local, bound: YieldId) {
    && (forall y | y in l'.chains ::
          || (y in l.chains && l'.chains[y].stepId == l.chains[y].stepId && l'.chains[y].phase == l.chains[y].phase)
          || Early(l'.chains[y].phase))
    && (forall id | id in l'.steps :: (id in l.steps && l'.steps[id] == l.steps[id]) || l'.steps[id].yieldId >= bound)
  }

  lemma PlainlyPoliced(l: Local, l': Local, bound: YieldId)
    requires Policed(l) && Plainly(l, l', bound) && forall y | y in l.chains :: y < bound
    ensures Policed(l')
  {
  }

  lemma {:induction false} RegisterAllPlainly(l: Local, ns: string, calls: seq<Step>, y: YieldId, bound: YieldId)
    requires (forall z | z in l.chains :: z < y) && bound <= y && RegisterAll(l, ns, calls, y).Some?
    ensures Plainly(l, RegisterAll(l, ns, calls, y).value, bound)
    decreases |calls|
  {
    if calls != [] {
      RegisterAllPlainly(Register(l, ns, calls[0], y).value, ns, calls[1..], y + 1, bound);
    }
  }

  lemma StartPlainly(l: Local, order: seq<string>, bound: YieldId)
    requires StartRelease(l, order).Some?
    ensures Plainly(l, StartRelease(l, order).value, bound)
  {
  }

  lemma PlanPlainly(l: Local, ns: string, calls: seq<Step>, y: YieldId)
    requires (forall z | z in l.chains :: z < y) && ReleasePlan(l, ns, calls, y).Some?
    ensures Plainly(l, ReleasePlan(l, ns, calls, y).value, y)
  {
    hide RegisterAll, StartRelease;
    RegisterAllPlainly(l, ns, calls, y, y);
    StartPlainly(RegisterAll(l, ns, calls, y).value, IdsOf(calls), y);
  }

  lemma HaltPlainly(l: Local, y: YieldId, status: RunStatus, bound: YieldId)
    requires y in l.chains
    ensures Plainly(l, Halt(Drop(l, y), l.chains[y].stepId, status), bound)
  {
  }

  lemma FinishPlainly(l: Local, l1: Local, status: RunStatus, failedStepId: Option<string>, bound: YieldId)
    requires Plainly(l, l1, bound)
    ensures Plainly(l, Finish(l1, status, failedStepId), bound)
  {
  }

  lemma QueuePlainly(l: Local, l1: Local, queue: Option<seq<string>>, context: Option<map<string, Bytes>>, bound: YieldId)
    requires Plainly(l, l1, bound)
    ensures Plainly(l, l1.(queue := queue, context := context), bound)
  {
  }

  lemma ResumePlainly(l: Local, l1: Local, stepId: string, bound: YieldId)
    requires Plainly(l, l1, bound) && ResumeStep(l1, stepId).Some?
    ensures Plainly(l, ResumeStep(l1, stepId).value, bound)
  {
  }

  lemma ProgressPlainly(l: Local, l1: Local, bound: YieldId)
    requires Plainly(l, l1, bound)
    ensures Plainly(l, Progress(l1), bound)
  {
    hide Plainly, Finish, ResumeStep;
    var (l2, next) := TakeNextQueuedStep(l1);
    QueuePlainly(l, l1, l2.queue, l1.context, bound);
    assert l2 == l1.(queue := l2.queue, context := l1.context);
    if next.None? {
      FinishPlainly(l, l2, Succeeded, None, bound);
      var done := Finish(l2, Succeeded, None);
      QueuePlainly(l, done, done.queue, None, bound);
      assert done.(context := None) == done.(queue := done.queue, context := None);
    } else if ResumeStep(l2, next.value).Some? {
      ResumePlainly(l, l2, next.value, bound);
    } else {
      QueuePlainly(l, l2, None, None, bound);
      FinishPlainly(l, l2.(queue := None, context := None), ResumeFailed, next, bound);
    }
  }

  lemma RemovedPlainly(l: Local, y: YieldId, queue: Option<seq<string>>, context: Option<map<string, Bytes>>, bound: YieldId)
    requires y in l.chains
    ensures Plainly(l, Drop(l, y).(steps := l.steps - {l.chains[y].stepId}, queue := queue, context := context), bound)
  {
  }

  lemma ResolvedPlainly(l: Local, y: YieldId, reply: Reply, bound: YieldId)
    requires y in l.chains
    ensures Plainly(l, OnStepResolved(l, y, reply), bound)
  {
    hide Plainly, Progress, Finish;
    var stepId := l.chains[y].stepId;
    var spec := if stepId in l.steps then l.steps[stepId].call.saveResult else None;
    var l1 := Drop(l, y).(steps := l.steps - {stepId});
    match CheckedReply(reply)
    case Some(bytes) =>
      var l2 := SaveStepResult(l1, spec, bytes);
      RemovedPlainly(l, y, l.queue, l2.context, bound);
      ProgressPlainly(l, l2, bound);
    case None =>
      RemovedPlainly(l, y, None, None, bound);
      FinishPlainly(l, l1.(queue := None, context := None), DownstreamFailed, Some(stepId), bound);
  }

  lemma AdvancePoliced(l: Local, y: YieldId, phase: Phase)
    requires Policed(l) && y in l.chains && PhaseFits(l, y, phase)
    ensures Policed(Advance(l, y, phase))
  {
    forall z | z in l.chains
      ensures PhaseFits(Advance(l, y, phase), z, Advance(l, y, phase).chains[z].phase)
    {
      assert PhaseFits(l, z, l.chains[z].phase);
    }
  }

  lemma DispatchPoliced(l: Local, y: YieldId, bound: YieldId)
    requires Policed(l) && y in l.chains && l.chains[y].stepId in l.steps && forall z | z in l.chains :: z < bound
    ensures Policed(Dispatch(l, y).local)
  {
    hide Halt, TargetRequest, Policed;
    match MaterializeStep(l.steps[l.chains[y].stepId].call, SavedResults(l))
    case Ok(call) => AdvancePoliced(l, y, Dispatched(call));
    case Err(_) =>
      HaltPlainly(l, y, DownstreamFailed, bound);
      PlainlyPoliced(l, Halt(Drop(l, y), l.chains[y].stepId, DownstreamFailed), bound);
  }

  lemma FitsAt(l: Local, y: YieldId)
    requires Policed(l) && y in l.chains
    ensures PhaseFits(l, y, l.chains[y].phase)
  {
  }

  lemma DeliverPoliced(l: Local, y: YieldId, reply: Reply, bound: YieldId)
    requires Policed(l) && y in l.chains && !l.chains[y].phase.Yielded? && forall z | z in l.chains :: z < bound
    ensures Policed(Deliver(l, y, reply).local)
  {
    hide Policed, Plainly, Dispatch, Halt, OnStepResolved, GatePasses;
    var stepId, l' := l.chains[y].stepId, Deliver(l, y, reply).local;
    FitsAt(l, y);
    HaltPlainly(l, y, ResumeFailed, bound);
    HaltPlainly(l, y, DownstreamFailed, bound);
    DropPlainly(l, y, bound);
    if stepId in l.steps {
      DispatchPoliced(l, y, bound);
    }
    match l.chains[y].phase {
      case Dispatched(call) =>
        ResolvedPlainly(l, y, reply, bound);
        if call.policy.Asserted? {
          AdvancePoliced(l, y, Postchecking(call.policy.expectedReturn));
          AdvancePoliced(l, y, Resolving(Failure));
        }
      case Postchecking(expectedReturn) => AdvancePoliced(l, y, Resolving(PostcheckOutcome(expectedReturn, reply)));
      case Resolving(outcome) => ResolvedPlainly(l, y, outcome, bound);
      case _ => AdvancePoliced(l, y, Gating);
    }
    if Plainly(l, l', bound) {
      PlainlyPoliced(l, l', bound);
    }
  }

  lemma DropPlainly(l: Local, y: YieldId, bound: YieldId)
    requires y in l.chains
    ensures Plainly(l, Drop(l, y), bound)
  {
  }

  lemma LocalPoliced(s: State, l: Local, ns: string, e: Event)
    requires Policed(l) && (forall y | y in l.chains :: y < s.nextYield) && LocalAfter(s, l, ns, e).Some?
    ensures Policed(LocalAfter(s, l, ns, e).value)
  {
    hide Policed, ReleasePlan, StartRelease, Deliver;
    var l', bound := LocalAfter(s, l, ns, e).value, s.nextYield;
    match e {
      case ExecuteTrigger(_, t, _) => PlanPlainly(l, ns, s.templates[s.triggers[t].sequenceId].calls, bound);
      case ExecuteSteps(_, _, calls) => PlanPlainly(l, ns, calls, bound);
      case RunSequence(_, _, order) => StartPlainly(l, order, bound);
      case DeliverReceipt(y, reply) => DeliverPoliced(l, y, reply, bound);
      case _ =>
    }
    if !e.DeliverReceipt? {
      PlainlyPoliced(l, l', bound);
    }
  }

  lemma PolicedStep(w: World, e: Event, ns: string)
    requires Sound(w) && Allowed(w, e) && HashFree(ns) && Policed(Project(w.state, ns))
    ensures Policed(Project(Next(w, e).state, ns))
  {
    hide Invariant, FreshNamespaces, HashFree, Allowed, Apply, Next, Project, LocalAfter, Touched;
    NextProjects(w, e, ns);
    if Apply(w.state, e).Some? && Touched(w.state, e) == Some(ns) {
      InvariantParts(w);
      BelowNext(w.state, ns);
      LocalPoliced(w.state, Project(w.state, ns), ns, e);
    }
  }

  lemma {:induction false} AlwaysPoliced(worlds: seq<World>, events: seq<Event>, ns: string, i: nat)
    requires Schedule(worlds, events) && HashFree(ns) && i <= |events|
    ensures Policed(Project(worlds[i].state, ns))
  {
    hide Sound, HashFree, Allowed, Next, Project, Policed;
    if i == 0 {
      assert worlds[0] == Initial;
      InitialProjects(ns);
      EmptyPoliced();
    } else {
      AlwaysPoliced(worlds, events, ns, i - 1);
      ScheduleSound(worlds, events, i - 1);
      assert worlds[i - 1 + 1] == Next(worlds[i - 1], events[i - 1]);
      PolicedStep(worlds[i - 1], events[i - 1], ns);
    }
  }

  lemma EmptyPoliced()
    ensures Policed(EmptyNamespace)
  {
  }

  /** In the namespace: an Asserted step passes with empty bytes only, and what it leaves
      saved under its name, if anything is left saved, is empty. */
  lemma LocalSavesEmpty(l: Local, y: YieldId, reply: Reply)
    requires Policed(l) && y in l.chains && !l.chains[y].phase.Yielded? && PassedWith(l.chains[y].phase, reply).Some?
    requires
      var id := l.chains[y].stepId;
      id in l.steps && l.steps[id].yieldId == y && l.steps[id].call.policy.Asserted? && l.steps[id].call.saveResult.Some?
    ensures PassedWith(l.chains[y].phase, reply) == Some("")
    ensures
      var name := l.steps[l.chains[y].stepId].call.saveResult.value.asName;
      var context := Deliver(l, y, reply).local.context;
      context.Some? ==> name in context.value && context.value[name] == ""
  {
    assert l.chains[y].phase.Resolving?;
    var spec := l.steps[l.chains[y].stepId].call.saveResult;
    var l1 := SaveStepResult(Drop(l, y).(steps := l.steps - {l.chains[y].stepId}), spec, "");
    ProgressContext(l1);
  }

  lemma ProgressContext(l: Local)
    ensures Progress(l).context == None || Progress(l).context == l.context
  {
  }

  /** In the account: when the receipt by which a registered Asserted step passes comes
      in, what the account then holds under the name the step declares is empty, unless
      that receipt ended the run and nothing is held any more. */
  lemma AssertedSavesEmpty(w: World, y: YieldId, reply: Reply, id: string)
    requires Reachable(w) && y in w.state.chains && w.state.chains[y].stepId == id
    requires PassedWith(w.state.chains[y].phase, reply).Some?
    requires
      var key := StepKey(w.state.chains[y].ns, id);
      && key in w.state.steps && w.state.steps[key].yieldId == y
      && w.state.steps[key].call.policy.Asserted? && w.state.steps[key].call.saveResult.Some?
    ensures PassedWith(w.state.chains[y].phase, reply) == Some("")
    ensures
      var ns := w.state.chains[y].ns;
      var name := w.state.steps[StepKey(ns, id)].call.saveResult.value.asName;
      var contexts := Next(w, DeliverReceipt(y, reply)).state.contexts;
      ns in contexts ==> name in contexts[ns] && contexts[ns][name] == ""
  {
    hide Sound, Reachable, HashFree, Next, Project, Policed, StepKey, Apply, Deliver;
    var ns, e := w.state.chains[y].ns, DeliverReceipt(y, reply);
    ReachablePoliced(w, y);
    Deliverable(w.state, y, reply);
    ProjectedRun(w.state, ns);
    StepProjected(w.state, ns, id);
    LocalSavesEmpty(Project(w.state, ns), y, reply);
    NextProjects(w, e, ns);
    ContextProjected(Next(w, e).state, ns);
  }

  lemma ReachablePoliced(w: World, y: YieldId)
    requires Reachable(w) && y in w.state.chains
    ensures Sound(w) && HashFree(w.state.chains[y].ns) && Policed(Project(w.state, w.state.chains[y].ns))
  {
    hide FreshNamespaces, HashFree, Allowed, Next, Project, Policed;
    ReachableSound(w);
    InvariantParts(w);
    ChainsHashFree(w.state, y);
    var worlds, events :| Schedule(worlds, events) && worlds[|events|] == w;
    AlwaysPoliced(worlds, events, w.state.chains[y].ns, |events|);
  }

  lemma Deliverable(s: State, y: YieldId, reply: Reply)
    requires y in s.chains && PassedWith(s.chains[y].phase, reply).Some?
    ensures Apply(s, DeliverReceipt(y, reply)).Some? && Touched(s, DeliverReceipt(y, reply)) == Some(s.chains[y].ns)
  {
    hide React, Deliver, Project;
  }

  lemma StepProjected(s: State, ns: string, id: string)
    ensures id in Project(s, ns).steps <==> StepKey(ns, id) in s.steps
    ensures id in Project(s, ns).steps ==> Project(s, ns).steps[id] == s.steps[StepKey(ns, id)]
  {
    hide Slice, StepKey, ChainsOf;
    SliceAt(s.steps, ns, id);
  }

  lemma ContextProjected(s: State, ns: string)
    ensures Project(s, ns).context == Get(s.contexts, ns)
  {
    hide Slice, ChainsOf;
  }
}

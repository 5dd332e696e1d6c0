/** The contract object: mutable maps updated in place by each entry point and
    callback, proved against the account semantics. */
module SmartAccounts {
  import opened Prelude
  import opened Types
  import opened Materialize
  import opened NamespaceKeys
  import opened Sequencer
  import opened Gas
  import opened Account

  /** The yield of every step registered in the namespace is the namespace's own. */
  ghost predicate YieldsOwn(s: State, ns: string) {
    forall id | StepKey(ns, id) in s.steps && s.steps[StepKey(ns, id)].yieldId in s.chains ::
      s.chains[s.steps[StepKey(ns, id)].yieldId].ns == ns
  }

  /** Every outstanding chain was created with a yield id already handed out. */
  ghost predicate YieldsBelow(s: State) {
    forall y | y in s.chains :: y < s.nextYield
  }

  class SmartAccount {
    var registeredSteps: map<string, RegisteredStep>
    var sequenceQueue: map<string, seq<string>>
    var sequenceContexts: map<string, map<string, Bytes>>
    var automationRuns: map<string, AutomationRun>
    var balanceTriggers: map<string, BalanceTrigger>
    var sequenceTemplates: map<string, SequenceTemplate>
    // The runtime's side: receipts outstanding for this contract, and the next yield id.
    var receipts: map<YieldId, Chain>
    var nextYield: YieldId

    ghost function View(): State
      reads this
    {
      State(registeredSteps, sequenceQueue, sequenceContexts, automationRuns, balanceTriggers, sequenceTemplates,
            receipts, nextYield)
    }

    constructor ()
      ensures View() == State(map[], map[], map[], map[], map[], map[], map[], 0)
    {
      registeredSteps, sequenceQueue, sequenceContexts, automationRuns := map[], map[], map[], map[];
      balanceTriggers, sequenceTemplates, receipts, nextYield := map[], map[], map[], 0;
    }

    // --- Progression helpers ---

    method ClearRegisteredNamespace(ns: string)
      modifies this`registeredSteps
      ensures registeredSteps == Splice(old(registeredSteps), ns, map[])
    {
      var keys := set key | key in registeredSteps && InNamespace(key, ns);
      while keys != {}
        invariant forall key :: key in keys <==> key in registeredSteps && InNamespace(key, ns)
        invariant forall key | key in registeredSteps :: key in old(registeredSteps)
        invariant forall key | key in old(registeredSteps) && !InNamespace(key, ns) :: key in registeredSteps
        invariant forall key | key in registeredSteps :: registeredSteps[key] == old(registeredSteps)[key]
        decreases keys
      {
        var key :| key in keys;
        registeredSteps := registeredSteps - {key};
        keys := keys - {key};
      }
      forall key
        ensures Get(registeredSteps, key) == Get(Splice(old(registeredSteps), ns, map[]), key)
      {
        SpliceAt(old(registeredSteps), ns, map[], key);
      }
      SameGets(registeredSteps, Splice(old(registeredSteps), ns, map[]));
    }

    method FinishAutomationRun(ns: string, status: RunStatus, failedStepId: Option<string>)
      requires status != InFlight
      modifies this
      ensures View() == React(old(View()), ns, Finish(Project(old(View()), ns), status, failedStepId))
    {
      hide Slice, Splice, ChainsOf, SpliceChains, OwnChains;
      FinishExact(View(), ns, status, failedStepId);
      if ns !in automationRuns {
        return;
      }
      var run := automationRuns[ns];
      if run.status != InFlight {
        return;
      }
      run := run.(status := status, failedStepId := failedStepId);
      automationRuns := automationRuns[ns := run];
      if run.triggerId in balanceTriggers {
        var trigger := balanceTriggers[run.triggerId];
        trigger := trigger.(inFlight := false, lastRunOutcome := Some(status));
        balanceTriggers := balanceTriggers[run.triggerId := trigger];
      }
      ClearRegisteredNamespace(ns);
      sequenceQueue := sequenceQueue - {ns};
    }

    method TakeNextQueuedStep(ns: string) returns (next: Option<string>)
      modifies this`sequenceQueue
      ensures
        var (l, n) := Sequencer.TakeNextQueuedStep(Project(old(View()), ns));
        View() == Put(old(View()), ns, l) && next == n
    {
      hide Slice, Splice, ChainsOf, SpliceChains, OwnChains;
      PutProject(View(), ns);
      if ns !in sequenceQueue {
        return None;
      }
      var remaining := sequenceQueue[ns];
      if remaining == [] {
        sequenceQueue := sequenceQueue - {ns};
        QueuePart(old(View()), ns, None);
        return None;
      }
      next := Some(remaining[0]);
      remaining := remaining[1..];
      if remaining == [] {
        sequenceQueue := sequenceQueue - {ns};
        QueuePart(old(View()), ns, None);
      } else {
        sequenceQueue := sequenceQueue[ns := remaining];
        QueuePart(old(View()), ns, Some(remaining));
      }
    }

    /** The runtime resumes a yield only while it is neither resumed nor timed out. */
    method ResumeRegisteredStep(ns: string, stepId: string) returns (ok: bool)
      requires YieldsOwn(View(), ns)
      modifies this`receipts
      ensures ok == ResumeStep(Project(old(View()), ns), stepId).Some?
      ensures View() == if ok then Put(old(View()), ns, ResumeStep(Project(old(View()), ns), stepId).value) else old(View())
    {
      var key := StepKey(ns, stepId);
      SliceAt(registeredSteps, ns, stepId);
      if key !in registeredSteps {
        return false;
      }
      var y := registeredSteps[key].yieldId;
      if y !in receipts || !receipts[y].phase.Yielded? {
        return false;
      }
      ChainPart(View(), ns, y, Some(receipts[y].(phase := Resumed)));
      receipts := receipts[y := receipts[y].(phase := Resumed)];
      return true;
    }

    method ClearSequenceContext(ns: string)
      modifies this`sequenceContexts
      ensures View() == Put(old(View()), ns, Project(old(View()), ns).(context := None))
    {
      hide Slice, Splice, ChainsOf, SpliceChains, OwnChains, Put, Project;
      ContextPart(View(), ns, None);
      sequenceContexts := sequenceContexts - {ns};
    }

    /** The halt path of a step whose chain just ended: step, queue and saved values
        go, the run is finished. */
    method HaltSequence(ns: string, stepId: string, status: RunStatus)
      requires status != InFlight
      modifies this
      ensures View() == React(old(View()), ns, Halt(Project(old(View()), ns), stepId, status))
    {
      hide Put, Project, React, Finish, ChainsFit;
      HaltParts(View(), ns, stepId);
      registeredSteps := registeredSteps - {StepKey(ns, stepId)};
      sequenceQueue := sequenceQueue - {ns};
      sequenceContexts := sequenceContexts - {ns};
      FinishAutomationRun(ns, status, Some(stepId));
      ReactAfterPut(old(View()), ns, HaltedPart(Project(old(View()), ns), stepId),
                    Halt(Project(old(View()), ns), stepId, status));
    }

    method SaveStepResult(ns: string, spec: SaveResult, bytes: Bytes)
      modifies this`sequenceContexts
      ensures View() == Put(old(View()), ns, Sequencer.SaveStepResult(Project(old(View()), ns), Some(spec), bytes))
    {
      hide Slice, Splice, ChainsOf, SpliceChains, OwnChains, Put;
      var saved := if ns in sequenceContexts then sequenceContexts[ns] else map[];
      saved := saved[spec.asName := bytes];
      ContextPart(View(), ns, Some(saved));
      sequenceContexts := sequenceContexts[ns := saved];
    }

    method ProgressAfterSuccessfulResolution(ns: string)
      requires YieldsOwn(View(), ns)
      modifies this
      ensures View() == React(old(View()), ns, Progress(Project(old(View()), ns)))
    {
      hide Put, Project, React, Finish, ChainsFit, ResumeStep, YieldsOwn;
      ghost var s, l := View(), Project(View(), ns);
      var next := TakeNextQueuedStep(ns);
      ghost var l1 := Sequencer.TakeNextQueuedStep(l).0;
      QueueFits(s, ns, l1);
      if next.None? {
        FinishAutomationRun(ns, Succeeded, None);
        ReactAfterPut(s, ns, l1, Finish(l1, Succeeded, None));
        FinishFits(s, ns, l1, Succeeded, None);
        ClearAfterReact(s, ns, Finish(l1, Succeeded, None));
        ClearSequenceContext(ns);
        return;
      }
      YieldsOwnSame(s, View(), ns);
      var ok := ResumeRegisteredStep(ns, next.value);
      if ok {
        ResumeKeepsRun(l1, next.value);
        PutPut(s, ns, l1, ResumeStep(l1, next.value).value);
        ReactIsPut(s, ns, ResumeStep(l1, next.value).value);
      } else {
        ClearedParts(s, ns, l1);
        sequenceQueue := sequenceQueue - {ns};
        sequenceContexts := sequenceContexts - {ns};
        FinishAutomationRun(ns, ResumeFailed, next);
        ReactAfterPut(s, ns, l1.(queue := None, context := None),
                      Finish(l1.(queue := None, context := None), ResumeFailed, next));
      }
    }

    // --- Receipts ---

    /** The chain has delivered its last receipt. */
    method DropReceipt(y: YieldId)
      requires y in receipts
      modifies this`receipts
      ensures
        var ns := old(receipts)[y].ns;
        View() == Put(old(View()), ns, Drop(Project(old(View()), ns), y))
    {
      hide Put, Project;
      ChainPart(View(), receipts[y].ns, y, None);
      receipts := receipts - {y};
    }

    /** The promise chain now waits for its next callback. */
    method AdvanceReceipt(y: YieldId, phase: Phase)
      requires y in receipts
      modifies this`receipts
      ensures
        var ns := old(receipts)[y].ns;
        && y in Project(old(View()), ns).chains
        && View() == Put(old(View()), ns, Advance(Project(old(View()), ns), y, phase))
    {
      hide Put, Slice, Splice;
      var chain := receipts[y].(phase := phase);
      ChainPart(View(), receipts[y].ns, y, Some(chain));
      receipts := receipts[y := chain];
    }

    // --- Callbacks ---

    /** Fill in a step's arguments from the values saved in its namespace. */
    method MaterializeStepCall(ns: string, call: Step) returns (r: Result<Step, MaterializeError>)
      ensures r == MaterializeStep(call, SavedResults(Project(View(), ns)))
    {
      if call.argsTemplate.None? {
        return Ok(call);
      }
      var saved := if ns in sequenceContexts then sequenceContexts[ns] else map[];
      var args := MaterializeLoop(call.argsTemplate.value.template, call.argsTemplate.value.substitutions, saved);
      match args
      case Err(e) => return Err(e);
      case Ok(bytes) => return Ok(call.(args := bytes));
    }

    method DispatchStep(y: YieldId) returns (sent: seq<Request>)
      requires y in receipts && StepKey(receipts[y].ns, receipts[y].stepId) in registeredSteps
      modifies this
      ensures
        var ns := old(receipts)[y].ns;
        var l := Project(old(View()), ns);
        && y in l.chains && l.chains[y].stepId in l.steps
        && View() == React(old(View()), ns, Dispatch(l, y).local) && sent == Dispatch(l, y).sent
    {
      hide Put, React, Slice, Splice, MaterializeStep, Halt, TargetRequest;
      var ns, stepId := receipts[y].ns, receipts[y].stepId;
      ghost var s, l := View(), Project(View(), ns);
      ChainOfNamespace(s, y);
      SliceAt(s.steps, ns, stepId);
      var call := MaterializeStepCall(ns, registeredSteps[StepKey(ns, stepId)].call);
      match call {
        case Err(_) =>
          DropReceipt(y);
          HaltSequence(ns, stepId, DownstreamFailed);
          ReactAfterPut(s, ns, Drop(l, y), Halt(Drop(l, y), stepId, DownstreamFailed));
          return [];
        case Ok(effective) =>
          AdvanceReceipt(y, Dispatched(effective));
          ReactIsPut(s, ns, Advance(l, y, Dispatched(effective)));
          return [TargetRequest(effective)];
      }
    }

    method OnStepResumed(y: YieldId) returns (sent: seq<Request>)
      requires y in receipts && (receipts[y].phase.Resumed? || receipts[y].phase.TimedOut?)
      modifies this
      ensures
        var ns := old(receipts)[y].ns;
        var l := Project(old(View()), ns);
        && y in l.chains
        && View() == React(old(View()), ns, Sequencer.OnStepResumed(l, y).local)
        && sent == Sequencer.OnStepResumed(l, y).sent
    {
      hide Put, React, Slice, Splice, Dispatch, Halt, GateRequest;
      var ns, stepId := receipts[y].ns, receipts[y].stepId;
      ghost var s, l := View(), Project(View(), ns);
      ChainOfNamespace(s, y);
      SliceAt(s.steps, ns, stepId);
      if StepKey(ns, stepId) !in registeredSteps {
        DropReceipt(y);
        ReactIsPut(s, ns, Drop(l, y));
        return [];
      }
      var call := registeredSteps[StepKey(ns, stepId)].call;
      if receipts[y].phase.TimedOut? {
        DropReceipt(y);
        HaltSequence(ns, stepId, ResumeFailed);
        ReactAfterPut(s, ns, Drop(l, y), Halt(Drop(l, y), stepId, ResumeFailed));
        return [];
      }
      if call.preGate.Some? {
        AdvanceReceipt(y, Gating);
        ReactIsPut(s, ns, Advance(l, y, Gating));
        return [GateRequest(call)];
      }
      sent := DispatchStep(y);
    }

    method OnPreGateChecked(y: YieldId, reply: Reply) returns (sent: seq<Request>)
      requires y in receipts
      modifies this
      ensures
        var ns := old(receipts)[y].ns;
        var l := Project(old(View()), ns);
        && y in l.chains
        && View() == React(old(View()), ns, Sequencer.OnPreGateChecked(l, y, reply).local)
        && sent == Sequencer.OnPreGateChecked(l, y, reply).sent
    {
      hide Put, React, Slice, Splice, Dispatch, Halt, GatePasses;
      var ns, stepId := receipts[y].ns, receipts[y].stepId;
      ghost var s, l := View(), Project(View(), ns);
      ChainOfNamespace(s, y);
      SliceAt(s.steps, ns, stepId);
      if StepKey(ns, stepId) !in registeredSteps || registeredSteps[StepKey(ns, stepId)].call.preGate.None? {
        DropReceipt(y);
        ReactIsPut(s, ns, Drop(l, y));
        return [];
      }
      if GatePasses(registeredSteps[StepKey(ns, stepId)].call.preGate.value, reply) {
        sent := DispatchStep(y);
      } else {
        DropReceipt(y);
        HaltSequence(ns, stepId, DownstreamFailed);
        ReactAfterPut(s, ns, Drop(l, y), Halt(Drop(l, y), stepId, DownstreamFailed));
        return [];
      }
    }

    method OnAssertedRunPostcheck(y: YieldId, call: Step, reply: Reply) returns (sent: seq<Request>)
      requires y in receipts && call.policy.Asserted?
      modifies this
      ensures
        var ns := old(receipts)[y].ns;
        var l := Project(old(View()), ns);
        && y in l.chains
        && View() == React(old(View()), ns, Sequencer.OnAssertedRunPostcheck(l, y, call, reply).local)
        && sent == Sequencer.OnAssertedRunPostcheck(l, y, call, reply).sent
    {
      hide Put, React, Slice, Splice;
      ghost var s, ns := View(), receipts[y].ns;
      ChainOfNamespace(s, y);
      if CheckedReply(reply).None? {
        AdvanceReceipt(y, Resolving(Failure));
        ReactIsPut(s, ns, Advance(Project(s, ns), y, Resolving(Failure)));
        return [];
      }
      AdvanceReceipt(y, Postchecking(call.policy.expectedReturn));
      ReactIsPut(s, ns, Advance(Project(s, ns), y, Postchecking(call.policy.expectedReturn)));
      return [CheckRequest(call)];
    }

    method OnAssertedEvaluatePostcheck(y: YieldId, expectedReturn: Bytes, reply: Reply)
      requires y in receipts
      modifies this
      ensures
        var ns := old(receipts)[y].ns;
        var l := Project(old(View()), ns);
        && y in l.chains
        && View() == React(old(View()), ns, Advance(l, y, Resolving(PostcheckOutcome(expectedReturn, reply))))
    {
      hide Put, React, Slice, Splice;
      ghost var s, ns := View(), receipts[y].ns;
      ChainOfNamespace(s, y);
      AdvanceReceipt(y, Resolving(PostcheckOutcome(expectedReturn, reply)));
      ReactIsPut(s, ns, Advance(Project(s, ns), y, Resolving(PostcheckOutcome(expectedReturn, reply))));
    }

    method OnStepResolved(y: YieldId, reply: Reply)
      requires y in receipts && YieldsOwn(View(), receipts[y].ns)
      modifies this
      ensures
        var ns := old(receipts)[y].ns;
        var l := Project(old(View()), ns);
        && y in l.chains
        && View() == React(old(View()), ns, Sequencer.OnStepResolved(l, y, reply))
    {
      hide Put, React, Slice, Splice, Project, Progress, Finish, ChainsFit;
      var ns, stepId := receipts[y].ns, receipts[y].stepId;
      var key := StepKey(ns, stepId);
      ghost var s, l := View(), Project(View(), ns);
      ChainOfNamespace(s, y);
      var spec := if key in registeredSteps then registeredSteps[key].call.saveResult else None;
      assert spec == if stepId in l.steps then l.steps[stepId].call.saveResult else None;
      registeredSteps := registeredSteps - {key};
      receipts := receipts - {y};
      ghost var l1 := ResolvedPart(l, y);
      ResolvedParts(s, y);
      assert View() == Put(s, ns, l1);
      match CheckedReply(reply) {
        case Some(bytes) =>
          ghost var l2 := Sequencer.SaveStepResult(l1, spec, bytes);
          SaveFits(s, ns, l1, spec, bytes);
          if spec.Some? {
            SaveStepResult(ns, spec.value, bytes);
          }
          assert View() == Put(s, ns, l2);
          ProgressAfterSuccessfulResolution(ns);
          ReactAfterPut(s, ns, l2, Progress(l2));
        case None =>
          ClearedParts(s, ns, l1);
          sequenceQueue := sequenceQueue - {ns};
          sequenceContexts := sequenceContexts - {ns};
          FinishAutomationRun(ns, DownstreamFailed, Some(stepId));
          ReactAfterPut(s, ns, l1.(queue := None, context := None),
                        Finish(l1.(queue := None, context := None), DownstreamFailed, Some(stepId)));
      }
    }

    /** The runtime delivers the receipt a chain has outstanding. */
    method DeliverReceipt(y: YieldId, reply: Reply) returns (sent: seq<Request>)
      requires y in receipts && !receipts[y].phase.Yielded? && YieldsOwn(View(), receipts[y].ns)
      modifies this
      ensures Apply(old(View()), Event.DeliverReceipt(y, reply)) == Some(Outcome(View(), sent))
    {
      hide Put, React, Project, Sequencer.OnStepResumed, Sequencer.OnPreGateChecked, Sequencer.OnStepResolved,
        Sequencer.OnAssertedRunPostcheck;
      ChainOfNamespace(View(), y);
      match receipts[y].phase {
        case Resumed => sent := OnStepResumed(y);
        case TimedOut => sent := OnStepResumed(y);
        case Gating => sent := OnPreGateChecked(y, reply);
        case Dispatched(call) =>
          if call.policy.Asserted? {
            sent := OnAssertedRunPostcheck(y, call, reply);
          } else {
            OnStepResolved(y, reply);
            sent := [];
          }
        case Postchecking(expectedReturn) =>
          OnAssertedEvaluatePostcheck(y, expectedReturn, reply);
          sent := [];
        case Resolving(outcome) =>
          OnStepResolved(y, outcome);
          sent := [];
      }
    }

    // --- Registration and release ---

    method RegisterStepInNamespace(ns: string, call: Step) returns (ok: bool)
      requires YieldsBelow(View())
      modifies this
      ensures YieldsBelow(View())
      ensures YieldsOwn(old(View()), ns) ==> YieldsOwn(View(), ns)
      ensures ok == Register(Project(old(View()), ns), ns, call, old(nextYield)).Some?
      ensures View() ==
              if ok then Put(old(View()), ns, Register(Project(old(View()), ns), ns, call, old(nextYield)).value)
                         .(nextYield := old(nextYield) + 1)
              else old(View())
      ensures ok ==> ChainsFit(old(View()), ns, Register(Project(old(View()), ns), ns, call, old(nextYield)).value)
    {
      hide Put, Slice, Splice, ChainsOf, SpliceChains, ChainsFit;
      var key := StepKey(ns, call.stepId);
      SliceAt(registeredSteps, ns, call.stepId);
      if key in registeredSteps {
        return false;
      }
      RegisteredParts(View(), ns, call);
      receipts := receipts[nextYield := Chain(ns, call.stepId, Yielded)];
      registeredSteps := registeredSteps[key := RegisteredStep(nextYield, call)];
      nextYield := nextYield + 1;
      return true;
    }

    /** Registers the calls in order; stops at the first that is already registered. */
    method RegisterAllInNamespace(ns: string, calls: seq<Step>) returns (ok: bool)
      requires YieldsBelow(View()) && YieldsOwn(View(), ns)
      modifies this
      ensures YieldsBelow(View()) && YieldsOwn(View(), ns)
      ensures ok == RegisterAll(Project(old(View()), ns), ns, calls, old(nextYield)).Some?
      ensures ok ==> ChainsFit(old(View()), ns, RegisterAll(Project(old(View()), ns), ns, calls, old(nextYield)).value)
      ensures ok ==> View() == Put(old(View()), ns, RegisterAll(Project(old(View()), ns), ns, calls, old(nextYield)).value)
                               .(nextYield := old(nextYield) + |calls|)
    {
      hide Put, Project, Register, ChainsFit, YieldsBelow, YieldsOwn;
      ghost var s := View();
      ghost var l := Project(s, ns);
      PutProject(s, ns);
      var i := 0;
      assert calls[0..] == calls;
      while i < |calls|
        invariant 0 <= i <= |calls|
        invariant YieldsBelow(View()) && YieldsOwn(View(), ns) && ChainsFit(s, ns, l)
        invariant View() == Put(s, ns, l).(nextYield := s.nextYield + i)
        invariant RegisterAll(Project(s, ns), ns, calls, s.nextYield) == RegisterAll(l, ns, calls[i..], s.nextYield + i)
      {
        assert calls[i..][0] == calls[i] && calls[i..][1..] == calls[i + 1..];
        ghost var r := Register(l, ns, calls[i], s.nextYield + i);
        PutThenRegister(s, ns, l, s.nextYield + i, r);
        ok := RegisterStepInNamespace(ns, calls[i]);
        if !ok {
          return false;
        }
        l := r.value;
        i := i + 1;
      }
      return true;
    }

    method StartSequenceRelease(ns: string, order: seq<string>) returns (ok: bool)
      requires YieldsOwn(View(), ns)
      modifies this
      ensures ok == StartRelease(Project(old(View()), ns), order).Some?
      ensures ok ==> View() == Put(old(View()), ns, StartRelease(Project(old(View()), ns), order).value)
    {
      hide Put, Project, ResumeStep, ChainsFit, YieldsOwn;
      if order == [] {
        return false;
      }
      ghost var s, l := View(), Project(View(), ns);
      OrderRegistered(s, ns, order);
      QueueOf(s, ns);
      if ns in sequenceQueue {
        return false;
      }
      var i := 0;
      while i < |order|
        invariant 0 <= i <= |order|
        invariant forall j | 0 <= j < i :: StepKey(ns, order[j]) in registeredSteps
      {
        if StepKey(ns, order[i]) !in registeredSteps {
          return false;
        }
        i := i + 1;
      }
      ghost var queue := if |order| > 1 then Some(order[1..]) else None;
      QueuePart(s, ns, queue);
      SetAfterSet(sequenceQueue, ns, None, None);
      if |order| > 1 {
        sequenceQueue := sequenceQueue[ns := order[1..]];
      }
      assert View() == Put(s, ns, l.(queue := queue));
      QueueFits(s, ns, l.(queue := queue));
      YieldsOwnSame(s, View(), ns);
      ok := ResumeRegisteredStep(ns, order[0]);
      if ok {
        PutPut(s, ns, l.(queue := queue), ResumeStep(l.(queue := queue), order[0]).value);
      }
    }

    // --- Entry points: a panic rolls the whole call back ---

    method Restore(s: State)
      modifies this
      ensures View() == s
    {
      registeredSteps, sequenceQueue, sequenceContexts, automationRuns := s.steps, s.queues, s.contexts, s.runs;
      balanceTriggers, sequenceTemplates, receipts, nextYield := s.triggers, s.templates, s.chains, s.nextYield;
    }

    function Snapshot(): State
      reads this
    {
      State(registeredSteps, sequenceQueue, sequenceContexts, automationRuns, balanceTriggers, sequenceTemplates,
            receipts, nextYield)
    }

    /** Register a whole plan in a namespace and start releasing it. */
    method RegisterAndStart(ns: string, calls: seq<Step>) returns (ok: bool)
      requires YieldsBelow(View()) && YieldsOwn(View(), ns)
      modifies this
      ensures ok == ReleasePlan(Project(old(View()), ns), ns, calls, old(nextYield)).Some?
      ensures View() == if ok then Put(old(View()), ns, ReleasePlan(Project(old(View()), ns), ns, calls, old(nextYield)).value)
                                   .(nextYield := old(nextYield) + |calls|)
                        else old(View())
    {
      hide Put, Project, RegisterAll, StartRelease, ChainsFit, YieldsBelow, YieldsOwn;
      var saved := Snapshot();
      ok := RegisterAllInNamespace(ns, calls);
      if !ok {
        Restore(saved);
        return;
      }
      ghost var l := RegisterAll(Project(saved, ns), ns, calls, saved.nextYield).value;
      ghost var r := StartRelease(l, IdsOf(calls));
      PutThenRegister(saved, ns, l, saved.nextYield + |calls|, r);
      ok := StartSequenceRelease(ns, IdsOf(calls));
      if !ok {
        Restore(saved);
      }
    }

    method RegisterStep(caller: string, call: Step) returns (ok: bool)
      requires YieldsBelow(View())
      modifies this
      ensures
        var o := Apply(old(View()), Event.RegisterStep(caller, call));
        ok == o.Some? && (ok ==> o.value == Outcome(View(), [])) && (!ok ==> View() == old(View()))
    {
      hide Put, Project, Register;
      if !ValidStep(call) {
        return false;
      }
      ok := RegisterStepInNamespace(ManualNamespace(caller), call);
    }

    method ExecuteSteps(authorized: bool, caller: string, calls: seq<Step>) returns (ok: bool)
      requires YieldsBelow(View()) && YieldsOwn(View(), ManualNamespace(caller))
      modifies this
      ensures
        var o := Apply(old(View()), Event.ExecuteSteps(authorized, caller, calls));
        ok == o.Some? && (ok ==> o.value == Outcome(View(), [])) && (!ok ==> View() == old(View()))
    {
      hide Put, Project, ReleasePlan;
      if !authorized || calls == [] || !UniqueIds(calls) {
        return false;
      }
      var i := 0;
      while i < |calls|
        invariant 0 <= i <= |calls|
        invariant forall j | 0 <= j < i :: ValidStep(calls[j])
      {
        if !ValidStep(calls[i]) {
          return false;
        }
        i := i + 1;
      }
      ok := RegisterAndStart(ManualNamespace(caller), calls);
    }

    method RunSequence(authorized: bool, caller: string, order: seq<string>) returns (ok: bool)
      requires YieldsOwn(View(), ManualNamespace(caller))
      modifies this
      ensures
        var o := Apply(old(View()), Event.RunSequence(authorized, caller, order));
        ok == o.Some? && (ok ==> o.value == Outcome(View(), [])) && (!ok ==> View() == old(View()))
    {
      hide Put, Project, StartRelease;
      if !authorized {
        return false;
      }
      var saved := Snapshot();
      ok := StartSequenceRelease(ManualNamespace(caller), order);
      if !ok {
        Restore(saved);
      }
    }

    method ExecuteTrigger(authorized: bool, triggerId: string, balance: u128) returns (ok: bool)
      requires YieldsBelow(View())
      requires triggerId in balanceTriggers ==>
                 YieldsOwn(View(), AutomationNamespace(triggerId, balanceTriggers[triggerId].runsStarted + 1))
      modifies this
      ensures
        var o := Apply(old(View()), Event.ExecuteTrigger(authorized, triggerId, balance));
        ok == o.Some? && (ok ==> o.value == Outcome(View(), [])) && (!ok ==> View() == old(View()))
    {
      hide Splice, SpliceChains, Set, Project, ReleasePlan;
      if !authorized || triggerId !in balanceTriggers {
        return false;
      }
      var trigger := balanceTriggers[triggerId];
      if trigger.sequenceId !in sequenceTemplates {
        return false;
      }
      var template := sequenceTemplates[trigger.sequenceId];
      if trigger.inFlight || trigger.runsStarted >= trigger.maxRuns {
        return false;
      }
      if balance < Max(trigger.minBalance, template.totalDeposit) {
        return false;
      }
      var nonce := trigger.runsStarted + 1;
      var ns := AutomationNamespace(triggerId, nonce);
      RunOf(View(), ns);
      if ns in automationRuns {
        return false;
      }
      ok := RegisterAndStart(ns, template.calls);
      if !ok {
        return;
      }
      balanceTriggers := balanceTriggers[triggerId :=
        trigger.(runsStarted := nonce, inFlight := true, lastRunNamespace := Some(ns), lastRunOutcome := Some(InFlight))];
      var run := AutomationRun(triggerId, trigger.sequenceId, nonce, InFlight, None);
      RunPart(old(View()), ns, ReleasePlan(Project(old(View()), ns), ns, template.calls, old(nextYield)).value, run);
      automationRuns := automationRuns[ns := run];
    }

    // --- Templates, triggers, pruning ---

    method ValidateSequenceTemplateInputs(calls: seq<Step>) returns (template: Option<SequenceTemplate>)
      ensures template == ValidateTemplate(calls)
    {
      var seen, total, i := {}, 0, 0;
      while i < |calls|
        invariant 0 <= i <= |calls|
        invariant forall j | 0 <= j < i :: ValidStep(calls[j])
        invariant forall id :: id in seen <==> exists j :: 0 <= j < i && calls[j].stepId == id
        invariant UniqueIds(calls[..i])
        invariant total == TotalDeposit(calls[..i]) < TWO_128
      {
        TotalGrows(calls, i);
        if !ValidStep(calls[i]) {
          return None;
        }
        if calls[i].stepId in seen {
          assert !UniqueIds(calls);
          return None;
        }
        if total + calls[i].deposit >= TWO_128 {
          return None;
        }
        UniqueGrows(calls, i);
        seen := seen + {calls[i].stepId};
        total := total + calls[i].deposit;
        i := i + 1;
      }
      assert calls[..i] == calls;
      return Some(SequenceTemplate(calls, total));
    }

    method SaveSequenceTemplate(owner: bool, sequenceId: string, calls: seq<Step>) returns (ok: bool)
      modifies this`sequenceTemplates
      ensures
        var o := Apply(old(View()), Event.SaveTemplate(owner, sequenceId, calls));
        ok == o.Some? && (ok ==> o.value == Outcome(View(), [])) && (!ok ==> View() == old(View()))
    {
      if !owner || sequenceId == "" || calls == [] {
        return false;
      }
      var template := ValidateSequenceTemplateInputs(calls);
      if template.None? {
        return false;
      }
      sequenceTemplates := sequenceTemplates[sequenceId := template.value];
      return true;
    }

    method DeleteSequenceTemplate(owner: bool, sequenceId: string) returns (ok: bool)
      modifies this`sequenceTemplates
      ensures
        var o := Apply(old(View()), Event.DeleteTemplate(owner, sequenceId));
        ok == o.Some? && (ok ==> o.value == Outcome(View(), [])) && (!ok ==> View() == old(View()))
    {
      if !owner || sequenceId !in sequenceTemplates {
        return false;
      }
      if exists t | t in balanceTriggers :: balanceTriggers[t].sequenceId == sequenceId {
        return false;
      }
      sequenceTemplates := sequenceTemplates - {sequenceId};
      return true;
    }

    method CreateBalanceTrigger(owner: bool, triggerId: string, sequenceId: string, minBalance: u128, maxRuns: u32)
      returns (ok: bool)
      modifies this`balanceTriggers
      ensures
        var o := Apply(old(View()), Event.CreateTrigger(owner, triggerId, sequenceId, minBalance, maxRuns));
        ok == o.Some? && (ok ==> o.value == Outcome(View(), [])) && (!ok ==> View() == old(View()))
    {
      if !owner || triggerId == "" || sequenceId == "" || maxRuns == 0 {
        return false;
      }
      if triggerId in balanceTriggers || sequenceId !in sequenceTemplates {
        return false;
      }
      balanceTriggers := balanceTriggers[triggerId := BalanceTrigger(sequenceId, minBalance, maxRuns, 0, false, None, None)];
      return true;
    }

    method DeleteBalanceTrigger(owner: bool, triggerId: string) returns (ok: bool)
      modifies this`balanceTriggers
      ensures
        var o := Apply(old(View()), Event.DeleteTrigger(owner, triggerId));
        ok == o.Some? && (ok ==> o.value == Outcome(View(), [])) && (!ok ==> View() == old(View()))
    {
      if !owner || triggerId !in balanceTriggers || balanceTriggers[triggerId].inFlight {
        return false;
      }
      balanceTriggers := balanceTriggers - {triggerId};
      return true;
    }

    method PruneFinishedAutomationRuns()
      modifies this`automationRuns
      ensures Apply(old(View()), PruneFinishedRuns) == Some(Outcome(View(), []))
    {
      var terminal := set ns | ns in automationRuns && automationRuns[ns].status != InFlight;
      while terminal != {}
        invariant forall ns :: ns in terminal <==> ns in automationRuns && automationRuns[ns].status != InFlight
        invariant forall ns | ns in automationRuns :: ns in old(automationRuns) && automationRuns[ns] == old(automationRuns)[ns]
        invariant forall ns | ns in old(automationRuns) && old(automationRuns)[ns].status == InFlight :: ns in automationRuns
        decreases terminal
      {
        var ns :| ns in terminal;
        automationRuns := automationRuns - {ns};
        terminal := terminal - {ns};
      }
      assert automationRuns ==
        map ns | ns in old(automationRuns) && old(automationRuns)[ns].status == InFlight :: old(automationRuns)[ns];
    }

    method TimeoutYield(y: YieldId)
      requires y in receipts && receipts[y].phase.Yielded?
      modifies this`receipts
      ensures Apply(old(View()), Event.TimeoutYield(y)) == Some(Outcome(View(), []))
    {
      hide Put, Slice, Splice;
      ChainOfNamespace(View(), y);
      AdvanceReceipt(y, TimedOut);
    }
  }

  // --- Single-field updates seen on the namespace ---

  lemma QueuePart(s: State, ns: string, queue: Option<seq<string>>)
    ensures s.(queues := Set(s.queues, ns, queue)) == Put(s, ns, Project(s, ns).(queue := queue))
  {
    hide Slice, Splice, Get, Set, ChainsOf, SpliceChains, OwnChains;
    PutProject(s, ns);
  }

  lemma ContextPart(s: State, ns: string, context: Option<map<string, Bytes>>)
    ensures s.(contexts := Set(s.contexts, ns, context)) == Put(s, ns, Project(s, ns).(context := context))
  {
    hide Slice, Splice, Get, Set, ChainsOf, SpliceChains, OwnChains;
    PutProject(s, ns);
  }

  /** Replacing or removing one chain of the namespace, seen on all chains. */
  lemma ChainSet(chains: map<YieldId, Chain>, ns: string, y: YieldId, chain: Chain)
    requires chain.ns == ns && (y in chains ==> chains[y].ns == ns)
    ensures SpliceChains(chains, ns, ChainsOf(chains, ns)[y := chain]) == chains[y := chain]
    ensures OwnChains(chains, ns, ChainsOf(chains, ns)[y := chain])
  {
  }

  lemma ChainRemoved(chains: map<YieldId, Chain>, ns: string, y: YieldId)
    requires y in chains ==> chains[y].ns == ns
    ensures SpliceChains(chains, ns, ChainsOf(chains, ns) - {y}) == chains - {y}
    ensures OwnChains(chains, ns, ChainsOf(chains, ns) - {y})
  {
  }

  lemma ChainPart(s: State, ns: string, y: YieldId, chain: Option<Chain>)
    requires chain.Some? ==> chain.value.ns == ns
    requires y in s.chains ==> s.chains[y].ns == ns
    ensures
      var l := Project(s, ns);
      var chains := if chain.Some? then l.chains[y := chain.value] else l.chains - {y};
      && s.(chains := if chain.Some? then s.chains[y := chain.value] else s.chains - {y}) == Put(s, ns, l.(chains := chains))
      && OwnChains(s.chains, ns, chains)
  {
    hide Slice, Splice, Get, Set, ChainsOf, SpliceChains, OwnChains;
    PutProject(s, ns);
    if chain.Some? {
      ChainSet(s.chains, ns, y, chain.value);
    } else {
      ChainRemoved(s.chains, ns, y);
    }
  }

  /** Finishing, on the account: nothing, or row updated, steps and queue gone,
      trigger released. */
  lemma FinishExact(s: State, ns: string, status: RunStatus, failedStepId: Option<string>)
    requires status != InFlight
    ensures
      var s' := React(s, ns, Finish(Project(s, ns), status, failedStepId));
      if ns in s.runs && s.runs[ns].status == InFlight then
        var run := s.runs[ns].(status := status, failedStepId := failedStepId);
        s' == s.(steps := Splice(s.steps, ns, map[]), queues := s.queues - {ns}, runs := s.runs[ns := run],
                 triggers := ReleaseTrigger(s.triggers, Some(s.runs[ns]), Some(run)))
      else s' == s
  {
    hide Slice, Splice, ChainsOf, SpliceChains, OwnChains;
    PutProject(s, ns);
    ContextPart(s, ns, Project(s, ns).context);
  }

  // --- Composing updates of one namespace ---

  /** A namespace whose run did not move is just put back. */
  lemma ReactIsPut(s: State, ns: string, l: Local)
    requires l.run == Get(s.runs, ns)
    ensures React(s, ns, l) == Put(s, ns, l)
  {
    hide Slice, Splice, ChainsOf, SpliceChains, OwnChains;
  }

  lemma ReactAfterPut(s: State, ns: string, l: Local, l': Local)
    requires ChainsFit(s, ns, l) && l.run == Get(s.runs, ns)
    ensures Project(Put(s, ns, l), ns) == l
    ensures React(Put(s, ns, l), ns, l') == React(s, ns, l')
  {
    hide Slice, Splice, ChainsOf, SpliceChains, OwnChains;
    ProjectPut(s, ns, l);
    PutPut(s, ns, l, l');
    GetAfterSet(s.runs, ns, l.run, ns);
  }

  lemma ClearAfterReact(s: State, ns: string, l: Local)
    requires ChainsFit(s, ns, l)
    ensures
      var s' := React(s, ns, l);
      Put(s', ns, Project(s', ns).(context := None)) == React(s, ns, l.(context := None))
  {
    hide Slice, Splice, Get, Set, ChainsOf, SpliceChains, OwnChains;
    ProjectPut(s, ns, l);
    PutPut(s, ns, l, l.(context := None));
    var s' := React(s, ns, l);
    assert Project(s', ns) == Project(Put(s, ns, l), ns);
  }

  lemma QueueFits(s: State, ns: string, l: Local)
    requires l.chains == Project(s, ns).chains && l.run == Project(s, ns).run
    ensures ChainsFit(s, ns, l) && l.run == Get(s.runs, ns)
    ensures Project(Put(s, ns, l), ns) == l
  {
    hide Slice, Splice, Get, Set, ChainsOf, SpliceChains, OwnChains;
    PutProject(s, ns);
    ProjectPut(s, ns, l);
  }

  function HaltedPart(l: Local, stepId: string): Local {
    l.(steps := l.steps - {stepId}, queue := None, context := None)
  }

  lemma HaltParts(s: State, ns: string, stepId: string)
    ensures s.(steps := s.steps - {StepKey(ns, stepId)}, queues := s.queues - {ns}, contexts := s.contexts - {ns})
            == Put(s, ns, HaltedPart(Project(s, ns), stepId))
    ensures ChainsFit(s, ns, HaltedPart(Project(s, ns), stepId))
    ensures Project(s, ns).run == Get(s.runs, ns)
  {
    hide Slice, Splice, ChainsOf, SpliceChains, OwnChains;
    PutProject(s, ns);
    SpliceOfUpdate(s.steps, ns, stepId, None);
  }

  lemma ClearedParts(s: State, ns: string, l: Local)
    requires ChainsFit(s, ns, l) && l.run == Get(s.runs, ns)
    ensures
      var s1 := Put(s, ns, l);
      s1.(queues := s1.queues - {ns}, contexts := s1.contexts - {ns}) == Put(s, ns, l.(queue := None, context := None))
    ensures ChainsFit(s, ns, l.(queue := None, context := None))
  {
    hide Slice, Splice, Get, ChainsOf, SpliceChains, OwnChains;
    SetAfterSet(s.queues, ns, l.queue, None);
    SetAfterSet(s.contexts, ns, l.context, None);
  }

  /** A chain belongs to the state of its own namespace. */
  lemma ChainOfNamespace(s: State, y: YieldId)
    requires y in s.chains
    ensures
      var l := Project(s, s.chains[y].ns);
      && y in l.chains && l.chains[y] == s.chains[y]
      && (s.chains[y].stepId in l.steps <==> StepKey(s.chains[y].ns, s.chains[y].stepId) in s.steps)
      && (s.chains[y].stepId in l.steps ==>
            l.steps[s.chains[y].stepId] == s.steps[StepKey(s.chains[y].ns, s.chains[y].stepId)])
      && l.run == Get(s.runs, s.chains[y].ns)
      && ChainsFit(s, s.chains[y].ns, Drop(l, y))
  {
    hide Slice, Splice;
    SliceAt(s.steps, s.chains[y].ns, s.chains[y].stepId);
  }

  /** A resolving step: its registration and its chain go together. */
  function ResolvedPart(l: Local, y: YieldId): Local
    requires y in l.chains
  {
    Drop(l, y).(steps := l.steps - {l.chains[y].stepId})
  }

  lemma ResolvedParts(s: State, y: YieldId)
    requires y in s.chains
    ensures
      var ns := s.chains[y].ns;
      var l := Project(s, ns);
      && y in l.chains
      && s.(steps := s.steps - {StepKey(ns, s.chains[y].stepId)}, chains := s.chains - {y}) == Put(s, ns, ResolvedPart(l, y))
      && ChainsFit(s, ns, ResolvedPart(l, y)) && ResolvedPart(l, y).run == Get(s.runs, ns)
      && (YieldsOwn(s, ns) ==> YieldsOwn(Put(s, ns, ResolvedPart(l, y)), ns))
  {
    hide Slice, Splice;
    var ns := s.chains[y].ns;
    SpliceOfUpdate(s.steps, ns, s.chains[y].stepId, None);
    ChainPart(s, ns, y, None);
    PutProject(s, ns);
  }

  lemma SaveFits(s: State, ns: string, l: Local, spec: Option<SaveResult>, bytes: Bytes)
    requires ChainsFit(s, ns, l) && l.run == Get(s.runs, ns)
    ensures
      var l' := Sequencer.SaveStepResult(l, spec, bytes);
      && Project(Put(s, ns, l), ns) == l
      && Put(Put(s, ns, l), ns, l') == Put(s, ns, l')
      && ChainsFit(s, ns, l') && l'.run == Get(s.runs, ns)
      && (YieldsOwn(Put(s, ns, l), ns) ==> YieldsOwn(Put(s, ns, l'), ns))
  {
    hide Slice, Splice, ChainsOf, SpliceChains, OwnChains, Get, Set;
    var l' := Sequencer.SaveStepResult(l, spec, bytes);
    ProjectPut(s, ns, l);
    PutPut(s, ns, l, l');
    assert Put(s, ns, l').steps == Put(s, ns, l).steps && Put(s, ns, l').chains == Put(s, ns, l).chains;
    if YieldsOwn(Put(s, ns, l), ns) {
      YieldsOwnSame(Put(s, ns, l), Put(s, ns, l'), ns);
    }
  }

  lemma FinishFits(s: State, ns: string, l: Local, status: RunStatus, failedStepId: Option<string>)
    requires ChainsFit(s, ns, l)
    ensures ChainsFit(s, ns, Finish(l, status, failedStepId))
  {
    hide OwnChains;
  }

  lemma YieldsOwnSame(s: State, s': State, ns: string)
    requires YieldsOwn(s, ns) && s'.steps == s.steps && s'.chains == s.chains
    ensures YieldsOwn(s', ns)
  {
  }

  lemma ResumeKeepsRun(l: Local, stepId: string)
    ensures ResumeStep(l, stepId).Some? ==> ResumeStep(l, stepId).value.run == l.run
  {
  }

  lemma RegisteredParts(s: State, ns: string, call: Step)
    requires YieldsBelow(s) && call.stepId !in Project(s, ns).steps
    ensures
      var y := s.nextYield;
      var l := Register(Project(s, ns), ns, call, y).value;
      && s.(steps := s.steps[StepKey(ns, call.stepId) := RegisteredStep(y, call)],
            chains := s.chains[y := Chain(ns, call.stepId, Yielded)]) == Put(s, ns, l)
      && ChainsFit(s, ns, l)
  {
    hide Slice, Splice;
    SpliceOfUpdate(s.steps, ns, call.stepId, Some(RegisteredStep(s.nextYield, call)));
    ChainPart(s, ns, s.nextYield, Some(Chain(ns, call.stepId, Yielded)));
    PutProject(s, ns);
  }

  /** Registering on top of an updated namespace. */
  lemma PutThenRegister(s: State, ns: string, l: Local, y: YieldId, r: Option<Local>)
    requires ChainsFit(s, ns, l)
    ensures
      var s1 := Put(s, ns, l).(nextYield := y);
      && Project(s1, ns) == l
      && (r.Some? ==> Put(s1, ns, r.value) == Put(s, ns, r.value).(nextYield := y))
      && (r.Some? && ChainsFit(s1, ns, r.value) ==> ChainsFit(s, ns, r.value))
  {
    hide Slice, Splice, Get, Set;
    ProjectPut(s, ns, l);
    var s1 := Put(s, ns, l).(nextYield := y);
    assert Project(s1, ns) == Project(Put(s, ns, l), ns);
    if r.Some? {
      PutPut(s, ns, l, r.value);
      assert Put(s1, ns, r.value) == Put(Put(s, ns, l), ns, r.value).(nextYield := y);
      if ChainsFit(s1, ns, r.value) {
        forall c | c in r.value.chains
          ensures r.value.chains[c].ns == ns && (c in s.chains ==> s.chains[c].ns == ns)
        {
          assert forall f | f in s.chains && s.chains[f].ns != ns && f !in l.chains :: f in s1.chains && s1.chains[f].ns != ns;
        }
      }
    }
  }

  lemma OrderRegistered(s: State, ns: string, order: seq<string>)
    ensures forall i | 0 <= i < |order| :: order[i] in Project(s, ns).steps <==> StepKey(ns, order[i]) in s.steps
  {
    forall i | 0 <= i < |order|
      ensures order[i] in Project(s, ns).steps <==> StepKey(ns, order[i]) in s.steps
    {
      SliceAt(s.steps, ns, order[i]);
    }
  }

  lemma QueueOf(s: State, ns: string)
    ensures Project(s, ns).queue.Some? <==> ns in s.queues
  {
  }

  lemma RunOf(s: State, ns: string)
    ensures Project(s, ns).run.Some? <==> ns in s.runs
  {
  }

  lemma RunPart(s: State, ns: string, l: Local, run: AutomationRun)
    ensures Put(s, ns, l.(run := Some(run))) == Put(s, ns, l).(runs := Put(s, ns, l).runs[ns := run])
  {
    hide Splice, SpliceChains;
    SetAfterSet(s.runs, ns, l.run, Some(run));
  }

  lemma UniqueGrows(calls: seq<Step>, i: nat)
    requires i < |calls| && UniqueIds(calls[..i])
    requires !exists j :: 0 <= j < i && calls[j].stepId == calls[i].stepId
    ensures UniqueIds(calls[..i + 1])
  {
    var front := calls[..i + 1];
    forall m, n | 0 <= m < n < |front|
      ensures front[m].stepId != front[n].stepId
    {
      if n < i {
        assert calls[..i][m].stepId != calls[..i][n].stepId;
      } else {
        assert calls[m].stepId != calls[i].stepId;
      }
    }
  }

  lemma TotalGrows(calls: seq<Step>, i: nat)
    requires i < |calls|
    ensures TotalDeposit(calls[..i + 1]) == TotalDeposit(calls[..i]) + calls[i].deposit
    ensures TotalDeposit(calls[..i + 1]) <= TotalDeposit(calls)
    decreases |calls| - i
  {
    assert calls[..i + 1][..i] == calls[..i];
    if i + 1 < |calls| {
      TotalGrows(calls, i + 1);
    } else {
      assert calls[..i + 1] == calls;
    }
  }
}

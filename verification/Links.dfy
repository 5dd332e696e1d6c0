/** What every handler keeps in any namespace, manual or automated: registered
    steps stay tied to their own receipts, and chains keep their namespace. */
module Links {
  import opened Prelude
  import opened Types
  import opened Materialize
  import opened Sequencer

  /** Every registered step has its own chain outstanding, and a chain waiting for
      a gate belongs to a gated step. */
  ghost predicate Linked(l: Local) {
    forall id | id in l.steps ::
      && l.steps[id].yieldId in l.chains && l.chains[l.steps[id].yieldId].stepId == id
      && (l.chains[l.steps[id].yieldId].phase.Gating? ==> l.steps[id].call.preGate.Some?)
  }

  /** No chain appears and none changes its namespace or step. */
  ghost predicate ChainsOnlyLeave(l: Local, l': Local) {
    forall y | y in l'.chains ::
      y in l.chains && l'.chains[y].ns == l.chains[y].ns && l'.chains[y].stepId == l.chains[y].stepId
  }

  /** The run either stays as it is or ends. */
  ghost predicate RunStaysOrEnds(l: Local, l': Local) {
    || l'.run == l.run
    || (RunInFlight(l) && l'.run.Some? && l'.run.value.status != InFlight
        && l'.run.value.triggerId == l.run.value.triggerId)
  }

  ghost predicate Kept(l: Local, l': Local) {
    Linked(l') && ChainsOnlyLeave(l, l') && RunStaysOrEnds(l, l')
  }

  lemma FinishKept(l: Local, l1: Local, status: RunStatus, failedStepId: Option<string>)
    requires Kept(l, l1) && l1.run == l.run && status != InFlight
    ensures Kept(l, Finish(l1, status, failedStepId))
    ensures Kept(l, Finish(l1, status, failedStepId).(context := None))
  {
  }

  /** A step and its chain go together. */
  lemma RemoveKept(l: Local, y: YieldId, queue: Option<seq<string>>, context: Option<map<string, Bytes>>)
    requires Linked(l) && y in l.chains
    ensures
      var l1 := Drop(l, y).(steps := l.steps - {l.chains[y].stepId}, queue := queue, context := context);
      Kept(l, l1) && l1.run == l.run
  {
  }

  lemma HaltKept(l: Local, y: YieldId, status: RunStatus)
    requires Linked(l) && y in l.chains && status != InFlight
    ensures Kept(l, Halt(Drop(l, y), l.chains[y].stepId, status))
  {
    RemoveKept(l, y, None, None);
    FinishKept(l, Drop(l, y).(steps := l.steps - {l.chains[y].stepId}, queue := None, context := None),
               status, Some(l.chains[y].stepId));
  }

  lemma AdvanceKept(l: Local, y: YieldId, phase: Phase)
    requires Linked(l) && y in l.chains
    requires phase.Gating? ==> l.chains[y].stepId in l.steps && l.steps[l.chains[y].stepId].call.preGate.Some?
    ensures Kept(l, Advance(l, y, phase))
  {
  }

  lemma DropKept(l: Local, y: YieldId)
    requires Linked(l) && y in l.chains
    requires l.chains[y].stepId in l.steps ==> l.steps[l.chains[y].stepId].yieldId != y
    ensures Kept(l, Drop(l, y))
  {
  }

  lemma DispatchKept(l: Local, y: YieldId)
    requires Linked(l) && y in l.chains && l.chains[y].stepId in l.steps
    ensures Kept(l, Dispatch(l, y).local)
  {
    match MaterializeStep(l.steps[l.chains[y].stepId].call, SavedResults(l))
    case Ok(call) => AdvanceKept(l, y, Dispatched(call));
    case Err(_) => HaltKept(l, y, DownstreamFailed);
  }

  lemma ResumeKept(l: Local, l1: Local, stepId: string)
    requires Kept(l, l1) && ResumeStep(l1, stepId).Some?
    ensures Kept(l, ResumeStep(l1, stepId).value)
  {
  }

  lemma ProgressKept(l: Local, l1: Local)
    requires Kept(l, l1) && l1.run == l.run
    ensures Kept(l, Progress(l1))
  {
    hide Kept;
    var (l2, next) := TakeNextQueuedStep(l1);
    QueueKept(l, l1, l2.queue, l1.context);
    if next.None? {
      FinishKept(l, l2, Succeeded, None);
    } else {
      QueueKept(l, l1, None, None);
      if ResumeStep(l2, next.value).Some? {
        ResumeKept(l, l2, next.value);
      } else {
        FinishKept(l, l2.(queue := None, context := None), ResumeFailed, next);
      }
    }
  }

  lemma QueueKept(l: Local, l1: Local, queue: Option<seq<string>>, context: Option<map<string, Bytes>>)
    requires Kept(l, l1)
    ensures Kept(l, l1.(queue := queue, context := context))
    ensures Kept(l, l1.(queue := queue))
    ensures Kept(l, l1.(context := context))
  {
  }

  lemma ResolvedKept(l: Local, y: YieldId, reply: Reply)
    requires Linked(l) && y in l.chains
    ensures Kept(l, OnStepResolved(l, y, reply))
  {
    hide Kept;
    var stepId := l.chains[y].stepId;
    var spec := if stepId in l.steps then l.steps[stepId].call.saveResult else None;
    var l1 := Drop(l, y).(steps := l.steps - {stepId});
    RemoveKept(l, y, l.queue, l.context);
    assert l1 == Drop(l, y).(steps := l.steps - {stepId}, queue := l.queue, context := l.context);
    match CheckedReply(reply)
    case Some(bytes) =>
      var l2 := SaveStepResult(l1, spec, bytes);
      QueueKept(l, l1, l1.queue, l2.context);
      assert l2 == l1.(context := l2.context);
      ProgressKept(l, l2);
    case None =>
      QueueKept(l, l1, None, None);
      FinishKept(l, l1.(queue := None, context := None), DownstreamFailed, Some(stepId));
  }

  /** Delivering any receipt in any namespace. */
  lemma DeliverKept(l: Local, y: YieldId, reply: Reply)
    requires Linked(l) && y in l.chains && !l.chains[y].phase.Yielded?
    ensures Kept(l, Deliver(l, y, reply).local)
  {
    hide Kept, ChainsOnlyLeave, RunStaysOrEnds;
    var stepId := l.chains[y].stepId;
    match l.chains[y].phase
    case Dispatched(call) =>
      if !call.policy.Asserted? {
        ResolvedKept(l, y, reply);
      } else if CheckedReply(reply).Some? {
        AdvanceKept(l, y, Postchecking(call.policy.expectedReturn));
      } else {
        AdvanceKept(l, y, Resolving(Failure));
      }
    case Postchecking(expectedReturn) => AdvanceKept(l, y, Resolving(PostcheckOutcome(expectedReturn, reply)));
    case Resolving(outcome) => ResolvedKept(l, y, outcome);
    case Gating =>
      if stepId !in l.steps || l.steps[stepId].call.preGate.None? {
        DropKept(l, y);
      } else if GatePasses(l.steps[stepId].call.preGate.value, reply) {
        DispatchKept(l, y);
      } else {
        HaltKept(l, y, DownstreamFailed);
      }
    case Resumed => WakeKept(l, y);
    case TimedOut => WakeKept(l, y);
    case Yielded =>
  }

  lemma WakeKept(l: Local, y: YieldId)
    requires Linked(l) && y in l.chains && !l.chains[y].phase.Gating?
    ensures Kept(l, OnStepResumed(l, y).local)
  {
    hide Kept;
    var stepId := l.chains[y].stepId;
    if stepId !in l.steps {
      DropKept(l, y);
    } else if l.chains[y].phase.TimedOut? {
      HaltKept(l, y, ResumeFailed);
    } else if l.steps[stepId].call.preGate.Some? {
      AdvanceKept(l, y, Gating);
    } else {
      DispatchKept(l, y);
    }
  }

  lemma TimeOutKept(l: Local, y: YieldId)
    requires Linked(l) && y in l.chains
    ensures Kept(l, TimeOut(l, y))
  {
  }

  // --- Registration ---

  /** New chains start at a fresh yield id and belong to the namespace. */
  ghost predicate Grown(l: Local, l': Local, ns: string, y: YieldId, count: nat) {
    && Linked(l') && l'.run == l.run && l'.context == l.context
    && forall z | z in l'.chains ::
         if z in l.chains then l'.chains[z].ns == l.chains[z].ns else l'.chains[z].ns == ns && y <= z < y + count
  }

  lemma RegisterGrown(l: Local, ns: string, call: Step, y: YieldId)
    requires Linked(l) && y !in l.chains && Register(l, ns, call, y).Some?
    ensures Grown(l, Register(l, ns, call, y).value, ns, y, 1)
  {
  }

  lemma {:induction false} RegisterAllGrown(l: Local, ns: string, calls: seq<Step>, y: YieldId)
    requires Linked(l) && (forall z | z in l.chains :: z < y) && RegisterAll(l, ns, calls, y).Some?
    ensures Grown(l, RegisterAll(l, ns, calls, y).value, ns, y, |calls|)
    decreases |calls|
  {
    if calls != [] {
      var l1 := Register(l, ns, calls[0], y).value;
      RegisterGrown(l, ns, calls[0], y);
      RegisterAllGrown(l1, ns, calls[1..], y + 1);
      assert RegisterAll(l, ns, calls, y) == RegisterAll(l1, ns, calls[1..], y + 1);
    }
  }

  lemma StartKept(l: Local, order: seq<string>)
    requires Linked(l) && StartRelease(l, order).Some?
    ensures Kept(l, StartRelease(l, order).value)
    ensures StartRelease(l, order).value.run == l.run && StartRelease(l, order).value.context == l.context
  {
    hide Kept;
    KeptSame(l);
    var queue := if |order| > 1 then Some(order[1..]) else None;
    QueueKept(l, l, queue, l.context);
    ResumeKept(l, l.(queue := queue), order[0]);
  }

  lemma KeptSame(l: Local)
    requires Linked(l)
    ensures Kept(l, l)
  {
  }

  lemma ReleasePlanGrown(l: Local, ns: string, calls: seq<Step>, y: YieldId)
    requires Linked(l) && (forall z | z in l.chains :: z < y) && ReleasePlan(l, ns, calls, y).Some?
    ensures Grown(l, ReleasePlan(l, ns, calls, y).value, ns, y, |calls|)
  {
    hide Linked;
    RegisterAllGrown(l, ns, calls, y);
    StartKept(RegisterAll(l, ns, calls, y).value, IdsOf(calls));
  }
}

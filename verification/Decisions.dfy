/** What decides whether a step goes on, said in terms of the reply that came in and
    the step as it was declared: the gate, the target's answer and the postcheck; and
    what the account is left with when a step does not go on. */
module Decisions {
  import opened Prelude
  import opened Types
  import opened PreGates
  import opened Materialize
  import opened NamespaceKeys
  import opened Sequencer
  import opened RunInvariant
  import opened RunShapes
  import opened RunProofs
  import opened Account
  import opened Protocol
  import opened ProtocolSteps
  import opened Theorems
  import opened Completion
  import opened AssertedResults

  // --- The terms ---

  /** A callback gets to see the bytes: a success of at most 16 KiB. */
  predicate Readable(reply: Reply) {
    reply.Success? && |reply.bytes| <= 16384
  }

  /** The reply denotes a value no less than the minimum and no more than the maximum,
      whichever of them the gate declares. */
  predicate Admits(gate: PreGate, reply: Reply) {
    Readable(reply) &&
    var value := MeaningOf(reply.bytes, gate.comparison);
    && !value.Unreadable?
    && (gate.minBytes.Some? ==> AtMost(MeaningOf(gate.minBytes.value, gate.comparison), value))
    && (gate.maxBytes.Some? ==> AtMost(value, MeaningOf(gate.maxBytes.value, gate.comparison)))
  }

  /** The arguments a step goes out with, if they can be made. */
  function Filled(step: Step, saved: map<string, Bytes>): Option<Bytes> {
    if step.argsTemplate.None? then Some(step.args)
    else
      match MaterializeArgs(step.argsTemplate.value.template, step.argsTemplate.value.substitutions, saved)
      case Ok(args) => Some(args)
      case Err(_) => None
  }

  /** The request is the target call of the step with these arguments: the target's own
      method, or the adapter's, which is handed the whole call and 320 TGas on top. */
  predicate CallsTarget(r: Request, step: Step, args: Bytes) {
    r.TargetCall? && r.stepId == step.stepId && r.deposit == step.deposit &&
    if step.policy.Adapter? then
      && r.receiver == step.policy.adapterId && r.methodName == step.policy.adapterMethod && r.gas == step.gas + 320
      && r.payload == Wrapped(step.targetId, step.methodName, args, step.deposit, step.gas)
    else
      && r.receiver == step.targetId && r.methodName == step.methodName && r.gas == step.gas
      && r.payload == Plain(args)
  }

  /** The request asks the step's gate. */
  predicate AsksGate(r: Request, step: Step) {
    && r.GateCall? && r.stepId == step.stepId && step.preGate.Some?
    && r.receiver == step.preGate.value.gateId && r.methodName == step.preGate.value.gateMethod
    && r.args == step.preGate.value.gateArgs && r.gas == step.preGate.value.gateGas
  }

  /** The request is the step's postcheck. */
  predicate AsksCheck(r: Request, step: Step) {
    && r.CheckCall? && r.stepId == step.stepId && step.policy.Asserted?
    && r.receiver == step.policy.assertionId && r.methodName == step.policy.assertionMethod
    && r.args == step.policy.assertionArgs && r.gas == step.policy.assertionGas
  }

  /** The namespace after step id was given up on: its receipt, its registration, the
      queue and the saved values are gone, and a run in flight is over with this status. */
  ghost predicate GivenUp(l: Local, l': Local, y: YieldId, id: string, status: RunStatus) {
    && l'.chains == l.chains - {y} && l'.queue == None && l'.context == None
    && if l.run.Some? && l.run.value.status == InFlight then
         && l'.steps == map[]
         && l'.run == Some(l.run.value.(status := status, failedStepId := Some(id)))
       else l'.steps == l.steps - {id} && l'.run == l.run
  }

  /** The namespace with nothing changed but where the chain stands. */
  function Moved(l: Local, y: YieldId, phase: Phase): Local
    requires y in l.chains
  {
    l.(chains := l.chains[y := Chain(l.chains[y].ns, l.chains[y].stepId, phase)])
  }

  // --- What one delivery does in any namespace ---

  lemma AdmitsIsPasses(gate: PreGate, reply: Reply)
    ensures Admits(gate, reply) <==> GatePasses(gate, reply)
  {
    hide EvaluatePreGate, MeaningOf, AtMost;
    if Readable(reply) {
      InRangeIff(reply.bytes, gate.minBytes, gate.maxBytes, gate.comparison);
    }
  }

  /** A step that is let through is called, or given up on if its arguments cannot be made. */
  ghost predicate Goes(l: Local, r: Reaction, y: YieldId)
    requires y in l.chains && l.chains[y].stepId in l.steps
  {
    var id := l.chains[y].stepId;
    var step := l.steps[id].call;
    match Filled(step, SavedResults(l))
    case Some(args) =>
      && r.local == Moved(l, y, Dispatched(step.(args := args)))
      && |r.sent| == 1 && CallsTarget(r.sent[0], step, args)
    case None => r.sent == [] && GivenUp(l, r.local, y, id, DownstreamFailed)
  }

  lemma HaltGivesUp(l: Local, y: YieldId, status: RunStatus)
    requires y in l.chains
    ensures GivenUp(l, Halt(Drop(l, y), l.chains[y].stepId, status), y, l.chains[y].stepId, status)
  {
  }

  lemma DispatchGoes(l: Local, y: YieldId)
    requires y in l.chains && l.chains[y].stepId in l.steps
    ensures Goes(l, Dispatch(l, y), y)
  {
    hide Halt, GivenUp, MaterializeArgs;
    HaltGivesUp(l, y, DownstreamFailed);
  }

  /** The wake-up receipt: a timed-out step is given up on, a gated one asks its gate, any
      other one goes; a step no longer registered leaves nothing but the receipt's end. */
  lemma WakeUpDecides(l: Local, y: YieldId, reply: Reply)
    requires y in l.chains && (l.chains[y].phase.Resumed? || l.chains[y].phase.TimedOut?)
    ensures
      var r, id := Deliver(l, y, reply), l.chains[y].stepId;
      if id !in l.steps then r.sent == [] && r.local == l.(chains := l.chains - {y})
      else if l.chains[y].phase.TimedOut? then r.sent == [] && GivenUp(l, r.local, y, id, ResumeFailed)
      else if l.steps[id].call.preGate.Some? then
        r.local == Moved(l, y, Gating) && |r.sent| == 1 && AsksGate(r.sent[0], l.steps[id].call)
      else Goes(l, r, y)
  {
    hide Goes, GivenUp, Dispatch, Halt;
    HaltGivesUp(l, y, ResumeFailed);
    if l.chains[y].stepId in l.steps {
      DispatchGoes(l, y);
    }
  }

  /** The gate's answer. */
  lemma GateReplyDecides(l: Local, y: YieldId, reply: Reply)
    requires y in l.chains && l.chains[y].phase.Gating?
    ensures
      var r, id := Deliver(l, y, reply), l.chains[y].stepId;
      if id !in l.steps || l.steps[id].call.preGate.None? then r.sent == [] && r.local == l.(chains := l.chains - {y})
      else if Admits(l.steps[id].call.preGate.value, reply) then Goes(l, r, y)
      else r.sent == [] && GivenUp(l, r.local, y, id, DownstreamFailed)
  {
    hide Goes, GivenUp, Dispatch, Halt, Admits, GatePasses;
    HaltGivesUp(l, y, DownstreamFailed);
    var id := l.chains[y].stepId;
    if id in l.steps && l.steps[id].call.preGate.Some? {
      DispatchGoes(l, y);
      AdmitsIsPasses(l.steps[id].call.preGate.value, reply);
    }
  }

  /** An asserted step's target has answered: the postcheck is asked iff the answer is
      readable, whatever it says. */
  lemma AssertedReplyDecides(l: Local, y: YieldId, reply: Reply)
    requires y in l.chains && l.chains[y].phase.Dispatched? && l.chains[y].phase.call.policy.Asserted?
    ensures
      var r, call := Deliver(l, y, reply), l.chains[y].phase.call;
      if Readable(reply) then
        && r.local == Moved(l, y, Postchecking(call.policy.expectedReturn))
        && |r.sent| == 1 && AsksCheck(r.sent[0], call)
      else r.sent == [] && r.local == Moved(l, y, Resolving(Failure))
  {
  }

  /** The postcheck has answered: what is passed on is a success iff the answer is
      readable and is exactly the expected bytes. */
  lemma CheckReplyDecides(l: Local, y: YieldId, reply: Reply)
    requires y in l.chains && l.chains[y].phase.Postchecking?
    ensures
      var r := Deliver(l, y, reply);
      r.sent == [] &&
      r.local == Moved(l, y, Resolving(
        if Readable(reply) && reply.bytes == l.chains[y].phase.expectedReturn then Success("") else Failure))
  {
  }

  /** The answer a step is judged by when its last receipt comes in. */
  function Verdict(phase: Phase, reply: Reply): Option<Reply> {
    match phase
    case Dispatched(call) => if call.policy.Asserted? then None else Some(reply)
    case Resolving(outcome) => Some(outcome)
    case _ => None
  }

  /** The last receipt of a step: unless the answer is readable, the step is given up on;
      it sends nothing either way. */
  lemma LastReplyDecides(l: Local, y: YieldId, reply: Reply)
    requires y in l.chains && Verdict(l.chains[y].phase, reply).Some?
    ensures
      var r, id := Deliver(l, y, reply), l.chains[y].stepId;
      r.sent == [] && (!Readable(Verdict(l.chains[y].phase, reply).value) ==> GivenUp(l, r.local, y, id, DownstreamFailed))
  {
    hide Progress;
  }

  // --- What the account is left with ---

  /** The step and all that goes with it have left the account. */
  ghost predicate LeftAccount(s: State, s': State, y: YieldId, ns: string, id: string) {
    && y !in s'.chains && StepKey(ns, id) !in s'.steps && ns !in s'.queues && ns !in s'.contexts
    && (RowInFlight(s, ns) ==>
          && Cleared(s', ns)
          && ns in s'.runs && s'.runs[ns] == s.runs[ns].(status := DownstreamFailed, failedStepId := Some(id)))
    && (!RowInFlight(s, ns) ==> Get(s'.runs, ns) == Get(s.runs, ns))
  }

  lemma QueueProjected(s: State, ns: string)
    ensures Project(s, ns).queue == Get(s.queues, ns) && Project(s, ns).context == Get(s.contexts, ns)
    ensures Project(s, ns).run == Get(s.runs, ns)
    ensures forall y :: y in Project(s, ns).chains <==> y in s.chains && s.chains[y].ns == ns
    ensures forall y | y in Project(s, ns).chains :: Project(s, ns).chains[y] == s.chains[y]
  {
    hide Slice;
  }

  lemma NothingInside(s: State, ns: string)
    requires Project(s, ns).steps == map[]
    ensures forall key | key in s.steps :: !InNamespace(key, ns)
  {
    hide Slice, ChainsOf;
    forall key | key in s.steps
      ensures !InNamespace(key, ns)
    {
      if InNamespace(key, ns) {
        KeyDecodes(key, ns);
        SliceAt(s.steps, ns, StepIdOf(key, ns));
      }
    }
  }

  lemma GivenUpLeaves(s: State, s': State, y: YieldId, ns: string, id: string)
    requires GivenUp(Project(s, ns), Project(s', ns), y, id, DownstreamFailed)
    requires y in s.chains && (y in s'.chains ==> s'.chains[y].ns == ns)
    ensures LeftAccount(s, s', y, ns, id)
  {
    hide Project, InNamespace, StepKey;
    QueueProjected(s, ns);
    QueueProjected(s', ns);
    StepProjected(s', ns, id);
    if RowInFlight(s, ns) {
      NothingInside(s', ns);
    }
  }

  /** Delivering a receipt: what is sent, and what the namespace becomes. */
  lemma Delivered(w: World, y: YieldId, reply: Reply)
    requires Reachable(w) && y in w.state.chains && !w.state.chains[y].phase.Yielded?
    ensures
      var ns, e := w.state.chains[y].ns, DeliverReceipt(y, reply);
      var l := Project(w.state, ns);
      && HashFree(ns) && y in l.chains && l.chains[y] == w.state.chains[y]
      && Apply(w.state, e).Some? && Apply(w.state, e).value.sent == Deliver(l, y, reply).sent
      && Project(Next(w, e).state, ns) == Deliver(l, y, reply).local
      && (y in Next(w, e).state.chains ==> Next(w, e).state.chains[y].ns == ns)
      && SavedResults(l) == (if ns in w.state.contexts then w.state.contexts[ns] else map[])
  {
    hide Sound, Reachable, HashFree, Next, Project, Policed, React, Deliver;
    var ns, e := w.state.chains[y].ns, DeliverReceipt(y, reply);
    ReachablePoliced(w, y);
    QueueProjected(w.state, ns);
    NextProjects(w, e, ns);
    if y in Next(w, e).state.chains {
      SoundParts(w);
      NextOrigins(w, e, y);
    }
  }

  lemma SoundParts(w: World)
    requires Sound(w)
    ensures Invariant(w) && FreshNamespaces(w.state)
  {
  }

  /** The gate of a registered step, in any reachable world: the step's target is called,
      with arguments made from what the namespace has saved, exactly if the answer is a
      success of at most 16 KiB that denotes a value between the declared bounds and the
      arguments can be made. In every other case nothing is sent and the step is given up
      on, with the run it belongs to. */
  lemma GateDecides(w: World, y: YieldId, reply: Reply)
    requires Reachable(w) && y in w.state.chains && w.state.chains[y].phase.Gating?
    requires
      var key := StepKey(w.state.chains[y].ns, w.state.chains[y].stepId);
      key in w.state.steps && w.state.steps[key].call.preGate.Some?
    ensures
      var s, ns, id, e := w.state, w.state.chains[y].ns, w.state.chains[y].stepId, DeliverReceipt(y, reply);
      var step, saved := s.steps[StepKey(ns, id)].call, if ns in s.contexts then s.contexts[ns] else map[];
      var s', args := Next(w, e).state, Filled(step, saved);
      && Apply(s, e).Some?
      && var sent := Apply(s, e).value.sent;
         if Admits(step.preGate.value, reply) && args.Some? then
           && |sent| == 1 && CallsTarget(sent[0], step, args.value)
           && y in s'.chains && s'.chains[y] == Chain(ns, id, Dispatched(step.(args := args.value)))
           && StepKey(ns, id) in s'.steps && s'.steps[StepKey(ns, id)] == s.steps[StepKey(ns, id)]
           && Get(s'.queues, ns) == Get(s.queues, ns) && Get(s'.contexts, ns) == Get(s.contexts, ns)
           && Get(s'.runs, ns) == Get(s.runs, ns)
         else sent == [] && LeftAccount(s, s', y, ns, id)
  {
    hide Reachable, HashFree, Next, Project, Deliver, Admits, CallsTarget, GivenUp, LeftAccount, StepKey, Filled, Apply;
    var s, ns, id := w.state, w.state.chains[y].ns, w.state.chains[y].stepId;
    var s' := Next(w, DeliverReceipt(y, reply)).state;
    Delivered(w, y, reply);
    StepProjected(s, ns, id);
    GateReplyDecides(Project(s, ns), y, reply);
    QueueProjected(s, ns);
    QueueProjected(s', ns);
    StepProjected(s', ns, id);
    if GivenUp(Project(s, ns), Project(s', ns), y, id, DownstreamFailed) {
      GivenUpLeaves(s, s', y, ns, id);
    }
  }

  /** What a receipt may send: the gate call or the target call of the step registered for
      it, made from these saved values, or the postcheck of the call it had sent before. */
  ghost predicate SentFor(r: Request, phase: Phase, step: Option<Step>, saved: map<string, Bytes>) {
    || (step.Some? && AsksGate(r, step.value))
    || (step.Some? && Filled(step.value, saved).Some? && CallsTarget(r, step.value, Filled(step.value, saved).value))
    || (phase.Dispatched? && AsksCheck(r, phase.call))
  }

  lemma LocalSends(l: Local, y: YieldId, reply: Reply)
    requires y in l.chains && !l.chains[y].phase.Yielded?
    ensures
      var sent, chain := Deliver(l, y, reply).sent, l.chains[y];
      var step := if chain.stepId in l.steps then Some(l.steps[chain.stepId].call) else None;
      |sent| <= 1 && forall i | 0 <= i < |sent| :: SentFor(sent[i], chain.phase, step, SavedResults(l))
  {
    hide Deliver, Admits, GivenUp, Readable, CallsTarget, AsksGate, AsksCheck, Filled;
    match l.chains[y].phase
    case Resumed => WakeUpDecides(l, y, reply);
    case TimedOut => WakeUpDecides(l, y, reply);
    case Gating => GateReplyDecides(l, y, reply);
    case Dispatched(call) =>
      if call.policy.Asserted? {
        AssertedReplyDecides(l, y, reply);
      } else {
        LastReplyDecides(l, y, reply);
      }
    case Postchecking(_) => CheckReplyDecides(l, y, reply);
    case Resolving(_) => LastReplyDecides(l, y, reply);
  }

  /** Whatever namespace a receipt belongs to, a caller's or a run's, it sends at most one
      call, and that is its own step's. */
  lemma EverySendIsOwn(w: World, y: YieldId, reply: Reply)
    requires Reachable(w) && y in w.state.chains && !w.state.chains[y].phase.Yielded?
    ensures
      var s, chain, e := w.state, w.state.chains[y], DeliverReceipt(y, reply);
      var key, saved := StepKey(chain.ns, chain.stepId), if chain.ns in s.contexts then s.contexts[chain.ns] else map[];
      var step := if key in s.steps then Some(s.steps[key].call) else None;
      && Apply(s, e).Some?
      && var sent := Apply(s, e).value.sent;
         |sent| <= 1 && forall i | 0 <= i < |sent| :: SentFor(sent[i], chain.phase, step, saved)
  {
    hide Reachable, HashFree, Next, Project, Deliver, StepKey, Apply, SentFor;
    var chain := w.state.chains[y];
    Delivered(w, y, reply);
    var l, key := Project(w.state, chain.ns), StepKey(chain.ns, chain.stepId);
    LocalSends(l, y, reply);
    StepProjected(w.state, chain.ns, chain.stepId);
    assert (if chain.stepId in l.steps then Some(l.steps[chain.stepId].call) else None)
        == (if key in w.state.steps then Some(w.state.steps[key].call) else None);
  }

  // --- How a step of a run in flight ends ---

  /** Step k passed with these bytes: it is gone, the bytes are saved under the name it
      declares, and the step after it is woken up; a last step completes the run, and a
      next step whose time ran out while it waited ends it. */
  ghost predicate PassedOn(l: Local, l': Local, plan: seq<Step>, y: YieldId, k: nat, bytes: Bytes)
    requires k < |plan|
  {
    if k + 1 == |plan| then
      && l'.steps == map[] && l'.context == None && l.run.Some?
      && l'.run == Some(l.run.value.(status := Succeeded, failedStepId := None))
    else
      y + 1 in l.chains &&
      if l.chains[y + 1].phase.Yielded? then
        && plan[k].stepId !in l'.steps && l'.run == l.run
        && l'.chains == (l.chains - {y})[y + 1 := Chain(l.chains[y + 1].ns, plan[k + 1].stepId, Resumed)]
        && l'.context == (if plan[k].saveResult.None? then l.context
                          else Some(SavedResults(l)[plan[k].saveResult.value.asName := bytes]))
      else
        && l'.steps == map[] && l'.context == None && l.run.Some?
        && l'.run == Some(l.run.value.(status := ResumeFailed, failedStepId := Some(plan[k + 1].stepId)))
  }

  lemma PassingReply(l: Local, plan: seq<Step>, base: YieldId, ns: string, k: nat, outcome: Reply)
    requires RunInFlight(l) && FlightShape(l, plan, base, ns, k) && Readable(outcome)
    ensures PassedOn(l, OnStepResolved(l, base + k, outcome), plan, base + k, k, outcome.bytes)
  {
    hide Progress, OnStepResolved, StepsFrom, DistinctIds;
    ResolvedExact(l, plan, base, ns, k, outcome);
    var context := ContextAfter(l, plan[k].saveResult, outcome.bytes);
    if k + 1 == |plan| {
      CompletionShape(l, plan, base, ns, k, context);
    } else if l.chains[base + k + 1].phase.Yielded? {
      ReleaseWakes(l, plan, base, ns, k, context);
    } else {
      ReleaseFails(l, plan, base, ns, k, context);
    }
  }

  lemma ActiveIsCurrent(l: Local, plan: seq<Step>, base: YieldId, ns: string, k: int, y: YieldId)
    requires FlightShape(l, plan, base, ns, k) && y in l.chains && Active(l.chains[y].phase)
    ensures y == base + k && 0 <= k < |plan|
  {
    hide StepsFrom, DistinctIds;
  }

  /** The step a run in flight is at, as the account sees it. */
  lemma CurrentOf(w: World, y: YieldId)
    requires Reachable(w) && y in w.state.chains && Active(w.state.chains[y].phase) && Running(w, w.state.chains[y].ns)
    ensures
      var ns := w.state.chains[y].ns;
      var l, log := Project(w.state, ns), w.logs[ns];
      var k := y - log.base;
      && RunInFlight(l) && FlightShape(l, log.plan, log.base, ns, k)
      && 0 <= k < |log.plan| && w.state.chains[y].stepId == log.plan[k].stepId
      && StepKey(ns, log.plan[k].stepId) in w.state.steps
      && w.state.steps[StepKey(ns, log.plan[k].stepId)] == RegisteredStep(y, log.plan[k])
  {
    hide Reachable, Sound, IsAutomation, HashFree, Project, Position, StepKey, FlightShape, Active, RowInFlight;
    var ns := w.state.chains[y].ns;
    ReachableSound(w);
    RunningShape(w, ns);
    QueueProjected(w.state, ns);
    var l, log := Project(w.state, ns), w.logs[ns];
    var k := y - log.base;
    ActiveIsCurrent(l, log.plan, log.base, ns, Position(l, log.plan), y);
    CurrentStep(l, log.plan, log.base, ns, k);
    StepProjected(w.state, ns, log.plan[k].stepId);
  }

  /** The receipt that decides a step of a run in flight: the step passes exactly if the
      answer it is judged by is a success of at most 16 KiB. Otherwise the run is over,
      failed downstream at this step. */
  lemma LastReceiptDecides(w: World, y: YieldId, reply: Reply)
    requires Reachable(w) && y in w.state.chains && Running(w, w.state.chains[y].ns)
    requires Verdict(w.state.chains[y].phase, reply).Some?
    ensures
      var s, ns, e := w.state, w.state.chains[y].ns, DeliverReceipt(y, reply);
      var s', log, answer := Next(w, e).state, w.logs[ns], Verdict(s.chains[y].phase, reply).value;
      var k := y - log.base;
      && Apply(s, e).Some? && Apply(s, e).value.sent == []
      && 0 <= k < |log.plan| && s.chains[y].stepId == log.plan[k].stepId
      && if Readable(answer) then PassedOn(Project(s, ns), Project(s', ns), log.plan, y, k, answer.bytes)
         else LeftAccount(s, s', y, ns, log.plan[k].stepId)
  {
    hide Reachable, HashFree, Next, Project, GivenUp, LeftAccount, StepKey, PassedOn, Readable, FlightShape,
      OnStepResolved, Apply, OnPreGateChecked, OnStepResumed, OnAssertedRunPostcheck, PostcheckOutcome;
    var s, ns := w.state, w.state.chains[y].ns;
    var l, s' := Project(s, ns), Next(w, DeliverReceipt(y, reply)).state;
    Delivered(w, y, reply);
    CurrentOf(w, y);
    LastReplyDecides(l, y, reply);
    var k, answer := y - w.logs[ns].base, Verdict(s.chains[y].phase, reply).value;
    if Readable(answer) {
      PassingReply(l, w.logs[ns].plan, w.logs[ns].base, ns, k, answer);
    } else {
      GivenUpLeaves(s, s', y, ns, s.chains[y].stepId);
    }
  }
}

/** What the entry points and callbacks of the smart account do to the state of
    one namespace: its registered steps, its queue of steps still to release, its
    saved results, its automation run, and its outstanding receipt chains. */
module Sequencer {
  import opened Prelude
  import opened Types
  import opened PreGates
  import opened Materialize

  const ADAPTER_SEQUENCE_OVERHEAD_TGAS: nat := 320

  datatype Local = Local(
    steps: map<string, RegisteredStep>,
    queue: Option<seq<string>>,
    context: Option<map<string, Bytes>>,
    run: Option<AutomationRun>,
    chains: map<YieldId, Chain>)

  // New state of the namespace, and the calls sent out.
  datatype Reaction = Reaction(local: Local, sent: seq<Request>)

  function IdsOf(calls: seq<Step>): (ids: seq<string>)
    ensures |ids| == |calls|
    ensures forall i | 0 <= i < |calls| :: ids[i] == calls[i].stepId
  {
    seq(|calls|, i requires 0 <= i < |calls| => calls[i].stepId)
  }

  // --- Requests ---

  function GateRequest(call: Step): Request
    requires call.preGate.Some?
  {
    var gate := call.preGate.value;
    GateCall(call.stepId, gate.gateId, gate.gateMethod, gate.gateArgs, gate.gateGas)
  }

  function TargetRequest(call: Step): Request {
    match call.policy
    case Adapter(adapterId, adapterMethod) =>
      TargetCall(call.stepId, adapterId, adapterMethod,
                 Wrapped(call.targetId, call.methodName, call.args, call.deposit, call.gas),
                 call.deposit, call.gas + ADAPTER_SEQUENCE_OVERHEAD_TGAS)
    case _ =>
      TargetCall(call.stepId, call.targetId, call.methodName, Plain(call.args), call.deposit, call.gas)
  }

  function CheckRequest(call: Step): Request
    requires call.policy.Asserted?
  {
    CheckCall(call.stepId, call.policy.assertionId, call.policy.assertionMethod, call.policy.assertionArgs,
              call.policy.assertionGas)
  }

  /** A gate reply lets the step through. */
  predicate GatePasses(gate: PreGate, reply: Reply) {
    CheckedReply(reply).Some? &&
    EvaluatePreGate(CheckedReply(reply).value, gate.minBytes, gate.maxBytes, gate.comparison) == InRange
  }

  /** What `on_step_resolved` is told after a postcheck: empty bytes on an exact match. */
  function PostcheckOutcome(expectedReturn: Bytes, reply: Reply): Reply {
    if CheckedReply(reply) == Some(expectedReturn) then Success("") else Failure
  }

  function SavedAfter(saved: map<string, Bytes>, spec: Option<SaveResult>, bytes: Bytes): map<string, Bytes> {
    if spec.Some? then saved[spec.value.asName := bytes] else saved
  }

  function SavedResults(l: Local): map<string, Bytes> {
    if l.context.Some? then l.context.value else map[]
  }

  // --- Registration and release ---

  /** None when the step id is already registered (the call panics). */
  function Register(l: Local, ns: string, call: Step, y: YieldId): Option<Local> {
    if call.stepId in l.steps then None
    else Some(l.(steps := l.steps[call.stepId := RegisteredStep(y, call)],
                 chains := l.chains[y := Chain(ns, call.stepId, Yielded)]))
  }

  function RegisterAll(l: Local, ns: string, calls: seq<Step>, y: YieldId): Option<Local>
    decreases |calls|
  {
    if calls == [] then Some(l)
    else
      match Register(l, ns, calls[0], y)
      case None => None
      case Some(l1) => RegisterAll(l1, ns, calls[1..], y + 1)
  }

  /** None when the step is not registered or its yield can no longer be resumed. */
  function ResumeStep(l: Local, stepId: string): Option<Local> {
    if stepId !in l.steps then None
    else
      var y := l.steps[stepId].yieldId;
      if y in l.chains && l.chains[y].phase.Yielded? then
        Some(l.(chains := l.chains[y := l.chains[y].(phase := Resumed)]))
      else None
  }

  /** None when the release cannot start (the call panics). */
  function StartRelease(l: Local, order: seq<string>): Option<Local> {
    if order == [] || l.queue.Some? || (exists i | 0 <= i < |order| :: order[i] !in l.steps) then None
    else
      ResumeStep(l.(queue := if |order| > 1 then Some(order[1..]) else None), order[0])
  }

  /** Register a whole plan and start releasing it. */
  function ReleasePlan(l: Local, ns: string, calls: seq<Step>, y: YieldId): Option<Local> {
    match RegisterAll(l, ns, calls, y)
    case None => None
    case Some(l1) => StartRelease(l1, IdsOf(calls))
  }

  /** The namespace part of `execute_trigger`. */
  function Fire(l: Local, ns: string, run: AutomationRun, calls: seq<Step>, y: YieldId): Option<Local> {
    if l.run.Some? then None
    else
      match ReleasePlan(l, ns, calls, y)
      case None => None
      case Some(l1) => Some(l1.(run := Some(run)))
  }

  // --- Finishing and halting ---

  predicate RunInFlight(l: Local) {
    l.run.Some? && l.run.value.status == InFlight
  }

  /** Only a run still in flight is finished; its namespace is then wiped. */
  function Finish(l: Local, status: RunStatus, failedStepId: Option<string>): Local {
    if RunInFlight(l) then
      l.(run := Some(l.run.value.(status := status, failedStepId := failedStepId)),
         steps := map[], queue := None)
    else l
  }

  /** The common halt path of a step that is still registered. */
  function Halt(l: Local, stepId: string, status: RunStatus): Local {
    Finish(l.(steps := l.steps - {stepId}, queue := None, context := None), status, Some(stepId))
  }

  // --- Callbacks ---

  function Drop(l: Local, y: YieldId): Local {
    l.(chains := l.chains - {y})
  }

  function Advance(l: Local, y: YieldId, phase: Phase): Local
    requires y in l.chains
  {
    l.(chains := l.chains[y := l.chains[y].(phase := phase)])
  }

  /** Fill in the arguments and send the target call, or halt. */
  function Dispatch(l: Local, y: YieldId): Reaction
    requires y in l.chains && l.chains[y].stepId in l.steps
  {
    var stepId := l.chains[y].stepId;
    match MaterializeStep(l.steps[stepId].call, SavedResults(l))
    case Err(_) => Reaction(Halt(Drop(l, y), stepId, DownstreamFailed), [])
    case Ok(call) => Reaction(Advance(l, y, Dispatched(call)), [TargetRequest(call)])
  }

  function OnStepResumed(l: Local, y: YieldId): Reaction
    requires y in l.chains
  {
    var stepId := l.chains[y].stepId;
    if stepId !in l.steps then Reaction(Drop(l, y), [])
    else if l.chains[y].phase.TimedOut? then Reaction(Halt(Drop(l, y), stepId, ResumeFailed), [])
    else if l.steps[stepId].call.preGate.Some? then
      Reaction(Advance(l, y, Gating), [GateRequest(l.steps[stepId].call)])
    else Dispatch(l, y)
  }

  function OnPreGateChecked(l: Local, y: YieldId, reply: Reply): Reaction
    requires y in l.chains
  {
    var stepId := l.chains[y].stepId;
    if stepId !in l.steps || l.steps[stepId].call.preGate.None? then Reaction(Drop(l, y), [])
    else if GatePasses(l.steps[stepId].call.preGate.value, reply) then Dispatch(l, y)
    else Reaction(Halt(Drop(l, y), stepId, DownstreamFailed), [])
  }

  /** The middle callback of an asserted step; it looks at no stored state. */
  function OnAssertedRunPostcheck(l: Local, y: YieldId, call: Step, reply: Reply): Reaction
    requires y in l.chains && call.policy.Asserted?
  {
    if CheckedReply(reply).Some? then 
      Reaction(Advance(l, y, Postchecking(call.policy.expectedReturn)), [CheckRequest(call)])
    else Reaction(Advance(l, y, Resolving(Failure)), [])
  }

  function TakeNextQueuedStep(l: Local): (Local, Option<string>) {
    if l.queue.None? then (l, None)
    else if l.queue.value == [] then (l.(queue := None), None)
    else (l.(queue := if |l.queue.value| == 1 then None else Some(l.queue.value[1..])), Some(l.queue.value[0]))
  }

  function Progress(l: Local): Local {
    match TakeNextQueuedStep(l)
    case (l1, None) => Finish(l1, Succeeded, None).(context := None)
    case (l1, Some(next)) =>
      match ResumeStep(l1, next)
      case Some(l2) => l2
      case None => Finish(l1.(queue := None, context := None), ResumeFailed, Some(next))
  }

  function SaveStepResult(l: Local, spec: Option<SaveResult>, bytes: Bytes): Local {
    if spec.None? then l else l.(context := Some(SavedAfter(SavedResults(l), spec, bytes)))
  }

  function OnStepResolved(l: Local, y: YieldId, reply: Reply): Local
    requires y in l.chains
  {
    var stepId := l.chains[y].stepId;
    var spec := if stepId in l.steps then l.steps[stepId].call.saveResult else None;
    var l1 := Drop(l, y).(steps := l.steps - {stepId});
    match CheckedReply(reply)
    case Some(bytes) => Progress(SaveStepResult(l1, spec, bytes))
    case None => Finish(l1.(queue := None, context := None), DownstreamFailed, Some(stepId))
  }

  /** Deliver the outstanding receipt of a chain; a reply matters only to the
      chains that wait for one. */
  function Deliver(l: Local, y: YieldId, reply: Reply): Reaction
    requires y in l.chains && !l.chains[y].phase.Yielded?
  {
    match l.chains[y].phase
    case Resumed => OnStepResumed(l, y)
    case TimedOut => OnStepResumed(l, y)
    case Gating => OnPreGateChecked(l, y, reply)
    case Dispatched(call) =>
      if call.policy.Asserted? then OnAssertedRunPostcheck(l, y, call, reply)
      else Reaction(OnStepResolved(l, y, reply), [])
    case Postchecking(expectedReturn) =>
      Reaction(Advance(l, y, Resolving(PostcheckOutcome(expectedReturn, reply))), [])
    case Resolving(outcome) => Reaction(OnStepResolved(l, y, outcome), [])
  }

  /** The chain waits for a reply from another contract. */
  predicate AwaitsReply(phase: Phase) {
    phase.Gating? || phase.Dispatched? || phase.Postchecking?
  }

  /** A yielded callback whose time runs out. */
  function TimeOut(l: Local, y: YieldId): Local
    requires y in l.chains
  {
    if l.chains[y].phase.Yielded? then Advance(l, y, TimedOut) else l
  }
}

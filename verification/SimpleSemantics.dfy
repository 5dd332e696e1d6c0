/** What the entry points and callbacks of the small sequencer do: the same protocol
    without policies, gates, saved values or automation. */
module SimpleSemantics {
  import opened Prelude
  import opened Types
  import opened NamespaceKeys

  const MAX_SIMPLE_STEP_GAS_TGAS: nat := 1_000 - 20 - 20 - 20

  datatype SimpleStep = SimpleStep(stepId: string, targetId: string, methodName: string, args: Bytes,
                                   deposit: u128, gas: u64)

  datatype SimpleRegistered = SimpleRegistered(yieldId: YieldId, call: SimpleStep)

  datatype SimplePhase = Waiting | Woken | Expired | Calling(call: SimpleStep)

  datatype SimpleChain = SimpleChain(caller: string, stepId: string, phase: SimplePhase)

  datatype SimpleState = SimpleState(
    steps: map<string, SimpleRegistered>,
    queue: map<string, seq<string>>,
    chains: map<YieldId, SimpleChain>,
    nextYield: YieldId)

  // What the contract does that an observer can see.
  datatype Act =
    | Registered(y: YieldId, call: SimpleStep)
    | Started(caller: string, order: seq<string>)
    | Released(caller: string, y: YieldId, stepId: string)
    | Called(y: YieldId, call: SimpleStep)

  datatype SimpleOutcome = SimpleOutcome(state: SimpleState, acts: seq<Act>)

  predicate ValidSimpleStep(call: SimpleStep) {
    call.stepId != "" && call.methodName != "" && 0 < call.gas <= MAX_SIMPLE_STEP_GAS_TGAS
  }

  // --- Semantics ---

  /** None when the step id is already registered for this caller (the call panics). */
  function RegisterStep(s: SimpleState, caller: string, call: SimpleStep): Option<SimpleOutcome> {
    var key := StepKey(caller, call.stepId);
    if !ValidSimpleStep(call) || key in s.steps then None
    else
      Some(SimpleOutcome(
             s.(steps := s.steps[key := SimpleRegistered(s.nextYield, call)],
                chains := s.chains[s.nextYield := SimpleChain(caller, call.stepId, Waiting)],
                nextYield := s.nextYield + 1),
             [Registered(s.nextYield, call)]))
  }

  function RegisterAll(s: SimpleState, caller: string, calls: seq<SimpleStep>): Option<SimpleOutcome>
    decreases |calls|
  {
    if calls == [] then Some(SimpleOutcome(s, []))
    else
      match RegisterStep(s, caller, calls[0])
      case None => None
      case Some(first) =>
        match RegisterAll(first.state, caller, calls[1..])
        case None => None
        case Some(rest) => Some(SimpleOutcome(rest.state, first.acts + rest.acts))
  }

  /** None when the step is not registered or its yield can no longer be resumed. */
  function ResumeStep(s: SimpleState, caller: string, stepId: string): Option<SimpleOutcome> {
    var key := StepKey(caller, stepId);
    if key !in s.steps then None
    else
      var y := s.steps[key].yieldId;
      if y in s.chains && s.chains[y].phase.Waiting? then
        Some(SimpleOutcome(s.(chains := s.chains[y := s.chains[y].(phase := Woken)]), [Released(caller, y, stepId)]))
      else None
  }

  function StartRelease(s: SimpleState, caller: string, order: seq<string>): Option<SimpleOutcome> {
    if order == [] || caller in s.queue || (exists i | 0 <= i < |order| :: StepKey(caller, order[i]) !in s.steps) then None
    else
      match ResumeStep(s.(queue := if |order| > 1 then s.queue[caller := order[1..]] else s.queue), caller, order[0])
      case None => None
      case Some(o) => Some(SimpleOutcome(o.state, [Started(caller, order)] + o.acts))
  }

  predicate UniqueStepIds(calls: seq<SimpleStep>) {
    forall i, j | 0 <= i < j < |calls| :: calls[i].stepId != calls[j].stepId
  }

  function StepIds(calls: seq<SimpleStep>): (ids: seq<string>)
    ensures |ids| == |calls| && forall i | 0 <= i < |calls| :: ids[i] == calls[i].stepId
  {
    seq(|calls|, i requires 0 <= i < |calls| => calls[i].stepId)
  }

  function ExecuteSteps(s: SimpleState, caller: string, calls: seq<SimpleStep>): Option<SimpleOutcome> {
    if calls == [] || !UniqueStepIds(calls) then None
    else
      match RegisterAll(s, caller, calls)
      case None => None
      case Some(registered) =>
        match StartRelease(registered.state, caller, StepIds(calls))
        case None => None
        case Some(started) => Some(SimpleOutcome(started.state, registered.acts + started.acts))
  }

  function RunSequence(s: SimpleState, predecessor: string, caller: string, order: seq<string>): Option<SimpleOutcome> {
    if predecessor != caller then None else StartRelease(s, caller, order)
  }

  function DropChain(s: SimpleState, y: YieldId): SimpleState {
    s.(chains := s.chains - {y})
  }

  function OnStepResumed(s: SimpleState, y: YieldId): SimpleOutcome
    requires y in s.chains
  {
    var chain := s.chains[y];
    var key := StepKey(chain.caller, chain.stepId);
    if key !in s.steps then SimpleOutcome(DropChain(s, y), [])
    else if chain.phase.Expired? then
      SimpleOutcome(DropChain(s, y).(steps := s.steps - {key}, queue := s.queue - {chain.caller}), [])
    else
      SimpleOutcome(s.(chains := s.chains[y := chain.(phase := Calling(s.steps[key].call))]),
                    [Called(y, s.steps[key].call)])
  }

  function TakeNextQueued(s: SimpleState, caller: string): (SimpleState, Option<string>) {
    if caller !in s.queue then (s, None)
    else
      var remaining := s.queue[caller];
      if remaining == [] then (s.(queue := s.queue - {caller}), None)
      else if |remaining| == 1 then (s.(queue := s.queue - {caller}), Some(remaining[0]))
      else (s.(queue := s.queue[caller := remaining[1..]]), Some(remaining[0]))
  }

  function Progress(s: SimpleState, caller: string): SimpleOutcome {
    match TakeNextQueued(s, caller)
    case (s1, None) => SimpleOutcome(s1, [])
    case (s1, Some(next)) =>
      match ResumeStep(s1, caller, next)
      case Some(o) => o
      case None => SimpleOutcome(s1.(queue := s1.queue - {caller}), [])
  }

  function OnStepResolved(s: SimpleState, y: YieldId, reply: Reply): SimpleOutcome
    requires y in s.chains
  {
    var chain := s.chains[y];
    var s1 := DropChain(s, y).(steps := s.steps - {StepKey(chain.caller, chain.stepId)});
    if CheckedReply(reply).Some? then Progress(s1, chain.caller)
    else SimpleOutcome(s1.(queue := s1.queue - {chain.caller}), [])
  }

  function Deliver(s: SimpleState, y: YieldId, reply: Reply): SimpleOutcome
    requires y in s.chains && !s.chains[y].phase.Waiting?
  {
    if s.chains[y].phase.Calling? then OnStepResolved(s, y, reply) else OnStepResumed(s, y)
  }

  datatype SimpleEvent =
    | Register(caller: string, call: SimpleStep)
    | Execute(caller: string, calls: seq<SimpleStep>)
    | Run(predecessor: string, caller: string, order: seq<string>)
    | Timeout(y: YieldId)
    | Receipt(y: YieldId, reply: Reply)

  /** One call or receipt; None when it panics or cannot happen. */
  function SimpleApply(s: SimpleState, e: SimpleEvent): Option<SimpleOutcome> {
    match e
    case Register(caller, call) => RegisterStep(s, caller, call)
    case Execute(caller, calls) => ExecuteSteps(s, caller, calls)
    case Run(predecessor, caller, order) => RunSequence(s, predecessor, caller, order)
    case Timeout(y) =>
      if y !in s.chains || !s.chains[y].phase.Waiting? then None
      else Some(SimpleOutcome(s.(chains := s.chains[y := s.chains[y].(phase := Expired)]), []))
    case Receipt(y, reply) =>
      if y !in s.chains || s.chains[y].phase.Waiting? then None else Some(Deliver(s, y, reply))
  }
}

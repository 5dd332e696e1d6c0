/** Gas budgets of a step, in TGas, and the rules a step must meet to be accepted. */
module Gas {
  import opened Prelude
  import opened Types
  import opened Sequencer

  const STEP_RESOLVE_CALLBACK_GAS_TGAS: nat := 20
  const STEP_RESUME_OVERHEAD_TGAS: nat := 20
  const MAX_CONTRACT_GAS_TGAS: nat := 1_000
  const STEP_GAS_SLACK_TGAS: nat := 20
  const MAX_STEP_GAS_TGAS: nat :=
    MAX_CONTRACT_GAS_TGAS - STEP_RESOLVE_CALLBACK_GAS_TGAS - STEP_RESUME_OVERHEAD_TGAS - STEP_GAS_SLACK_TGAS
  const MAX_ADAPTER_TARGET_GAS_TGAS: nat := MAX_STEP_GAS_TGAS - ADAPTER_SEQUENCE_OVERHEAD_TGAS
  const ASSERTED_POSTCHECK_RUN_GAS_TGAS: nat := 15
  const ASSERTED_POSTCHECK_EVALUATE_GAS_TGAS: nat := 10
  const PRE_GATE_CHECK_CALLBACK_GAS_TGAS: nat := 25
  const MAX_PRE_GATE_GAS_TGAS: nat := 100
  const AUTHORIZER_HOP_OVERHEAD_TGAS: nat := 10

  function AdapterOverhead(policy: StepPolicy): nat {
    match policy
    case Direct => 0
    case Adapter(_, _) => ADAPTER_SEQUENCE_OVERHEAD_TGAS
    case Asserted(_, _, _, _, assertionGas) =>
      ASSERTED_POSTCHECK_RUN_GAS_TGAS + ASSERTED_POSTCHECK_EVALUATE_GAS_TGAS + assertionGas
  }

  function MaxTargetGas(policy: StepPolicy): nat {
    match policy
    case Direct => MAX_STEP_GAS_TGAS
    case Adapter(_, _) => MAX_ADAPTER_TARGET_GAS_TGAS
    case Asserted(_, _, _, _, _) =>
      if AdapterOverhead(policy) <= MAX_STEP_GAS_TGAS then MAX_STEP_GAS_TGAS - AdapterOverhead(policy) else 0
  }

  predicate ValidPolicy(policy: StepPolicy) {
    match policy
    case Direct => true
    case Adapter(_, adapterMethod) => adapterMethod != ""
    case Asserted(_, assertionMethod, _, _, assertionGas) =>
      assertionMethod != "" && 0 < assertionGas <= MAX_STEP_GAS_TGAS
  }

  predicate ValidGate(gate: PreGate) {
    gate.gateMethod != "" && 0 < gate.gateGas <= MAX_PRE_GATE_GAS_TGAS && (gate.minBytes.Some? || gate.maxBytes.Some?)
  }

  /** The acceptance test of a step; a failing one panics. */
  predicate ValidStep(call: Step) {
    && call.stepId != "" && call.methodName != "" && call.gas > 0
    && ValidPolicy(call.policy)
    && call.gas <= MaxTargetGas(call.policy)
    && (call.preGate.Some? ==> ValidGate(call.preGate.value))
  }

  // --- What is reserved and what is attached ---

  /** Gas reserved for `on_step_resumed` when the step is registered. */
  function ResumeReserve(call: Step): nat {
    call.gas + AdapterOverhead(call.policy) + STEP_RESOLVE_CALLBACK_GAS_TGAS + STEP_RESUME_OVERHEAD_TGAS
  }

  /** Gas of the outgoing call, with one hop more in extension mode. */
  function CallGas(gas: nat, extension: bool): nat {
    if extension then gas + AUTHORIZER_HOP_OVERHEAD_TGAS else gas
  }

  /** Everything attached when the target is dispatched, the resolve callback included. */
  function DispatchGas(call: Step, extension: bool): nat {
    STEP_RESOLVE_CALLBACK_GAS_TGAS +
    match call.policy
    case Direct => CallGas(call.gas, extension)
    case Adapter(_, _) => CallGas(call.gas + ADAPTER_SEQUENCE_OVERHEAD_TGAS, extension)
    case Asserted(_, _, _, _, assertionGas) =>
      CallGas(call.gas, extension) + ASSERTED_POSTCHECK_RUN_GAS_TGAS + assertionGas + ASSERTED_POSTCHECK_EVALUATE_GAS_TGAS
  }

  /** Gas given to `on_pre_gate_checked`. */
  function GateCallbackGas(call: Step): nat {
    PRE_GATE_CHECK_CALLBACK_GAS_TGAS + call.gas + STEP_RESOLVE_CALLBACK_GAS_TGAS
  }

  /** Everything attached by `on_step_resumed` of a gated step. */
  function GatedResumeGas(call: Step): nat
    requires call.preGate.Some?
  {
    call.preGate.value.gateGas + GateCallbackGas(call)
  }

  /** Every accepted step reserves at most 980 TGas, and the reserve covers an
      ungated dispatch with 20 TGas to spare, 10 through the authorizer. */
  lemma ReserveCoversUngated(call: Step)
    requires ValidStep(call)
    ensures ResumeReserve(call) <= MAX_CONTRACT_GAS_TGAS - STEP_GAS_SLACK_TGAS
    ensures ResumeReserve(call) == DispatchGas(call, false) + 20
    ensures ResumeReserve(call) == DispatchGas(call, true) + 10
  {
  }

  /** The gate callback's own gas covers the dispatch exactly for Direct steps,
      with or without the authorizer hop. */
  lemma GateCallbackCoversIffDirect(call: Step, extension: bool)
    requires ValidStep(call)
    ensures DispatchGas(call, extension) <= GateCallbackGas(call) <==> call.policy.Direct?
    ensures call.policy.Direct? ==> GateCallbackGas(call) - DispatchGas(call, extension) == if extension then 15 else 25
  {
  }

  /** For a gated step the resume reserve covers the gate call and its callback iff
      the policy's overhead exceeds the gate's gas by 5; never for Direct. */
  lemma ReserveCoversGatedIff(call: Step)
    requires ValidStep(call) && call.preGate.Some?
    ensures GatedResumeGas(call) <= ResumeReserve(call) <==>
            call.preGate.value.gateGas + 5 <= AdapterOverhead(call.policy)
    ensures call.policy.Direct? ==> GatedResumeGas(call) > ResumeReserve(call)
    ensures call.policy.Adapter? ==> GatedResumeGas(call) <= ResumeReserve(call)
  {
  }

  /** The request that leaves carries exactly the call gas of the direct route. */
  lemma RequestGas(call: Step)
    ensures TargetRequest(call).gas + STEP_RESOLVE_CALLBACK_GAS_TGAS +
            (if call.policy.Asserted? then AdapterOverhead(call.policy) else 0) == DispatchGas(call, false)
  {
  }

  /** A step is accepted exactly if it names itself, its method and whatever else it calls,
      asks for some gas everywhere it must, has a gate of at most 100 TGas with a bound,
      and fits, with its policy's own needs and 40 TGas for the two callbacks, into 980. */
  lemma ValidStepIff(call: Step)
    ensures ValidStep(call) <==>
            && call.stepId != "" && call.methodName != "" && 0 < call.gas
            && ResumeReserve(call) <= 980
            && ResumeReserve(call) == call.gas + 40 + (match call.policy
                 case Direct => 0
                 case Adapter(_, _) => 320
                 case Asserted(_, _, _, _, assertionGas) => 25 + assertionGas)
            && (call.policy.Adapter? ==> call.policy.adapterMethod != "")
            && (call.policy.Asserted? ==> call.policy.assertionMethod != "" && 0 < call.policy.assertionGas)
            && (call.preGate.Some? ==>
                  var gate := call.preGate.value;
                  && gate.gateMethod != "" && 0 < gate.gateGas <= 100
                  && !(gate.minBytes.None? && gate.maxBytes.None?))
  {
  }
}

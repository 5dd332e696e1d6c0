/** Domain types of the smart account: steps, policies, gates, substitutions,
    runs, triggers and the receipts the contract has outstanding. */
module Types {
  import opened Prelude

  datatype ComparisonKind = U128Json | I128Json | LexBytes

  datatype StepPolicy =
    | Direct
    | Adapter(adapterId: string, adapterMethod: string)
    | Asserted(assertionId: string, assertionMethod: string, assertionArgs: Bytes,
               expectedReturn: Bytes, assertionGas: u64)

  datatype PreGate = PreGate(gateId: string, gateMethod: string, gateArgs: Bytes,
                             minBytes: Option<Bytes>, maxBytes: Option<Bytes>,
                             comparison: ComparisonKind, gateGas: u64)

  datatype SaveResult = SaveResult(asName: string, kind: ComparisonKind)

  datatype SubstitutionOp = Raw | DivU128(denominator: u128) | PercentU128(bps: u32)

  datatype Substitution = Substitution(reference: string, op: SubstitutionOp)

  datatype ArgsTemplate = ArgsTemplate(template: Bytes, substitutions: seq<Substitution>)

  datatype Step = Step(stepId: string, targetId: string, methodName: string, args: Bytes,
                       deposit: u128, gas: u64, policy: StepPolicy,
                       preGate: Option<PreGate>, saveResult: Option<SaveResult>,
                       argsTemplate: Option<ArgsTemplate>)

  // The raw outcome of a promise, before the callback bounds its size.
  datatype Reply = Success(bytes: Bytes) | Failure

  const MAX_CALLBACK_RESULT_BYTES: nat := 16 * 1024

  /** What `promise_result_checked` hands a callback: an oversized success reads
      as an error, exactly like a failed promise. */
  function CheckedReply(reply: Reply): Option<Bytes> {
    if reply.Success? && |reply.bytes| <= MAX_CALLBACK_RESULT_BYTES then Some(reply.bytes) else None
  }

  // A call leaving the account. An adapter receives the wrapped call as data.
  datatype Payload = Plain(args: Bytes) | Wrapped(targetId: string, methodName: string, args: Bytes,
                                                  deposit: u128, gas: u64)

  datatype Request =
    | GateCall(stepId: string, receiver: string, methodName: string, args: Bytes, gas: nat)
    | TargetCall(stepId: string, receiver: string, methodName: string, payload: Payload, deposit: u128, gas: nat)
    | CheckCall(stepId: string, receiver: string, methodName: string, args: Bytes, gas: nat)

  type YieldId = nat

  datatype RegisteredStep = RegisteredStep(yieldId: YieldId, call: Step)

  datatype RunStatus = InFlight | Succeeded | DownstreamFailed | ResumeFailed

  datatype AutomationRun = AutomationRun(triggerId: string, sequenceId: string, runNonce: u32,
                                         status: RunStatus, failedStepId: Option<string>)

  datatype BalanceTrigger = BalanceTrigger(sequenceId: string, minBalance: u128, maxRuns: u32,
                                           runsStarted: u32, inFlight: bool,
                                           lastRunNamespace: Option<string>,
                                           lastRunOutcome: Option<RunStatus>)

  datatype SequenceTemplate = SequenceTemplate(calls: seq<Step>, totalDeposit: u128)

  // Where the receipt chain of one registered step stands. A chain starts as a
  // yielded callback and always has exactly one receipt outstanding.
  datatype Phase =
    | Yielded                                   // neither resumed nor timed out yet
    | Resumed                                   // on_step_resumed pending with Ok
    | TimedOut                                  // on_step_resumed pending with Err
    | Gating                                    // gate call out, on_pre_gate_checked pending
    | Dispatched(call: Step)                    // target call out
    | Postchecking(expectedReturn: Bytes)       // postcheck call out
    | Resolving(outcome: Reply)                 // on_step_resolved pending, its input fixed

  datatype Chain = Chain(ns: string, stepId: string, phase: Phase)
}

/** Every event of a namespace keeps the run invariant. */
module RunProofs {
  import opened Prelude
  import opened Types
  import opened Materialize
  import opened Sequencer
  import opened Interpreter
  import opened RunInvariant
  import opened RunShapes

  /** Histories that differ only in the calls and replies recorded. */
  predicate SameRun(log: Log, log': Log) {
    log'.plan == log.plan && log'.base == log.base && log'.timedOut == log.timedOut && log'.results == log.results
  }

  /** The bytes the current step passes with, if this delivery makes it pass. */
  function PassedWith(phase: Phase, reply: Reply): Option<Bytes> {
    match phase
    case Dispatched(call) => if call.policy.Asserted? then None else CheckedReply(reply)
    case Resolving(outcome) => CheckedReply(outcome)
    case _ => None
  }

  function ResultsAfter(results: seq<Bytes>, passed: Option<Bytes>): seq<Bytes> {
    if passed.Some? then results + [passed.value] else results
  }

  /** History after a delivered receipt. */
  function LogDelivery(log: Log, phase: Phase, reply: Reply, sent: seq<Request>): Log {
    log.(requests := log.requests + sent,
         replies := if AwaitsReply(phase) then log.replies + [reply] else log.replies,
         results := ResultsAfter(log.results, PassedWith(phase, reply)))
  }

  // --- The current step moves within its chain ---

  /** Shape and history together make the invariant of a run in flight. */
  lemma StillInFlight(l: Local, log: Log, ns: string, k: nat, phase: Phase)
    requires RunInFlight(l) && FlightShape(l, log.plan, log.base, ns, k)
    requires !log.timedOut ==> NoneTimedOut(l.chains)
    requires l.chains[log.base + k].phase == phase
    requires Follows(log, CursorOf(phase), log.plan[k..], SavedResults(l))
    requires |log.results| == k && SavedResults(l) == SavedBy(log.plan, log.results)
    ensures RunInv(l, log, ns)
  {
    PositionOf(l, log.plan, log.base, ns, k);
    assert FollowsAt(l, log, k);
  }

  lemma AdvanceKeeps(l: Local, log: Log, log': Log, ns: string, k: nat, phase: Phase)
    requires RunInFlight(l) && InFlightAt(l, log, ns, k) && SameRun(log, log') && Active(phase)
    requires Follows(log', CursorOf(phase), log.plan[k..], SavedResults(l))
    ensures RunInv(Advance(l, log.base + k, phase), log', ns)
  {
    hide ChainsFrom;
    AdvanceShape(l, log.plan, log.base, ns, k, phase);
    StillInFlight(Advance(l, log.base + k, phase), log', ns, k, phase);
  }

  lemma FailureKeeps(l: Local, log: Log, log': Log, ns: string, k: nat)
    requires RunInFlight(l) && InFlightAt(l, log, ns, k) && SameRun(log, log')
    requires Follows(log', Done(Failed(log.plan[k].stepId)), [], map[])
    ensures RunInv(Halt(Drop(l, log.base + k), log.plan[k].stepId, DownstreamFailed), log', ns)
  {
    FailureShape(l, log.plan, log.base, ns, k);
    FollowsIsPrefix(log', Done(Failed(log.plan[k].stepId)), [], map[]);
  }

  lemma DispatchKeeps(l: Local, log: Log, log': Log, ns: string, k: nat)
    requires RunInFlight(l) && InFlightAt(l, log, ns, k) && SameRun(log, log')
    requires Follows(log', Calling, log.plan[k..], SavedResults(l))
    requires l.chains[log.base + k].stepId in l.steps
    ensures
      var r := Dispatch(l, log.base + k);
      RunInv(r.local, log'.(requests := log'.requests + r.sent), ns)
  {
    CurrentStep(l, log.plan, log.base, ns, k);
    FollowsCall(log', log.plan[k..], SavedResults(l));
    match MaterializeStep(log.plan[k], SavedResults(l))
    case Ok(call) =>
      AdvanceKeeps(l, log, log'.(requests := log'.requests + [TargetRequest(call)]), ns, k, Dispatched(call));
    case Err(_) =>
      assert log'.requests + [] == log'.requests;
      FailureKeeps(l, log, log', ns, k);
  }

  // --- The current step resolves ---

  /** Histories of the same run, whatever they recorded. */
  predicate NextRun(log: Log, log': Log) {
    log'.plan == log.plan && log'.base == log.base && log'.timedOut == log.timedOut
  }

  lemma WokenKeeps(l: Local, log: Log, log': Log, ns: string, k: nat, context: Option<map<string, Bytes>>)
    requires RunInFlight(l) && InFlightAt(l, log, ns, k) && NextRun(log, log') && k + 1 < |log.plan|
    requires |log'.results| == k + 1
    requires (if context.Some? then context.value else map[]) == SavedBy(log.plan, log'.results)
    requires Follows(log', Starting, log.plan[k + 1..], if context.Some? then context.value else map[])
    ensures log.base + k + 1 in l.chains
    ensures RunInv(Woken(l, log.base + k, log.plan[k].stepId, context), log', ns)
  {
    hide ChainsFrom;
    NextChain(l, log, ns, k);
    WokenShape(l, log.plan, log.base, ns, k, context);
    StillInFlight(Woken(l, log.base + k, log.plan[k].stepId, context), log', ns, k + 1, Resumed);
  }

  lemma ReleaseFailsKeeps(l: Local, log: Log, log': Log, ns: string, k: nat, context: Option<map<string, Bytes>>)
    requires RunInFlight(l) && InFlightAt(l, log, ns, k) && NextRun(log, log') && k + 1 < |log.plan|
    requires !l.chains[log.base + k + 1].phase.Yielded?
    requires Prefix(log')
    ensures RunInv(Progress(Resolved(l, log.base + k, log.plan[k].stepId, context)), log', ns)
  {
    ReleaseFails(l, log.plan, log.base, ns, k, context);
    assert !NoneTimedOut(l.chains);
  }

  lemma CompletionKeeps(l: Local, log: Log, log': Log, ns: string, k: nat, context: Option<map<string, Bytes>>)
    requires RunInFlight(l) && InFlightAt(l, log, ns, k) && NextRun(log, log') && k + 1 == |log.plan|
    requires Follows(log', Done(Completed), [], map[])
    ensures RunInv(Progress(Resolved(l, log.base + k, log.plan[k].stepId, context)), log', ns)
  {
    CompletionShape(l, log.plan, log.base, ns, k, context);
    FollowsIsPrefix(log', Done(Completed), [], map[]);
  }

  lemma NextChain(l: Local, log: Log, ns: string, k: nat)
    requires InFlightAt(l, log, ns, k) && k + 1 < |log.plan|
    ensures log.base + k + 1 in l.chains
  {
  }

  /** The step passed with these result bytes: save them and move on. */
  lemma PassedKeeps(l: Local, log: Log, log': Log, ns: string, k: nat, context: Option<map<string, Bytes>>)
    requires RunInFlight(l) && InFlightAt(l, log, ns, k) && NextRun(log, log')
    requires |log'.results| == k + 1
    requires (if context.Some? then context.value else map[]) == SavedBy(log.plan, log'.results)
    requires Follows(log', Starting, log.plan[k + 1..], if context.Some? then context.value else map[])
    ensures RunInv(Progress(Resolved(l, log.base + k, log.plan[k].stepId, context)), log', ns)
  {
    hide ChainsFrom;
    var saved := if context.Some? then context.value else map[];
    if k + 1 == |log.plan| {
      FollowsStart(log', log.plan[k + 1..], saved);
      CompletionKeeps(l, log, log', ns, k, context);
    } else {
      WokenKeeps(l, log, log', ns, k, context);
      if l.chains[log.base + k + 1].phase.Yielded? {
        ReleaseWakes(l, log.plan, log.base, ns, k, context);
      } else {
        FollowsIsPrefix(log', Starting, log.plan[k + 1..], saved);
        ReleaseFailsKeeps(l, log, log', ns, k, context);
      }
    }
  }

  /** What on_step_resolved does with the current step, by outcome. */
  lemma ResolvedExact(l: Local, plan: seq<Step>, base: YieldId, ns: string, k: nat, outcome: Reply)
    requires FlightShape(l, plan, base, ns, k)
    ensures CheckedReply(outcome).None? ==>
              OnStepResolved(l, base + k, outcome) == Halt(Drop(l, base + k), plan[k].stepId, DownstreamFailed)
    ensures CheckedReply(outcome).Some? ==>
              OnStepResolved(l, base + k, outcome) ==
              Progress(Resolved(l, base + k, plan[k].stepId,
                                ContextAfter(l, plan[k].saveResult, CheckedReply(outcome).value)))
  {
    CurrentStep(l, plan, base, ns, k);
  }

  function ContextAfter(l: Local, spec: Option<SaveResult>, bytes: Bytes): Option<map<string, Bytes>> {
    if spec.Some? then Some(SavedAfter(SavedResults(l), spec, bytes)) else l.context
  }

  lemma ResolvedKeeps(l: Local, log: Log, log': Log, ns: string, k: nat, outcome: Reply)
    requires RunInFlight(l) && InFlightAt(l, log, ns, k) && SameRun(log, log')
    requires Follows(log', Settling(outcome), log.plan[k..], SavedResults(l))
    ensures RunInv(OnStepResolved(l, log.base + k, outcome),
                   log'.(results := ResultsAfter(log.results, CheckedReply(outcome))), ns)
  {
    hide ChainsFrom;
    ResolvedExact(l, log.plan, log.base, ns, k, outcome);
    FollowsSettle(log', log.plan[k..], SavedResults(l), outcome);
    match CheckedReply(outcome)
    case None => FailureKeeps(l, log, log', ns, k);
    case Some(bytes) =>
      assert log.plan[k..][1..] == log.plan[k + 1..];
      SavedBySnoc(log.plan, log.results, bytes);
      var log'' := log'.(results := log.results + [bytes]);
      var saved := SavedAfter(SavedResults(l), log.plan[k].saveResult, bytes);
      FollowsIgnoresResults(log', log.results + [bytes], Starting, log.plan[k + 1..], saved);
      PassedKeeps(l, log, log'', ns, k, ContextAfter(l, log.plan[k].saveResult, bytes));
  }

  lemma FollowsIgnoresResults(log: Log, results: seq<Bytes>, c: Cursor, plan: seq<Step>, saved: map<string, Bytes>)
    ensures Follows(log.(results := results), c, plan, saved) == Follows(log, c, plan, saved)
    ensures Prefix(log.(results := results)) == Prefix(log)
  {
  }

  // --- Delivering the current step's receipt ---

  lemma AtCursor(l: Local, log: Log, ns: string, k: nat)
    requires InFlightAt(l, log, ns, k)
    ensures Follows(log, CursorOf(l.chains[log.base + k].phase), log.plan[k..], SavedResults(l))
  {
    hide Follows, ChainsFrom;
  }

  lemma GateReplyKeeps(l: Local, log: Log, ns: string, k: nat, reply: Reply)
    requires RunInFlight(l) && InFlightAt(l, log, ns, k) && l.chains[log.base + k].phase.Gating?
    ensures
      var r := OnPreGateChecked(l, log.base + k, reply);
      RunInv(r.local, log.(requests := log.requests + r.sent, replies := log.replies + [reply]), ns)
  {
    hide ChainsFrom, FollowsAt, NoneTimedOut, RunInv;
    AtCursor(l, log, ns, k);
    var log' := log.(replies := log.replies + [reply]);
    CurrentStep(l, log.plan, log.base, ns, k);
    FollowsGate(log, log.plan[k..], SavedResults(l), reply);
    if GatePasses(log.plan[k].preGate.value, reply) {
      DispatchKeeps(l, log, log', ns, k);
    } else {
      assert log.requests + [] == log.requests;
      FailureKeeps(l, log, log', ns, k);
    }
  }

  lemma WakeUpKeeps(l: Local, log: Log, ns: string, k: nat)
    requires RunInFlight(l) && InFlightAt(l, log, ns, k) && l.chains[log.base + k].phase.Resumed?
    ensures
      var r := OnStepResumed(l, log.base + k);
      RunInv(r.local, log.(requests := log.requests + r.sent), ns)
  {
    hide ChainsFrom, FollowsAt, NoneTimedOut, RunInv;
    AtCursor(l, log, ns, k);
    CurrentStep(l, log.plan, log.base, ns, k);
    FollowsStart(log, log.plan[k..], SavedResults(l));
    if log.plan[k].preGate.Some? {
      AdvanceKeeps(l, log, log.(requests := log.requests + [GateRequest(log.plan[k])]), ns, k, Gating);
    } else {
      DispatchKeeps(l, log, log, ns, k);
    }
  }

  lemma TargetReplyKeeps(l: Local, log: Log, ns: string, k: nat, call: Step, reply: Reply)
    requires RunInFlight(l) && InFlightAt(l, log, ns, k)
    requires l.chains[log.base + k].phase == Dispatched(call) && !call.policy.Asserted?
    ensures RunInv(OnStepResolved(l, log.base + k, reply),
                   log.(replies := log.replies + [reply], results := ResultsAfter(log.results, CheckedReply(reply))), ns)
  {
    hide ChainsFrom;
    FollowsTarget(log, log.plan[k..], SavedResults(l), call, reply);
    ResolvedKeeps(l, log, log.(replies := log.replies + [reply]), ns, k, reply);
  }

  lemma AssertedReplyKeeps(l: Local, log: Log, ns: string, k: nat, call: Step, reply: Reply)
    requires RunInFlight(l) && InFlightAt(l, log, ns, k)
    requires l.chains[log.base + k].phase == Dispatched(call) && call.policy.Asserted?
    ensures
      var r := OnAssertedRunPostcheck(l, log.base + k, call, reply);
      RunInv(r.local, log.(requests := log.requests + r.sent, replies := log.replies + [reply]), ns)
  {
    hide ChainsFrom;
    FollowsTarget(log, log.plan[k..], SavedResults(l), call, reply);
    var log' := log.(replies := log.replies + [reply]);
    if CheckedReply(reply).Some? {
      AdvanceKeeps(l, log, log'.(requests := log.requests + [CheckRequest(call)]), ns, k,
                   Postchecking(call.policy.expectedReturn));
    } else {
      assert log.requests + [] == log.requests;
      AdvanceKeeps(l, log, log', ns, k, Resolving(Failure));
    }
  }

  lemma CheckReplyKeeps(l: Local, log: Log, ns: string, k: nat, expectedReturn: Bytes, reply: Reply)
    requires RunInFlight(l) && InFlightAt(l, log, ns, k)
    requires l.chains[log.base + k].phase == Postchecking(expectedReturn)
    ensures RunInv(Advance(l, log.base + k, Resolving(PostcheckOutcome(expectedReturn, reply))),
                   log.(replies := log.replies + [reply]), ns)
  {
    hide ChainsFrom;
    FollowsCheck(log, log.plan[k..], SavedResults(l), expectedReturn, reply);
    AdvanceKeeps(l, log, log.(replies := log.replies + [reply]), ns, k, Resolving(PostcheckOutcome(expectedReturn, reply)));
  }

  /** The current chain's receipt is delivered. */
  lemma DeliverCurrentKeeps(l: Local, log: Log, ns: string, k: nat, reply: Reply)
    requires RunInFlight(l) && InFlightAt(l, log, ns, k)
    requires Active(l.chains[log.base + k].phase)
    ensures
      var r := Deliver(l, log.base + k, reply);
      RunInv(r.local, LogDelivery(log, l.chains[log.base + k].phase, reply, r.sent), ns)
  {
    hide ChainsFrom;
    assert log.requests + [] == log.requests;
    match l.chains[log.base + k].phase
    case Resumed => WakeUpKeeps(l, log, ns, k);
    case Gating => GateReplyKeeps(l, log, ns, k, reply);
    case Dispatched(call) =>
      if call.policy.Asserted? {
        AssertedReplyKeeps(l, log, ns, k, call, reply);
      } else {
        TargetReplyKeeps(l, log, ns, k, call, reply);
      }
    case Postchecking(expectedReturn) => CheckReplyKeeps(l, log, ns, k, expectedReturn, reply);
    case Resolving(outcome) => ResolvedKeeps(l, log, log, ns, k, outcome);
    case _ =>
  }

  /** The receipt of a step that timed out is delivered: the run halts. */
  lemma DeliverTimedOutKeeps(l: Local, log: Log, ns: string, k: nat, y: YieldId, reply: Reply)
    requires RunInFlight(l) && InFlightAt(l, log, ns, k)
    requires y in l.chains && l.chains[y].phase.TimedOut?
    ensures
      var r := Deliver(l, y, reply);
      r.sent == [] && RunInv(r.local, LogDelivery(log, l.chains[y].phase, reply, r.sent), ns)
  {
    hide Follows, Prefix, OnStepResumed;
    TimedOutShape(l, log.plan, log.base, ns, k, y);
    assert log.requests + [] == log.requests;
    assert StepOfPlan(log.plan, Some(log.plan[y - log.base].stepId));
    HaltedByTimeout(l, log, ns, k, OnStepResumed(l, y).local, log.plan[y - log.base].stepId);
  }

  lemma HaltedByTimeout(l: Local, log: Log, ns: string, k: nat, l': Local, id: string)
    requires RunInFlight(l) && InFlightAt(l, log, ns, k) && !NoneTimedOut(l.chains)
    requires WipedShape(l', ns) && StepOfPlan(log.plan, Some(id))
    requires forall z | z in l'.chains :: z in l.chains && l'.chains[z] == l.chains[z]
    requires forall z | z in l'.chains && Active(l'.chains[z].phase) :: z == log.base + k
    requires l'.run == Some(l.run.value.(status := ResumeFailed, failedStepId := Some(id)))
    ensures RunInv(l', log, ns)
  {
    hide Follows, Prefix, ChainsFrom, NoneTimedOut, WipedShape, StepOfPlan;
    var phase := l.chains[log.base + k].phase;
    FollowsIsPrefix(log, CursorOf(phase), log.plan[k..], SavedResults(l));
    assert Straggler(log, phase);
  }
}

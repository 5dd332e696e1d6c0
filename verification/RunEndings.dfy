/** What happens outside flight: firing, timeouts, receipts that arrive after the
    run has ended; and why a run in flight ends. */
module RunEndings {
  import opened Prelude
  import opened Types
  import opened Materialize
  import opened Sequencer
  import opened Interpreter
  import opened RunInvariant
  import opened RunShapes
  import opened RunProofs

  // --- After the run: halt is final ---

  predicate OnlyPostchecks(sent: seq<Request>) {
    forall i | 0 <= i < |sent| :: sent[i].CheckCall?
  }

  /** A late receipt in a wiped namespace, exactly: its chain goes away, or an
      asserted step's own postcheck plays out; nothing else changes. */
  lemma LateReceipt(l: Local, y: YieldId, reply: Reply)
    requires l.steps == map[] && l.queue == None && l.context == None && !RunInFlight(l)
    requires y in l.chains && !l.chains[y].phase.Yielded?
    ensures
      var r := Deliver(l, y, reply);
      match l.chains[y].phase
      case Dispatched(call) =>
        if !call.policy.Asserted? then r == Reaction(Drop(l, y), [])
        else if CheckedReply(reply).None? then r == Reaction(Advance(l, y, Resolving(Failure)), [])
        else r == Reaction(Advance(l, y, Postchecking(call.policy.expectedReturn)), [CheckRequest(call)])
      case Postchecking(expectedReturn) =>
        r == Reaction(Advance(l, y, Resolving(PostcheckOutcome(expectedReturn, reply))), [])
      case _ => r == Reaction(Drop(l, y), [])
  {
    assert l.steps - {l.chains[y].stepId} == map[];
    assert Drop(l, y).(steps := map[]) == Drop(l, y);
  }

  /** Once the run has left flight, no later receipt sends a gate or a target call,
      touches the run's status, or leaves a step, a queue or saved values behind. */
  lemma HaltIsFinal(l: Local, ns: string, y: YieldId, reply: Reply)
    requires WipedShape(l, ns) && !RunInFlight(l)
    requires y in l.chains && !l.chains[y].phase.Yielded?
    ensures
      var r := Deliver(l, y, reply);
      && r.local.run == l.run
      && WipedShape(r.local, ns)
      && OnlyPostchecks(r.sent)
      && DepositsOf(r.sent) == 0
  {
    LateReceipt(l, y, reply);
    var r := Deliver(l, y, reply);
    if r.sent != [] {
      assert r.sent[1..] == [];
    }
  }

  /** A chain that is not the straggler goes away. */
  lemma DropKeeps(l: Local, log: Log, log': Log, ns: string, y: YieldId)
    requires !RunInFlight(l) && Wiped(l, log, ns) && OutcomeExplained(l, log) && y in l.chains
    requires if Active(l.chains[y].phase) then log'.plan == log.plan && log'.timedOut == log.timedOut && Prefix(log')
             else log' == log
    ensures RunInv(Drop(l, y), log', ns)
  {
    hide Prefix, Follows, FollowsAt;
  }

  /** The straggler moves on without the run. */
  lemma StragglerKeeps(l: Local, log: Log, log': Log, ns: string, y: YieldId, phase: Phase)
    requires !RunInFlight(l) && Wiped(l, log, ns) && OutcomeExplained(l, log)
    requires y in l.chains && Active(l.chains[y].phase)
    requires log'.plan == log.plan && log'.timedOut == log.timedOut && Prefix(log') && Straggler(log', phase)
    ensures RunInv(Advance(l, y, phase), log', ns)
  {
    hide Prefix, Follows, FollowsAt;
  }

  /** Late receipts keep the history a prefix of the interpreter's. */
  lemma LateReceiptKeeps(l: Local, log: Log, ns: string, y: YieldId, reply: Reply)
    requires !RunInFlight(l) && Wiped(l, log, ns) && OutcomeExplained(l, log)
    requires y in l.chains && !l.chains[y].phase.Yielded?
    ensures
      var r := Deliver(l, y, reply);
      RunInv(r.local, LogDelivery(log, l.chains[y].phase, reply, r.sent), ns)
  {
    hide Prefix, Follows, FollowsAt, RunInv, OutcomeExplained;
    LateReceipt(l, y, reply);
    assert log.requests + [] == log.requests;
    var phase := l.chains[y].phase;
    PrefixReply(log, reply);
    var r := Deliver(l, y, reply);
    var log' := LogDelivery(log, phase, reply, r.sent);
    FollowsIgnoresResults(log, log'.results, Starting, [], map[]);
    FollowsIgnoresResults(log.(replies := log.replies + [reply]), log'.results, Starting, [], map[]);
    if Active(phase) {
      StragglerMoves(log, phase, reply);
    }
    if y in r.local.chains {
      StragglerKeeps(l, log, log', ns, y, r.local.chains[y].phase);
    } else {
      DropKeeps(l, log, log', ns, y);
    }
  }

  /** What a straggler's receipt does to the history. */
  lemma StragglerMoves(log: Log, phase: Phase, reply: Reply)
    requires Straggler(log, phase)
    ensures
      match phase
      case Dispatched(call) =>
        var log' := log.(replies := log.replies + [reply]);
        if !call.policy.Asserted? then true
        else if CheckedReply(reply).None? then Straggler(log', Resolving(Failure))
        else
          var log'' := log'.(requests := log.requests + [CheckRequest(call)]);
          Straggler(log'', Postchecking(call.policy.expectedReturn)) && Prefix(log'')
      case Postchecking(expectedReturn) =>
        Straggler(log.(replies := log.replies + [reply]), Resolving(PostcheckOutcome(expectedReturn, reply)))
      case _ => true
  {
    hide Follows, Prefix;
    var plan, saved :| Follows(log, CursorOf(phase), plan, saved);
    var log' := log.(replies := log.replies + [reply]);
    match phase
    case Dispatched(call) =>
      FollowsTarget(log, plan, saved, call, reply);
      if call.policy.Asserted? {
        if CheckedReply(reply).None? {
          assert Follows(log', CursorOf(Resolving(Failure)), plan, saved);
        } else {
          var log'' := log'.(requests := log.requests + [CheckRequest(call)]);
          assert Follows(log'', CursorOf(Postchecking(call.policy.expectedReturn)), plan, saved);
          FollowsIsPrefix(log'', CursorOf(Postchecking(call.policy.expectedReturn)), plan, saved);
        }
      }
    case Postchecking(expectedReturn) =>
      FollowsCheck(log, plan, saved, expectedReturn, reply);
      assert Follows(log', CursorOf(Resolving(PostcheckOutcome(expectedReturn, reply))), plan, saved);
    case _ =>
  }

  // --- Timeouts ---

  lemma FollowsIgnoresTimeout(log: Log, c: Cursor, plan: seq<Step>, saved: map<string, Bytes>)
    ensures Follows(log.(timedOut := true), c, plan, saved) == Follows(log, c, plan, saved)
    ensures Prefix(log.(timedOut := true)) == Prefix(log)
  {
  }

  lemma TimeOutFlightKeeps(l: Local, log: Log, ns: string, k: nat, y: YieldId)
    requires RunInFlight(l) && InFlightAt(l, log, ns, k) && y in l.chains
    ensures RunInv(TimeOut(l, y), log.(timedOut := true), ns)
  {
    hide ChainsFrom;
    TimeOutShape(l, log.plan, log.base, ns, k, y);
    var phase := l.chains[log.base + k].phase;
    FollowsIgnoresTimeout(log, CursorOf(phase), log.plan[k..], SavedResults(l));
    StillInFlight(TimeOut(l, y), log.(timedOut := true), ns, k, phase);
  }

  lemma TimeOutWipedKeeps(l: Local, log: Log, ns: string, y: YieldId)
    requires !RunInFlight(l) && Wiped(l, log, ns) && OutcomeExplained(l, log) && y in l.chains
    ensures RunInv(TimeOut(l, y), log.(timedOut := true), ns)
  {
    hide Follows, Prefix, FollowsAt;
    var l', log' := TimeOut(l, y), log.(timedOut := true);
    FollowsIgnoresTimeout(log, Done(Completed), [], map[]);
    if l.run.Some? && l.run.value.failedStepId.Some? {
      FollowsIgnoresTimeout(log, Done(Failed(l.run.value.failedStepId.value)), [], map[]);
    }
    forall z | z in l'.chains && Active(l'.chains[z].phase)
      ensures Straggler(log', l'.chains[z].phase)
    {
      var plan, saved :| Follows(log, CursorOf(l.chains[z].phase), plan, saved);
      FollowsIgnoresTimeout(log, CursorOf(l.chains[z].phase), plan, saved);
    }
  }

  // --- Firing ---

  lemma FiredKeeps(l: Local, ns: string, run: AutomationRun, plan: seq<Step>, base: YieldId, funded: nat)
    requires plan != [] && DistinctIds(plan) && run.status == InFlight && l.context == None
    ensures RunInv(Fired(l, ns, run, plan, base), Log(plan, base, [], [], [], false, funded), ns)
  {
    hide ChainsFrom;
    var log := Log(plan, base, [], [], [], false, funded);
    FiredShape(l, ns, run, plan, base);
    assert plan[0..] == plan;
    assert Follows(log, Starting, plan, map[]) by {
      forall more: seq<Reply>
        ensures Interpret(plan, map[], [] + more) == After([], Interpret(plan, map[], more))
      {
        assert [] + more == more;
      }
    }
    StillInFlight(Fired(l, ns, run, plan, base), log, ns, 0, Resumed);
  }

  // --- Every run in flight can go on, and ends ---

  function Rank(phase: Phase): nat {
    match phase
    case Resumed => 5
    case Gating => 4
    case Dispatched(_) => 3
    case Postchecking(_) => 2
    case Resolving(_) => 1
    case _ => 0
  }

  /** Unresolved steps first, then the phases the current step has left. */
  function Measure(l: Local, plan: seq<Step>, base: YieldId): nat {
    var k := Position(l, plan);
    if 0 <= k < |plan| && base + k in l.chains then 6 * (|plan| - 1 - k) + Rank(l.chains[base + k].phase) else 0
  }

  /** A delivered receipt of the current step ends the run or brings it closer to its end. */
  ghost predicate Closer(l: Local, plan: seq<Step>, base: YieldId, l': Local) {
    !RunInFlight(l') || Measure(l', plan, base) < Measure(l, plan, base)
  }

  lemma AdvanceCloser(l: Local, plan: seq<Step>, base: YieldId, ns: string, k: nat, phase: Phase)
    requires FlightShape(l, plan, base, ns, k) && Rank(phase) < Rank(l.chains[base + k].phase)
    ensures Closer(l, plan, base, Advance(l, base + k, phase))
  {
    hide ChainsFrom;
    PositionOf(l, plan, base, ns, k);
  }

  lemma DispatchCloser(l: Local, plan: seq<Step>, base: YieldId, ns: string, k: nat)
    requires RunInFlight(l) && FlightShape(l, plan, base, ns, k) && Rank(l.chains[base + k].phase) > 3
    requires l.chains[base + k].stepId in l.steps
    ensures Closer(l, plan, base, Dispatch(l, base + k).local)
  {
    hide ChainsFrom;
    CurrentStep(l, plan, base, ns, k);
    match MaterializeStep(plan[k], SavedResults(l))
    case Ok(call) => AdvanceCloser(l, plan, base, ns, k, Dispatched(call));
    case Err(_) => FailureShape(l, plan, base, ns, k);
  }

  lemma ResolvedCloser(l: Local, plan: seq<Step>, base: YieldId, ns: string, k: nat, outcome: Reply)
    requires RunInFlight(l) && FlightShape(l, plan, base, ns, k)
    ensures Closer(l, plan, base, OnStepResolved(l, base + k, outcome))
  {
    ResolvedExact(l, plan, base, ns, k, outcome);
    match CheckedReply(outcome)
    case None => FailureShape(l, plan, base, ns, k);
    case Some(bytes) => PassedCloser(l, plan, base, ns, k, ContextAfter(l, plan[k].saveResult, bytes));
  }

  lemma PassedCloser(l: Local, plan: seq<Step>, base: YieldId, ns: string, k: nat, context: Option<map<string, Bytes>>)
    requires RunInFlight(l) && FlightShape(l, plan, base, ns, k)
    ensures Closer(l, plan, base, Progress(Resolved(l, base + k, plan[k].stepId, context)))
  {
    PositionOf(l, plan, base, ns, k);
    CurrentStep(l, plan, base, ns, k);
    if k + 1 == |plan| {
      CompletionShape(l, plan, base, ns, k, context);
    } else {
      WakeNextChains(l.chains, plan, base, ns, k);
      if l.chains[base + k + 1].phase.Yielded? {
        ReleaseWakes(l, plan, base, ns, k, context);
        WokenCloser(l, plan, base, ns, k, context);
      } else {
        ReleaseFails(l, plan, base, ns, k, context);
      }
    }
  }

  lemma WokenCloser(l: Local, plan: seq<Step>, base: YieldId, ns: string, k: nat, context: Option<map<string, Bytes>>)
    requires FlightShape(l, plan, base, ns, k) && k + 1 < |plan| && base + k + 1 in l.chains
    ensures Closer(l, plan, base, Woken(l, base + k, plan[k].stepId, context))
  {
    hide ChainsFrom;
    WokenShape(l, plan, base, ns, k, context);
    CurrentStep(l, plan, base, ns, k);
    PositionOf(l, plan, base, ns, k);
    PositionOf(Woken(l, base + k, plan[k].stepId, context), plan, base, ns, k + 1);
  }

  /** The current step always has a receipt outstanding that can be delivered, and
      delivering it ends the run or strictly decreases the measure. */
  lemma CurrentReceiptProgresses(l: Local, plan: seq<Step>, base: YieldId, ns: string, k: nat, reply: Reply)
    requires RunInFlight(l) && FlightShape(l, plan, base, ns, k)
    ensures base + k in l.chains && !l.chains[base + k].phase.Yielded?
    ensures Closer(l, plan, base, Deliver(l, base + k, reply).local)
  {
    hide ChainsFrom;
    CurrentStep(l, plan, base, ns, k);
    match l.chains[base + k].phase
    case Resumed =>
      if plan[k].preGate.Some? {
        AdvanceCloser(l, plan, base, ns, k, Gating);
      } else {
        DispatchCloser(l, plan, base, ns, k);
      }
    case Gating =>
      if plan[k].preGate.Some? && GatePasses(plan[k].preGate.value, reply) {
        DispatchCloser(l, plan, base, ns, k);
      } else if plan[k].preGate.Some? {
        FailureShape(l, plan, base, ns, k);
      } else {
        PositionOf(l, plan, base, ns, k);
      }
    case Dispatched(call) =>
      if !call.policy.Asserted? {
        ResolvedCloser(l, plan, base, ns, k, reply);
      } else if CheckedReply(reply).Some? {
        AdvanceCloser(l, plan, base, ns, k, Postchecking(call.policy.expectedReturn));
      } else {
        AdvanceCloser(l, plan, base, ns, k, Resolving(Failure));
      }
    case Postchecking(expectedReturn) =>
      AdvanceCloser(l, plan, base, ns, k, Resolving(PostcheckOutcome(expectedReturn, reply)));
    case Resolving(outcome) => ResolvedCloser(l, plan, base, ns, k, outcome);
    case _ =>
  }
}

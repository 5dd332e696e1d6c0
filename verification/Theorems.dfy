/** What holds in every world of every allowed schedule: the main results about
    automation runs, their triggers and their namespaces. */
module Theorems {
  import opened Prelude
  import opened Types
  import opened Materialize
  import opened NamespaceKeys
  import opened Sequencer
  import opened Interpreter
  import opened RunInvariant
  import opened RunShapes
  import opened RunEndings
  import opened Account
  import opened Protocol
  import opened ProtocolSteps

  /** Some allowed schedule leads to this world. */
  ghost predicate Reachable(w: World) {
    exists worlds, events :: Schedule(worlds, events) && worlds[|events|] == w
  }

  ghost predicate Sound(w: World) {
    Invariant(w) && FreshNamespaces(w.state)
  }

  lemma ReachableSound(w: World)
    requires Reachable(w)
    ensures Sound(w)
  {
    hide Invariant, FreshNamespaces, Allowed, Next;
    var worlds, events :| Schedule(worlds, events) && worlds[|events|] == w;
    ScheduleSound(worlds, events, |events|);
  }

  lemma ScheduleSound(worlds: seq<World>, events: seq<Event>, i: nat)
    requires Schedule(worlds, events) && i <= |events|
    ensures i < |worlds| && Sound(worlds[i])
  {
    hide Invariant, FreshNamespaces, Allowed, Next;
    ReachableInvariant(worlds, events, i);
  }

  /** A namespace in which a trigger has fired. */
  predicate Tracked(w: World, ns: string) {
    IsAutomation(ns) && HashFree(ns) && ns in w.logs
  }

  lemma TrackedRun(w: World, ns: string)
    requires Sound(w) && Tracked(w, ns)
    ensures RunInv(Project(w.state, ns), w.logs[ns], ns)
    ensures PlanDeposit(w.logs[ns].plan) <= w.logs[ns].funded
    ensures Project(w.state, ns).run == Get(w.state.runs, ns)
  {
    hide RunInv, Slice, ChainsOf, IsAutomation, HashFree, PlanDeposit;
  }

  // --- Refinement ---

  /** Where the interpreter ends, read off a run row. */
  function EndingOf(run: AutomationRun): Ending {
    match run.status
    case Succeeded => Completed
    case DownstreamFailed => if run.failedStepId.Some? then Failed(run.failedStepId.value) else Waiting
    case _ => Waiting
  }

  /** The run waits for another contract, or is over: no receipt of its own is due first. */
  predicate Quiescent(w: World, ns: string)
    requires ns in w.logs
  {
    var l := Project(w.state, ns);
    var y := w.logs[ns].base + Position(l, w.logs[ns].plan);
    RunInFlight(l) ==> y in l.chains && AwaitsReply(l.chains[y].phase)
  }

  lemma FollowsExactly(log: Log, c: Cursor, plan: seq<Step>, saved: map<string, Bytes>)
    requires Follows(log, c, plan, saved)
    requires c.AtGate? || c.AtTarget? || c.AtCheck? || c.Done?
    ensures Interpret(log.plan, map[], log.replies) == Trace(log.requests, if c.Done? then c.ending else Waiting)
  {
    assert log.replies + [] == log.replies;
    assert log.requests + [] == log.requests;
  }

  lemma RunExact(l: Local, log: Log, ns: string)
    requires RunInv(l, log, ns) && l.run.Some? && l.run.value.status != ResumeFailed
    requires RunInFlight(l) ==> 
               var y := log.base + Position(l, log.plan); y in l.chains && AwaitsReply(l.chains[y].phase)
    ensures Interpret(log.plan, map[], log.replies) == Trace(log.requests, EndingOf(l.run.value))
    ensures l.run.value.status == DownstreamFailed ==> l.run.value.failedStepId.Some?
  {
    hide Interpret, Follows, ChainsFrom, WipedShape, Prefix;
    match l.run.value.status
    case InFlight =>
      var k := Position(l, log.plan);
      FollowsExactly(log, CursorOf(l.chains[log.base + k].phase), log.plan[k..], SavedResults(l));
    case Succeeded => FollowsExactly(log, Done(Completed), [], map[]);
    case DownstreamFailed => FollowsExactly(log, Done(Failed(l.run.value.failedStepId.value)), [], map[]);
    case ResumeFailed =>
  }

  lemma RunPrefix(l: Local, log: Log, ns: string)
    requires RunInv(l, log, ns)
    ensures Prefix(log)
  {
    hide Follows, ChainsFrom, WipedShape, Prefix;
    if RunInFlight(l) {
      var k := Position(l, log.plan);
      FollowsIsPrefix(log, CursorOf(l.chains[log.base + k].phase), log.plan[k..], SavedResults(l));
    }
  }

  /** Whatever happens, the calls a run has sent, with the very arguments, deposits
      and gas, are calls of the sequential interpreter given the same replies, in
      order, however the replies still to come turn out. */
  lemma RunRefinesInterpreter(w: World, ns: string, more: seq<Reply>)
    requires Reachable(w) && Tracked(w, ns)
    ensures w.logs[ns].requests <= Interpret(w.logs[ns].plan, map[], w.logs[ns].replies + more).requests
  {
    hide Reachable, Sound, RunInv, IsAutomation, HashFree;
    ReachableSound(w);
    TrackedRun(w, ns);
    RunPrefix(Project(w.state, ns), w.logs[ns], ns);
  }

  /** A run that did not fail to resume has done exactly what the interpreter does:
      the same calls, and the same ending. It succeeded if and only if every step
      passed, and failed downstream exactly at the first step that did not. */
  lemma RunEqualsInterpreter(w: World, ns: string)
    requires Reachable(w) && Tracked(w, ns) && Quiescent(w, ns)
    requires ns in w.state.runs && w.state.runs[ns].status != ResumeFailed
    ensures
      var whole := Interpret(w.logs[ns].plan, map[], w.logs[ns].replies);
      var run := w.state.runs[ns];
      && whole == Trace(w.logs[ns].requests, EndingOf(run))
      && (run.status == InFlight <==> whole.ending == Waiting)
      && (run.status == Succeeded <==> whole.ending == Completed)
      && (run.status == DownstreamFailed <==> run.failedStepId.Some? && whole.ending == Failed(run.failedStepId.value))
  {
    hide Reachable, Sound, RunInv, IsAutomation, HashFree, Project, Position, Interpret;
    ReachableSound(w);
    TrackedRun(w, ns);
    RunExact(Project(w.state, ns), w.logs[ns], ns);
  }

  /** A run fails to resume only if a yielded step timed out, and then names a step
      of its plan. Without timeouts the previous result always applies. */
  lemma ResumeFailsOnlyByTimeout(w: World, ns: string)
    requires Reachable(w) && Tracked(w, ns)
    requires ns in w.state.runs && w.state.runs[ns].status == ResumeFailed
    ensures w.logs[ns].timedOut && StepOfPlan(w.logs[ns].plan, w.state.runs[ns].failedStepId)
  {
    hide Reachable, Sound, IsAutomation, HashFree, Project, Wiped, StepOfPlan;
    ReachableSound(w);
    TrackedRun(w, ns);
  }

  /** As long as no yield of the run has timed out, the calls and the status are
      exactly the interpreter's, whatever the schedule. */
  lemma PunctualRunIsExact(w: World, ns: string)
    requires Reachable(w) && Tracked(w, ns) && Quiescent(w, ns) && !w.logs[ns].timedOut && ns in w.state.runs
    ensures Interpret(w.logs[ns].plan, map[], w.logs[ns].replies) == Trace(w.logs[ns].requests, EndingOf(w.state.runs[ns]))
  {
    hide Reachable, Quiescent, Interpret, IsAutomation, HashFree;
    if w.state.runs[ns].status == ResumeFailed {
      ResumeFailsOnlyByTimeout(w, ns);
    } else {
      RunEqualsInterpreter(w, ns);
    }
  }

  /** The targets of a run are never paid more than the total computed when its
      template was saved, hence never more than the balance checked at firing. */
  lemma RunDepositBound(w: World, ns: string)
    requires Reachable(w) && Tracked(w, ns)
    ensures DepositsOf(w.logs[ns].requests) <= PlanDeposit(w.logs[ns].plan) <= w.logs[ns].funded
  {
    hide Reachable, Sound, RunInv, IsAutomation, HashFree;
    var log := w.logs[ns];
    ReachableSound(w);
    TrackedRun(w, ns);
    RunRefinesInterpreter(w, ns, []);
    DepositsOfPrefix(log.requests, Interpret(log.plan, map[], log.replies + []).requests);
    InterpretDeposits(log.plan, map[], log.replies + []);
  }

  // --- The shape of a run in flight, in the account's own maps ---

  /** Step i of the plan is registered under its own yield, with the call as saved. */
  predicate RegisteredAt(s: State, ns: string, log: Log, i: nat)
    requires i < |log.plan|
  {
    var key := StepKey(ns, log.plan[i].stepId);
    key in s.steps && s.steps[key] == RegisteredStep(log.base + i, log.plan[i])
  }

  /** While a run is in flight there is one k, the number of steps that have passed,
      such that the steps before k are gone, exactly the steps from k on are
      registered, the queue is exactly the steps after k, each step from k on has
      its one receipt outstanding and no other step has any, only step k is past
      its yield (or one of the others has timed out), and the values saved are
      exactly those of the steps that passed. */
  lemma InFlightShape(w: World, ns: string)
    requires Reachable(w) && Tracked(w, ns) && RowInFlight(w.state, ns)
    ensures
      var s, log := w.state, w.logs[ns];
      var k := |log.results|;
      && k < |log.plan|
      && (forall i | k <= i < |log.plan| :: RegisteredAt(s, ns, log, i))
      && (forall key | key in s.steps && InNamespace(key, ns) ::
            exists i :: k <= i < |log.plan| && key == StepKey(ns, log.plan[i].stepId))
      && Get(s.queues, ns) == (if k + 1 < |log.plan| then Some(IdsOf(log.plan)[k + 1..]) else None)
      && ChainsFrom(ChainsOf(s.chains, ns), log.plan, log.base, ns, k)
      && SavedResults(Project(s, ns)) == SavedBy(log.plan, log.results)
  {
    hide Reachable, Sound, IsAutomation, HashFree, ChainsFrom, Slice, ChainsOf, Follows, SavedBy;
    var s, log := w.state, w.logs[ns];
    var k := |log.results|;
    ReachableSound(w);
    TrackedRun(w, ns);
    forall i | k <= i < |log.plan|
      ensures RegisteredAt(s, ns, log, i)
    {
      StepsFromAt(log.plan, log.base, k, i);
      SliceAt(s.steps, ns, log.plan[i].stepId);
    }
    forall key | key in s.steps && InNamespace(key, ns)
      ensures exists i :: k <= i < |log.plan| && key == StepKey(ns, log.plan[i].stepId)
    {
      KeyDecodes(key, ns);
      SliceAt(s.steps, ns, StepIdOf(key, ns));
      StepsFromKeys(log.plan, log.base, k, StepIdOf(key, ns));
    }
  }

  /** Nothing of the namespace is left in the account's maps. */
  predicate Cleared(s: State, ns: string) {
    ns !in s.queues && ns !in s.contexts && forall key | key in s.steps :: !InNamespace(key, ns)
  }

  /** Outside flight nothing is registered, queued or saved. */
  lemma NotInFlightCleared(w: World, ns: string)
    requires Sound(w) && Tracked(w, ns) && !RowInFlight(w.state, ns)
    ensures Cleared(w.state, ns)
  {
    hide Sound, IsAutomation, HashFree, Slice, ChainsOf, Follows, Prefix, OutcomeExplained;
    TrackedRun(w, ns);
    forall key | key in w.state.steps
      ensures !InNamespace(key, ns)
    {
      if InNamespace(key, ns) {
        KeyDecodes(key, ns);
        SliceAt(w.state.steps, ns, StepIdOf(key, ns));
      }
    }
  }

  // --- Value threading ---

  /** Every target call ever sent for an automation run is the call of the next step
      of its plan, materialized against exactly what the steps before it saved. */
  lemma TargetsUseSavedValues(w: World, y: YieldId, reply: Reply, i: nat)
    requires Reachable(w) && y in w.state.chains && !w.state.chains[y].phase.Yielded?
    requires IsAutomation(w.state.chains[y].ns)
    requires
      var sent := Deliver(Project(w.state, w.state.chains[y].ns), y, reply).sent;
      i < |sent| && sent[i].TargetCall?
    ensures
      var ns := w.state.chains[y].ns;
      && Tracked(w, ns) && RowInFlight(w.state, ns)
      && var log := w.logs[ns];
         var k := |log.results|;
         && k < |log.plan| && y == log.base + k
         && var made := MaterializeStep(log.plan[k], SavedBy(log.plan, log.results));
            made.Ok? && Deliver(Project(w.state, ns), y, reply).sent == [TargetRequest(made.value)]
  {
    hide Reachable, Sound, IsAutomation, HashFree, Project, Deliver;
    ReachableSound(w);
    var ns := w.state.chains[y].ns;
    SoundChain(w, y);
    TrackedRun(w, ns);
    SentTarget(Project(w.state, ns), w.logs[ns], ns, y, reply, i);
  }

  lemma SoundChain(w: World, y: YieldId)
    requires Sound(w) && y in w.state.chains && IsAutomation(w.state.chains[y].ns)
    ensures Tracked(w, w.state.chains[y].ns)
    ensures y in Project(w.state, w.state.chains[y].ns).chains
    ensures Project(w.state, w.state.chains[y].ns).chains[y] == w.state.chains[y]
  {
    hide IsAutomation, HashFree, RunInv, Project;
    ChainsHashFree(w.state, y);
    ProjectedRun(w.state, w.state.chains[y].ns);
    KnownNamespace(w, w.state.chains[y].ns, y);
  }

  lemma SentTarget(l: Local, log: Log, ns: string, y: YieldId, reply: Reply, i: nat)
    requires RunInv(l, log, ns) && y in l.chains && !l.chains[y].phase.Yielded?
    requires i < |Deliver(l, y, reply).sent| && Deliver(l, y, reply).sent[i].TargetCall?
    ensures RunInFlight(l) && |log.results| < |log.plan| && y == log.base + |log.results|
    ensures
      var made := MaterializeStep(log.plan[|log.results|], SavedBy(log.plan, log.results));
      made.Ok? && Deliver(l, y, reply).sent == [TargetRequest(made.value)]
  {
    hide Follows, Prefix, SavedBy, ChainsFrom, Deliver, MaterializeStep, TargetRequest, Straggler, OutcomeExplained;
    if !RunInFlight(l) {
      HaltIsFinal(l, ns, y, reply);
    } else {
      var k := Position(l, log.plan);
      if y == log.base + k {
        CurrentStep(l, log.plan, log.base, ns, k);
        DispatchesSaved(l, y, reply, i);
      } else {
        SilentWhenTimedOut(l, log.plan, log.base, ns, k, y, reply);
      }
    }
  }

  /** A chain of the run that is not the current one sends nothing. */
  lemma SilentWhenTimedOut(l: Local, plan: seq<Step>, base: YieldId, ns: string, k: nat, y: YieldId, reply: Reply)
    requires RunInFlight(l) && FlightShape(l, plan, base, ns, k) && y in l.chains && y != base + k
    requires !l.chains[y].phase.Yielded?
    ensures Deliver(l, y, reply).sent == []
  {
    hide OnStepResumed;
    assert l.chains[y].phase.TimedOut?;
    TimedOutShape(l, plan, base, ns, k, y);
  }

  lemma DispatchesSaved(l: Local, y: YieldId, reply: Reply, i: nat)
    requires y in l.chains && !l.chains[y].phase.Yielded? && l.chains[y].stepId in l.steps
    requires i < |Deliver(l, y, reply).sent| && Deliver(l, y, reply).sent[i].TargetCall?
    ensures
      var made := MaterializeStep(l.steps[l.chains[y].stepId].call, SavedResults(l));
      made.Ok? && Deliver(l, y, reply).sent == [TargetRequest(made.value)]
  {
  }
}

/** Manual namespaces, in which calls, runs and leftover steps may overlap: registered
    steps and receipts correspond one to one, and as long as releases start while no
    step is on its way, each later step is released by its predecessor's success. */
module ManualNamespaces {
  import opened Prelude
  import opened Types
  import opened Materialize
  import opened NamespaceKeys
  import opened Sequencer
  import opened RunInvariant
  import opened RunProofs
  import opened RunEndings
  import opened Links
  import opened Account
  import opened Protocol
  import opened ProtocolSteps
  import opened Theorems
  import opened Completion
  import opened OneAtATime

  // --- The bijection ---

  /** Every outstanding chain is the receipt of its own registered step, and no run
      row stands behind the namespace. */
  ghost predicate Bound(l: Local) {
    && l.run == None
    && forall y | y in l.chains :: l.chains[y].stepId in l.steps && l.steps[l.chains[y].stepId].yieldId == y
  }

  lemma RegisterBound(l: Local, ns: string, call: Step, y: YieldId)
    requires Bound(l) && y !in l.chains && Register(l, ns, call, y).Some?
    ensures Bound(Register(l, ns, call, y).value)
  {
  }

  lemma {:induction false} RegisterAllBound(l: Local, ns: string, calls: seq<Step>, y: YieldId)
    requires Bound(l) && (forall z | z in l.chains :: z < y) && RegisterAll(l, ns, calls, y).Some?
    ensures Bound(RegisterAll(l, ns, calls, y).value)
    decreases |calls|
  {
    if calls != [] {
      RegisterBound(l, ns, calls[0], y);
      RegisterAllBound(Register(l, ns, calls[0], y).value, ns, calls[1..], y + 1);
    }
  }

  lemma ResumeBound(l: Local, stepId: string)
    requires Bound(l) && ResumeStep(l, stepId).Some?
    ensures Bound(ResumeStep(l, stepId).value)
  {
  }

  lemma StartBound(l: Local, order: seq<string>)
    requires Bound(l) && StartRelease(l, order).Some?
    ensures Bound(StartRelease(l, order).value)
  {
    ResumeBound(l.(queue := if |order| > 1 then Some(order[1..]) else None), order[0]);
  }

  lemma PlanBound(l: Local, ns: string, calls: seq<Step>, y: YieldId)
    requires Bound(l) && (forall z | z in l.chains :: z < y) && ReleasePlan(l, ns, calls, y).Some?
    ensures Bound(ReleasePlan(l, ns, calls, y).value)
  {
    hide Bound, RegisterAll, StartRelease;
    RegisterAllBound(l, ns, calls, y);
    StartBound(RegisterAll(l, ns, calls, y).value, IdsOf(calls));
  }

  /** A step and its chain leave together. */
  lemma RemoveBound(l: Local, y: YieldId, queue: Option<seq<string>>, context: Option<map<string, Bytes>>)
    requires Bound(l) && y in l.chains
    ensures Bound(Drop(l, y).(steps := l.steps - {l.chains[y].stepId}, queue := queue, context := context))
  {
  }

  lemma AdvanceBound(l: Local, y: YieldId, phase: Phase)
    requires Bound(l) && y in l.chains
    ensures Bound(Advance(l, y, phase))
  {
  }

  lemma ProgressBound(l: Local)
    requires Bound(l)
    ensures Bound(Progress(l))
  {
    var (l1, next) := TakeNextQueuedStep(l);
    if next.Some? && ResumeStep(l1, next.value).Some? {
      ResumeBound(l1, next.value);
    }
  }

  /** What a resolving step leaves in its namespace before the next one is taken. */
  function AfterResolved(l: Local, y: YieldId, reply: Reply): Local
    requires y in l.chains
  {
    var stepId := l.chains[y].stepId;
    var spec := if stepId in l.steps then l.steps[stepId].call.saveResult else None;
    var l1 := Drop(l, y).(steps := l.steps - {stepId});
    if CheckedReply(reply).Some? then SaveStepResult(l1, spec, CheckedReply(reply).value) else l1
  }

  lemma ResolvedParts(l: Local, y: YieldId, reply: Reply)
    requires Bound(l) && y in l.chains
    ensures
      var l1 := AfterResolved(l, y, reply);
      && Bound(l1) && l1.queue == l.queue && l1.chains == l.chains - {y} && l1.steps == l.steps - {l.chains[y].stepId}
      && OnStepResolved(l, y, reply) ==
         if CheckedReply(reply).Some? then Progress(l1) else l1.(queue := None, context := None)
  {
    hide Progress;
    RemoveBound(l, y, l.queue, AfterResolved(l, y, reply).context);
  }

  /** Halting a manual step: the step, the queue and the saved values go. */
  lemma HaltParts(l: Local, y: YieldId, status: RunStatus)
    requires Bound(l) && y in l.chains
    ensures
      var l' := Halt(Drop(l, y), l.chains[y].stepId, status);
      && l' == Drop(l, y).(steps := l.steps - {l.chains[y].stepId}, queue := None, context := None)
      && Bound(l')
  {
    RemoveBound(l, y, None, None);
  }

  // How a receipt moves a manual namespace: its chain steps forward in place, the
  // namespace halts, or the step passes and the next one is taken from the queue.
  datatype Move = Forward(phase: Phase) | Halted | Passed(after: Local)

  ghost predicate Moves(l: Local, y: YieldId, l': Local, move: Move)
    requires y in l.chains
  {
    match move
    case Forward(phase) => Active(phase) && Active(l.chains[y].phase) && l' == Advance(l, y, phase)
    case Halted => l'.queue == None && l'.context == None && l'.chains == l.chains - {y}
    case Passed(after) =>
      && after.queue == l.queue && after.chains == l.chains - {y} && after.steps == l.steps - {l.chains[y].stepId}
      && Bound(after) && l' == Progress(after)
  }

  lemma DispatchMoves(l: Local, y: YieldId) returns (move: Move)
    requires Bound(l) && y in l.chains && Active(l.chains[y].phase) && Rank(l.chains[y].phase) > 3
    ensures l.chains[y].stepId in l.steps && Moves(l, y, Dispatch(l, y).local, move) && !move.Passed?
    ensures move.Forward? ==> Rank(move.phase) == 3
    ensures Bound(Dispatch(l, y).local)
  {
    match MaterializeStep(l.steps[l.chains[y].stepId].call, SavedResults(l)) {
      case Ok(call) =>
        move := Forward(Dispatched(call));
        AdvanceBound(l, y, Dispatched(call));
      case Err(_) =>
        move := Halted;
        HaltParts(l, y, DownstreamFailed);
    }
  }

  /** Every receipt is one of these moves; the step passes exactly if its surface did. */
  lemma DeliverMoves(l: Local, y: YieldId, reply: Reply) returns (move: Move)
    requires Bound(l) && Linked(l) && y in l.chains && !l.chains[y].phase.Yielded?
    ensures Moves(l, y, Deliver(l, y, reply).local, move)
    ensures move.Passed? <==> PassedWith(l.chains[y].phase, reply).Some?
    ensures move.Passed? ==> Active(l.chains[y].phase)
    ensures move.Forward? ==> Rank(move.phase) < Rank(l.chains[y].phase)
    ensures Bound(Deliver(l, y, reply).local)
  {
    hide Bound, Moves, Dispatch, Halt, OnStepResolved, GatePasses, Progress;
    var stepId := l.chains[y].stepId;
    OwnStep(l, y);
    match l.chains[y].phase {
      case Resumed =>
        if l.steps[stepId].call.preGate.Some? {
          move := ForwardMove(l, y, Gating);
        } else {
          move := DispatchMoves(l, y);
        }
      case TimedOut => move := HaltMove(l, y, ResumeFailed);
      case Gating =>
        if GatePasses(l.steps[stepId].call.preGate.value, reply) {
          move := DispatchMoves(l, y);
        } else {
          move := HaltMove(l, y, DownstreamFailed);
        }
      case Dispatched(call) =>
        if !call.policy.Asserted? {
          move := ResolveMove(l, y, reply);
        } else if CheckedReply(reply).Some? {
          move := ForwardMove(l, y, Postchecking(call.policy.expectedReturn));
        } else {
          move := ForwardMove(l, y, Resolving(Failure));
        }
      case Postchecking(expectedReturn) => move := ForwardMove(l, y, Resolving(PostcheckOutcome(expectedReturn, reply)));
      case Resolving(outcome) => move := ResolveMove(l, y, outcome);
      case Yielded => assert false;
    }
  }

  /** A chain's step is registered under it, with a gate if the chain waits for one. */
  lemma OwnStep(l: Local, y: YieldId)
    requires Bound(l) && Linked(l) && y in l.chains
    ensures
      var stepId := l.chains[y].stepId;
      stepId in l.steps && l.steps[stepId].yieldId == y && (l.chains[y].phase.Gating? ==> l.steps[stepId].call.preGate.Some?)
  {
  }

  lemma ForwardMove(l: Local, y: YieldId, phase: Phase) returns (move: Move)
    requires Bound(l) && y in l.chains && Active(phase) && Active(l.chains[y].phase)
    ensures Moves(l, y, Advance(l, y, phase), move) && move == Forward(phase) && Bound(Advance(l, y, phase))
  {
    AdvanceBound(l, y, phase);
    move := Forward(phase);
  }

  lemma HaltMove(l: Local, y: YieldId, status: RunStatus) returns (move: Move)
    requires Bound(l) && y in l.chains
    ensures
      var l' := Halt(Drop(l, y), l.chains[y].stepId, status);
      Moves(l, y, l', move) && move == Halted && Bound(l')
  {
    HaltParts(l, y, status);
    move := Halted;
  }

  lemma ResolveMove(l: Local, y: YieldId, reply: Reply) returns (move: Move)
    requires Bound(l) && y in l.chains
    ensures Moves(l, y, OnStepResolved(l, y, reply), move) && Bound(OnStepResolved(l, y, reply))
    ensures if CheckedReply(reply).Some? then move.Passed? else move.Halted?
  {
    hide Progress, OnStepResolved;
    ResolvedParts(l, y, reply);
    if CheckedReply(reply).Some? {
      ProgressBound(AfterResolved(l, y, reply));
      move := Passed(AfterResolved(l, y, reply));
    } else {
      move := Halted;
      RemoveBound(l, y, None, None);
    }
  }

  lemma LocalBound(s: State, l: Local, ns: string, e: Event)
    requires Bound(l) && Linked(l) && (forall y | y in l.chains :: y < s.nextYield)
    requires !e.ExecuteTrigger? && LocalAfter(s, l, ns, e).Some?
    ensures Bound(LocalAfter(s, l, ns, e).value)
  {
    hide Bound, Linked, Register, ReleasePlan, StartRelease, Deliver;
    match e
    case RegisterStep(_, call) => RegisterBound(l, ns, call, s.nextYield);
    case ExecuteSteps(_, _, calls) => PlanBound(l, ns, calls, s.nextYield);
    case RunSequence(_, _, order) => StartBound(l, order);
    case TimeoutYield(y) =>
      AdvanceBound(l, y, TimedOut);
    case DeliverReceipt(y, reply) =>
      var move := DeliverMoves(l, y, reply);
    case _ =>
  }

  lemma ManualEvent(s: State, e: Event, caller: string)
    requires e.ExecuteTrigger?
    ensures Touched(s, e) != Some(ManualNamespace(caller))
  {
    hide AutomationNamespace, ManualNamespace, IsAutomation;
    if e.triggerId in s.triggers {
      AutomationIsAutomation(e.triggerId, s.triggers[e.triggerId].runsStarted + 1);
      ManualIsNotAutomation(caller);
    }
  }

  lemma BoundStep(w: World, e: Event, caller: string)
    requires Sound(w) && Allowed(w, e) && HashFree(caller) && Bound(Project(w.state, ManualNamespace(caller)))
    ensures Bound(Project(Next(w, e).state, ManualNamespace(caller)))
  {
    hide Invariant, FreshNamespaces, HashFree, Allowed, Apply, Next, Project, LocalAfter, Bound, Linked, ManualNamespace, Touched;
    var ns := ManualNamespace(caller);
    ManualName(caller);
    NextProjects(w, e, ns);
    if Apply(w.state, e).Some? && Touched(w.state, e) == Some(ns) {
      InvariantParts(w);
      BelowNext(w.state, ns);
      LinkedAt(w.state, ns);
      if e.ExecuteTrigger? {
        ManualEvent(w.state, e, caller);
      } else {
        LocalBound(w.state, Project(w.state, ns), ns, e);
      }
    } else {
      BoundIgnoresPrune(Project(w.state, ns));
    }
  }

  lemma BoundIgnoresPrune(l: Local)
    requires Bound(l)
    ensures l.(run := None) == l
  {
  }

  /** In a manual namespace, however runs, leftover steps and timeouts overlap, each
      registered step has its one receipt outstanding and each receipt its step. */
  lemma {:induction false} ManualBijection(worlds: seq<World>, events: seq<Event>, caller: string, i: nat)
    requires Schedule(worlds, events) && HashFree(caller) && i <= |events|
    ensures
      var l := Project(worlds[i].state, ManualNamespace(caller));
      Bound(l) && Linked(l)
  {
    hide Sound, HashFree, Allowed, Next, Project, Bound, Linked, ManualNamespace;
    ScheduleSound(worlds, events, i);
    ManualName(caller);
    SoundLinked(worlds[i], ManualNamespace(caller));
    if i == 0 {
      assert worlds[0] == Initial;
      InitialProjects(ManualNamespace(caller));
      EmptyIsBound();
    } else {
      ManualBijection(worlds, events, caller, i - 1);
      ScheduleSound(worlds, events, i - 1);
      assert worlds[i - 1 + 1] == Next(worlds[i - 1], events[i - 1]);
      BoundStep(worlds[i - 1], events[i - 1], caller);
    }
  }

  lemma SoundLinked(w: World, ns: string)
    requires Sound(w) && HashFree(ns)
    ensures Linked(Project(w.state, ns))
  {
    hide Linked, HashFree, Project, FreshNamespaces;
    InvariantParts(w);
    LinkedAt(w.state, ns);
  }

  lemma EmptyIsBound()
    ensures Bound(EmptyNamespace)
  {
  }

  // --- Who releases a step ---

  /** The order a release declares. */
  function OrderOf(s: State, e: Event): seq<string> {
    match e
    case ExecuteSteps(_, _, calls) => IdsOf(calls)
    case RunSequence(_, _, order) => order
    case _ => []
  }

  /** The order of the latest release accepted in the namespace. */
  ghost function LatestOrder(worlds: seq<World>, events: seq<Event>, ns: string, i: nat): seq<string>
    requires i <= |events| <= |worlds|
  {
    if i == 0 then []
    else if Releases(worlds[i - 1], events[i - 1], ns) then OrderOf(worlds[i - 1].state, events[i - 1])
    else LatestOrder(worlds, events, ns, i - 1)
  }

  /** The queue is what is left of the order behind the step that is on its way. */
  ghost predicate QueueBehind(l: Local, order: seq<string>) {
    l.queue.Some? ==>
      && 0 < |l.queue.value| < |order|
      && l.queue.value == order[|order| - |l.queue.value|..]
      && exists y :: y in l.chains && Active(l.chains[y].phase) && l.chains[y].stepId == order[|order| - |l.queue.value| - 1]
  }

  lemma StartBehind(l: Local, order: seq<string>)
    requires Linked(l) && StartRelease(l, order).Some?
    ensures QueueBehind(StartRelease(l, order).value, order)
  {
    if |order| > 1 {
      var z := l.steps[order[0]].yieldId;
      assert z in StartRelease(l, order).value.chains;
    }
  }

  lemma PlanBehind(l: Local, ns: string, calls: seq<Step>, y: YieldId)
    requires Linked(l) && (forall z | z in l.chains :: z < y) && ReleasePlan(l, ns, calls, y).Some?
    ensures QueueBehind(ReleasePlan(l, ns, calls, y).value, IdsOf(calls))
  {
    hide QueueBehind, RegisterAll, StartRelease, Linked;
    RegisterAllGrown(l, ns, calls, y);
    StartBehind(RegisterAll(l, ns, calls, y).value, IdsOf(calls));
  }

  lemma RegisterBehind(l: Local, ns: string, call: Step, y: YieldId, order: seq<string>)
    requires QueueBehind(l, order) && y !in l.chains && Register(l, ns, call, y).Some?
    ensures QueueBehind(Register(l, ns, call, y).value, order)
  {
    if l.queue.Some? {
      var z :| z in l.chains && Active(l.chains[z].phase) && l.chains[z].stepId == order[|order| - |l.queue.value| - 1];
      assert z in Register(l, ns, call, y).value.chains;
    }
  }

  lemma TimeOutBehind(l: Local, y: YieldId, order: seq<string>)
    requires QueueBehind(l, order) && y in l.chains
    ensures QueueBehind(TimeOut(l, y), order)
  {
    if l.queue.Some? {
      var z :| z in l.chains && Active(l.chains[z].phase) && l.chains[z].stepId == order[|order| - |l.queue.value| - 1];
      assert z in TimeOut(l, y).chains;
    }
  }

  lemma ProgressBehind(l: Local, order: seq<string>)
    requires Bound(l) && Linked(l)
    requires l.queue.Some? ==> 0 < |l.queue.value| < |order| && l.queue.value == order[|order| - |l.queue.value|..]
    ensures QueueBehind(Progress(l), order)
  {
    var (l1, next) := TakeNextQueuedStep(l);
    if next.Some? && ResumeStep(l1, next.value).Some? {
      var l2 := ResumeStep(l1, next.value).value;
      var z := l1.steps[next.value].yieldId;
      if l2.queue.Some? {
        assert l2.queue.value == l.queue.value[1..];
        assert z in l2.chains && Active(l2.chains[z].phase) && l2.chains[z].stepId == next.value;
      }
    }
  }

  lemma DeliverBehind(l: Local, y: YieldId, reply: Reply, order: seq<string>)
    requires QueueBehind(l, order) && Bound(l) && Linked(l) && OneActive(l.chains)
    requires y in l.chains && !l.chains[y].phase.Yielded?
    ensures QueueBehind(Deliver(l, y, reply).local, order)
  {
    hide Deliver, Progress, Bound, Linked;
    var move := DeliverMoves(l, y, reply);
    match move
    case Forward(phase) =>
      if l.queue.Some? {
        var z :| z in l.chains && Active(l.chains[z].phase) && l.chains[z].stepId == order[|order| - |l.queue.value| - 1];
        assert z in Advance(l, y, phase).chains;
      }
    case Halted =>
    case Passed(after) =>
      LinkedAfter(l, y, after);
      ProgressBehind(after, order);
  }

  /** What a passing step leaves behind is still linked. */
  lemma LinkedAfter(l: Local, y: YieldId, after: Local)
    requires Linked(l) && Bound(l) && y in l.chains
    requires after.chains == l.chains - {y} && after.steps == l.steps - {l.chains[y].stepId}
    ensures Linked(after)
  {
  }

  lemma LocalBehind(s: State, l: Local, ns: string, e: Event, order: seq<string>)
    requires QueueBehind(l, order) && Bound(l) && Linked(l) && OneActive(l.chains)
    requires (forall y | y in l.chains :: y < s.nextYield) && !e.ExecuteTrigger? && LocalAfter(s, l, ns, e).Some?
    ensures QueueBehind(LocalAfter(s, l, ns, e).value, if StartsRelease(e) then OrderOf(s, e) else order)
  {
    hide QueueBehind, Bound, Linked, OneActive, Register, ReleasePlan, StartRelease, Deliver;
    match e
    case RegisterStep(_, call) => RegisterBehind(l, ns, call, s.nextYield, order);
    case ExecuteSteps(_, _, calls) => PlanBehind(l, ns, calls, s.nextYield);
    case RunSequence(_, _, released) => StartBehind(l, released);
    case TimeoutYield(y) => TimeOutBehind(l, y, order);
    case DeliverReceipt(y, reply) => DeliverBehind(l, y, reply, order);
    case _ =>
  }

  lemma BehindStep(w: World, e: Event, caller: string, order: seq<string>)
    requires Sound(w) && Allowed(w, e) && HashFree(caller)
    requires
      var l := Project(w.state, ManualNamespace(caller));
      QueueBehind(l, order) && Bound(l) && Linked(l) && OneActive(l.chains)
    ensures
      var ns := ManualNamespace(caller);
      QueueBehind(Project(Next(w, e).state, ns), if Releases(w, e, ns) then OrderOf(w.state, e) else order)
  {
    hide Invariant, FreshNamespaces, HashFree, Allowed, Apply, Next, Project, LocalAfter, QueueBehind, Bound, Linked, OneActive,
      ManualNamespace, Touched;
    var ns := ManualNamespace(caller);
    ManualName(caller);
    NextProjects(w, e, ns);
    if Apply(w.state, e).Some? && Touched(w.state, e) == Some(ns) {
      InvariantParts(w);
      BelowNext(w.state, ns);
      if e.ExecuteTrigger? {
        ManualEvent(w.state, e, caller);
      } else {
        LocalBehind(w.state, Project(w.state, ns), ns, e, order);
      }
    } else {
      BoundIgnoresPrune(Project(w.state, ns));
    }
  }

  /** With quiet starts, the queue is at all times what the latest run declared behind
      the step that is on its way. */
  lemma {:induction false} QueueFollowsStep(worlds: seq<World>, events: seq<Event>, caller: string, i: nat)
    requires Schedule(worlds, events) && HashFree(caller) && i <= |events|
    requires QuietStarts(worlds, events, ManualNamespace(caller), i)
    ensures OneActive(ChainsIn(worlds[i], ManualNamespace(caller)))
    ensures QueueBehind(Project(worlds[i].state, ManualNamespace(caller)), LatestOrder(worlds, events, ManualNamespace(caller), i))
  {
    hide Sound, HashFree, Allowed, Next, Project, Bound, Linked, OneActive, QueueBehind, Releases, ManualNamespace, ChainsIn;
    var ns := ManualNamespace(caller);
    ManualName(caller);
    OneAtATimeIff(worlds, events, ns, i);
    if i == 0 {
      assert worlds[0] == Initial;
      InitialProjects(ns);
      EmptyBehind();
    } else {
      QueueFollowsStep(worlds, events, caller, i - 1);
      ManualBijection(worlds, events, caller, i - 1);
      ScheduleSound(worlds, events, i - 1);
      ChainsOfProject(worlds[i - 1], ns);
      assert worlds[i - 1 + 1] == Next(worlds[i - 1], events[i - 1]);
      BehindStep(worlds[i - 1], events[i - 1], caller, LatestOrder(worlds, events, ns, i - 1));
    }
  }

  lemma EmptyBehind()
    ensures QueueBehind(EmptyNamespace, [])
  {
  }

  /** In this event the step of chain y passed and the step of chain z was released;
      they are neighbours in the order, and y is done. */
  ghost predicate HandsOver(l: Local, l': Local, e: Event, order: seq<string>, z: YieldId) {
    && e.DeliverReceipt? && e.y in l.chains && PassedWith(l.chains[e.y].phase, e.reply).Some?
    && z in l.chains && e.y != z && e.y !in l'.chains
    && exists k :: 0 <= k < |order| - 1 && l.chains[e.y].stepId == order[k] && l.chains[z].stepId == order[k + 1]
  }

  lemma LocalHandsOver(s: State, l: Local, ns: string, e: Event, order: seq<string>, z: YieldId)
    requires QueueBehind(l, order) && Bound(l) && Linked(l) && OneActive(l.chains)
    requires (forall y | y in l.chains :: y < s.nextYield) && !e.ExecuteTrigger? && LocalAfter(s, l, ns, e).Some?
    requires z in l.chains && l.chains[z].phase.Yielded? && !StartsRelease(e)
    requires
      var chains' := LocalAfter(s, l, ns, e).value.chains;
      z in chains' && Active(chains'[z].phase)
    ensures HandsOver(l, LocalAfter(s, l, ns, e).value, e, order, z)
  {
    hide Bound, Linked, Progress, Deliver, PassedWith;
    if e.DeliverReceipt? {
      var y := e.y;
      var move := DeliverMoves(l, y, e.reply);
      if move.Passed? {
        LinkedAfter(l, y, move.after);
        ProgressWakesFront(move.after, z);
        var front := l.queue.value;
        var k := |order| - |front| - 1;
        var x :| x in l.chains && Active(l.chains[x].phase) && l.chains[x].stepId == order[k];
        assert x == y;
        assert l.chains[z].stepId == front[0] == order[k + 1];
      }
    }
  }

  lemma ProgressWakesFront(l: Local, z: YieldId)
    requires Bound(l) && Linked(l) && z in l.chains && l.chains[z].phase.Yielded?
    requires z in Progress(l).chains && Active(Progress(l).chains[z].phase)
    ensures l.queue.Some? && l.queue.value != [] && l.chains[z].stepId == l.queue.value[0]
    ensures forall y | y in Progress(l).chains :: y in l.chains
  {
    var (l1, next) := TakeNextQueuedStep(l);
    if next.Some? && ResumeStep(l1, next.value).Some? {
      ResumeBound(l1, next.value);
    }
  }

  /** With quiet starts, outside the start of a run a step is released only by the
      successful resolution of the step declared just before it in the same run. */
  lemma ReleasedByPredecessor(worlds: seq<World>, events: seq<Event>, caller: string, i: nat, z: YieldId)
    requires Schedule(worlds, events) && HashFree(caller) && i < |events|
    requires QuietStarts(worlds, events, ManualNamespace(caller), i)
    requires
      var ns := ManualNamespace(caller);
      && z in ChainsIn(worlds[i], ns) && ChainsIn(worlds[i], ns)[z].phase.Yielded?
      && z in ChainsIn(worlds[i + 1], ns) && Active(ChainsIn(worlds[i + 1], ns)[z].phase)
      && !Releases(worlds[i], events[i], ns)
    ensures
      var ns := ManualNamespace(caller);
      HandsOver(Project(worlds[i].state, ns), Project(worlds[i + 1].state, ns), events[i], LatestOrder(worlds, events, ns, i), z)
  {
    hide Invariant, FreshNamespaces, HashFree, Allowed, Apply, Next, Project, LocalAfter, Bound, Linked, OneActive, QueueBehind,
      HandsOver, ManualNamespace, Touched, ChainsIn;
    var ns := ManualNamespace(caller);
    var w, e := worlds[i], events[i];
    ManualName(caller);
    QueueFollowsStep(worlds, events, caller, i);
    ManualBijection(worlds, events, caller, i);
    ScheduleSound(worlds, events, i);
    ChainsOfProject(w, ns);
    ChainsOfProject(worlds[i + 1], ns);
    NextProjects(w, e, ns);
    if Apply(w.state, e).Some? && Touched(w.state, e) == Some(ns) {
      InvariantParts(w);
      BelowNext(w.state, ns);
      if e.ExecuteTrigger? {
        ManualEvent(w.state, e, caller);
      } else {
        LocalHandsOver(w.state, Project(w.state, ns), ns, e, LatestOrder(worlds, events, ns, i), z);
      }
    }
  }
}

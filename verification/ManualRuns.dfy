/** A plan executed by one call in a manual namespace of its own follows the sequential
    interpreter too. The proof runs an automation run beside it. */
module ManualRuns {
  import opened Prelude
  import opened Types
  import opened Materialize
  import opened NamespaceKeys
  import opened Sequencer
  import opened Interpreter
  import opened RunInvariant
  import opened RunShapes
  import opened RunProofs
  import opened RunEndings
  import opened Account
  import opened Protocol
  import opened ProtocolSteps
  import opened Theorems
  import opened Completion
  import opened QueueOwners

  // --- A manual namespace with a run row beside it ---

  const ROW: AutomationRun := AutomationRun("", "", 0, InFlight, None)

  function WithRow(l: Local): Local {
    l.(run := Some(ROW))
  }

  /** Apart from the row the two agree, as long as the run with the row goes on. */
  ghost predicate Agree(r: Reaction, r': Reaction) {
    && r.sent == r'.sent && r'.local.run.Some?
    && (RunInFlight(r'.local) ==> r'.local == WithRow(r.local) && r.local.run == None)
  }

  lemma HaltAgrees(l: Local, stepId: string, status: RunStatus)
    requires l.run == None && status != InFlight
    ensures Agree(Reaction(Halt(l, stepId, status), []), Reaction(Halt(WithRow(l), stepId, status), []))
  {
  }

  lemma DispatchAgrees(l: Local, y: YieldId)
    requires l.run == None && y in l.chains && l.chains[y].stepId in l.steps
    ensures Agree(Dispatch(l, y), Dispatch(WithRow(l), y))
  {
    hide Halt, TargetRequest;
    assert SavedResults(WithRow(l)) == SavedResults(l);
    match MaterializeStep(l.steps[l.chains[y].stepId].call, SavedResults(l))
    case Ok(call) =>
    case Err(_) =>
      HaltAgrees(Drop(l, y), l.chains[y].stepId, DownstreamFailed);
      assert Drop(WithRow(l), y) == WithRow(Drop(l, y));
  }

  lemma ProgressAgrees(l: Local)
    requires l.run == None
    ensures Agree(Reaction(Progress(l), []), Reaction(Progress(WithRow(l)), []))
  {
    var (l1, next) := TakeNextQueuedStep(l);
    assert TakeNextQueuedStep(WithRow(l)) == (WithRow(l1), next);
    if next.Some? {
      assert ResumeStep(WithRow(l1), next.value).Some? == ResumeStep(l1, next.value).Some?;
    }
  }

  lemma ResolvedAgrees(l: Local, y: YieldId, reply: Reply)
    requires l.run == None && y in l.chains
    ensures Agree(Reaction(OnStepResolved(l, y, reply), []), Reaction(OnStepResolved(WithRow(l), y, reply), []))
  {
    hide Progress;
    var stepId := l.chains[y].stepId;
    var spec := if stepId in l.steps then l.steps[stepId].call.saveResult else None;
    var l1 := Drop(l, y).(steps := l.steps - {stepId});
    assert Drop(WithRow(l), y).(steps := l.steps - {stepId}) == WithRow(l1);
    if CheckedReply(reply).Some? {
      var l2 := SaveStepResult(l1, spec, CheckedReply(reply).value);
      assert SaveStepResult(WithRow(l1), spec, CheckedReply(reply).value) == WithRow(l2);
      ProgressAgrees(l2);
    }
  }

  lemma DeliverAgrees(l: Local, y: YieldId, reply: Reply)
    requires l.run == None && y in l.chains && !l.chains[y].phase.Yielded?
    ensures Agree(Deliver(l, y, reply), Deliver(WithRow(l), y, reply))
  {
    hide Dispatch, Halt, OnStepResolved, GatePasses;
    var stepId := l.chains[y].stepId;
    assert Drop(WithRow(l), y) == WithRow(Drop(l, y));
    HaltAgrees(Drop(l, y), stepId, ResumeFailed);
    HaltAgrees(Drop(l, y), stepId, DownstreamFailed);
    if stepId in l.steps {
      DispatchAgrees(l, y);
    }
    match l.chains[y].phase
    case Dispatched(_) => ResolvedAgrees(l, y, reply);
    case Resolving(outcome) => ResolvedAgrees(l, y, outcome);
    case _ =>
  }

  // --- The history of a manual run ---

  /** The caller executes these calls in an empty namespace of its own. */
  ghost predicate StartsManualRun(w: World, e: Event, caller: string) {
    && e.ExecuteSteps? && e.caller == caller && Apply(w.state, e).Some?
    && Project(w.state, ManualNamespace(caller)) == EmptyNamespace
  }

  /** Until event j the namespace sees nothing but receipts and timeouts. */
  ghost predicate Undisturbed(worlds: seq<World>, events: seq<Event>, ns: string, i: nat, j: nat)
    requires j <= |events| <= |worlds|
  {
    forall m | i < m < j ::
      Apply(worlds[m].state, events[m]).Some? && Touched(worlds[m].state, events[m]) == Some(ns) ==> IsCallback(events[m])
  }

  /** What the run has sent, was given and saw time out, as observed. */
  ghost function ManualLog(worlds: seq<World>, events: seq<Event>, ns: string, i: nat, j: nat): Log
    requires i < j <= |events| <= |worlds|
  {
    if j == i + 1 then
      Log(if events[i].ExecuteSteps? then events[i].calls else [], worlds[i].state.nextYield, [], [], [], false, 0)
    else
      LogEvent(ManualLog(worlds, events, ns, i, j - 1), worlds[j - 1], events[j - 1], ns)
  }

  ghost function LogEvent(log: Log, w: World, e: Event, ns: string): Log {
    if Apply(w.state, e).None? || Touched(w.state, e) != Some(ns) then log
    else
      match e
      case TimeoutYield(_) => log.(timedOut := true)
      case DeliverReceipt(y, reply) =>
        if y in w.state.chains then LogDelivery(log, w.state.chains[y].phase, reply, Apply(w.state, e).value.sent) else log
      case _ => log
  }

  /** How an automation run would stand after the same receipts and timeouts. */
  ghost function Shadow(worlds: seq<World>, events: seq<Event>, ns: string, i: nat, j: nat): Local
    requires i < j <= |events| < |worlds|
  {
    if j == i + 1 then WithRow(Project(worlds[i + 1].state, ns))
    else ShadowEvent(Shadow(worlds, events, ns, i, j - 1), worlds[j - 1], events[j - 1], ns)
  }

  ghost function ShadowEvent(l: Local, w: World, e: Event, ns: string): Local {
    if Apply(w.state, e).None? || Touched(w.state, e) != Some(ns) then l
    else
      match e
      case TimeoutYield(y) => if y in l.chains then TimeOut(l, y) else l
      case DeliverReceipt(y, reply) => if y in l.chains && !l.chains[y].phase.Yielded? then Deliver(l, y, reply).local else l
      case _ => l
  }

  /** The run has neither completed nor halted. */
  ghost predicate Live(worlds: seq<World>, events: seq<Event>, ns: string, i: nat, j: nat)
    requires i < j <= |events| < |worlds|
  {
    RunInFlight(Shadow(worlds, events, ns, i, j))
  }

  // --- The shadow keeps the run invariant and agrees with the namespace ---

  ghost predicate Shadowed(w: World, ns: string, shadow: Local, log: Log) {
    && RunInv(shadow, log, ns) && shadow.run.Some?
    && (RunInFlight(shadow) ==> shadow == WithRow(Project(w.state, ns)) && Project(w.state, ns).run == None)
  }

  lemma ManualStart(w: World, e: Event, caller: string)
    requires Sound(w) && Allowed(w, e) && HashFree(caller) && StartsManualRun(w, e, caller)
    ensures
      var ns := ManualNamespace(caller);
      Shadowed(Next(w, e), ns, WithRow(Project(Next(w, e).state, ns)), Log(e.calls, w.state.nextYield, [], [], [], false, 0))
  {
    hide Invariant, FreshNamespaces, HashFree, Allowed, Next, Project, RunInv, ManualNamespace, ReleasePlan, Fired;
    var ns := ManualNamespace(caller);
    ManualName(caller);
    NextProjects(w, e, ns);
    FireExact(EmptyNamespace, ns, ROW, e.calls, w.state.nextYield);
    FiredKeeps(EmptyNamespace, ns, ROW, e.calls, w.state.nextYield, 0);
    PlanKeepsRun(EmptyNamespace, ns, e.calls, w.state.nextYield);
  }

  lemma PlanKeepsRun(l: Local, ns: string, calls: seq<Step>, y: YieldId)
    requires ReleasePlan(l, ns, calls, y).Some? && Fire(l, ns, ROW, calls, y).Some?
    ensures Fire(l, ns, ROW, calls, y).value == WithRow(ReleasePlan(l, ns, calls, y).value)
    ensures ReleasePlan(l, ns, calls, y).value.run == l.run
  {
    hide StartRelease;
    RegisterAllKeepsRun(l, ns, calls, y);
    StartKeepsRun(RegisterAll(l, ns, calls, y).value, IdsOf(calls));
  }

  lemma {:induction false} RegisterAllKeepsRun(l: Local, ns: string, calls: seq<Step>, y: YieldId)
    requires RegisterAll(l, ns, calls, y).Some?
    ensures RegisterAll(l, ns, calls, y).value.run == l.run
    decreases |calls|
  {
    if calls != [] {
      RegisterAllKeepsRun(Register(l, ns, calls[0], y).value, ns, calls[1..], y + 1);
    }
  }

  lemma StartKeepsRun(l: Local, order: seq<string>)
    requires StartRelease(l, order).Some?
    ensures StartRelease(l, order).value.run == l.run
  {
  }

  lemma ShadowDelivers(l: Local, shadow: Local, log: Log, ns: string, y: YieldId, reply: Reply)
    requires RunInv(shadow, log, ns) && RunInFlight(shadow) && shadow == WithRow(l) && l.run == None
    requires y in l.chains && !l.chains[y].phase.Yielded?
    ensures
      var r, r' := Deliver(l, y, reply), Deliver(shadow, y, reply);
      && RunInv(r'.local, LogDelivery(log, l.chains[y].phase, reply, r.sent), ns) && r'.local.run.Some?
      && (RunInFlight(r'.local) ==> r'.local == WithRow(r.local) && r.local.run == None)
  {
    hide Deliver, RunInv, LogDelivery;
    DeliverAgrees(l, y, reply);
    DeliverRunInv(shadow, log, ns, y, reply);
  }

  lemma ShadowStep(w: World, e: Event, caller: string, shadow: Local, log: Log)
    requires Sound(w) && Allowed(w, e) && HashFree(caller) && Shadowed(w, ManualNamespace(caller), shadow, log)
    requires RunInFlight(shadow)
    requires Apply(w.state, e).Some? && Touched(w.state, e) == Some(ManualNamespace(caller)) ==> IsCallback(e)
    ensures
      var ns := ManualNamespace(caller);
      Shadowed(Next(w, e), ns, ShadowEvent(shadow, w, e, ns), LogEvent(log, w, e, ns))
  {
    hide Invariant, FreshNamespaces, HashFree, Allowed, Next, Project, RunInv, ManualNamespace, Deliver, TimeOut, LogDelivery,
      React, Put;
    var ns := ManualNamespace(caller);
    ManualName(caller);
    NextProjects(w, e, ns);
    if Apply(w.state, e).Some? && Touched(w.state, e) == Some(ns) {
      ProjectedRun(w.state, ns);
      match e
      case TimeoutYield(y) =>
        TimeOutRunInv(shadow, log, ns, y);
        TimeOutAgrees(Project(w.state, ns), y);
      case DeliverReceipt(y, reply) =>
        ShadowDelivers(Project(w.state, ns), shadow, log, ns, y, reply);
      case _ =>
    }
  }

  lemma TimeOutAgrees(l: Local, y: YieldId)
    requires y in l.chains
    ensures TimeOut(WithRow(l), y) == WithRow(TimeOut(l, y)) && TimeOut(l, y).run == l.run
  {
  }

  lemma {:induction false} ManualShadow(worlds: seq<World>, events: seq<Event>, caller: string, i: nat, j: nat)
    requires Schedule(worlds, events) && HashFree(caller) && i < j <= |events|
    requires StartsManualRun(worlds[i], events[i], caller) && Undisturbed(worlds, events, ManualNamespace(caller), i, j)
    requires forall m | i < m < j :: Live(worlds, events, ManualNamespace(caller), i, m)
    ensures
      var ns := ManualNamespace(caller);
      Shadowed(worlds[j], ns, Shadow(worlds, events, ns, i, j), ManualLog(worlds, events, ns, i, j))
  {
    hide Sound, HashFree, Allowed, Apply, Next, ManualNamespace, Project, Shadowed, RunInFlight, ShadowEvent, LogEvent, Touched;
    var ns := ManualNamespace(caller);
    assert worlds[j - 1 + 1] == Next(worlds[j - 1], events[j - 1]);
    ScheduleSound(worlds, events, j - 1);
    if j == i + 1 {
      ManualStart(worlds[i], events[i], caller);
      StartedBy(worlds[i], events[i], caller);
    } else {
      ManualShadow(worlds, events, caller, i, j - 1);
      assert Live(worlds, events, ns, i, j - 1);
      ShadowStep(worlds[j - 1], events[j - 1], caller,
                 Shadow(worlds, events, ns, i, j - 1), ManualLog(worlds, events, ns, i, j - 1));
    }
  }

  lemma StartedBy(w: World, e: Event, caller: string)
    requires StartsManualRun(w, e, caller)
    ensures e.ExecuteSteps?
  {
  }

  lemma {:induction false} ManualPlan(worlds: seq<World>, events: seq<Event>, ns: string, i: nat, j: nat)
    requires i < j <= |events| <= |worlds| && events[i].ExecuteSteps?
    ensures ManualLog(worlds, events, ns, i, j).plan == events[i].calls
  {
    hide Apply, Touched;
    if j > i + 1 {
      ManualPlan(worlds, events, ns, i, j - 1);
    }
  }

  /** While a manual run executed by one call is alone in its namespace, and up to and
      including the event that ends it, the calls it has sent are calls of the sequential
      interpreter given the same replies, however the replies still to come turn out. */
  lemma ManualRunRefinesInterpreter(worlds: seq<World>, events: seq<Event>, caller: string, i: nat, j: nat, more: seq<Reply>)
    requires Schedule(worlds, events) && HashFree(caller) && i < j <= |events|
    requires StartsManualRun(worlds[i], events[i], caller) && Undisturbed(worlds, events, ManualNamespace(caller), i, j)
    requires forall m | i < m < j :: Live(worlds, events, ManualNamespace(caller), i, m)
    ensures
      var log := ManualLog(worlds, events, ManualNamespace(caller), i, j);
      events[i].ExecuteSteps? && log.requests <= Interpret(events[i].calls, map[], log.replies + more).requests
  {
    hide Allowed, Next, HashFree, StartsManualRun, Undisturbed, Live, ManualNamespace, RunInv, Interpret, ManualLog, Shadow;
    var ns := ManualNamespace(caller);
    ManualShadow(worlds, events, caller, i, j);
    StartedBy(worlds[i], events[i], caller);
    ManualPlan(worlds, events, ns, i, j);
    RunPrefix(Shadow(worlds, events, ns, i, j), ManualLog(worlds, events, ns, i, j), ns);
  }

  /** And unless a yield timed out, once it waits for a reply or is over it has done
      exactly what the interpreter does, with the same ending. */
  lemma ManualRunEqualsInterpreter(worlds: seq<World>, events: seq<Event>, caller: string, i: nat, j: nat)
    requires Schedule(worlds, events) && HashFree(caller) && i < j <= |events|
    requires StartsManualRun(worlds[i], events[i], caller) && Undisturbed(worlds, events, ManualNamespace(caller), i, j)
    requires forall m | i < m < j :: Live(worlds, events, ManualNamespace(caller), i, m)
    requires
      var log := ManualLog(worlds, events, ManualNamespace(caller), i, j);
      var l := Project(worlds[j].state, ManualNamespace(caller));
      var y := log.base + Position(l, log.plan);
      && !log.timedOut
      && (Live(worlds, events, ManualNamespace(caller), i, j) ==> y in l.chains && AwaitsReply(l.chains[y].phase))
    ensures
      var log := ManualLog(worlds, events, ManualNamespace(caller), i, j);
      var shadow := Shadow(worlds, events, ManualNamespace(caller), i, j);
      && events[i].ExecuteSteps? && shadow.run.Some?
      && Interpret(events[i].calls, map[], log.replies) == Trace(log.requests, EndingOf(shadow.run.value))
  {
    hide Allowed, Next, HashFree, StartsManualRun, Undisturbed, ManualNamespace, Interpret, ManualLog, Shadow,
      Project, Wiped, InFlightAt, StepOfPlan;
    var ns := ManualNamespace(caller);
    var shadow, log := Shadow(worlds, events, ns, i, j), ManualLog(worlds, events, ns, i, j);
    ManualShadow(worlds, events, caller, i, j);
    StartedBy(worlds[i], events[i], caller);
    ManualPlan(worlds, events, ns, i, j);
    assert shadow.run.value.status != ResumeFailed;
    RunExact(shadow, log, ns);
  }
}

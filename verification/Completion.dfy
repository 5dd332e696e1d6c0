/** How runs end over whole schedules: a halt is final, every run in flight can go
    on and needs at most six receipts a step, and triggers agree with their runs. */
module Completion {
  import opened Prelude
  import opened Types
  import opened NamespaceKeys
  import opened Sequencer
  import opened Interpreter
  import opened RunInvariant
  import opened RunShapes
  import opened RunProofs
  import opened RunEndings
  import opened Account
  import opened Protocol
  import opened ProtocolSteps
  import opened Theorems
  import opened SmartAccounts

  // --- What one event leaves of a namespace ---

  predicate Fires(w: World, e: Event, ns: string) {
    e.ExecuteTrigger? && Apply(w.state, e).Some? && Touched(w.state, e) == Some(ns)
  }

  lemma NextProjects(w: World, e: Event, ns: string)
    requires Sound(w) && Allowed(w, e) && HashFree(ns)
    ensures
      var l, l' := Project(w.state, ns), Project(Next(w, e).state, ns);
      if Apply(w.state, e).Some? && Touched(w.state, e) == Some(ns) then Some(l') == LocalAfter(w.state, l, ns, e)
      else if e.PruneFinishedRuns? && !RunInFlight(l) then l' == l.(run := None)
      else l' == l
  {
    hide Project, HashFree, LocalAfter, LocalFits, Allowed, ExecuteTriggerOutcome, RegisterStepOutcome,
      ExecuteStepsOutcome, RunSequenceOutcome, DeliverOutcome, LogsAfter, Put, TimeOut, AllLinked, RunsSound,
      TriggersAgree, ChainsSound, TemplatesSound, LogsFunded, FreshNamespaces;
    NextKeeps(w, e);
    var s, s' := w.state, Next(w, e).state;
    if Apply(s, e).Some? {
      if Touched(s, e).Some? {
        var touched := Touched(s, e).value;
        LocalProjects(s, s', touched, LocalAfter(s, Project(s, touched), touched, e).value, ns);
      } else {
        if e.PruneFinishedRuns? {
          PruneProjects(s, s', ns);
        } else {
          UntouchedProjects(w, e, ns);
        }
      }
    }
  }

  lemma UntouchedProjects(w: World, e: Event, ns: string)
    requires Apply(w.state, e).Some? && Touched(w.state, e).None? && !e.PruneFinishedRuns?
    ensures Project(Next(w, e).state, ns) == Project(w.state, ns)
  {
    hide LogsAfter, Project, ValidateTemplate, SequenceReferenced;
    SameProjection(w.state, Next(w, e).state, ns);
  }

  lemma NextLogs(w: World, e: Event, ns: string)
    requires ns in w.logs && (Apply(w.state, e).None? || Touched(w.state, e) != Some(ns))
    ensures ns in Next(w, e).logs && Next(w, e).logs[ns] == w.logs[ns]
  {
    hide Apply, LogDelivery, AutomationNamespace;
  }

  /** An automation namespace is touched by firings, timeouts and receipts only. */
  lemma TouchesAutomation(s: State, e: Event, ns: string)
    requires IsAutomation(ns) && Touched(s, e) == Some(ns)
    ensures e.ExecuteTrigger? || (e.TimeoutYield? && e.y in s.chains) || (e.DeliverReceipt? && e.y in s.chains)
  {
    hide IsAutomation;
    match e
    case RegisterStep(caller, _) => ManualIsNotAutomation(caller);
    case ExecuteSteps(_, caller, _) => ManualIsNotAutomation(caller);
    case RunSequence(_, caller, _) => ManualIsNotAutomation(caller);
    case _ =>
  }

  // --- Halt is final ---

  /** The row is as it was, or pruned. */
  predicate RowKeptOrPruned(s: State, s': State, ns: string) {
    ns in s'.runs ==> ns in s.runs && s'.runs[ns] == s.runs[ns]
  }

  /** Since then only postcheck calls went out. */
  predicate OnlyPostchecksSince(earlier: seq<Request>, later: seq<Request>) {
    earlier <= later && OnlyPostchecks(later[|earlier|..])
  }

  /** What one event does to a namespace whose run is over. */
  lemma HaltedStep(l: Local, l': Local, s: State, ns: string, e: Event)
    requires WipedShape(l, ns) && !RunInFlight(l) && (e.TimeoutYield? || e.DeliverReceipt?)
    requires LocalAfter(s, l, ns, e) == Some(l')
    ensures l'.run == l.run
    ensures e.DeliverReceipt? ==>
              e.y in l.chains && !l.chains[e.y].phase.Yielded? && OnlyPostchecks(Deliver(l, e.y, e.reply).sent)
  {
    hide WipedShape, OnlyPostchecks, Deliver;
    match e
    case TimeoutYield(y) =>
    case DeliverReceipt(y, reply) => HaltIsFinal(l, ns, y, reply);
  }

  lemma HaltStays(w: World, e: Event, ns: string)
    requires Sound(w) && Tracked(w, ns) && !RowInFlight(w.state, ns) && Allowed(w, e) && !Fires(w, e, ns)
    ensures Tracked(Next(w, e), ns) && !RowInFlight(Next(w, e).state, ns)
    ensures RowKeptOrPruned(w.state, Next(w, e).state, ns)
    ensures OnlyPostchecksSince(w.logs[ns].requests, Next(w, e).logs[ns].requests)
  {
    hide Sound, IsAutomation, HashFree, Apply, LocalAfter, RunInv, OnlyPostchecks, Allowed, Next;
    var w' := Next(w, e);
    TrackedRun(w, ns);
    RowOf(w.state, ns);
    RowOf(w'.state, ns);
    NextProjects(w, e, ns);
    SoundStep(w, e);
    if Apply(w.state, e).Some? && Touched(w.state, e) == Some(ns) {
      TouchesAutomation(w.state, e, ns);
      OverWiped(w, ns);
      HaltedStep(Project(w.state, ns), Project(w'.state, ns), w.state, ns, e);
      HaltedLogs(w, e, ns);
    } else {
      NextLogs(w, e, ns);
      NothingSent(w.logs[ns].requests);
    }
  }

  lemma SoundStep(w: World, e: Event)
    requires Sound(w) && Allowed(w, e)
    ensures Sound(Next(w, e))
  {
    hide Invariant, FreshNamespaces, Allowed, Next;
    NextKeeps(w, e);
    NextFresh(w, e);
  }

  lemma RowOf(s: State, ns: string)
    ensures Project(s, ns).run == Get(s.runs, ns)
    ensures RunInFlight(Project(s, ns)) <==> RowInFlight(s, ns)
  {
    hide Slice, ChainsOf;
  }

  lemma OverWiped(w: World, ns: string)
    requires Sound(w) && Tracked(w, ns) && !RowInFlight(w.state, ns)
    ensures WipedShape(Project(w.state, ns), ns)
  {
    hide Sound, IsAutomation, HashFree, WipedShape, Prefix;
    TrackedRun(w, ns);
    RowOf(w.state, ns);
  }

  lemma NothingSent(requests: seq<Request>)
    ensures OnlyPostchecksSince(requests, requests)
  {
  }

  lemma HaltedLogs(w: World, e: Event, ns: string)
    requires ns in w.logs && Touched(w.state, e) == Some(ns) && Apply(w.state, e).Some?
    requires e.TimeoutYield? || e.DeliverReceipt?
    requires e.DeliverReceipt? ==>
               && e.y in Project(w.state, ns).chains && !Project(w.state, ns).chains[e.y].phase.Yielded?
               && OnlyPostchecks(Deliver(Project(w.state, ns), e.y, e.reply).sent)
    ensures ns in Next(w, e).logs
    ensures OnlyPostchecksSince(w.logs[ns].requests, Next(w, e).logs[ns].requests)
  {
    hide Project, Deliver, TimeOut, Put, ReleaseTrigger;
    if e.DeliverReceipt? {
      var sent := Deliver(Project(w.state, ns), e.y, e.reply).sent;
      assert Next(w, e).logs[ns].requests == w.logs[ns].requests + sent;
      assert (w.logs[ns].requests + sent)[|w.logs[ns].requests|..] == sent;
    }
  }

  /** Once a run has left flight, then until its namespace is fired again: no gate
      or target call goes out for it, its row keeps its status and failed step (or
      is pruned), and no step, queue or saved value of it is in the account. */
  lemma {:induction false} HaltIsFinalForever(worlds: seq<World>, events: seq<Event>, ns: string, i: nat, j: nat)
    requires Schedule(worlds, events) && i <= j <= |events|
    requires Tracked(worlds[i], ns) && !RowInFlight(worlds[i].state, ns)
    requires forall m | i <= m < j :: !Fires(worlds[m], events[m], ns)
    ensures Tracked(worlds[j], ns) && !RowInFlight(worlds[j].state, ns)
    ensures Cleared(worlds[j].state, ns) && RowKeptOrPruned(worlds[i].state, worlds[j].state, ns)
    ensures OnlyPostchecksSince(worlds[i].logs[ns].requests, worlds[j].logs[ns].requests)
  {
    hide Sound, Tracked, Fires, Allowed, Next, Cleared;
    ScheduleSound(worlds, events, j);
    if i == j {
      InLogs(worlds[i], ns);
      NothingSent(worlds[i].logs[ns].requests);
    } else {
      HaltIsFinalForever(worlds, events, ns, i, j - 1);
      ScheduleSound(worlds, events, j - 1);
      HaltStays(worlds[j - 1], events[j - 1], ns);
      InLogs(worlds[j - 1], ns);
      InLogs(worlds[j], ns);
    }
    NotInFlightCleared(worlds[j], ns);
  }

  // --- What a finished run has done stays what it has done ---

  /** The run is over and none of its chains is on its way. */
  ghost predicate Settled(w: World, ns: string) {
    Tracked(w, ns) && !RowInFlight(w.state, ns) && NoneActive(Project(w.state, ns).chains)
  }

  predicate SameHistory(log: Log, log': Log) {
    log'.plan == log.plan && log'.requests == log.requests && log'.replies == log.replies
  }

  lemma SettledLocal(l: Local, l': Local, s: State, ns: string, e: Event)
    requires WipedShape(l, ns) && !RunInFlight(l) && NoneActive(l.chains) && (e.TimeoutYield? || e.DeliverReceipt?)
    requires LocalAfter(s, l, ns, e) == Some(l')
    ensures NoneActive(l'.chains)
    ensures e.DeliverReceipt? ==> e.y in l.chains && l.chains[e.y].phase.TimedOut? && Deliver(l, e.y, e.reply).sent == []
  {
    hide Deliver;
    if e.DeliverReceipt? {
      LateReceipt(l, e.y, e.reply);
    }
  }

  lemma SettledLogs(w: World, e: Event, ns: string)
    requires ns in w.logs && Touched(w.state, e) == Some(ns) && Apply(w.state, e).Some?
    requires e.TimeoutYield? || e.DeliverReceipt?
    requires e.DeliverReceipt? ==>
               && e.y in Project(w.state, ns).chains && Project(w.state, ns).chains[e.y].phase.TimedOut?
               && Deliver(Project(w.state, ns), e.y, e.reply).sent == []
    ensures ns in Next(w, e).logs && SameHistory(w.logs[ns], Next(w, e).logs[ns])
  {
    hide Project, Deliver, TimeOut, Put, ReleaseTrigger;
    ProjectedRun(w.state, ns);
    if e.DeliverReceipt? {
      assert w.logs[ns].requests + [] == w.logs[ns].requests;
    }
  }

  lemma SettledStays(w: World, e: Event, ns: string)
    requires Sound(w) && Settled(w, ns) && Allowed(w, e) && !Fires(w, e, ns)
    ensures Settled(Next(w, e), ns) && SameHistory(w.logs[ns], Next(w, e).logs[ns])
  {
    hide Sound, IsAutomation, HashFree, Apply, LocalAfter, RunInv, Allowed, Next, NoneActive, Project;
    HaltStays(w, e, ns);
    RowOf(w.state, ns);
    NextProjects(w, e, ns);
    if Apply(w.state, e).Some? && Touched(w.state, e) == Some(ns) {
      TouchesAutomation(w.state, e, ns);
      OverWiped(w, ns);
      SettledLocal(Project(w.state, ns), Project(Next(w, e).state, ns), w.state, ns, e);
      SettledLogs(w, e, ns);
    } else {
      NextLogs(w, e, ns);
    }
  }

  lemma {:induction false} SettledForever(worlds: seq<World>, events: seq<Event>, ns: string, i: nat, j: nat)
    requires Schedule(worlds, events) && i <= j <= |events| && Settled(worlds[i], ns)
    requires forall m | i <= m < j :: !Fires(worlds[m], events[m], ns)
    ensures Settled(worlds[j], ns) && SameHistory(worlds[i].logs[ns], worlds[j].logs[ns])
  {
    hide Sound, IsAutomation, HashFree, RowInFlight, Fires, Allowed, Next, NoneActive, Project;
    if i < j {
      SettledForever(worlds, events, ns, i, j - 1);
      ScheduleSound(worlds, events, j - 1);
      assert worlds[j - 1 + 1] == Next(worlds[j - 1], events[j - 1]);
      SettledStays(worlds[j - 1], events[j - 1], ns);
    }
  }

  lemma OverSettled(w: World, ns: string)
    requires Sound(w) && Tracked(w, ns) && ns in w.state.runs
    requires w.state.runs[ns].status == Succeeded || w.state.runs[ns].status == DownstreamFailed
    ensures Settled(w, ns)
  {
    hide Sound, IsAutomation, HashFree, Follows, Wiped, NoneActive, Project;
    TrackedRun(w, ns);
  }

  /** A run that completed or failed downstream has done exactly what the interpreter
      does, and that stays so at all later times, its row pruned or not, until its
      namespace is fired again. */
  lemma FinishedRunStaysExact(worlds: seq<World>, events: seq<Event>, ns: string, i: nat, j: nat)
    requires Schedule(worlds, events) && i <= j <= |events| && Tracked(worlds[i], ns) && ns in worlds[i].state.runs
    requires worlds[i].state.runs[ns].status == Succeeded || worlds[i].state.runs[ns].status == DownstreamFailed
    requires forall m | i <= m < j :: !Fires(worlds[m], events[m], ns)
    ensures ns in worlds[j].logs
    ensures
      var log := worlds[j].logs[ns];
      Interpret(log.plan, map[], log.replies) == Trace(log.requests, EndingOf(worlds[i].state.runs[ns]))
  {
    hide Sound, IsAutomation, HashFree, Fires, Allowed, Next, NoneActive, Interpret, EndingOf, RunInv;
    ScheduleSound(worlds, events, i);
    OverSettled(worlds[i], ns);
    SettledForever(worlds, events, ns, i, j);
    TrackedRun(worlds[i], ns);
    RunExact(Project(worlds[i].state, ns), worlds[i].logs[ns], ns);
  }

  lemma InLogs(w: World, ns: string)
    requires Tracked(w, ns)
    ensures ns in w.logs
  {
  }

  // --- Completion ---

  /** A run of the namespace is in flight. */
  predicate Running(w: World, ns: string) {
    Tracked(w, ns) && RowInFlight(w.state, ns)
  }

  /** The receipt of the step a run is at. */
  function CurrentReceipt(w: World, ns: string): int
    requires ns in w.logs
  {
    w.logs[ns].base + Position(Project(w.state, ns), w.logs[ns].plan)
  }

  predicate DeliversCurrent(w: World, e: Event, ns: string) {
    e.DeliverReceipt? && ns in w.logs && e.y == CurrentReceipt(w, ns)
  }

  function Remaining(w: World, ns: string): nat {
    if ns in w.logs then Measure(Project(w.state, ns), w.logs[ns].plan, w.logs[ns].base) else 0
  }

  lemma RunningShape(w: World, ns: string)
    requires Sound(w) && Running(w, ns)
    ensures
      var l, log := Project(w.state, ns), w.logs[ns];
      && RunInFlight(l) && Position(l, log.plan) >= 0
      && FlightShape(l, log.plan, log.base, ns, Position(l, log.plan))
  {
    hide Sound, IsAutomation, HashFree, FlightShape, Follows, SavedBy, Position;
    TrackedRun(w, ns);
    RowOf(w.state, ns);
    PositionNat(Project(w.state, ns), w.logs[ns], ns);
  }

  lemma PositionNat(l: Local, log: Log, ns: string)
    requires RunInv(l, log, ns) && RunInFlight(l)
    ensures Position(l, log.plan) >= 0
  {
    hide Follows, SavedBy, ChainsFrom;
  }

  /** A run in flight always has a receipt of its current step to deliver, whatever
      the reply; delivering it ends the run or strictly lowers what remains. */
  lemma CurrentStepProgresses(w: World, ns: string, reply: Reply)
    requires Sound(w) && Running(w, ns)
    ensures
      var y := CurrentReceipt(w, ns);
      && y in w.state.chains && !w.state.chains[y].phase.Yielded? && w.state.chains[y].ns == ns
      && Apply(w.state, DeliverReceipt(y, reply)).Some?
      && var w' := Next(w, DeliverReceipt(y, reply));
         Tracked(w', ns) && (RowInFlight(w'.state, ns) ==> Remaining(w', ns) < Remaining(w, ns))
  {
    hide Sound, IsAutomation, HashFree, Deliver, Measure, Position, FlightShape, Project, LogsAfter, React;
    RunningShape(w, ns);
    var l, log := Project(w.state, ns), w.logs[ns];
    CurrentReceiptProgresses(l, log.plan, log.base, ns, Position(l, log.plan), reply);
    ProjectedRun(w.state, ns);
    var e := DeliverReceipt(CurrentReceipt(w, ns), reply);
    assert Apply(w.state, e).Some?;
    TouchedLog(w, e, ns);
    NextProjects(w, e, ns);
    RowOf(Next(w, e).state, ns);
  }

  /** Every other event leaves what remains as it is, or ends the run. */
  lemma OthersDoNotDelay(w: World, e: Event, ns: string)
    requires Sound(w) && Allowed(w, e) && Running(w, ns) && !DeliversCurrent(w, e, ns)
    ensures Tracked(Next(w, e), ns)
    ensures RowInFlight(Next(w, e).state, ns) ==> Remaining(Next(w, e), ns) == Remaining(w, ns)
  {
    hide Sound, IsAutomation, HashFree, Apply, LocalAfter, FlightShape, Measure, Position, Allowed, Next, Project;
    RunningShape(w, ns);
    RowOf(w.state, ns);
    RowOf(Next(w, e).state, ns);
    NextProjects(w, e, ns);
    if Apply(w.state, e).Some? && Touched(w.state, e) == Some(ns) {
      TouchesAutomation(w.state, e, ns);
      if e.ExecuteTrigger? {
        NotFiredInFlight(w, e, ns);
      } else {
        TouchedLog(w, e, ns);
        OtherStep(Project(w.state, ns), w.logs[ns], w.state, ns, e);
      }
    } else {
      NextLogs(w, e, ns);
    }
  }

  /** A namespace with a run in flight cannot be fired into. */
  lemma NotFiredInFlight(w: World, e: Event, ns: string)
    requires RowInFlight(w.state, ns) && e.ExecuteTrigger? && Touched(w.state, e) == Some(ns)
    ensures Apply(w.state, e).None?
  {
    hide Put, Project, ReleasePlan, AutomationNamespace;
    RowOf(w.state, ns);
  }

  lemma TouchedLog(w: World, e: Event, ns: string)
    requires ns in w.logs && Touched(w.state, e) == Some(ns) && (e.TimeoutYield? || e.DeliverReceipt?)
    ensures ns in Next(w, e).logs
    ensures Next(w, e).logs[ns].plan == w.logs[ns].plan && Next(w, e).logs[ns].base == w.logs[ns].base
  {
    hide Project, Deliver, TimeOut, Put, ReleaseTrigger;
  }

  lemma OtherStep(l: Local, log: Log, s: State, ns: string, e: Event)
    requires RunInFlight(l) && Position(l, log.plan) >= 0
    requires FlightShape(l, log.plan, log.base, ns, Position(l, log.plan))
    requires LocalAfter(s, l, ns, e).Some?
    requires e.TimeoutYield? || (e.DeliverReceipt? && e.y != log.base + Position(l, log.plan))
    ensures
      var l' := LocalAfter(s, l, ns, e).value;
      RunInFlight(l') ==> Measure(l', log.plan, log.base) == Measure(l, log.plan, log.base)
  {
    hide Deliver, Measure;
    var k := Position(l, log.plan);
    match e
    case TimeoutYield(y) =>
      TimeOutMeasure(l, log.plan, log.base, ns, k, y);
    case DeliverReceipt(y, reply) =>
      OtherIsTimedOut(l, log.plan, log.base, ns, k, y);
      TimedOutEnds(l, log.plan, log.base, ns, k, y, reply);
  }

  lemma OtherIsTimedOut(l: Local, plan: seq<Step>, base: YieldId, ns: string, k: nat, y: YieldId)
    requires FlightShape(l, plan, base, ns, k) && y in l.chains && y != base + k && !l.chains[y].phase.Yielded?
    ensures l.chains[y].phase.TimedOut?
  {
  }

  lemma TimedOutEnds(l: Local, plan: seq<Step>, base: YieldId, ns: string, k: nat, y: YieldId, reply: Reply)
    requires RunInFlight(l) && FlightShape(l, plan, base, ns, k) && y in l.chains && l.chains[y].phase.TimedOut?
    ensures !RunInFlight(Deliver(l, y, reply).local)
  {
    hide FlightShape, OnStepResumed, WipedShape;
    TimedOutShape(l, plan, base, ns, k, y);
  }

  lemma TimeOutMeasure(l: Local, plan: seq<Step>, base: YieldId, ns: string, k: nat, y: YieldId)
    requires FlightShape(l, plan, base, ns, k) && y in l.chains
    ensures Measure(TimeOut(l, y), plan, base) == Measure(l, plan, base)
  {
    hide ChainsFrom;
    TimeOutShape(l, plan, base, ns, k, y);
  }

  lemma StepIsPaidFor(w: World, e: Event, ns: string)
    requires Sound(w) && Allowed(w, e) && Running(w, ns) && Running(Next(w, e), ns)
    ensures Remaining(Next(w, e), ns) + (if DeliversCurrent(w, e, ns) then 1 else 0) <= Remaining(w, ns)
  {
    hide Sound, IsAutomation, HashFree, Allowed, Next, Remaining, CurrentReceipt;
    if DeliversCurrent(w, e, ns) {
      CurrentStepProgresses(w, ns, e.reply);
    } else {
      OthersDoNotDelay(w, e, ns);
    }
  }

  /** How many receipts of its current steps a run was given between two worlds. */
  ghost function CurrentDeliveries(worlds: seq<World>, events: seq<Event>, ns: string, i: nat, j: nat): nat
    requires i <= j <= |events| <= |worlds|
  {
    if i == j then 0
    else
      CurrentDeliveries(worlds, events, ns, i, j - 1) + (if DeliversCurrent(worlds[j - 1], events[j - 1], ns) then 1 else 0)
  }

  /** As long as a run stays in flight, what remains pays for every receipt of its
      current step; all other events are free. */
  lemma {:induction false} DeliveriesArePaidFor(worlds: seq<World>, events: seq<Event>, ns: string, i: nat, j: nat)
    requires Schedule(worlds, events) && i <= j <= |events|
    requires forall m | i <= m <= j :: Running(worlds[m], ns)
    ensures CurrentDeliveries(worlds, events, ns, i, j) + Remaining(worlds[j], ns) <= Remaining(worlds[i], ns)
  {
    hide Sound, Running, Allowed, Next, Remaining, DeliversCurrent;
    if i < j {
      DeliveriesArePaidFor(worlds, events, ns, i, j - 1);
      ScheduleSound(worlds, events, j - 1);
      assert worlds[j - 1 + 1] == Next(worlds[j - 1], events[j - 1]);
      StepIsPaidFor(worlds[j - 1], events[j - 1], ns);
    }
  }

  /** A run of n steps is over after at most 6n - 1 receipts of its current steps. */
  lemma RunsAreBounded(worlds: seq<World>, events: seq<Event>, ns: string, i: nat, j: nat)
    requires Schedule(worlds, events) && i <= j <= |events|
    requires forall m | i <= m <= j :: Running(worlds[m], ns)
    ensures ns in worlds[i].logs
    ensures CurrentDeliveries(worlds, events, ns, i, j) < 6 * |worlds[i].logs[ns].plan|
  {
    hide Sound, Running, Allowed, Next, Remaining, DeliversCurrent, CurrentDeliveries;
    DeliveriesArePaidFor(worlds, events, ns, i, j);
    ScheduleSound(worlds, events, i);
    RemainingBound(worlds[i], ns);
  }

  lemma RemainingBound(w: World, ns: string)
    requires Sound(w) && Running(w, ns)
    ensures ns in w.logs && Remaining(w, ns) < 6 * |w.logs[ns].plan|
  {
    hide Sound, IsAutomation, HashFree, ChainsFrom, Project;
    RunningShape(w, ns);
  }

  /** Deliver the receipt of the current step again and again. */
  ghost function Drive(w: World, ns: string, replies: seq<Reply>): World
    decreases |replies|
  {
    if replies == [] || ns !in w.logs || !RowInFlight(w.state, ns) || CurrentReceipt(w, ns) < 0 then w
    else Drive(Next(w, DeliverReceipt(CurrentReceipt(w, ns), replies[0])), ns, replies[1..])
  }

  /** From any reachable world a run in flight is driven to its end by its own
      receipts alone, whatever the replies. */
  lemma EveryRunCanEnd(w: World, ns: string, replies: seq<Reply>)
    requires Reachable(w) && Running(w, ns) && |replies| >= 6 * |w.logs[ns].plan|
    ensures Tracked(Drive(w, ns, replies), ns) && !RowInFlight(Drive(w, ns, replies).state, ns)
  {
    hide Reachable, Sound, Remaining, Drive, IsAutomation, HashFree, RowInFlight;
    ReachableSound(w);
    RemainingBound(w, ns);
    DriveEnds(w, ns, replies);
  }

  lemma {:induction false} DriveEnds(w: World, ns: string, replies: seq<Reply>)
    requires Sound(w) && Tracked(w, ns) && (RowInFlight(w.state, ns) ==> Remaining(w, ns) < |replies|)
    ensures Tracked(Drive(w, ns, replies), ns) && !RowInFlight(Drive(w, ns, replies).state, ns)
    decreases |replies|
  {
    hide Sound, IsAutomation, HashFree, Next, Remaining, CurrentReceipt, RowInFlight;
    if RowInFlight(w.state, ns) {
      CurrentStepProgresses(w, ns, replies[0]);
      SoundStep(w, DeliverReceipt(CurrentReceipt(w, ns), replies[0]));
      DriveEnds(Next(w, DeliverReceipt(CurrentReceipt(w, ns), replies[0])), ns, replies[1..]);
    }
  }

  // --- Triggers ---

  /** A trigger is in flight exactly if some run of it is; that run is then the only
      one, stored under the namespace of its current nonce. Counters respect their
      bounds and every trigger's template is there. */
  lemma TriggerAgreement(w: World, t: string)
    requires Reachable(w) && t in w.state.triggers
    ensures
      var s := w.state;
      && s.triggers[t].sequenceId in s.templates
      && s.triggers[t].runsStarted <= s.triggers[t].maxRuns
      && (s.triggers[t].inFlight <==> exists ns :: RowInFlight(s, ns) && s.runs[ns].triggerId == t)
      && (forall ns | RowInFlight(s, ns) && s.runs[ns].triggerId == t :: ns == CurrentNamespace(s, t))
  {
    hide Reachable, AutomationNamespace, HashFree, IsAutomation, AllLinked, RunsSound, FreshNamespaces;
    ReachableSound(w);
    var s := w.state;
    var ns := CurrentNamespace(s, t);
    if RowInFlight(s, ns) {
      var other := s.runs[ns].triggerId;
      AutomationNamespaceInjective(t, s.triggers[t].runsStarted, other, s.triggers[other].runsStarted);
    }
  }

  /** A trigger fires exactly on these conditions: in no reachable world does a step
      id, a queue or a yield stand in the way. A row left by an earlier trigger of the
      same name does, until it is pruned. */
  lemma TriggerFiresIff(w: World, authorized: bool, t: string, balance: u128)
    requires Reachable(w)
    ensures
      var s := w.state;
      Apply(s, ExecuteTrigger(authorized, t, balance)).Some? <==>
        && authorized && t in s.triggers
        && !s.triggers[t].inFlight && s.triggers[t].runsStarted < s.triggers[t].maxRuns
        && s.triggers[t].sequenceId in s.templates
        && balance >= s.triggers[t].minBalance
        && balance >= PlanDeposit(s.templates[s.triggers[t].sequenceId].calls)
        && FiringNamespace(s, t) !in s.runs
  {
    hide Reachable, Project, HashFree, IsAutomation, AutomationNamespace, AllLinked, RunsSound, ChainsSound, TriggersAgree,
      FreshNamespaces, Fire, Quiet, Put, PlanDeposit;
    ReachableSound(w);
    var s := w.state;
    if t in s.triggers {
      TriggerSound(s, t);
      var ns, trigger := FiringNamespace(s, t), s.triggers[t];
      var plan := s.templates[trigger.sequenceId].calls;
      RowOf(s, ns);
      if trigger.runsStarted < trigger.maxRuns {
        var run := AutomationRun(t, trigger.sequenceId, trigger.runsStarted + 1, InFlight, None);
        if Project(s, ns).run.Some? {
          FireRefused(Project(s, ns), ns, run, plan, s.nextYield);
        } else {
          AutomationIsAutomation(t, trigger.runsStarted + 1);
          FiringNamespaceFree(s, t);
          QuietNamespace(w, ns);
          FireExact(Project(s, ns), ns, run, plan, s.nextYield);
        }
      }
    }
  }

  lemma FireRefused(l: Local, ns: string, run: AutomationRun, plan: seq<Step>, base: YieldId)
    requires l.run.Some?
    ensures Fire(l, ns, run, plan, base) == None
  {
  }

  // --- The contract object runs inside the invariant ---

  /** The methods' assumptions about receipts hold in every reachable world. */
  lemma MethodsApply(w: World, ns: string)
    requires Reachable(w) && HashFree(ns)
    ensures YieldsBelow(w.state) && YieldsOwn(w.state, ns)
  {
    hide Reachable, HashFree, RunsSound, TriggersAgree, TemplatesSound, LogsFunded, FreshNamespaces, Slice, AllLinked;
    ReachableSound(w);
    LinkedAt(w.state, ns);
    forall id | StepKey(ns, id) in w.state.steps
      ensures w.state.steps[StepKey(ns, id)].yieldId in ChainsOf(w.state.chains, ns)
    {
      SliceAt(w.state.steps, ns, id);
    }
  }
}

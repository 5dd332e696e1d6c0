/** The postcheck of an asserted step over its two receipts and whatever happens
    between them: the step passes on the expected bytes and on nothing else. */
module Postchecks {
  import opened Prelude
  import opened Types
  import opened NamespaceKeys
  import opened Materialize
  import opened Sequencer
  import opened RunInvariant
  import opened Account
  import opened Protocol
  import opened ProtocolSteps
  import opened Theorems
  import opened Completion
  import opened Decisions
  import opened SentCalls

  // --- A receipt on its way stays as it is ---

  predicate StillThere(l: Local, l': Local, y: YieldId) {
    y in l.chains && y in l'.chains && l'.chains[y] == l.chains[y]
  }

  lemma {:induction false} RegisterAllStays(l: Local, ns: string, calls: seq<Step>, next: YieldId, y: YieldId)
    requires y in l.chains && y < next && RegisterAll(l, ns, calls, next).Some?
    ensures StillThere(l, RegisterAll(l, ns, calls, next).value, y)
    decreases |calls|
  {
    if calls != [] {
      RegisterAllStays(Register(l, ns, calls[0], next).value, ns, calls[1..], next + 1, y);
    }
  }

  lemma StartStays(l: Local, order: seq<string>, y: YieldId)
    requires y in l.chains && !l.chains[y].phase.Yielded? && StartRelease(l, order).Some?
    ensures StillThere(l, StartRelease(l, order).value, y)
  {
  }

  lemma PlanStays(l: Local, ns: string, calls: seq<Step>, next: YieldId, y: YieldId)
    requires y in l.chains && !l.chains[y].phase.Yielded? && y < next && ReleasePlan(l, ns, calls, next).Some?
    ensures StillThere(l, ReleasePlan(l, ns, calls, next).value, y)
  {
    hide RegisterAll, StartRelease;
    RegisterAllStays(l, ns, calls, next, y);
    StartStays(RegisterAll(l, ns, calls, next).value, IdsOf(calls), y);
  }

  lemma ProgressStays(l: Local, y: YieldId)
    requires y in l.chains && !l.chains[y].phase.Yielded?
    ensures StillThere(l, Progress(l), y)
  {
  }

  lemma ResolvedStays(l: Local, z: YieldId, reply: Reply, y: YieldId)
    requires z in l.chains && y in l.chains && !l.chains[y].phase.Yielded? && y != z
    ensures StillThere(l, OnStepResolved(l, z, reply), y)
  {
    hide Progress;
    var id := l.chains[z].stepId;
    var spec := if id in l.steps then l.steps[id].call.saveResult else None;
    if CheckedReply(reply).Some? {
      ProgressStays(SaveStepResult(Drop(l, z).(steps := l.steps - {id}), spec, CheckedReply(reply).value), y);
    }
  }

  lemma DeliverStays(l: Local, z: YieldId, reply: Reply, y: YieldId)
    requires z in l.chains && !l.chains[z].phase.Yielded? && y in l.chains && !l.chains[y].phase.Yielded? && y != z
    ensures StillThere(l, Deliver(l, z, reply).local, y)
  {
    hide OnStepResolved, MaterializeStep, GatePasses, PostcheckOutcome, TargetRequest;
    forall outcome: Reply {
      ResolvedStays(l, z, outcome, y);
    }
  }

  lemma LocalStays(s: State, l: Local, ns: string, e: Event, y: YieldId)
    requires LocalAfter(s, l, ns, e).Some? && y in l.chains && !l.chains[y].phase.Yielded? && y < s.nextYield
    requires !(e.DeliverReceipt? && e.y == y)
    ensures StillThere(l, LocalAfter(s, l, ns, e).value, y)
  {
    hide ReleasePlan, StartRelease, Deliver;
    match e
    case ExecuteTrigger(_, t, _) => PlanStays(l, ns, s.templates[s.triggers[t].sequenceId].calls, s.nextYield, y);
    case ExecuteSteps(_, _, calls) => PlanStays(l, ns, calls, s.nextYield, y);
    case RunSequence(_, _, order) => StartStays(l, order, y);
    case DeliverReceipt(z, reply) => DeliverStays(l, z, reply, y);
    case _ =>
  }

  /** A receipt on its way stays as it is until it is delivered. */
  lemma ReceiptStays(w: World, e: Event, y: YieldId)
    requires Sound(w) && Allowed(w, e) && y in w.state.chains && !w.state.chains[y].phase.Yielded?
    requires !(e.DeliverReceipt? && e.y == y)
    ensures y in Next(w, e).state.chains && Next(w, e).state.chains[y] == w.state.chains[y]
  {
    hide Invariant, FreshNamespaces, HashFree, Allowed, Next, Project, LocalAfter, Apply, Touched;
    var ns := w.state.chains[y].ns;
    InvariantParts(w);
    ChainsHashFree(w.state, y);
    NextProjects(w, e, ns);
    QueueProjected(w.state, ns);
    QueueProjected(Next(w, e).state, ns);
    BelowNext(w.state, ns);
    if Apply(w.state, e).Some? && Touched(w.state, e) == Some(ns) {
      LocalStays(w.state, Project(w.state, ns), ns, e, y);
    }
  }

  lemma {:induction false} ReceiptStaysUntil(worlds: seq<World>, events: seq<Event>, y: YieldId, i: nat, j: nat)
    requires Schedule(worlds, events) && i <= j <= |events|
    requires y in worlds[i].state.chains && !worlds[i].state.chains[y].phase.Yielded?
    requires forall m | i <= m < j :: !(events[m].DeliverReceipt? && events[m].y == y)
    ensures y in worlds[j].state.chains && worlds[j].state.chains[y] == worlds[i].state.chains[y]
  {
    hide Sound, Allowed, Next;
    if i < j {
      ReceiptStaysUntil(worlds, events, y, i, j - 1);
      ScheduleSound(worlds, events, j - 1);
      assert worlds[j - 1 + 1] == Next(worlds[j - 1], events[j - 1]);
      ReceiptStays(worlds[j - 1], events[j - 1], y);
    }
  }

  /** Nothing is sent for the namespace from here on, until it is fired again. */
  ghost predicate SilentFrom(worlds: seq<World>, events: seq<Event>, ns: string, j: nat)
    requires |worlds| == |events| + 1 && j <= |events| && ns in worlds[j].logs
  {
    forall n | j <= n <= |events| && (forall m | j <= m < n :: !Fires(worlds[m], events[m], ns)) ::
      ns in worlds[n].logs && worlds[n].logs[ns].requests == worlds[j].logs[ns].requests
  }

  lemma FailedRunIsSilent(worlds: seq<World>, events: seq<Event>, ns: string, j: nat)
    requires Schedule(worlds, events) && j <= |events| && Tracked(worlds[j], ns) && ns in worlds[j].state.runs
    requires worlds[j].state.runs[ns].status == DownstreamFailed
    ensures ns in worlds[j].logs && SilentFrom(worlds, events, ns, j)
  {
    hide Sound, IsAutomation, HashFree, Fires, Allowed, Next, NoneActive, Project;
    ScheduleSound(worlds, events, j);
    OverSettled(worlds[j], ns);
    forall n | j <= n <= |events| && (forall m | j <= m < n :: !Fires(worlds[m], events[m], ns))
      ensures ns in worlds[n].logs && worlds[n].logs[ns].requests == worlds[j].logs[ns].requests
    {
      SettledForever(worlds, events, ns, j, n);
    }
  }

  lemma ReachedAt(worlds: seq<World>, events: seq<Event>, i: nat)
    requires Schedule(worlds, events) && i <= |events|
    ensures Reachable(worlds[i])
  {
    hide Allowed, Next;
    var before, past := worlds[..i + 1], events[..i];
    forall m | 0 <= m < |past|
      ensures Allowed(before[m], past[m]) && before[m + 1] == Next(before[m], past[m])
    {
      assert past[m] == events[m] && before[m] == worlds[m];
    }
    assert Schedule(before, past) && before[|past|] == worlds[i];
  }

  // --- The plan stays the same as long as the receipt is there ---

  lemma PlanStaysPut(w: World, e: Event, y: YieldId)
    requires Sound(w) && Allowed(w, e) && y in w.state.chains && Tracked(w, w.state.chains[y].ns)
    ensures
      var ns := w.state.chains[y].ns;
      && Tracked(Next(w, e), ns)
      && Next(w, e).logs[ns].plan == w.logs[ns].plan && Next(w, e).logs[ns].base == w.logs[ns].base
  {
    hide HashFree, IsAutomation, Next, Apply, Project, AllLinked, RunsSound, TriggersAgree, ChainsSound, TemplatesSound,
      LogsFunded, Allowed;
    var ns := w.state.chains[y].ns;
    if Apply(w.state, e).Some? && Touched(w.state, e) == Some(ns) {
      TouchesAutomation(w.state, e, ns);
      if e.ExecuteTrigger? {
        FiringNamespaceFree(w.state, e.triggerId);
        QueueProjected(w.state, ns);
        ChainThere(w.state, ns, y);
      } else {
        TouchedLog(w, e, ns);
      }
    } else {
      NextLogs(w, e, ns);
    }
  }

  lemma ChainThere(s: State, ns: string, y: YieldId)
    requires y in s.chains && s.chains[y].ns == ns
    ensures ChainsOf(s.chains, ns) != map[]
  {
    assert y in ChainsOf(s.chains, ns);
  }

  lemma {:induction false} PlanStaysUntil(worlds: seq<World>, events: seq<Event>, y: YieldId, i: nat, j: nat)
    requires Schedule(worlds, events) && i <= j <= |events|
    requires y in worlds[i].state.chains && !worlds[i].state.chains[y].phase.Yielded?
    requires Tracked(worlds[i], worlds[i].state.chains[y].ns)
    requires forall m | i <= m < j :: !(events[m].DeliverReceipt? && events[m].y == y)
    ensures
      var ns := worlds[i].state.chains[y].ns;
      && Tracked(worlds[j], ns)
      && worlds[j].logs[ns].plan == worlds[i].logs[ns].plan && worlds[j].logs[ns].base == worlds[i].logs[ns].base
  {
    hide Sound, Allowed, Next, IsAutomation, HashFree;
    if i < j {
      PlanStaysUntil(worlds, events, y, i, j - 1);
      ReceiptStaysUntil(worlds, events, y, i, j - 1);
      ScheduleSound(worlds, events, j - 1);
      assert worlds[j - 1 + 1] == Next(worlds[j - 1], events[j - 1]);
      PlanStaysPut(worlds[j - 1], events[j - 1], y);
    }
  }

  /** The receipt of a postcheck reply, delivered at time i. */
  lemma CheckReplyMoves(worlds: seq<World>, events: seq<Event>, y: YieldId, reply: Reply, i: nat)
    requires Schedule(worlds, events) && i < |events| && events[i] == DeliverReceipt(y, reply)
    requires y in worlds[i].state.chains && worlds[i].state.chains[y].phase.Postchecking?
    requires IsAutomation(worlds[i].state.chains[y].ns)
    ensures
      var chain, after := worlds[i].state.chains[y], worlds[i + 1].state;
      && Silently(worlds[i], events[i]) && Tracked(worlds[i], chain.ns)
      && y in after.chains && after.chains[y] == chain.(phase := Resolving(
           if Readable(reply) && reply.bytes == chain.phase.expectedReturn then Success("") else Failure))
  {
    hide Sound, Allowed, Next, IsAutomation, HashFree, Project, Deliver, Apply, Tracked;
    var w, ns := worlds[i], worlds[i].state.chains[y].ns;
    ReachedAt(worlds, events, i);
    ScheduleSound(worlds, events, i);
    SoundChain(w, y);
    assert worlds[i + 1] == Next(w, events[i]);
    Delivered(w, y, reply);
    CheckReplyDecides(Project(w.state, ns), y, reply);
    QueueProjected(worlds[i + 1].state, ns);
  }

  /** What chain y expects is what its step declares. */
  lemma ExpectsDeclared(w: World, y: YieldId)
    requires Reachable(w) && y in w.state.chains && Tracked(w, w.state.chains[y].ns)
    ensures OfPlan(w.state.chains[y], w.logs[w.state.chains[y].ns].plan, w.logs[w.state.chains[y].ns].base, y)
  {
    hide Reachable, Tracked, Project, OfPlan, AllExplained;
    var ns := w.state.chains[y].ns;
    InLogs(w, ns);
    ReachableAccounted(w, ns);
    QueueProjected(w.state, ns);
  }

  /** Step k of the run passes at time j, or is given up on. */
  ghost predicate Decided(worlds: seq<World>, events: seq<Event>, ns: string, y: YieldId, j: nat, passed: Option<Bytes>)
    requires |worlds| == |events| + 1 && j < |events| && Tracked(worlds[j], ns) && Tracked(worlds[j + 1], ns)
    requires worlds[j].logs[ns].base <= y < worlds[j].logs[ns].base + |worlds[j].logs[ns].plan|
  {
    var log := worlds[j].logs[ns];
    var k := y - log.base;
    if passed.Some? then
      PassedOn(Project(worlds[j].state, ns), Project(worlds[j + 1].state, ns), log.plan, y, k, passed.value)
    else
      && LeftAccount(worlds[j].state, worlds[j + 1].state, y, ns, log.plan[k].stepId)
      && SilentFrom(worlds, events, ns, j + 1)
  }

  /** The event happens, and nothing is sent. */
  ghost predicate Silently(w: World, e: Event) {
    Apply(w.state, e).Some? && Apply(w.state, e).value.sent == []
  }

  /** What the step is told to pass with after this answer to its postcheck. */
  function PassesWith(step: Step, reply: Reply): Option<Bytes> {
    if step.policy.Asserted? && Readable(reply) && reply.bytes == step.policy.expectedReturn then Some("") else None
  }

  /** The step of chain y, on its plan. */
  ghost predicate StandsFor(w: World, ns: string, y: YieldId, step: Step) {
    && Tracked(w, ns) && y in w.state.chains && w.state.chains[y].ns == ns
    && w.logs[ns].base <= y < w.logs[ns].base + |w.logs[ns].plan| && w.logs[ns].plan[y - w.logs[ns].base] == step
  }

  /** Between the two receipts the verdict and the plan stay put. */
  lemma ResolvingAt(worlds: seq<World>, events: seq<Event>, y: YieldId, reply: Reply, i: nat, j: nat) returns (step: Step)
    requires Schedule(worlds, events) && i < j < |events| && events[i] == DeliverReceipt(y, reply)
    requires forall m | i < m < j :: !(events[m].DeliverReceipt? && events[m].y == y)
    requires y in worlds[i].state.chains && worlds[i].state.chains[y].phase.Postchecking?
    requires IsAutomation(worlds[i].state.chains[y].ns)
    ensures Silently(worlds[i], events[i]) && StandsFor(worlds[j], worlds[i].state.chains[y].ns, y, step)
    ensures step.policy.Asserted?
    ensures worlds[j].state.chains[y].phase ==
            Resolving(if PassesWith(step, reply).Some? then Success("") else Failure)
  {
    hide Sound, Reachable, Allowed, Next, IsAutomation, HashFree, Project, Apply, Readable;
    var w, ns := worlds[i], worlds[i].state.chains[y].ns;
    CheckReplyMoves(worlds, events, y, reply, i);
    ReachedAt(worlds, events, i);
    ExpectsDeclared(w, y);
    step := w.logs[ns].plan[y - w.logs[ns].base];
    ScheduleSound(worlds, events, i);
    assert worlds[i + 1] == Next(w, events[i]);
    PlanStaysPut(w, events[i], y);
    ReceiptStaysUntil(worlds, events, y, i + 1, j);
    PlanStaysUntil(worlds, events, y, i + 1, j);
  }

  /** An asserted step of a run, from the answer to its postcheck, delivered at time i, to
      the receipt that resolves it, delivered at time j with the run still in flight: the
      step passes exactly if the answer is a success of at most 16 KiB with the very bytes
      the step expects. Otherwise the run is over, failed downstream at this step, and
      nothing is sent for it any more. */
  lemma PostcheckDecides(worlds: seq<World>, events: seq<Event>, y: YieldId, reply: Reply, i: nat, j: nat)
    returns (step: Step)
    requires Schedule(worlds, events) && i < j < |events|
    requires events[i] == DeliverReceipt(y, reply) && events[j].DeliverReceipt? && events[j].y == y
    requires forall m | i < m < j :: !(events[m].DeliverReceipt? && events[m].y == y)
    requires y in worlds[i].state.chains && worlds[i].state.chains[y].phase.Postchecking?
    requires Running(worlds[j], worlds[i].state.chains[y].ns)
    ensures
      var ns := worlds[i].state.chains[y].ns;
      && Silently(worlds[i], events[i]) && Silently(worlds[j], events[j])
      && StandsFor(worlds[j], ns, y, step) && step.policy.Asserted? && Tracked(worlds[j + 1], ns)
      && Decided(worlds, events, ns, y, j,
           if Readable(reply) && reply.bytes == step.policy.expectedReturn then Some("") else None)
  {
    hide Sound, Reachable, Schedule, IsAutomation, HashFree, Project, Apply, RowInFlight, Decided;
    step := ResolvingAt(worlds, events, y, reply, i, j);
    Resolves(worlds, events, y, j);
  }

  lemma Resolves(worlds: seq<World>, events: seq<Event>, y: YieldId, j: nat)
    requires Schedule(worlds, events) && j < |events| && events[j].DeliverReceipt? && events[j].y == y
    requires y in worlds[j].state.chains && worlds[j].state.chains[y].phase.Resolving?
    requires Running(worlds[j], worlds[j].state.chains[y].ns)
    ensures
      var ns, outcome := worlds[j].state.chains[y].ns, worlds[j].state.chains[y].phase.outcome;
      && Silently(worlds[j], events[j]) && Tracked(worlds[j], ns) && Tracked(worlds[j + 1], ns)
      && worlds[j].logs[ns].base <= y < worlds[j].logs[ns].base + |worlds[j].logs[ns].plan|
      && Decided(worlds, events, ns, y, j, if Readable(outcome) then Some(outcome.bytes) else None)
  {
    hide Sound, Reachable, Allowed, Next, IsAutomation, HashFree, Project, Apply, PassedOn;
    var w, ns := worlds[j], worlds[j].state.chains[y].ns;
    ReachedAt(worlds, events, j);
    ScheduleSound(worlds, events, j);
    assert worlds[j + 1] == Next(w, events[j]);
    LastReceiptDecides(w, y, events[j].reply);
    PlanStaysPut(w, events[j], y);
    if !Readable(w.state.chains[y].phase.outcome) {
      FailedRunIsSilent(worlds, events, ns, j + 1);
    }
  }
}

/** Who can take the queue of a manual run: exactly when receipts of other steps can. */
module QueueOwners {
  import opened Prelude
  import opened Types
  import opened NamespaceKeys
  import opened Sequencer
  import opened RunInvariant
  import opened RunEndings
  import opened Links
  import opened Account
  import opened Protocol
  import opened ProtocolSteps
  import opened Theorems
  import opened Completion
  import opened OneAtATime
  import opened ManualNamespaces

  /** Before a release of the order, this chain belongs to something else: its step is
      not in the order, or it is already on its way. */
  predicate Foreign(l: Local, order: seq<string>, y: YieldId) {
    y in l.chains && (l.chains[y].stepId !in order || Active(l.chains[y].phase))
  }

  predicate IsCallback(e: Event) {
    e.TimeoutYield? || e.DeliverReceipt?
  }

  /** A continuation in which the namespace sees nothing but receipts and timeouts. */
  ghost predicate Continues(worlds: seq<World>, events: seq<Event>, w: World, ns: string) {
    && Unfolds(worlds, events, w)
    && forall i | 0 <= i < |events| ::
         && Allowed(worlds[i], events[i])
         && (Apply(worlds[i].state, events[i]).Some? && Touched(worlds[i].state, events[i]) == Some(ns) ==> IsCallback(events[i]))
  }

  function QueueIn(w: World, ns: string): Option<seq<string>> {
    Get(w.state.queues, ns)
  }

  /** Event i delivers a receipt of this chain and changes a queue that was there. */
  ghost predicate TakesQueue(worlds: seq<World>, events: seq<Event>, ns: string, i: nat, y: YieldId)
    requires |worlds| == |events| + 1
  {
    && i < |events| && events[i].DeliverReceipt? && events[i].y == y
    && QueueIn(worlds[i], ns).Some? && QueueIn(worlds[i + 1], ns) != QueueIn(worlds[i], ns)
  }

  /** The queue or the saved values of the namespace are not what they were. */
  predicate HoldingsChange(w: World, w': World, ns: string) {
    QueueIn(w', ns) != QueueIn(w, ns) || Get(w'.state.contexts, ns) != Get(w.state.contexts, ns)
  }

  lemma QueueProjects(w: World, ns: string)
    ensures Project(w.state, ns).queue == QueueIn(w, ns)
    ensures Project(w.state, ns).context == Get(w.state.contexts, ns)
  {
    hide Slice, ChainsOf;
  }

  /** What one event of a continuation does to the manual namespace. */
  lemma ContinueStep(w: World, e: Event, caller: string)
    requires Sound(w) && Allowed(w, e) && HashFree(caller) && Bound(Project(w.state, ManualNamespace(caller)))
    ensures Sound(Next(w, e)) && Bound(Project(Next(w, e).state, ManualNamespace(caller)))
    ensures Linked(Project(w.state, ManualNamespace(caller)))
    ensures
      var l, l' := Project(w.state, ManualNamespace(caller)), Project(Next(w, e).state, ManualNamespace(caller));
      if Apply(w.state, e).Some? && Touched(w.state, e) == Some(ManualNamespace(caller))
      then LocalAfter(w.state, l, ManualNamespace(caller), e) == Some(l')
      else l' == l
  {
    hide Sound, HashFree, Allowed, Apply, Next, Project, LocalAfter, Bound, Linked, ManualNamespace, Touched;
    ManualName(caller);
    SoundStep(w, e);
    BoundStep(w, e, caller);
    SoundLinked(w, ManualNamespace(caller));
    NextProjects(w, e, ManualNamespace(caller));
    BoundIgnoresPrune(Project(w.state, ManualNamespace(caller)));
  }

  // --- Receipts and timeouts create neither queues nor chains ---

  lemma CallbackKeeps(s: State, l: Local, ns: string, e: Event)
    requires Bound(l) && Linked(l) && IsCallback(e) && LocalAfter(s, l, ns, e).Some?
    ensures
      var l' := LocalAfter(s, l, ns, e).value;
      && (l.queue == None ==> l'.queue == None)
      && (forall y | y in l'.chains :: y in l.chains && l'.chains[y].stepId == l.chains[y].stepId)
      && (l'.queue != l.queue || l'.context != l.context ==> e.DeliverReceipt? && e.y in l.chains)
  {
    hide Deliver, Bound, Linked, Progress;
    if e.DeliverReceipt? {
      var move := DeliverMoves(l, e.y, e.reply);
      if move.Passed? {
        ProgressKeepsChains(move.after);
      }
    }
  }

  lemma ProgressKeepsChains(l: Local)
    requires Bound(l)
    ensures forall y | y in Progress(l).chains :: y in l.chains && Progress(l).chains[y].stepId == l.chains[y].stepId
    ensures l.queue == None ==> Progress(l).queue == None
    ensures l.queue.Some? ==> Progress(l).queue != l.queue
  {
  }

  lemma {:induction false} ContinuationKeeps(worlds: seq<World>, events: seq<Event>, w: World, caller: string, i: nat)
    requires Sound(w) && HashFree(caller) && Bound(Project(w.state, ManualNamespace(caller)))
    requires Continues(worlds, events, w, ManualNamespace(caller)) && i <= |events|
    ensures Sound(worlds[i]) && Bound(Project(worlds[i].state, ManualNamespace(caller)))
    ensures
      var l, l' := Project(w.state, ManualNamespace(caller)), Project(worlds[i].state, ManualNamespace(caller));
      && (l.queue == None ==> l'.queue == None)
      && forall y | y in l'.chains :: y in l.chains && l'.chains[y].stepId == l.chains[y].stepId
  {
    hide Sound, HashFree, Allowed, Apply, Next, Project, LocalAfter, Bound, Linked, ManualNamespace, Touched;
    if i > 0 {
      ContinuationKeeps(worlds, events, w, caller, i - 1);
      var v, e := worlds[i - 1], events[i - 1];
      var ns := ManualNamespace(caller);
      assert worlds[i - 1 + 1] == Next(v, e);
      ContinueStep(v, e, caller);
      if Apply(v.state, e).Some? && Touched(v.state, e) == Some(ns) {
        CallbackKeeps(v.state, Project(v.state, ns), ns, e);
      }
    }
  }

  /** Every change to the queue or the saved values is a receipt of a chain that was
      there at the start. */
  lemma QueueChangesByReceipt(worlds: seq<World>, events: seq<Event>, w: World, caller: string, i: nat)
    requires Sound(w) && HashFree(caller) && Bound(Project(w.state, ManualNamespace(caller)))
    requires Continues(worlds, events, w, ManualNamespace(caller)) && i < |events|
    requires HoldingsChange(worlds[i], worlds[i + 1], ManualNamespace(caller))
    ensures events[i].DeliverReceipt? && events[i].y in Project(w.state, ManualNamespace(caller)).chains
  {
    hide Sound, HashFree, Allowed, Apply, Next, Project, LocalAfter, Bound, Linked, ManualNamespace, Touched, QueueIn;
    var v, e, ns := worlds[i], events[i], ManualNamespace(caller);
    ContinuationKeeps(worlds, events, w, caller, i);
    ContinueStep(v, e, caller);
    QueueProjects(v, ns);
    QueueProjects(worlds[i + 1], ns);
    if Apply(v.state, e).Some? && Touched(v.state, e) == Some(ns) {
      CallbackKeeps(v.state, Project(v.state, ns), ns, e);
    }
  }

  // --- Any chain can be driven until it changes the queue ---

  /** Delivering failures to a chain: the queue changes, or the chain moves closer to it. */
  lemma FailureTakes(l: Local, y: YieldId)
    requires Bound(l) && Linked(l) && y in l.chains && !l.chains[y].phase.Yielded? && l.queue.Some?
    ensures
      var l' := Deliver(l, y, Failure).local;
      || l'.queue != l.queue
      || (l'.queue == l.queue && y in l'.chains && !l'.chains[y].phase.Yielded?
          && Rank(l'.chains[y].phase) < Rank(l.chains[y].phase))
  {
    hide Deliver, Bound, Linked, Progress;
    var move := DeliverMoves(l, y, Failure);
    if move.Passed? {
      ProgressKeepsChains(move.after);
    }
  }

  function ToGo(phase: Phase): nat {
    if phase.Yielded? then 7 else Rank(phase)
  }

  ghost predicate EndsTaking(worlds: seq<World>, events: seq<Event>, w: World, ns: string, y: YieldId) {
    Continues(worlds, events, w, ns) && events != [] && TakesQueue(worlds, events, ns, |events| - 1, y)
  }

  lemma Prepend(w: World, e: Event, ns: string, worlds: seq<World>, events: seq<Event>, y: YieldId)
    requires Allowed(w, e) && IsCallback(e) && EndsTaking(worlds, events, Next(w, e), ns, y)
    ensures EndsTaking([w] + worlds, [e] + events, w, ns, y)
  {
    hide Allowed, Apply, Next, Touched, QueueIn, IsCallback;
    var worlds', events' := [w] + worlds, [e] + events;
    forall i | 0 <= i < |events'|
      ensures worlds'[i + 1] == Next(worlds'[i], events'[i]) && Allowed(worlds'[i], events'[i])
      ensures Apply(worlds'[i].state, events'[i]).Some? && Touched(worlds'[i].state, events'[i]) == Some(ns) ==>
                IsCallback(events'[i])
    {
      if i > 0 {
        assert worlds'[i] == worlds[i - 1] && worlds'[i + 1] == worlds[i - 1 + 1] && events'[i] == events[i - 1];
      }
    }
  }

  lemma {:induction false} DriveToTake(w: World, caller: string, y: YieldId) returns (worlds: seq<World>, events: seq<Event>)
    requires Sound(w) && HashFree(caller) && Bound(Project(w.state, ManualNamespace(caller)))
    requires y in ChainsIn(w, ManualNamespace(caller)) && QueueIn(w, ManualNamespace(caller)).Some?
    ensures EndsTaking(worlds, events, w, ManualNamespace(caller), y)
    decreases ToGo(ChainsIn(w, ManualNamespace(caller))[y].phase)
  {
    hide Sound, HashFree, Allowed, Next, Project, Bound, Linked, ManualNamespace, QueueIn, ChainsIn, EndsTaking, Deliver;
    var ns := ManualNamespace(caller);
    var chain := ChainsIn(w, ns)[y];
    var e := if chain.phase.Yielded? then TimeoutYield(y) else DeliverReceipt(y, Failure);
    var w' := Next(w, e);
    CallbackHere(w, y, ns);
    ContinueStep(w, e, caller);
    ChainsOfProject(w, ns);
    ChainsOfProject(w', ns);
    QueueProjects(w, ns);
    QueueProjects(w', ns);
    if !chain.phase.Yielded? {
      FailureTakes(Project(w.state, ns), y);
    }
    if QueueIn(w', ns) != QueueIn(w, ns) {
      worlds, events := [w, w'], [e];
      OneEvent(w, e, ns, y);
    } else {
      var worlds', events' := DriveToTake(w', caller, y);
      Prepend(w, e, ns, worlds', events', y);
      worlds, events := [w] + worlds', [e] + events';
    }
  }

  lemma CallbackHere(w: World, y: YieldId, ns: string)
    requires y in ChainsIn(w, ns)
    ensures
      var e := if ChainsIn(w, ns)[y].phase.Yielded? then TimeoutYield(y) else DeliverReceipt(y, Failure);
      Apply(w.state, e).Some? && Touched(w.state, e) == Some(ns) && Allowed(w, e) && IsCallback(e)
  {
    hide Project, Put, React, Deliver, TimeOut;
  }

  lemma OneEvent(w: World, e: Event, ns: string, y: YieldId)
    requires Allowed(w, e) && e.DeliverReceipt? && e.y == y
    requires QueueIn(w, ns).Some? && QueueIn(Next(w, e), ns) != QueueIn(w, ns)
    ensures EndsTaking([w, Next(w, e)], [e], w, ns, y)
  {
    hide Apply, Next, Touched, QueueIn, Allowed;
  }

  // --- The release itself ---

  ghost predicate AfterRelease(l: Local, l': Local, order: seq<string>) {
    && l'.queue == (if |order| > 1 then Some(order[1..]) else None)
    && (forall y | Foreign(l, order, y) :: y in l'.chains && l'.chains[y] == l.chains[y])
    && (forall y | y in l'.chains :: y in l.chains || l'.chains[y].stepId in order)
    && (forall y | y in l'.chains && y in l.chains :: l'.chains[y].stepId == l.chains[y].stepId)
  }

  lemma StartReleased(l: Local, order: seq<string>)
    requires Linked(l) && StartRelease(l, order).Some?
    ensures AfterRelease(l, StartRelease(l, order).value, order)
  {
    assert order[0] in order;
  }

  lemma {:induction false} RegisterAllReleased(l: Local, ns: string, calls: seq<Step>, y: YieldId)
    requires (forall z | z in l.chains :: z < y) && RegisterAll(l, ns, calls, y).Some?
    ensures
      var l' := RegisterAll(l, ns, calls, y).value;
      && l'.queue == l.queue
      && (forall z | z in l.chains :: z in l'.chains && l'.chains[z] == l.chains[z])
      && (forall z | z in l'.chains :: z in l.chains || l'.chains[z].stepId in IdsOf(calls))
    decreases |calls|
  {
    if calls != [] {
      var l1 := Register(l, ns, calls[0], y).value;
      RegisterAllReleased(l1, ns, calls[1..], y + 1);
      var ids := IdsOf(calls);
      assert ids[0] == calls[0].stepId && ids[1..] == IdsOf(calls[1..]);
      forall id | id in IdsOf(calls[1..])
        ensures id in ids
      {
        assert id in ids[1..];
      }
    }
  }

  lemma PlanReleased(l: Local, ns: string, calls: seq<Step>, y: YieldId)
    requires Linked(l) && (forall z | z in l.chains :: z < y) && ReleasePlan(l, ns, calls, y).Some?
    ensures AfterRelease(l, ReleasePlan(l, ns, calls, y).value, IdsOf(calls))
  {
    hide Linked, RegisterAll, StartRelease;
    var l1 := RegisterAll(l, ns, calls, y).value;
    RegisterAllReleased(l, ns, calls, y);
    RegisterAllGrown(l, ns, calls, y);
    StartReleased(l1, IdsOf(calls));
    forall z | Foreign(l, IdsOf(calls), z)
      ensures Foreign(l1, IdsOf(calls), z)
    {
    }
  }

  lemma Released(w: World, e: Event, caller: string)
    requires Sound(w) && Allowed(w, e) && HashFree(caller) && Bound(Project(w.state, ManualNamespace(caller)))
    requires Releases(w, e, ManualNamespace(caller))
    ensures Sound(Next(w, e)) && Bound(Project(Next(w, e).state, ManualNamespace(caller)))
    ensures
      var l, l' := Project(w.state, ManualNamespace(caller)), Project(Next(w, e).state, ManualNamespace(caller));
      AfterRelease(l, l', OrderOf(w.state, e))
  {
    hide Invariant, FreshNamespaces, HashFree, Allowed, Apply, Next, Project, Bound, Linked, ManualNamespace, Touched, AfterRelease,
      ReleasePlan, StartRelease;
    ContinueStep(w, e, caller);
    InvariantParts(w);
    BelowNext(w.state, ManualNamespace(caller));
    var l := Project(w.state, ManualNamespace(caller));
    match e
    case ExecuteTrigger(_, _, _) => ManualEvent(w.state, e, caller);
    case ExecuteSteps(_, _, calls) => PlanReleased(l, ManualNamespace(caller), calls, w.state.nextYield);
    case RunSequence(_, _, order) => StartReleased(l, order);
    case _ =>
  }

  /** Something else is registered beside the order, or still on its way. */
  lemma ForeignIff(l: Local, order: seq<string>)
    requires Bound(l) && Linked(l)
    ensures (exists y :: Foreign(l, order, y)) <==> (exists id :: id in l.steps && id !in order) || !NoneActive(l.chains)
  {
    if id :| id in l.steps && id !in order {
      assert Foreign(l, order, l.steps[id].yieldId);
    }
    if !NoneActive(l.chains) {
      var y :| y in l.chains && Active(l.chains[y].phase);
      assert Foreign(l, order, y);
    }
  }

  ghost predicate TakenByOther(w: World, e: Event, ns: string, worlds: seq<World>, events: seq<Event>) {
    && Continues(worlds, events, Next(w, e), ns)
    && exists i: nat, y :: Foreign(Project(w.state, ns), OrderOf(w.state, e), y) && TakesQueue(worlds, events, ns, i, y)
  }

  lemma ReachableBound(w: World, caller: string)
    requires Reachable(w) && HashFree(caller)
    ensures Sound(w) && Bound(Project(w.state, ManualNamespace(caller))) && Linked(Project(w.state, ManualNamespace(caller)))
  {
    hide Sound, HashFree, Allowed, Next, Project, Bound, Linked, ManualNamespace;
    ReachableSound(w);
    var worlds, events :| Schedule(worlds, events) && worlds[|events|] == w;
    ManualBijection(worlds, events, caller, |events|);
  }

  /** After a manual release of an order, and while the namespace sees only receipts and
      timeouts, a receipt that is not of this run can take its queue if and only if there
      is a queue and, when the release was called, a step outside the order was
      registered or some step was on its way. */
  lemma QueueTakenByOthersIff(w: World, e: Event, caller: string)
    requires Reachable(w) && HashFree(caller) && Allowed(w, e) && Releases(w, e, ManualNamespace(caller))
    ensures
      var l, order := Project(w.state, ManualNamespace(caller)), OrderOf(w.state, e);
      (exists worlds, events :: TakenByOther(w, e, ManualNamespace(caller), worlds, events))
      <==> |order| > 1 && ((exists id :: id in l.steps && id !in order) || !NoneActive(l.chains))
  {
    hide Reachable, Sound, HashFree, Allowed, Next, Project, Bound, Linked, ManualNamespace, Releases, QueueIn,
      Foreign, NoneActive, OrderOf, ChainsIn;
    var ns, order := ManualNamespace(caller), OrderOf(w.state, e);
    var l := Project(w.state, ns);
    ReachableBound(w, caller);
    ForeignIff(l, order);
    Released(w, e, caller);
    QueueProjects(Next(w, e), ns);
    if worlds, events :| TakenByOther(w, e, ns, worlds, events) {
      NoQueueNoTaking(w, e, caller, worlds, events);
    }
    if |order| > 1 && exists y :: Foreign(l, order, y) {
      var y :| Foreign(l, order, y);
      ChainsOfProject(Next(w, e), ns);
      var worlds, events := DriveToTake(Next(w, e), caller, y);
      assert TakesQueue(worlds, events, ns, |events| - 1, y);
      assert TakenByOther(w, e, ns, worlds, events);
    }
  }

  lemma NoQueueNoTaking(w: World, e: Event, caller: string, worlds: seq<World>, events: seq<Event>)
    requires Sound(Next(w, e)) && HashFree(caller) && Bound(Project(Next(w, e).state, ManualNamespace(caller)))
    requires TakenByOther(w, e, ManualNamespace(caller), worlds, events)
    ensures QueueIn(Next(w, e), ManualNamespace(caller)).Some?
  {
    hide Sound, HashFree, Allowed, Next, Project, Bound, Linked, ManualNamespace, QueueIn, Foreign, OrderOf;
    var ns := ManualNamespace(caller);
    var i: nat, y :| Foreign(Project(w.state, ns), OrderOf(w.state, e), y) && TakesQueue(worlds, events, ns, i, y);
    ContinuationKeeps(worlds, events, Next(w, e), caller, i);
    QueueProjects(worlds[i], ns);
    QueueProjects(Next(w, e), ns);
  }

  /** Otherwise every change to the queue and to the saved values is a receipt of the
      run's own steps. */
  lemma OnlyOwnReceipts(w: World, e: Event, caller: string, worlds: seq<World>, events: seq<Event>, i: nat)
    requires Reachable(w) && HashFree(caller) && Allowed(w, e) && Releases(w, e, ManualNamespace(caller))
    requires
      var l, order := Project(w.state, ManualNamespace(caller)), OrderOf(w.state, e);
      (forall id | id in l.steps :: id in order) && NoneActive(l.chains)
    requires Continues(worlds, events, Next(w, e), ManualNamespace(caller)) && i < |events|
    requires HoldingsChange(worlds[i], worlds[i + 1], ManualNamespace(caller))
    ensures
      var chains := ChainsIn(Next(w, e), ManualNamespace(caller));
      && events[i].DeliverReceipt? && events[i].y in chains
      && chains[events[i].y].stepId in OrderOf(w.state, e)
  {
    hide Reachable, Sound, HashFree, Allowed, Next, Project, Bound, Linked, ManualNamespace, Releases, Continues, QueueIn,
      OrderOf, ChainsIn, HoldingsChange;
    var ns := ManualNamespace(caller);
    ReachableBound(w, caller);
    Released(w, e, caller);
    ForeignIff(Project(w.state, ns), OrderOf(w.state, e));
    QueueChangesByReceipt(worlds, events, Next(w, e), caller, i);
    ChainsOfProject(Next(w, e), ns);
    var y := events[i].y;
    if y in Project(w.state, ns).chains {
      assert !Foreign(Project(w.state, ns), OrderOf(w.state, e), y);
    }
  }
}

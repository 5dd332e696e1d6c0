/** The account and its environment as a transition system, with the history of
    every automation run, and what holds in every reachable world. */
module Protocol {
  import opened Prelude
  import opened Types
  import opened NamespaceKeys
  import opened Sequencer
  import opened Interpreter
  import opened RunInvariant
  import opened RunProofs
  import opened Links
  import opened Account

  // The account, and for each automation namespace the history of its last run.
  datatype World = World(state: State, logs: map<string, Log>)

  const Initial: World := World(State(map[], map[], map[], map[], map[], map[], map[], 0), map[])

  /** The namespace a firing trigger uses. */
  function FiringNamespace(s: State, triggerId: string): string
    requires triggerId in s.triggers
  {
    AutomationNamespace(triggerId, s.triggers[triggerId].runsStarted + 1)
  }

  function LogsAfter(w: World, e: Event, sent: seq<Request>): map<string, Log> {
    match e
    case ExecuteTrigger(_, triggerId, balance) =>
      if triggerId in w.state.triggers && w.state.triggers[triggerId].sequenceId in w.state.templates then
        w.logs[FiringNamespace(w.state, triggerId) :=
          Log(w.state.templates[w.state.triggers[triggerId].sequenceId].calls, w.state.nextYield, [], [], [], false, balance)]
      else w.logs
    case TimeoutYield(y) =>
      if y in w.state.chains && w.state.chains[y].ns in w.logs then
        w.logs[w.state.chains[y].ns := w.logs[w.state.chains[y].ns].(timedOut := true)]
      else w.logs
    case DeliverReceipt(y, reply) =>
      if y in w.state.chains && w.state.chains[y].ns in w.logs then
        w.logs[w.state.chains[y].ns := LogDelivery(w.logs[w.state.chains[y].ns], w.state.chains[y].phase, reply, sent)]
      else w.logs
    case _ => w.logs
  }

  /** One event; a call that panics leaves the world as it was. */
  function Next(w: World, e: Event): World {
    match Apply(w.state, e)
    case None => w
    case Some(o) => World(o.state, LogsAfter(w, e, o.sent))
  }

  /** No receipt of any run of the trigger is outstanding. */
  ghost predicate NoReceiptsOf(s: State, triggerId: string) {
    forall y, n: nat | y in s.chains :: s.chains[y].ns != AutomationNamespace(triggerId, n)
  }

  /** What the environment is assumed to respect: account ids and trigger ids are
      free of `#`, and a trigger id is used again, after a deletion, only once no
      receipt of its earlier runs is outstanding. */
  ghost predicate Allowed(w: World, e: Event) {
    match e
    case CreateTrigger(_, triggerId, _, _, _) => HashFree(triggerId) && NoReceiptsOf(w.state, triggerId)
    case RegisterStep(caller, _) => HashFree(caller)
    case ExecuteSteps(_, caller, _) => HashFree(caller)
    case RunSequence(_, caller, _) => HashFree(caller)
    case _ => true
  }

  /** The worlds a schedule of events passes through. */
  ghost predicate Schedule(worlds: seq<World>, events: seq<Event>) {
    && |worlds| == |events| + 1 && worlds[0] == Initial
    && forall i | 0 <= i < |events| :: Allowed(worlds[i], events[i]) && worlds[i + 1] == Next(worlds[i], events[i])
  }

  /** The worlds events lead through from a given one, allowed or not. */
  ghost predicate Unfolds(worlds: seq<World>, events: seq<Event>, w: World) {
    && |worlds| == |events| + 1 && worlds[0] == w
    && forall i | 0 <= i < |events| :: worlds[i + 1] == Next(worlds[i], events[i])
  }

  lemma {:induction false} Unfold(events: seq<Event>, w: World) returns (worlds: seq<World>)
    ensures Unfolds(worlds, events, w)
    decreases |events|
  {
    hide Next;
    if events == [] {
      worlds := [w];
    } else {
      var n := |events| - 1;
      var before := Unfold(events[..n], w);
      worlds := before + [Next(before[n], events[n])];
      forall i | 0 <= i < |events|
        ensures worlds[i + 1] == Next(worlds[i], events[i])
      {
        if i < n {
          assert before[i + 1] == Next(before[i], events[..n][i]);
        }
      }
    }
  }

  // --- The global invariant ---

  const EmptyNamespace: Local := Local(map[], None, None, None, map[])

  ghost predicate ChainsSound(s: State) {
    forall y | y in s.chains :: y < s.nextYield && HashFree(s.chains[y].ns)
  }

  ghost predicate RunsSound(w: World) {
    forall ns | IsAutomation(ns) && HashFree(ns) ::
      if ns in w.logs then RunInv(Project(w.state, ns), w.logs[ns], ns) else Project(w.state, ns) == EmptyNamespace
  }

  ghost predicate AllLinked(s: State) {
    forall ns | HashFree(ns) :: Linked(Project(s, ns))
  }

  ghost predicate TemplatesSound(s: State) {
    forall id | id in s.templates ::
      s.templates[id].calls != [] && DistinctIds(s.templates[id].calls)
      && s.templates[id].totalDeposit == PlanDeposit(s.templates[id].calls)
  }

  ghost predicate LogsFunded(w: World) {
    forall ns | ns in w.logs :: PlanDeposit(w.logs[ns].plan) <= w.logs[ns].funded
  }

  /** The one run row a trigger can have in flight. */
  function CurrentNamespace(s: State, triggerId: string): string
    requires triggerId in s.triggers
  {
    AutomationNamespace(triggerId, s.triggers[triggerId].runsStarted)
  }

  predicate RowInFlight(s: State, ns: string) {
    ns in s.runs && s.runs[ns].status == InFlight
  }

  /** Triggers and run rows agree. */
  ghost predicate TriggersAgree(s: State) {
    && (forall t | t in s.triggers ::
          && HashFree(t) && s.triggers[t].sequenceId in s.templates
          && s.triggers[t].runsStarted <= s.triggers[t].maxRuns
          && (s.triggers[t].inFlight <==> RowInFlight(s, CurrentNamespace(s, t))))
    && (forall ns | ns in s.runs :: IsAutomation(ns) && HashFree(ns))
    && (forall ns | RowInFlight(s, ns) ::
          && s.runs[ns].triggerId in s.triggers
          && ns == CurrentNamespace(s, s.runs[ns].triggerId))
  }

  /** The namespaces a trigger has not used yet have no receipts outstanding. */
  ghost predicate FreshNamespaces(s: State) {
    forall t, n: nat, y | t in s.triggers && y in s.chains && n > s.triggers[t].runsStarted ::
      s.chains[y].ns != AutomationNamespace(t, n)
  }

  ghost predicate Invariant(w: World) {
    && ChainsSound(w.state) && TemplatesSound(w.state) && LogsFunded(w)
    && AllLinked(w.state) && RunsSound(w) && TriggersAgree(w.state)
  }

  // --- Events of one namespace ---

  /** The namespace an event works on. */
  function Touched(s: State, e: Event): Option<string> {
    match e
    case ExecuteTrigger(_, triggerId, _) => if triggerId in s.triggers then Some(FiringNamespace(s, triggerId)) else None
    case RegisterStep(caller, _) => Some(ManualNamespace(caller))
    case ExecuteSteps(_, caller, _) => Some(ManualNamespace(caller))
    case RunSequence(_, caller, _) => Some(ManualNamespace(caller))
    case TimeoutYield(y) => if y in s.chains then Some(s.chains[y].ns) else None
    case DeliverReceipt(y, _) => if y in s.chains then Some(s.chains[y].ns) else None
    case _ => None
  }

  /** The new state of one namespace fits the world it goes back into. */
  ghost predicate LocalFits(s: State, s': State, ns: string, l': Local) {
    && s' == Put(s, ns, l').(triggers := s'.triggers, nextYield := s'.nextYield)
    && s.nextYield <= s'.nextYield
    && Linked(l')
    && forall y | y in l'.chains ::
         l'.chains[y].ns == ns && y < s'.nextYield && (y in Project(s, ns).chains || y >= s.nextYield)
  }

  /** Chains of other namespaces stay; new ones belong to this namespace. */
  lemma FitsOrigins(s: State, s': State, ns: string, l': Local)
    requires LocalFits(s, s', ns, l')
    ensures forall y | y in s'.chains :: s'.chains[y].ns == ns || (y in s.chains && s.chains[y].ns == s'.chains[y].ns)
    ensures s'.nextYield == s.nextYield ==> forall y | y in s'.chains :: y in s.chains && s.chains[y].ns == s'.chains[y].ns
  {
    hide Slice, Splice, Linked;
  }

  lemma FitsChains(s: State, s': State, ns: string, l': Local)
    requires ChainsSound(s) && LocalFits(s, s', ns, l') && HashFree(ns)
    ensures ChainsFit(s, ns, l') && ChainsSound(s')
  {
    hide Slice, Splice, Linked;
  }

  /** What the event leaves of each namespace. */
  lemma LocalProjects(s: State, s': State, ns: string, l': Local, other: string)
    requires ChainsSound(s) && LocalFits(s, s', ns, l') && HashFree(ns) && HashFree(other)
    ensures Project(s', other) == if other == ns then l' else Project(s, other)
  {
    hide Slice, Splice, Linked, ChainsSound, ChainsFit, HashFree, Separate, Put, Get, Set;
    FitsChains(s, s', ns, l');
    assert Project(s', other) == Project(Put(s, ns, l'), other) by {
      SameProjection(s', Put(s, ns, l'), other);
    }
    if other == ns {
      ProjectPut(s, ns, l');
    } else {
      HashFreeSeparate(ns, other);
      PutFrame(s, ns, l', other);
    }
  }

  lemma SameProjection(s: State, s': State, ns: string)
    requires s'.steps == s.steps && s'.queues == s.queues && s'.contexts == s.contexts
    requires s'.runs == s.runs && s'.chains == s.chains
    ensures Project(s', ns) == Project(s, ns)
  {
  }

  lemma LocalKeeps(w: World, w': World, ns: string, l': Local)
    requires ChainsSound(w.state) && AllLinked(w.state) && RunsSound(w)
    requires LocalFits(w.state, w'.state, ns, l') && HashFree(ns)
    requires forall other | other != ns :: Get(w'.logs, other) == Get(w.logs, other)
    requires IsAutomation(ns) ==> ns in w'.logs && RunInv(l', w'.logs[ns], ns)
    ensures ChainsSound(w'.state) && AllLinked(w'.state) && RunsSound(w')
  {
    hide Slice, Splice, Linked, ChainsFit, HashFree, Project, RunInv, IsAutomation;
    FitsChains(w.state, w'.state, ns, l');
    forall other | HashFree(other)
      ensures Linked(Project(w'.state, other))
    {
      LocalProjects(w.state, w'.state, ns, l', other);
    }
    forall other | IsAutomation(other) && HashFree(other)
      ensures if other in w'.logs then RunInv(Project(w'.state, other), w'.logs[other], other)
              else Project(w'.state, other) == EmptyNamespace
    {
      LocalProjects(w.state, w'.state, ns, l', other);
      assert other != ns ==> Get(w'.logs, other) == Get(w.logs, other);
    }
  }
}

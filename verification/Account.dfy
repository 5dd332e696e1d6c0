/** The whole account: its string-keyed maps, the receipts it has outstanding, and
    what each entry point does to them. Namespaced entry points act on the state of
    one namespace and put the result back. */
module Account {
  import opened Prelude
  import opened Types
  import opened Decimal
  import opened NamespaceKeys
  import opened Sequencer
  import opened Gas

  datatype State = State(
    steps: map<string, RegisteredStep>,
    queues: map<string, seq<string>>,
    contexts: map<string, map<string, Bytes>>,
    runs: map<string, AutomationRun>,
    triggers: map<string, BalanceTrigger>,
    templates: map<string, SequenceTemplate>,
    chains: map<YieldId, Chain>,
    nextYield: YieldId)

  // --- Namespace names ---

  function ManualNamespace(caller: string): string {
    "manual:" + caller
  }

  function AutomationNamespace(triggerId: string, runNonce: nat): string {
    "auto:" + triggerId + ":" + Print(runNonce)
  }

  predicate IsAutomation(ns: string) {
    "auto:" <= ns
  }

  lemma ManualIsNotAutomation(caller: string)
    ensures !IsAutomation(ManualNamespace(caller))
  {
    assert ManualNamespace(caller)[0] == 'm';
  }

  lemma AutomationIsAutomation(triggerId: string, runNonce: nat)
    ensures IsAutomation(AutomationNamespace(triggerId, runNonce))
    ensures HashFree(AutomationNamespace(triggerId, runNonce)) <==> HashFree(triggerId)
  {
    var ns := AutomationNamespace(triggerId, runNonce);
    if '#' in triggerId {
      var i :| 0 <= i < |triggerId| && triggerId[i] == '#';
      assert ns[5 + i] == '#';
    } else {
      forall i | 0 <= i < |Print(runNonce)|
        ensures Print(runNonce)[i] != '#'
      {
        assert IsDigit(Print(runNonce)[i]);
      }
    }
  }

  /** Digits cannot contain the colon that closes the trigger id. */
  lemma LastColon(a: string, b: string, m: string, n: string)
    requires AllDigits(m)
    requires a + ":" + m == b + ":" + n
    ensures |b| <= |a|
  {
    var s := a + ":" + m;
    assert s[|b|] == (b + ":" + n)[|b|] == ':';
    forall i | |a| < i < |s|
      ensures s[i] != ':'
    {
      assert s[i] == m[i - |a| - 1];
      assert IsDigit(m[i - |a| - 1]);
    }
  }

  lemma DigitsAfterColon(a: string, b: string, m: string, n: string)
    requires AllDigits(m) && AllDigits(n)
    requires a + ":" + m == b + ":" + n
    ensures a == b && m == n
  {
    var s, t := a + ":" + m, b + ":" + n;
    LastColon(a, b, m, n);
    LastColon(b, a, n, m);
    assert a == s[..|a|] == t[..|b|] == b;
    assert m == s[|a| + 1..] == t[|b| + 1..] == n;
  }

  /** A namespace determines its trigger and its run. */
  lemma AutomationNamespaceInjective(triggerId: string, runNonce: nat, triggerId': string, runNonce': nat)
    requires AutomationNamespace(triggerId, runNonce) == AutomationNamespace(triggerId', runNonce')
    ensures triggerId == triggerId' && runNonce == runNonce'
  {
    var a, b := "auto:" + triggerId, "auto:" + triggerId';
    DigitsAfterColon(a, b, Print(runNonce), Print(runNonce'));
    assert triggerId == a[5..] == b[5..] == triggerId';
    PrintInjective(runNonce, runNonce');
  }

  // --- Which trigger ids get in each other's way ---

  /** The first id and nonce, closed by a `#`, begin the second id. */
  predicate Begins(triggerId: string, runNonce: nat, other: string) {
    triggerId + ":" + Print(runNonce) + "#" <= other
  }

  lemma PrintedTail(triggerId: string, runNonce: nat, i: nat)
    requires 5 + |triggerId| <= i < |AutomationNamespace(triggerId, runNonce)|
    ensures AutomationNamespace(triggerId, runNonce)[i] != '#'
  {
    var digits := Print(runNonce);
    if i > 5 + |triggerId| {
      assert AutomationNamespace(triggerId, runNonce)[i] == digits[i - 6 - |triggerId|];
      assert IsDigit(digits[i - 6 - |triggerId|]);
    }
  }

  lemma ExtendsIff(t: string, n: nat, t': string, m: nat)
    ensures AutomationNamespace(t, n) + "#" <= AutomationNamespace(t', m) + "#"
            <==> AutomationNamespace(t, n) == AutomationNamespace(t', m) || Begins(t, n, t')
  {
    var a, b := AutomationNamespace(t, n), AutomationNamespace(t', m);
    var front := t + ":" + Print(n) + "#";
    assert a + "#" == "auto:" + front;
    if a + "#" <= b + "#" && |a| < |b| {
      assert b[|a|] == (b + "#")[|a|] == (a + "#")[|a|] == '#';
      if |a| >= 5 + |t'| {
        PrintedTail(t', m, |a|);
      }
      assert front == (b + "#")[5..|a| + 1] == t'[..|front|];
    }
    if a + "#" <= b + "#" && |a| == |b| {
      assert a == (a + "#")[..|a|] == (b + "#")[..|a|] == b;
    }
    if Begins(t, n, t') {
      assert b + "#" == "auto:" + front + (t'[|front|..] + ":" + Print(m) + "#");
    }
  }

  /** Two runs' steps can be mistaken for each other exactly if they are the same run, or
      one trigger id begins with the other, a colon, the run's nonce and a `#`. Ids that
      begin with no such text, `#`-free ones in particular, are safe. */
  lemma NamespacesCollideIff(t: string, n: nat, t': string, m: nat)
    ensures (exists key :: InNamespace(key, AutomationNamespace(t, n)) && InNamespace(key, AutomationNamespace(t', m)))
            <==> (t == t' && n == m) || Begins(t, n, t') || Begins(t', m, t)
  {
    hide AutomationNamespace, InNamespace, Begins;
    SharedKeyIff(AutomationNamespace(t, n), AutomationNamespace(t', m));
    ExtendsIff(t, n, t', m);
    ExtendsIff(t', m, t, n);
    if AutomationNamespace(t, n) == AutomationNamespace(t', m) {
      AutomationNamespaceInjective(t, n, t', m);
    }
  }

  /** When they collide, clearing the one run's namespace unregisters every step of the other. */
  lemma CollidingStepsCleared(steps: map<string, RegisteredStep>, t: string, n: nat, t': string, m: nat, id: string)
    requires Begins(t, n, t')
    ensures StepKey(AutomationNamespace(t', m), id) !in Splice(steps, AutomationNamespace(t, n), map[])
  {
    hide AutomationNamespace, Splice, Begins;
    var ns, other := AutomationNamespace(t, n), AutomationNamespace(t', m);
    ExtendsIff(t, n, t', m);
    assert ns + "#" <= other + "#" <= StepKey(other, id);
    SpliceAt(steps, ns, map[], StepKey(other, id));
  }

  // --- The state of one namespace ---

  function ChainsOf(chains: map<YieldId, Chain>, ns: string): map<YieldId, Chain> {
    map y | y in chains && chains[y].ns == ns :: chains[y]
  }

  function SpliceChains(chains: map<YieldId, Chain>, ns: string, part: map<YieldId, Chain>): map<YieldId, Chain> {
    (map y | y in chains && chains[y].ns != ns :: chains[y]) + part
  }

  /** Every chain of the part carries the name of the namespace and takes no foreign yield id. */
  ghost predicate OwnChains(chains: map<YieldId, Chain>, ns: string, part: map<YieldId, Chain>) {
    forall y | y in part :: part[y].ns == ns && (y in chains ==> chains[y].ns == ns)
  }

  lemma ChainsSpliced(chains: map<YieldId, Chain>, ns: string, part: map<YieldId, Chain>)
    requires OwnChains(chains, ns, part)
    ensures ChainsOf(SpliceChains(chains, ns, part), ns) == part
    ensures forall other | other != ns :: ChainsOf(SpliceChains(chains, ns, part), other) == ChainsOf(chains, other)
    ensures forall part' :: SpliceChains(SpliceChains(chains, ns, part), ns, part') == SpliceChains(chains, ns, part')
  {
  }

  lemma ChainsUnchanged(chains: map<YieldId, Chain>, ns: string)
    ensures SpliceChains(chains, ns, ChainsOf(chains, ns)) == chains
    ensures OwnChains(chains, ns, ChainsOf(chains, ns))
  {
  }

  function Project(s: State, ns: string): Local {
    Local(Slice(s.steps, ns), Get(s.queues, ns), Get(s.contexts, ns), Get(s.runs, ns), ChainsOf(s.chains, ns))
  }

  /** The account with the state of one namespace replaced. */
  function Put(s: State, ns: string, l: Local): State {
    s.(steps := Splice(s.steps, ns, l.steps),
       queues := Set(s.queues, ns, l.queue),
       contexts := Set(s.contexts, ns, l.context),
       runs := Set(s.runs, ns, l.run),
       chains := SpliceChains(s.chains, ns, l.chains))
  }

  ghost predicate ChainsFit(s: State, ns: string, l: Local) {
    OwnChains(s.chains, ns, l.chains)
  }

  lemma ProjectPut(s: State, ns: string, l: Local)
    requires ChainsFit(s, ns, l)
    ensures Project(Put(s, ns, l), ns) == l
  {
    hide Slice, Splice, Get, Set, ChainsOf, SpliceChains, OwnChains;
    SliceOfSplice(s.steps, ns, l.steps);
    GetAfterSet(s.queues, ns, l.queue, ns);
    GetAfterSet(s.contexts, ns, l.context, ns);
    GetAfterSet(s.runs, ns, l.run, ns);
    ChainsSpliced(s.chains, ns, l.chains);
  }

  lemma PutProject(s: State, ns: string)
    ensures Put(s, ns, Project(s, ns)) == s
    ensures ChainsFit(s, ns, Project(s, ns))
  {
    hide Slice, Splice, Get, Set, ChainsOf, SpliceChains, OwnChains;
    SpliceOfSlice(s.steps, ns);
    SetAfterSet(s.queues, ns, None, None);
    SetAfterSet(s.contexts, ns, None, None);
    SetAfterSet(s.runs, ns, None, None);
    ChainsUnchanged(s.chains, ns);
  }

  lemma PutPut(s: State, ns: string, l: Local, l': Local)
    requires ChainsFit(s, ns, l)
    ensures Put(Put(s, ns, l), ns, l') == Put(s, ns, l')
  {
    hide Slice, Splice, Get, Set, ChainsOf, SpliceChains, OwnChains;
    SpliceOfSplice(s.steps, ns, l.steps, l'.steps);
    SetAfterSet(s.queues, ns, l.queue, l'.queue);
    SetAfterSet(s.contexts, ns, l.context, l'.context);
    SetAfterSet(s.runs, ns, l.run, l'.run);
    ChainsSpliced(s.chains, ns, l.chains);
  }

  /** What one namespace does is invisible to every separate one. */
  lemma PutFrame(s: State, ns: string, l: Local, other: string)
    requires ChainsFit(s, ns, l) && Separate(ns, other) && ns != other
    ensures Project(Put(s, ns, l), other) == Project(s, other)
  {
    hide Separate, Slice, Splice, Get, Set, ChainsOf, SpliceChains, OwnChains;
    SliceFrame(s.steps, ns, l.steps, other);
    GetAfterSet(s.queues, ns, l.queue, other);
    GetAfterSet(s.contexts, ns, l.context, other);
    GetAfterSet(s.runs, ns, l.run, other);
    ChainsSpliced(s.chains, ns, l.chains);
  }

  // --- Finishing a run releases its trigger ---

  function ReleaseTrigger(triggers: map<string, BalanceTrigger>, before: Option<AutomationRun>, after: Option<AutomationRun>)
    : map<string, BalanceTrigger>
  {
    if before.Some? && before.value.status == InFlight && after.Some? && after.value.status != InFlight
       && after.value.triggerId in triggers
    then
      var id := after.value.triggerId;
      triggers[id := triggers[id].(inFlight := false, lastRunOutcome := Some(after.value.status))]
    else triggers
  }

  /** Put the new state of a namespace back, releasing the trigger if its run just ended. */
  function React(s: State, ns: string, l: Local): State {
    Put(s, ns, l).(triggers := ReleaseTrigger(s.triggers, Get(s.runs, ns), l.run))
  }

  // --- Entry points ---

  datatype Event =
    | SaveTemplate(owner: bool, sequenceId: string, calls: seq<Step>)
    | DeleteTemplate(owner: bool, sequenceId: string)
    | CreateTrigger(owner: bool, triggerId: string, sequenceId: string, minBalance: u128, maxRuns: u32)
    | DeleteTrigger(owner: bool, triggerId: string)
    | ExecuteTrigger(authorized: bool, triggerId: string, balance: u128)
    | PruneFinishedRuns
    | RegisterStep(caller: string, call: Step)
    | ExecuteSteps(authorized: bool, caller: string, calls: seq<Step>)
    | RunSequence(authorized: bool, caller: string, order: seq<string>)
    | TimeoutYield(y: YieldId)
    | DeliverReceipt(y: YieldId, reply: Reply)

  // New state and the calls sent out.
  datatype Outcome = Outcome(state: State, sent: seq<Request>)

  predicate UniqueIds(calls: seq<Step>) {
    forall i, j | 0 <= i < j < |calls| :: calls[i].stepId != calls[j].stepId
  }

  function TotalDeposit(calls: seq<Step>): nat {
    if calls == [] then 0 else TotalDeposit(calls[..|calls| - 1]) + calls[|calls| - 1].deposit
  }

  /** None when a call is invalid, an id repeats, or the deposits overflow. */
  function ValidateTemplate(calls: seq<Step>): Option<SequenceTemplate> {
    if (forall i | 0 <= i < |calls| :: ValidStep(calls[i])) && UniqueIds(calls) && TotalDeposit(calls) < TWO_128
    then Some(SequenceTemplate(calls, TotalDeposit(calls)))
    else None
  }

  predicate SequenceReferenced(s: State, sequenceId: string) {
    exists t | t in s.triggers :: s.triggers[t].sequenceId == sequenceId
  }

  function Max(a: nat, b: nat): nat {
    if a >= b then a else b
  }

  /** None when `execute_trigger` panics. */
  function ExecuteTriggerOutcome(s: State, authorized: bool, triggerId: string, balance: u128): Option<Outcome> {
    if !authorized || triggerId !in s.triggers then None
    else
      var trigger := s.triggers[triggerId];
      if trigger.sequenceId !in s.templates then None
      else
        var template := s.templates[trigger.sequenceId];
        if trigger.inFlight || trigger.runsStarted >= trigger.maxRuns
           || balance < Max(trigger.minBalance, template.totalDeposit)
        then None
        else
          var nonce := trigger.runsStarted + 1;
          var ns := AutomationNamespace(triggerId, nonce);
          var run := AutomationRun(triggerId, trigger.sequenceId, nonce, InFlight, None);
          match Fire(Project(s, ns), ns, run, template.calls, s.nextYield)
          case None => None
          case Some(l) =>
            var fired := trigger.(runsStarted := nonce, inFlight := true,
                                  lastRunNamespace := Some(ns), lastRunOutcome := Some(InFlight));
            Some(Outcome(Put(s, ns, l).(triggers := s.triggers[triggerId := fired],
                                        nextYield := s.nextYield + |template.calls|), []))
  }

  function RegisterStepOutcome(s: State, caller: string, call: Step): Option<Outcome> {
    var ns := ManualNamespace(caller);
    if !ValidStep(call) then None
    else
      match Register(Project(s, ns), ns, call, s.nextYield)
      case None => None
      case Some(l) => Some(Outcome(Put(s, ns, l).(nextYield := s.nextYield + 1), []))
  }

  function ExecuteStepsOutcome(s: State, authorized: bool, caller: string, calls: seq<Step>): Option<Outcome> {
    var ns := ManualNamespace(caller);
    if !authorized || calls == [] || !UniqueIds(calls) || (exists i | 0 <= i < |calls| :: !ValidStep(calls[i])) then None
    else
      match ReleasePlan(Project(s, ns), ns, calls, s.nextYield)
      case None => None
      case Some(l) => Some(Outcome(Put(s, ns, l).(nextYield := s.nextYield + |calls|), []))
  }

  function RunSequenceOutcome(s: State, authorized: bool, caller: string, order: seq<string>): Option<Outcome> {
    var ns := ManualNamespace(caller);
    if !authorized then None
    else
      match StartRelease(Project(s, ns), order)
      case None => None
      case Some(l) => Some(Outcome(Put(s, ns, l), []))
  }

  /** Deliver the receipt a chain has outstanding. */
  function DeliverOutcome(s: State, y: YieldId, reply: Reply): Option<Outcome> {
    if y !in s.chains || s.chains[y].phase.Yielded? then None
    else
      var ns := s.chains[y].ns;
      var r := Deliver(Project(s, ns), y, reply);
      Some(Outcome(React(s, ns, r.local), r.sent))
  }

  /** One call or delivered receipt; None when it panics or cannot happen. */
  function Apply(s: State, e: Event): Option<Outcome> {
    match e
    case SaveTemplate(owner, sequenceId, calls) =>
      if !owner || sequenceId == "" || calls == [] || ValidateTemplate(calls).None? then None
      else Some(Outcome(s.(templates := s.templates[sequenceId := ValidateTemplate(calls).value]), []))
    case DeleteTemplate(owner, sequenceId) =>
      if !owner || sequenceId !in s.templates || SequenceReferenced(s, sequenceId) then None
      else Some(Outcome(s.(templates := s.templates - {sequenceId}), []))
    case CreateTrigger(owner, triggerId, sequenceId, minBalance, maxRuns) =>
      if !owner || triggerId == "" || sequenceId == "" || maxRuns == 0 || triggerId in s.triggers || sequenceId !in s.templates
      then None
      else
        Some(Outcome(s.(triggers := s.triggers[triggerId :=
                       BalanceTrigger(sequenceId, minBalance, maxRuns, 0, false, None, None)]), []))
    case DeleteTrigger(owner, triggerId) =>
      if !owner || triggerId !in s.triggers || s.triggers[triggerId].inFlight then None
      else Some(Outcome(s.(triggers := s.triggers - {triggerId}), []))
    case ExecuteTrigger(authorized, triggerId, balance) => ExecuteTriggerOutcome(s, authorized, triggerId, balance)
    case PruneFinishedRuns =>
      Some(Outcome(s.(runs := map ns | ns in s.runs && s.runs[ns].status == InFlight :: s.runs[ns]), []))
    case RegisterStep(caller, call) => RegisterStepOutcome(s, caller, call)
    case ExecuteSteps(authorized, caller, calls) => ExecuteStepsOutcome(s, authorized, caller, calls)
    case RunSequence(authorized, caller, order) => RunSequenceOutcome(s, authorized, caller, order)
    case TimeoutYield(y) =>
      if y !in s.chains || !s.chains[y].phase.Yielded? then None
      else Some(Outcome(Put(s, s.chains[y].ns, TimeOut(Project(s, s.chains[y].ns), y)), []))
    case DeliverReceipt(y, reply) => DeliverOutcome(s, y, reply)
  }
}

/** One step at a time in the small sequencer, carried over from the smart account by
    running the two in lock step. */
module SimpleOneAtATime {
  import opened Prelude
  import opened Types
  import opened NamespaceKeys
  import opened Sequencer
  import opened RunInvariant
  import opened Account
  import opened Protocol
  import opened ProtocolSteps
  import opened Theorems
  import opened OneAtATime
  import opened ManualNamespaces
  import opened LockStep
  import S = SimpleSemantics
  import H = SimpleHistory

  /** The step is woken up or called, and not yet resolved. */
  predicate Busy(phase: S.SimplePhase) {
    phase.Woken? || phase.Calling?
  }

  ghost predicate NoneBusy(t: S.SimpleState, caller: string) {
    forall y | y in t.chains && t.chains[y].caller == caller :: !Busy(t.chains[y].phase)
  }

  ghost predicate OneBusy(t: S.SimpleState, caller: string) {
    forall y, z | y in t.chains && z in t.chains && t.chains[y].caller == caller && t.chains[z].caller == caller
                  && Busy(t.chains[y].phase) && Busy(t.chains[z].phase) :: y == z
  }

  /** The caller starts a run, and the call is accepted. */
  predicate Starts(t: S.SimpleState, e: S.SimpleEvent, caller: string) {
    (e.Execute? || e.Run?) && e.caller == caller && S.SimpleApply(t, e).Some?
  }

  ghost predicate CallersHashFree(events: seq<S.SimpleEvent>) {
    forall i | 0 <= i < |events| :: Common(events[i])
  }

  /** Every run the caller started so far found none of its steps woken up or called. */
  ghost predicate QuietRuns(worlds: seq<H.SimpleWorld>, events: seq<S.SimpleEvent>, caller: string, n: nat)
    requires n <= |events| <= |worlds|
  {
    forall i | 0 <= i < n :: Starts(worlds[i].state, events[i], caller) ==> NoneBusy(worlds[i].state, caller)
  }

  // --- The smart account run beside it ---

  ghost function TwinEvents(events: seq<S.SimpleEvent>): seq<Event> {
    seq(|events|, i requires 0 <= i < |events| => DirectEvent(events[i]))
  }

  /** The smart account under the translated events is in step all along. */
  ghost predicate Beside(twins: seq<World>, worlds: seq<H.SimpleWorld>, events: seq<S.SimpleEvent>) {
    && |worlds| == |events| + 1 && Schedule(twins, TwinEvents(events))
    && (forall i | 0 <= i <= |events| :: InStep(twins[i], worlds[i]))
    && (forall i | 0 <= i < |events| :: SameStep(twins[i], worlds[i], events[i]))
  }

  lemma TwinsInStep(worlds: seq<H.SimpleWorld>, events: seq<S.SimpleEvent>) returns (twins: seq<World>)
    requires H.SimpleSchedule(worlds, events) && CallersHashFree(events)
    ensures Beside(twins, worlds, events)
  {
    hide InStep, SameStep, Next, H.SimpleNext, Common, DirectEvent, Allowed, Sound, H.SimpleInv;
    var translated := TwinEvents(events);
    twins := Unfold(translated, Initial);
    forall i | 0 <= i < |events|
      ensures Allowed(twins[i], translated[i]) && twins[i + 1] == Next(twins[i], DirectEvent(events[i]))
    {
      CommonIsAllowed(twins[i], events[i]);
    }
    assert TwinSchedule(twins, worlds, events);
    forall i | 0 <= i <= |events|
      ensures InStep(twins[i], worlds[i]) && (i < |events| ==> SameStep(twins[i], worlds[i], events[i]))
    {
      LockStepForever(twins, worlds, events, i);
    }
  }

  lemma ViewChains(w: World, v: H.SimpleWorld, caller: string)
    requires InStep(w, v) && HashFree(caller)
    ensures ChainsIn(w, ManualNamespace(caller)) == DirectChains(v.state.chains, caller)
  {
    hide HashFree, ManualNamespace, ChainsOf, DirectChains, Callers, ManualChain;
    ChainsOfProject(w, ManualNamespace(caller));
  }

  lemma SameBusy(w: World, v: H.SimpleWorld, caller: string)
    requires InStep(w, v) && HashFree(caller)
    ensures NoneActive(ChainsIn(w, ManualNamespace(caller))) <==> NoneBusy(v.state, caller)
    ensures OneActive(ChainsIn(w, ManualNamespace(caller))) <==> OneBusy(v.state, caller)
  {
    hide InStep, HashFree, ManualNamespace, ChainsIn;
    ViewChains(w, v, caller);
    var chains := DirectChains(v.state.chains, caller);
    forall y | y in v.state.chains && v.state.chains[y].caller == caller
      ensures y in chains && (Active(chains[y].phase) <==> Busy(v.state.chains[y].phase))
    {
    }
  }

  lemma SameStarts(w: World, v: H.SimpleWorld, e: S.SimpleEvent, caller: string)
    requires InStep(w, v) && SameStep(w, v, e) && Common(e) && HashFree(caller)
    ensures Releases(w, DirectEvent(e), ManualNamespace(caller)) <==> Starts(v.state, e, caller)
  {
    hide InStep, HashFree, ManualNamespace, Apply, S.SimpleApply, LocalAfter, View, OthersSame, Touched;
    if S.SimpleApply(v.state, e).Some? && CallerOf(v.state, e) != Some(caller) {
      ManualDiffers(CallerOf(v.state, e).value, caller);
    }
  }

  /** A caller has at most one step woken up or called at all times if and only if every
      run it started found none. */
  lemma SimpleOneAtATimeIff(worlds: seq<H.SimpleWorld>, events: seq<S.SimpleEvent>, caller: string, n: nat)
    requires H.SimpleSchedule(worlds, events) && CallersHashFree(events) && HashFree(caller) && n <= |events|
    ensures (forall i | 0 <= i <= n :: OneBusy(worlds[i].state, caller)) <==> QuietRuns(worlds, events, caller, n)
  {
    hide InStep, SameStep, HashFree, Schedule, H.SimpleNext, ManualNamespace, ChainsIn, NoneActive, OneActive,
      NoneBusy, OneBusy, Releases, Starts, DirectEvent, Common;
    var twins := TwinsInStep(worlds, events);
    var ns := ManualNamespace(caller);
    SameQuiet(twins, worlds, events, caller, n);
    ManualName(caller);
    OneAtATimeIff(twins, TwinEvents(events), ns, n);
    forall i | 0 <= i <= n
      ensures OneActive(ChainsIn(twins[i], ns)) <==> OneBusy(worlds[i].state, caller)
    {
      SameBusy(twins[i], worlds[i], caller);
    }
  }

  lemma SameQuiet(twins: seq<World>, worlds: seq<H.SimpleWorld>, events: seq<S.SimpleEvent>, caller: string, n: nat)
    requires Beside(twins, worlds, events) && CallersHashFree(events) && HashFree(caller) && n <= |events|
    ensures |twins| == |events| + 1
    ensures QuietStarts(twins, TwinEvents(events), ManualNamespace(caller), n) <==> QuietRuns(worlds, events, caller, n)
  {
    hide InStep, SameStep, HashFree, Allowed, Next, ManualNamespace, ChainsIn, NoneActive, NoneBusy, Releases, Starts,
      DirectEvent, Common;
    forall i | 0 <= i < n
      ensures Releases(twins[i], TwinEvents(events)[i], ManualNamespace(caller)) <==> Starts(worlds[i].state, events[i], caller)
      ensures NoneActive(ChainsIn(twins[i], ManualNamespace(caller))) <==> NoneBusy(worlds[i].state, caller)
    {
      SameBusy(twins[i], worlds[i], caller);
      SameStarts(twins[i], worlds[i], events[i], caller);
    }
  }

  // --- Who releases a step ---

  /** The order of the latest run the caller started. */
  ghost function DeclaredOrder(worlds: seq<H.SimpleWorld>, events: seq<S.SimpleEvent>, caller: string, i: nat): seq<string>
    requires i <= |events| <= |worlds|
  {
    if i == 0 then []
    else if !Starts(worlds[i - 1].state, events[i - 1], caller) then DeclaredOrder(worlds, events, caller, i - 1)
    else if events[i - 1].Execute? then S.StepIds(events[i - 1].calls)
    else events[i - 1].order
  }

  lemma {:induction false} SameOrders(twins: seq<World>, worlds: seq<H.SimpleWorld>, events: seq<S.SimpleEvent>,
                                      caller: string, i: nat)
    requires Beside(twins, worlds, events) && CallersHashFree(events) && HashFree(caller) && i <= |events|
    ensures |twins| == |events| + 1
    ensures LatestOrder(twins, TwinEvents(events), ManualNamespace(caller), i) == DeclaredOrder(worlds, events, caller, i)
  {
    hide InStep, SameStep, HashFree, Allowed, Next, ManualNamespace, Releases, Starts, Common;
    if i > 0 {
      SameOrders(twins, worlds, events, caller, i - 1);
      SameStarts(twins[i - 1], worlds[i - 1], events[i - 1], caller);
      StartingEvent(worlds[i - 1].state, events[i - 1], caller);
      if events[i - 1].Execute? {
        assert IdsOf(DirectCalls(events[i - 1].calls)) == S.StepIds(events[i - 1].calls);
      }
    }
  }

  lemma StartingEvent(t: S.SimpleState, e: S.SimpleEvent, caller: string)
    ensures Starts(t, e, caller) ==> e.Execute? || e.Run?
  {
  }

  /** With quiet runs, outside the start of a run a step is woken up only by the success
      of the step its run declared just before it. */
  lemma SimpleReleasedByPredecessor(worlds: seq<H.SimpleWorld>, events: seq<S.SimpleEvent>, caller: string, i: nat, z: YieldId)
    requires H.SimpleSchedule(worlds, events) && CallersHashFree(events) && HashFree(caller) && i < |events|
    requires QuietRuns(worlds, events, caller, i) && !Starts(worlds[i].state, events[i], caller)
    requires
      var t, t' := worlds[i].state, worlds[i + 1].state;
      && z in t.chains && t.chains[z].caller == caller && t.chains[z].phase.Waiting?
      && z in t'.chains && t'.chains[z].caller == caller && t'.chains[z].phase.Woken?
    ensures
      var t, e, order := worlds[i].state, events[i], DeclaredOrder(worlds, events, caller, i);
      && e.Receipt? && e.y in t.chains && t.chains[e.y].phase.Calling? && CheckedReply(e.reply).Some?
      && exists k :: 0 <= k < |order| - 1 && t.chains[e.y].stepId == order[k] && t.chains[z].stepId == order[k + 1]
  {
    hide InStep, SameStep, HashFree, Allowed, Next, H.SimpleNext, ManualNamespace, ChainsIn, NoneActive, OneActive,
      NoneBusy, OneBusy, Releases, Starts, DeclaredOrder, LatestOrder, Project;
    var twins := TwinsInStep(worlds, events);
    var translated := TwinEvents(events);
    var ns := ManualNamespace(caller);
    SameQuiet(twins, worlds, events, caller, i);
    SameOrders(twins, worlds, events, caller, i);
    SameStarts(twins[i], worlds[i], events[i], caller);
    ViewChains(twins[i], worlds[i], caller);
    ViewChains(twins[i + 1], worlds[i + 1], caller);
    ReleasedByPredecessor(twins, translated, caller, i, z);
    ChainsOfProject(twins[i], ns);
    var y := translated[i].y;
    assert y in DirectChains(worlds[i].state.chains, caller);
  }
}

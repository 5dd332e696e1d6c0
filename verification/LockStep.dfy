/** The two sequencers in lock step: a smart account that is used with direct steps
    only, by callers it authorizes, does in each caller's namespace exactly what the
    small sequencer does for that caller. */
module LockStep {
  import opened Prelude
  import opened Types
  import opened Materialize
  import opened NamespaceKeys
  import opened Sequencer
  import opened Gas
  import opened Account
  import opened Protocol
  import opened ProtocolSteps
  import opened Theorems
  import opened Completion
  import S = SimpleSemantics
  import H = SimpleHistory

  // --- The translation ---

  function Direct(call: S.SimpleStep): Step {
    Step(call.stepId, call.targetId, call.methodName, call.args, call.deposit, call.gas, StepPolicy.Direct, None, None, None)
  }

  function DirectPhase(phase: S.SimplePhase): Phase {
    match phase
    case Waiting => Yielded
    case Woken => Resumed
    case Expired => TimedOut
    case Calling(call) => Dispatched(Direct(call))
  }

  function DirectStep(r: S.SimpleRegistered): RegisteredStep {
    RegisteredStep(r.yieldId, Direct(r.call))
  }

  function DirectChain(chain: S.SimpleChain): Chain {
    Chain(ManualNamespace(chain.caller), chain.stepId, DirectPhase(chain.phase))
  }

  function DirectSteps(steps: map<string, S.SimpleRegistered>): map<string, RegisteredStep> {
    map id | id in steps :: DirectStep(steps[id])
  }

  function DirectChains(chains: map<YieldId, S.SimpleChain>, caller: string): map<YieldId, Chain> {
    map y | y in chains && chains[y].caller == caller :: DirectChain(chains[y])
  }

  function DirectCalls(calls: seq<S.SimpleStep>): seq<Step> {
    seq(|calls|, i requires 0 <= i < |calls| => Direct(calls[i]))
  }

  /** What the small sequencer holds for one caller, as the state of a manual namespace. */
  function View(t: S.SimpleState, caller: string): Local {
    Local(DirectSteps(Slice(t.steps, caller)), Get(t.queue, caller), None, None, DirectChains(t.chains, caller))
  }

  function DirectEvent(e: S.SimpleEvent): Event {
    match e
    case Register(caller, call) => RegisterStep(caller, Direct(call))
    case Execute(caller, calls) => ExecuteSteps(true, caller, DirectCalls(calls))
    case Run(predecessor, caller, order) => RunSequence(predecessor == caller, caller, order)
    case Timeout(y) => TimeoutYield(y)
    case Receipt(y, reply) => DeliverReceipt(y, reply)
  }

  /** The target calls among the acts of the small sequencer. */
  function CallsOf(acts: seq<S.Act>): seq<Request> {
    if acts == [] then []
    else (if acts[0].Called? then [TargetRequest(Direct(acts[0].call))] else []) + CallsOf(acts[1..])
  }

  // --- Views under single updates ---

  predicate Callers(t: S.SimpleState) {
    forall y | y in t.chains :: HashFree(t.chains[y].caller)
  }

  /** Every registered step's receipt, if outstanding, is its own. */
  ghost predicate Keyed(t: S.SimpleState) {
    && Callers(t)
    && forall key | key in t.steps && t.steps[key].yieldId in t.chains :: H.KeyOf(t.chains[t.steps[key].yieldId]) == key
  }

  ghost predicate OthersSame(t: S.SimpleState, t': S.SimpleState, caller: string) {
    forall other | HashFree(other) && other != caller :: View(t', other) == View(t, other)
  }

  lemma SliceSet<V>(m: map<string, V>, caller: string, id: string, v: Option<V>)
    requires HashFree(caller)
    ensures Slice(Set(m, StepKey(caller, id), v), caller) == Set(Slice(m, caller), id, v)
    ensures forall other | HashFree(other) && other != caller :: Slice(Set(m, StepKey(caller, id), v), other) == Slice(m, other)
  {
    hide Slice, Splice, HashFree, StepKey, Set, Separate;
    SpliceOfUpdate(m, caller, id, v);
    SliceOfSplice(m, caller, Set(Slice(m, caller), id, v));
    forall other | HashFree(other) && other != caller
      ensures Slice(Set(m, StepKey(caller, id), v), other) == Slice(m, other)
    {
      HashFreeSeparate(caller, other);
      SliceFrame(m, caller, Set(Slice(m, caller), id, v), other);
    }
  }

  lemma StepView(t: S.SimpleState, caller: string, id: string, v: Option<S.SimpleRegistered>)
    requires HashFree(caller)
    ensures
      var t' := t.(steps := Set(t.steps, StepKey(caller, id), v));
      && View(t', caller) ==
         View(t, caller).(steps := Set(View(t, caller).steps, id, if v.Some? then Some(DirectStep(v.value)) else None))
      && OthersSame(t, t', caller)
  {
    hide Slice, HashFree, StepKey;
    SliceSet(t.steps, caller, id, v);
  }

  lemma DirectChainsSet(chains: map<YieldId, S.SimpleChain>, y: YieldId, chain: S.SimpleChain)
    requires y in chains ==> chains[y].caller == chain.caller
    ensures DirectChains(chains[y := chain], chain.caller) == DirectChains(chains, chain.caller)[y := DirectChain(chain)]
  {
    hide DirectChain;
  }

  lemma DirectChainsOther(chains: map<YieldId, S.SimpleChain>, y: YieldId, chain: S.SimpleChain, other: string)
    requires (y in chains ==> chains[y].caller == chain.caller) && other != chain.caller
    ensures DirectChains(chains[y := chain], other) == DirectChains(chains, other)
  {
    hide DirectChain;
  }

  lemma ChainView(t: S.SimpleState, y: YieldId, chain: S.SimpleChain)
    requires y in t.chains ==> t.chains[y].caller == chain.caller
    ensures
      var t' := t.(chains := t.chains[y := chain]);
      && View(t', chain.caller) == View(t, chain.caller).(chains := View(t, chain.caller).chains[y := DirectChain(chain)])
      && OthersSame(t, t', chain.caller)
  {
    hide Slice, DirectSteps, DirectChains, DirectChain, HashFree;
    DirectChainsSet(t.chains, y, chain);
    forall other | HashFree(other) && other != chain.caller
      ensures View(t.(chains := t.chains[y := chain]), other) == View(t, other)
    {
      DirectChainsOther(t.chains, y, chain, other);
    }
  }

  lemma DropView(t: S.SimpleState, y: YieldId)
    requires y in t.chains
    ensures
      var t' := S.DropChain(t, y);
      && View(t', t.chains[y].caller) == Drop(View(t, t.chains[y].caller), y)
      && OthersSame(t, t', t.chains[y].caller)
  {
    hide Slice;
  }

  lemma QueueView(t: S.SimpleState, caller: string, queue: Option<seq<string>>)
    ensures
      var t' := t.(queue := Set(t.queue, caller, queue));
      View(t', caller) == View(t, caller).(queue := queue) && OthersSame(t, t', caller)
  {
    hide Slice;
  }

  lemma StepsAt(t: S.SimpleState, caller: string, id: string)
    ensures id in View(t, caller).steps <==> StepKey(caller, id) in t.steps
    ensures id in View(t, caller).steps ==> View(t, caller).steps[id] == DirectStep(t.steps[StepKey(caller, id)])
  {
    hide Slice, StepKey;
    SliceAt(t.steps, caller, id);
  }

  /** A key of a hash-free caller names its caller. */
  lemma CallerOfKey(chain: S.SimpleChain, caller: string, id: string)
    requires HashFree(caller) && HashFree(chain.caller) && H.KeyOf(chain) == StepKey(caller, id)
    ensures chain.caller == caller && chain.stepId == id
  {
    hide HashFree, Separate;
    var key := StepKey(caller, id);
    KeyRoundTrip(caller, id);
    KeyRoundTrip(chain.caller, chain.stepId);
    assert InNamespace(key, chain.caller) && InNamespace(key, caller);
    SharedKeyIff(chain.caller, caller);
    if chain.caller != caller {
      HashFreeSeparate(chain.caller, caller);
    }
  }

  // --- Operations ---

  /** The small sequencer's operation is the smart account's, seen by the caller. */
  ghost predicate Mirrors(t: S.SimpleState, o: Option<S.SimpleOutcome>, caller: string, l: Option<Local>) {
    && o.Some? == l.Some?
    && (o.Some? ==> View(o.value.state, caller) == l.value && OthersSame(t, o.value.state, caller))
  }

  lemma ResumeMirrors(t: S.SimpleState, caller: string, id: string)
    requires HashFree(caller) && Keyed(t)
    ensures Mirrors(t, S.ResumeStep(t, caller, id), caller, ResumeStep(View(t, caller), id))
  {
    hide Slice, HashFree, StepKey, OthersSame;
    StepsAt(t, caller, id);
    var key := StepKey(caller, id);
    if key in t.steps {
      var y := t.steps[key].yieldId;
      if y in t.chains {
        CallerOfKey(t.chains[y], caller, id);
        ChainView(t, y, t.chains[y].(phase := S.Woken));
      }
    }
  }

  lemma RegisterMirrors(t: S.SimpleState, caller: string, call: S.SimpleStep)
    requires HashFree(caller) && t.nextYield !in t.chains && S.ValidSimpleStep(call)
    ensures Mirrors(t, S.RegisterStep(t, caller, call), caller,
                    Sequencer.Register(View(t, caller), ManualNamespace(caller), Direct(call), t.nextYield))
  {
    hide Slice, HashFree, StepKey, View, OthersSame;
    StepsAt(t, caller, call.stepId);
    if StepKey(caller, call.stepId) !in t.steps {
      var y := t.nextYield;
      var step, chain := S.SimpleRegistered(y, call), S.SimpleChain(caller, call.stepId, S.Waiting);
      var t1 := t.(steps := t.steps[StepKey(caller, call.stepId) := step]);
      StepView(t, caller, call.stepId, Some(step));
      ChainView(t1, y, chain);
      var t2 := t1.(chains := t1.chains[y := chain]);
      CounterView(t2, t.nextYield + 1, caller);
      OthersTwice(t, t1, t2, caller);
      OthersTwice(t, t2, t2.(nextYield := t.nextYield + 1), caller);
    }
  }

  lemma CounterView(t: S.SimpleState, next: YieldId, caller: string)
    ensures View(t.(nextYield := next), caller) == View(t, caller) && OthersSame(t, t.(nextYield := next), caller)
  {
  }

  lemma OthersTwice(t: S.SimpleState, t1: S.SimpleState, t2: S.SimpleState, caller: string)
    requires OthersSame(t, t1, caller) && OthersSame(t1, t2, caller)
    ensures OthersSame(t, t2, caller)
  {
    hide View, HashFree;
  }

  lemma OthersReflexive(t: S.SimpleState, caller: string)
    ensures OthersSame(t, t, caller)
  {
  }

  lemma StartMirrors(t: S.SimpleState, caller: string, order: seq<string>)
    requires HashFree(caller) && Keyed(t)
    ensures Mirrors(t, S.StartRelease(t, caller, order), caller, StartRelease(View(t, caller), order))
  {
    hide Slice, HashFree, StepKey, OthersSame, S.ResumeStep, ResumeStep, DirectSteps, DirectChains;
    forall i | 0 <= i < |order|
      ensures order[i] in View(t, caller).steps <==> StepKey(caller, order[i]) in t.steps
    {
      StepsAt(t, caller, order[i]);
    }
    if order != [] && caller !in t.queue {
      var queue := if |order| > 1 then Some(order[1..]) else None;
      var t1 := t.(queue := Set(t.queue, caller, queue));
      QueueView(t, caller, queue);
      assert t1.queue == if |order| > 1 then t.queue[caller := order[1..]] else t.queue;
      ResumeMirrors(t1, caller, order[0]);
      if S.ResumeStep(t1, caller, order[0]).Some? {
        OthersTwice(t, t1, S.ResumeStep(t1, caller, order[0]).value.state, caller);
      }
    }
  }

  lemma ProgressMirrors(t: S.SimpleState, caller: string)
    requires HashFree(caller) && Keyed(t)
    ensures View(S.Progress(t, caller).state, caller) == Progress(View(t, caller))
    ensures OthersSame(t, S.Progress(t, caller).state, caller)
  {
    hide Slice, HashFree, OthersSame, S.ResumeStep, ResumeStep, DirectSteps, DirectChains;
    var (t1, next) := S.TakeNextQueued(t, caller);
    var (l1, next') := TakeNextQueuedStep(View(t, caller));
    assert next' == next && t1.queue == Set(t.queue, caller, l1.queue);
    QueueView(t, caller, l1.queue);
    assert t1 == t.(queue := Set(t.queue, caller, l1.queue)) && View(t1, caller) == l1;
    if next.Some? {
      ResumeMirrors(t1, caller, next.value);
      QueueView(t1, caller, None);
      if S.ResumeStep(t1, caller, next.value).Some? {
        OthersTwice(t, t1, S.ResumeStep(t1, caller, next.value).value.state, caller);
      } else {
        OthersTwice(t, t1, t1.(queue := Set(t1.queue, caller, None)), caller);
      }
    }
  }

  // --- Plans ---

  lemma {:induction false} RegisterAllMirrors(t: S.SimpleState, h: seq<S.Act>, caller: string, calls: seq<S.SimpleStep>)
    requires HashFree(caller) && H.SimpleInv(t, h) && Callers(t)
    requires forall i | 0 <= i < |calls| :: S.ValidSimpleStep(calls[i])
    ensures Mirrors(t, S.RegisterAll(t, caller, calls), caller,
                    RegisterAll(View(t, caller), ManualNamespace(caller), DirectCalls(calls), t.nextYield))
    ensures S.RegisterAll(t, caller, calls).Some? ==>
              var t' := S.RegisterAll(t, caller, calls).value.state;
              Callers(t') && H.Bijection(t') && t'.nextYield == t.nextYield + |calls|
    decreases |calls|
  {
    hide View, HashFree, OthersSame, S.RegisterStep, Sequencer.Register,
      H.Bijection, H.AllCounted, H.Recorded, H.Preceded, H.AllInOrder;
    if calls == [] {
      OthersReflexive(t, caller);
    } else {
      var direct := DirectCalls(calls);
      assert direct[0] == Direct(calls[0]) && direct[1..] == DirectCalls(calls[1..]);
      NextIsFree(t);
      RegisterMirrors(t, caller, calls[0]);
      if S.RegisterStep(t, caller, calls[0]).Some? {
        var first := S.RegisterStep(t, caller, calls[0]).value;
        H.RegisterKeeps(t, h, caller, calls[0]);
        RegisterCallers(t, caller, calls[0]);
        RegisterAllMirrors(first.state, h + first.acts, caller, calls[1..]);
        if S.RegisterAll(first.state, caller, calls[1..]).Some? {
          OthersTwice(t, first.state, S.RegisterAll(first.state, caller, calls[1..]).value.state, caller);
        }
      }
    }
  }

  lemma NextIsFree(t: S.SimpleState)
    requires H.Bijection(t)
    ensures t.nextYield !in t.chains
  {
  }

  lemma RegisterCallers(t: S.SimpleState, caller: string, call: S.SimpleStep)
    requires Callers(t) && HashFree(caller) && S.RegisterStep(t, caller, call).Some?
    ensures
      var t' := S.RegisterStep(t, caller, call).value.state;
      Callers(t') && t'.nextYield == t.nextYield + 1
  {
    hide HashFree;
  }

  lemma BijectionKeyed(t: S.SimpleState)
    requires H.Bijection(t) && Callers(t)
    ensures Keyed(t)
  {
    hide StepKey, HashFree;
  }

  lemma {:induction false} InvalidStops(t: S.SimpleState, caller: string, calls: seq<S.SimpleStep>, i: nat)
    requires i < |calls| && !S.ValidSimpleStep(calls[i])
    ensures S.RegisterAll(t, caller, calls).None?
    decreases |calls|
  {
    if i > 0 && S.RegisterStep(t, caller, calls[0]).Some? {
      InvalidStops(S.RegisterStep(t, caller, calls[0]).value.state, caller, calls[1..], i - 1);
    }
  }

  /** Both contracts accept the same steps. */
  lemma SameValidity(call: S.SimpleStep)
    ensures ValidStep(Direct(call)) <==> S.ValidSimpleStep(call)
  {
  }

  lemma ExecuteMirrors(t: S.SimpleState, h: seq<S.Act>, caller: string, calls: seq<S.SimpleStep>)
    requires HashFree(caller) && H.SimpleInv(t, h) && Callers(t)
    requires S.UniqueStepIds(calls) && forall i | 0 <= i < |calls| :: S.ValidSimpleStep(calls[i])
    requires calls != []
    ensures Mirrors(t, S.ExecuteSteps(t, caller, calls), caller,
                    ReleasePlan(View(t, caller), ManualNamespace(caller), DirectCalls(calls), t.nextYield))
  {
    hide View, HashFree, OthersSame, S.RegisterAll, RegisterAll, S.StartRelease, StartRelease, H.SimpleInv, H.Bijection, Callers;
    assert IdsOf(DirectCalls(calls)) == S.StepIds(calls);
    RegisterAllMirrors(t, h, caller, calls);
    if S.RegisterAll(t, caller, calls).Some? {
      var t1 := S.RegisterAll(t, caller, calls).value.state;
      BijectionKeyed(t1);
      StartMirrors(t1, caller, S.StepIds(calls));
      if S.StartRelease(t1, caller, S.StepIds(calls)).Some? {
        OthersTwice(t, t1, S.StartRelease(t1, caller, S.StepIds(calls)).value.state, caller);
      }
    }
  }

  // --- Receipts ---

  lemma ReceiptView(t: S.SimpleState, y: YieldId)
    requires y in t.chains
    ensures
      var l := View(t, t.chains[y].caller);
      y in l.chains && l.chains[y] == DirectChain(t.chains[y])
  {
    hide Slice;
  }

  lemma ResolvedMirrors(t: S.SimpleState, y: YieldId, reply: Reply)
    requires Keyed(t) && y in t.chains && t.chains[y].phase.Calling?
    ensures
      var caller := t.chains[y].caller;
      && y in View(t, caller).chains
      && View(S.OnStepResolved(t, y, reply).state, caller) == OnStepResolved(View(t, caller), y, reply)
      && OthersSame(t, S.OnStepResolved(t, y, reply).state, caller)
  {
    hide Slice, HashFree, StepKey, OthersSame, S.Progress, Progress, DirectSteps, DirectChains;
    var chain := t.chains[y];
    var caller := chain.caller;
    var l := View(t, caller);
    ReceiptView(t, y);
    StepsAt(t, caller, chain.stepId);
    var t1 := S.DropChain(t, y);
    var t2 := t1.(steps := Set(t1.steps, StepKey(caller, chain.stepId), None));
    var t3 := t2.(queue := Set(t2.queue, caller, None));
    DropView(t, y);
    CallersAt(t, y);
    StepView(t1, caller, chain.stepId, None);
    QueueView(t2, caller, None);
    OthersTwice(t, t1, t2, caller);
    OthersTwice(t, t2, t3, caller);
    var l1 := Drop(l, y).(steps := l.steps - {chain.stepId});
    assert View(t2, caller) == l1;
    KeyedAfterDrop(t, t2);
    ProgressMirrors(t2, caller);
    OthersTwice(t, t2, S.Progress(t2, caller).state, caller);
  }

  lemma CallersAt(t: S.SimpleState, y: YieldId)
    requires Callers(t) && y in t.chains
    ensures HashFree(t.chains[y].caller)
  {
    hide HashFree;
  }

  lemma KeyedAfterDrop(t: S.SimpleState, t': S.SimpleState)
    requires Keyed(t)
    requires forall y | y in t'.chains :: y in t.chains && t'.chains[y] == t.chains[y]
    requires forall key | key in t'.steps :: key in t.steps && t'.steps[key] == t.steps[key]
    ensures Keyed(t')
  {
    hide HashFree, StepKey;
  }

  lemma ResumedMirrors(t: S.SimpleState, y: YieldId)
    requires Keyed(t) && y in t.chains && (t.chains[y].phase.Woken? || t.chains[y].phase.Expired?)
    ensures
      var caller := t.chains[y].caller;
      var o := S.OnStepResumed(t, y);
      && y in View(t, caller).chains
      && OnStepResumed(View(t, caller), y) == Reaction(View(o.state, caller), CallsOf(o.acts))
      && OthersSame(t, o.state, caller)
  {
    hide Slice, HashFree, StepKey, OthersSame, DirectSteps, DirectChains, TargetRequest;
    var chain := t.chains[y];
    var caller := chain.caller;
    var key := StepKey(caller, chain.stepId);
    ReceiptView(t, y);
    StepsAt(t, caller, chain.stepId);
    CallersAt(t, y);
    DropView(t, y);
    if key in t.steps && chain.phase.Expired? {
      var t1 := S.DropChain(t, y);
      var t2 := t1.(steps := Set(t1.steps, key, None));
      StepView(t1, caller, chain.stepId, None);
      QueueView(t2, caller, None);
      OthersTwice(t, t1, t2, caller);
      OthersTwice(t, t2, t2.(queue := Set(t2.queue, caller, None)), caller);
    } else if key in t.steps {
      var call := t.steps[key].call;
      ChainView(t, y, chain.(phase := S.Calling(call)));
      assert MaterializeStep(Direct(call), SavedResults(View(t, caller))) == Ok(Direct(call));
      assert CallsOf([S.Called(y, call)]) == [TargetRequest(Direct(call))];
    }
  }

  // --- Whole schedules ---

  /** What both contracts can be asked: account ids are free of `#`. A release on behalf
      of somebody else is one the smart account's caller is not authorized for. */
  predicate Common(e: S.SimpleEvent) {
    match e
    case Register(caller, _) => HashFree(caller)
    case Execute(caller, _) => HashFree(caller)
    case Run(_, caller, _) => HashFree(caller)
    case _ => true
  }

  /** Per caller, the same registered steps, the same queue and the same receipts. */
  ghost predicate InStep(w: World, v: H.SimpleWorld) {
    && w.state.nextYield == v.state.nextYield && Callers(v.state)
    && (forall caller | HashFree(caller) :: Project(w.state, ManualNamespace(caller)) == View(v.state, caller))
    && (forall y | y in w.state.chains :: ManualChain(w.state.chains[y]))
  }

  ghost predicate ManualChain(chain: Chain) {
    exists caller :: HashFree(caller) && chain.ns == ManualNamespace(caller)
  }

  lemma SameReceipts(w: World, v: H.SimpleWorld, y: YieldId)
    requires InStep(w, v)
    ensures y in w.state.chains <==> y in v.state.chains
    ensures y in v.state.chains ==> w.state.chains[y] == DirectChain(v.state.chains[y])
  {
    hide Slice, HashFree, ManualNamespace;
    if y in v.state.chains {
      CallersAt(v.state, y);
      ReceiptView(v.state, y);
      ProjectedRun(w.state, ManualNamespace(v.state.chains[y].caller));
    }
    if y in w.state.chains {
      var caller :| HashFree(caller) && w.state.chains[y].ns == ManualNamespace(caller);
      ProjectedRun(w.state, ManualNamespace(caller));
      assert y in View(v.state, caller).chains;
    }
  }

  /** The caller an event acts for. */
  function CallerOf(t: S.SimpleState, e: S.SimpleEvent): Option<string> {
    match e
    case Register(caller, _) => Some(caller)
    case Execute(caller, _) => Some(caller)
    case Run(_, caller, _) => Some(caller)
    case Timeout(y) => if y in t.chains then Some(t.chains[y].caller) else None
    case Receipt(y, _) => if y in t.chains then Some(t.chains[y].caller) else None
  }

  /** One event does the same to both, seen by its caller, and sends the same calls. */
  ghost predicate SameStep(w: World, v: H.SimpleWorld, e: S.SimpleEvent) {
    var s, t := w.state, v.state;
    var a, o := Apply(s, DirectEvent(e)), S.SimpleApply(t, e);
    && a.Some? == o.Some?
    && (o.Some? ==>
          && CallerOf(t, e).Some?
          && var caller := CallerOf(t, e).value;
             var ns := ManualNamespace(caller);
             && HashFree(caller) && Touched(s, DirectEvent(e)) == Some(ns)
             && LocalAfter(s, View(t, caller), ns, DirectEvent(e)) == Some(View(o.value.state, caller))
             && OthersSame(t, o.value.state, caller)
             && a.value.sent == CallsOf(o.value.acts)
             && a.value.state.nextYield == o.value.state.nextYield)
  }

  predicate Silent(acts: seq<S.Act>) {
    forall i | 0 <= i < |acts| :: !acts[i].Called?
  }

  lemma {:induction false} SilentSendsNothing(acts: seq<S.Act>)
    requires Silent(acts)
    ensures CallsOf(acts) == []
  {
    if acts != [] {
      SilentSendsNothing(acts[1..]);
    }
  }

  lemma {:induction false} RegisterAllSilent(t: S.SimpleState, caller: string, calls: seq<S.SimpleStep>)
    requires S.RegisterAll(t, caller, calls).Some?
    ensures Silent(S.RegisterAll(t, caller, calls).value.acts)
    decreases |calls|
  {
    if calls != [] {
      RegisterAllSilent(S.RegisterStep(t, caller, calls[0]).value.state, caller, calls[1..]);
    }
  }

  lemma StartSilent(t: S.SimpleState, caller: string, order: seq<string>)
    requires S.StartRelease(t, caller, order).Some?
    ensures Silent(S.StartRelease(t, caller, order).value.acts)
    ensures S.StartRelease(t, caller, order).value.state.nextYield == t.nextYield
  {
  }

  lemma RegisterSame(w: World, v: H.SimpleWorld, caller: string, call: S.SimpleStep)
    requires InStep(w, v) && H.SimpleInv(v.state, v.history) && HashFree(caller)
    ensures SameStep(w, v, S.Register(caller, call))
  {
    hide HashFree, View, Project, OthersSame, Put, ManualNamespace, H.AllCounted, H.Recorded, H.Preceded, H.AllInOrder,
      Sequencer.Register, ManualChain, ValidStep, S.ValidSimpleStep;
    SameValidity(call);
    NextIsFree(v.state);
    PutCountsOf(w.state, ManualNamespace(caller));
    if S.ValidSimpleStep(call) {
      RegisterMirrors(v.state, caller, call);
      if S.RegisterStep(v.state, caller, call).Some? {
        SilentSendsNothing(S.RegisterStep(v.state, caller, call).value.acts);
      }
    }
  }

  lemma PutCountsOf(s: State, ns: string)
    ensures forall l :: Put(s, ns, l).nextYield == s.nextYield
  {
  }

  lemma RunSame(w: World, v: H.SimpleWorld, predecessor: string, caller: string, order: seq<string>)
    requires InStep(w, v) && H.SimpleInv(v.state, v.history) && HashFree(caller)
    ensures SameStep(w, v, S.Run(predecessor, caller, order))
  {
    hide HashFree, View, Project, OthersSame, Put, ManualNamespace, H.Bijection, H.AllCounted, H.Recorded, H.Preceded,
      H.AllInOrder, StartRelease, S.StartRelease, ManualChain, Callers;
    if predecessor == caller {
      BijectionKeyed(v.state);
      PutCountsOf(w.state, ManualNamespace(caller));
      StartMirrors(v.state, caller, order);
      if S.StartRelease(v.state, caller, order).Some? {
        StartSilent(v.state, caller, order);
        SilentSendsNothing(S.StartRelease(v.state, caller, order).value.acts);
      }
    }
  }

  lemma SamePlans(calls: seq<S.SimpleStep>)
    ensures UniqueIds(DirectCalls(calls)) <==> S.UniqueStepIds(calls)
    ensures (forall i | 0 <= i < |calls| :: ValidStep(DirectCalls(calls)[i])) <==>
            (forall i | 0 <= i < |calls| :: S.ValidSimpleStep(calls[i]))
  {
    hide ValidStep, S.ValidSimpleStep;
    var direct := DirectCalls(calls);
    forall i | 0 <= i < |calls|
      ensures direct[i] == Direct(calls[i]) && (ValidStep(direct[i]) <==> S.ValidSimpleStep(calls[i]))
    {
      SameValidity(calls[i]);
    }
    if UniqueIds(direct) {
      forall i, j | 0 <= i < j < |calls|
        ensures calls[i].stepId != calls[j].stepId
      {
        assert direct[i].stepId != direct[j].stepId;
      }
    }
  }

  lemma ExecuteSame(w: World, v: H.SimpleWorld, caller: string, calls: seq<S.SimpleStep>)
    requires InStep(w, v) && H.SimpleInv(v.state, v.history) && HashFree(caller)
    ensures SameStep(w, v, S.Execute(caller, calls))
  {
    hide HashFree, View, Project, OthersSame, Put, ManualNamespace, H.SimpleInv, ReleasePlan, S.RegisterAll, S.StartRelease,
      ManualChain, Callers, ValidStep, S.ValidSimpleStep, UniqueIds, S.UniqueStepIds;
    SamePlans(calls);
    PutCountsOf(w.state, ManualNamespace(caller));
    if i :| 0 <= i < |calls| && !S.ValidSimpleStep(calls[i]) {
      InvalidStops(v.state, caller, calls, i);
    } else if calls != [] && S.UniqueStepIds(calls) {
      ExecuteMirrors(v.state, v.history, caller, calls);
      if S.ExecuteSteps(v.state, caller, calls).Some? {
        var t1 := S.RegisterAll(v.state, caller, calls).value;
        RegisterAllMirrors(v.state, v.history, caller, calls);
        RegisterAllSilent(v.state, caller, calls);
        StartSilent(t1.state, caller, S.StepIds(calls));
        SilentSendsNothing(S.ExecuteSteps(v.state, caller, calls).value.acts);
      }
    }
  }

  lemma TimeoutSame(w: World, v: H.SimpleWorld, y: YieldId)
    requires InStep(w, v)
    ensures SameStep(w, v, S.Timeout(y))
  {
    hide HashFree, View, Project, OthersSame, Put, ManualNamespace, ManualChain, Callers, DirectPhase;
    SameReceipts(w, v, y);
    if y in v.state.chains {
      var chain := v.state.chains[y];
      CallersAt(v.state, y);
      ReceiptView(v.state, y);
      PutCountsOf(w.state, ManualNamespace(chain.caller));
      TimeoutMirrors(v.state, y);
    }
  }

  lemma TimeoutMirrors(t: S.SimpleState, y: YieldId)
    requires y in t.chains
    ensures
      var caller := t.chains[y].caller;
      && y in View(t, caller).chains && View(t, caller).chains[y].phase == DirectPhase(t.chains[y].phase)
      && (DirectPhase(t.chains[y].phase).Yielded? <==> t.chains[y].phase.Waiting?)
      && (t.chains[y].phase.Waiting? ==>
            var t' := t.(chains := t.chains[y := t.chains[y].(phase := S.Expired)]);
            View(t', caller) == TimeOut(View(t, caller), y) && OthersSame(t, t', caller))
  {
    hide Slice, DirectSteps, OthersSame;
    ReceiptView(t, y);
    ChainView(t, y, t.chains[y].(phase := S.Expired));
  }

  lemma ReceiptSame(w: World, v: H.SimpleWorld, y: YieldId, reply: Reply)
    requires InStep(w, v) && H.SimpleInv(v.state, v.history)
    ensures SameStep(w, v, S.Receipt(y, reply))
  {
    hide HashFree, View, Project, OthersSame, Put, ManualNamespace, ManualChain, Callers, DirectPhase, H.Bijection, H.AllCounted,
      H.Recorded, H.Preceded, H.AllInOrder, Deliver, S.Deliver, ReleaseTrigger;
    SameReceipts(w, v, y);
    if y in v.state.chains && !v.state.chains[y].phase.Waiting? {
      CallersAt(v.state, y);
      BijectionKeyed(v.state);
      PutCountsOf(w.state, ManualNamespace(v.state.chains[y].caller));
      TimeoutMirrors(v.state, y);
      DeliverMirrors(v.state, y, reply);
    } else if y in v.state.chains {
      TimeoutMirrors(v.state, y);
    }
  }

  lemma DeliverMirrors(t: S.SimpleState, y: YieldId, reply: Reply)
    requires Keyed(t) && y in t.chains && !t.chains[y].phase.Waiting?
    ensures
      var caller := t.chains[y].caller;
      var o := S.Deliver(t, y, reply);
      && y in View(t, caller).chains && !View(t, caller).chains[y].phase.Yielded?
      && Deliver(View(t, caller), y, reply) == Reaction(View(o.state, caller), CallsOf(o.acts))
      && OthersSame(t, o.state, caller)
      && o.state.nextYield == t.nextYield
  {
    hide View, HashFree, StepKey, OthersSame, OnStepResumed, OnStepResolved, Keyed;
    ReceiptView(t, y);
    if t.chains[y].phase.Calling? {
      ResolvedMirrors(t, y, reply);
      SilentSendsNothing(S.OnStepResolved(t, y, reply).acts);
    } else {
      ResumedMirrors(t, y);
    }
  }

  /** One common event keeps both in step: it is accepted by both or by neither, and
      sends the same calls. */
  lemma StepTogether(w: World, v: H.SimpleWorld, e: S.SimpleEvent)
    requires Sound(w) && H.SimpleInv(v.state, v.history) && InStep(w, v) && Common(e)
    ensures SameStep(w, v, e)
    ensures InStep(Next(w, DirectEvent(e)), H.SimpleNext(v, e))
  {
    hide Sound, H.SimpleInv, InStep, SameStep, Next, H.SimpleNext, HashFree;
    match e {
      case Register(caller, call) => RegisterSame(w, v, caller, call);
      case Execute(caller, calls) => ExecuteSame(w, v, caller, calls);
      case Run(predecessor, caller, order) => RunSame(w, v, predecessor, caller, order);
      case Timeout(y) => TimeoutSame(w, v, y);
      case Receipt(y, reply) => ReceiptSame(w, v, y, reply);
    }
    StillInStep(w, v, e);
  }

  lemma CommonIsAllowed(w: World, e: S.SimpleEvent)
    requires Common(e)
    ensures Allowed(w, DirectEvent(e))
  {
  }

  lemma StillInStep(w: World, v: H.SimpleWorld, e: S.SimpleEvent)
    requires Sound(w) && H.SimpleInv(v.state, v.history) && InStep(w, v) && Common(e) && SameStep(w, v, e)
    ensures InStep(Next(w, DirectEvent(e)), H.SimpleNext(v, e))
  {
    hide Sound, H.SimpleInv, HashFree, View, Project, OthersSame, ManualNamespace, ManualChain, Callers, Apply, S.SimpleApply,
      LocalAfter, Allowed, Touched, DirectEvent, LogsAfter, Common, CallerOf;
    CommonIsAllowed(w, e);
    var w', v' := Next(w, DirectEvent(e)), H.SimpleNext(v, e);
    if S.SimpleApply(v.state, e).Some? {
      CallersKept(v.state, e);
      forall caller | HashFree(caller)
        ensures Project(w'.state, ManualNamespace(caller)) == View(v'.state, caller)
      {
        ViewAfter(w, v, e, caller);
      }
      forall y | y in w'.state.chains
        ensures ManualChain(w'.state.chains[y])
      {
        ManualAfter(w, v, e, y);
      }
    }
  }

  lemma ViewAfter(w: World, v: H.SimpleWorld, e: S.SimpleEvent, caller: string)
    requires Sound(w) && InStep(w, v) && Common(e) && SameStep(w, v, e) && S.SimpleApply(v.state, e).Some? && HashFree(caller)
    ensures Project(Next(w, DirectEvent(e)).state, ManualNamespace(caller)) == View(S.SimpleApply(v.state, e).value.state, caller)
  {
    hide Sound, HashFree, View, Project, ManualNamespace, ManualChain, Callers, Apply, S.SimpleApply, LocalAfter, Allowed,
      Touched, Common, CallerOf, Next;
    CommonIsAllowed(w, e);
    ManualName(caller);
    var own := CallerOf(v.state, e).value;
    NextProjects(w, DirectEvent(e), ManualNamespace(caller));
    if caller != own {
      ManualDiffers(caller, own);
      assert !DirectEvent(e).PruneFinishedRuns?;
    }
  }

  lemma ManualDiffers(a: string, b: string)
    requires a != b
    ensures ManualNamespace(a) != ManualNamespace(b)
  {
    assert ManualNamespace(a)[7..] == a && ManualNamespace(b)[7..] == b;
  }

  lemma ManualAfter(w: World, v: H.SimpleWorld, e: S.SimpleEvent, y: YieldId)
    requires Sound(w) && InStep(w, v) && Common(e) && SameStep(w, v, e) && S.SimpleApply(v.state, e).Some?
    requires y in Next(w, DirectEvent(e)).state.chains
    ensures ManualChain(Next(w, DirectEvent(e)).state.chains[y])
  {
    hide Invariant, FreshNamespaces, HashFree, View, Project, ManualNamespace, Callers, Apply, S.SimpleApply, LocalAfter, Allowed,
      Touched, Common, CallerOf, Next, DirectEvent;
    CommonIsAllowed(w, e);
    NextOrigins(w, DirectEvent(e), y);
    if y in w.state.chains && w.state.chains[y].ns == Next(w, DirectEvent(e)).state.chains[y].ns {
      assert ManualChain(w.state.chains[y]);
    }
  }

  lemma CallersKept(t: S.SimpleState, e: S.SimpleEvent)
    requires Callers(t) && Common(e) && S.SimpleApply(t, e).Some?
    ensures Callers(S.SimpleApply(t, e).value.state)
  {
    hide HashFree, StepKey, S.RegisterAll;
    match e
    case Execute(caller, calls) => RegisterAllCallers(t, caller, calls);
    case _ =>
  }

  lemma {:induction false} RegisterAllCallers(t: S.SimpleState, caller: string, calls: seq<S.SimpleStep>)
    requires Callers(t) && HashFree(caller) && S.RegisterAll(t, caller, calls).Some?
    ensures Callers(S.RegisterAll(t, caller, calls).value.state)
    decreases |calls|
  {
    if calls != [] {
      RegisterCallers(t, caller, calls[0]);
      RegisterAllCallers(S.RegisterStep(t, caller, calls[0]).value.state, caller, calls[1..]);
    }
  }

  /** The same schedule, run on both from the start. */
  ghost predicate TwinSchedule(worlds: seq<World>, twins: seq<H.SimpleWorld>, events: seq<S.SimpleEvent>) {
    && |worlds| == |twins| == |events| + 1 && worlds[0] == Initial && twins[0] == H.SimpleInitial
    && forall i | 0 <= i < |events| ::
         && Common(events[i])
         && worlds[i + 1] == Next(worlds[i], DirectEvent(events[i]))
         && twins[i + 1] == H.SimpleNext(twins[i], events[i])
  }

  /** After every common sequence of calls, timeouts and receipts the two contracts
      hold, for every caller, the same registered steps, the same queue and the same
      receipts; and each event is accepted by both or neither and sends the same calls. */
  lemma {:induction false} LockStepForever(worlds: seq<World>, twins: seq<H.SimpleWorld>, events: seq<S.SimpleEvent>, i: nat)
    requires TwinSchedule(worlds, twins, events) && i <= |events|
    ensures InStep(worlds[i], twins[i])
    ensures i < |events| ==> SameStep(worlds[i], twins[i], events[i])
    ensures Sound(worlds[i]) && H.SimpleInv(twins[i].state, twins[i].history)
  {
    hide Sound, H.SimpleInv, InStep, SameStep, Next, H.SimpleNext, Common, DirectEvent, Allowed;
    if i == 0 {
      InitiallyInStep();
    } else {
      LockStepForever(worlds, twins, events, i - 1);
      var e := events[i - 1];
      StepTogether(worlds[i - 1], twins[i - 1], e);
      CommonIsAllowed(worlds[i - 1], e);
      SoundStep(worlds[i - 1], DirectEvent(e));
      H.SimpleNextKeeps(twins[i - 1], e);
    }
    if i < |events| {
      StepTogether(worlds[i], twins[i], events[i]);
    }
  }

  lemma InitiallyInStep()
    ensures InStep(Initial, H.SimpleInitial) && Sound(Initial) && H.SimpleInv(H.SimpleInitial.state, [])
  {
    hide Invariant;
    InitialInvariant();
    forall caller | HashFree(caller)
      ensures Project(Initial.state, ManualNamespace(caller)) == View(H.SimpleInitial.state, caller)
    {
      InitialProjects(ManualNamespace(caller));
      assert Slice<S.SimpleRegistered>(map[], caller) == map[];
    }
  }

  /** In the contracts' own maps: a step is registered in one exactly if it is in the
      other, under the same yield and with the same call, and the queues agree. */
  lemma SameMaps(w: World, v: H.SimpleWorld, caller: string, id: string)
    requires InStep(w, v) && HashFree(caller)
    ensures
      var key, twin := StepKey(ManualNamespace(caller), id), StepKey(caller, id);
      && (key in w.state.steps <==> twin in v.state.steps)
      && (key in w.state.steps ==> w.state.steps[key] == DirectStep(v.state.steps[twin]))
    ensures Get(w.state.queues, ManualNamespace(caller)) == Get(v.state.queue, caller)
  {
    hide Slice, StepKey, HashFree, ManualNamespace;
    assert Project(w.state, ManualNamespace(caller)) == View(v.state, caller);
    SliceAt(w.state.steps, ManualNamespace(caller), id);
    StepsAt(v.state, caller, id);
  }
}

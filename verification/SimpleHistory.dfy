/** What every run of the small sequencer keeps: registered steps and outstanding
    receipts correspond one to one, every registration is called at most once and
    only after a release, and releases follow the order a run declared. */
module SimpleHistory {
  import opened Prelude
  import opened Types
  import opened NamespaceKeys
  import opened SimpleSemantics

  // --- The bijection ---

  function KeyOf(chain: SimpleChain): string {
    StepKey(chain.caller, chain.stepId)
  }

  /** Each registered key has exactly its own receipt outstanding, and each
      outstanding receipt belongs to the registration of its own key. */
  ghost predicate Bijection(s: SimpleState) {
    && (forall key | key in s.steps :: s.steps[key].yieldId in s.chains && KeyOf(s.chains[s.steps[key].yieldId]) == key)
    && (forall y | y in s.chains ::
          && y < s.nextYield && KeyOf(s.chains[y]) in s.steps && s.steps[KeyOf(s.chains[y])].yieldId == y
          && (s.chains[y].phase.Calling? ==> s.chains[y].phase.call == s.steps[KeyOf(s.chains[y])].call))
  }

  // --- Counting acts ---

  datatype Kind = Registration | Release | Call

  predicate Matches(a: Act, kind: Kind, y: YieldId) {
    match a
    case Registered(y', _) => kind == Registration && y' == y
    case Released(_, y', _) => kind == Release && y' == y
    case Called(y', _) => kind == Call && y' == y
    case Started(_, _) => false
  }

  function Count(h: seq<Act>, kind: Kind, y: YieldId): nat {
    if h == [] then 0
    else Count(h[..|h| - 1], kind, y) + (if Matches(h[|h| - 1], kind, y) then 1 else 0)
  }

  lemma CountSnoc(h: seq<Act>, a: Act, kind: Kind, y: YieldId)
    ensures Count(h + [a], kind, y) == Count(h, kind, y) + (if Matches(a, kind, y) then 1 else 0)
  {
    assert (h + [a])[..|h|] == h;
  }

  lemma {:induction false} CountWitness(h: seq<Act>, kind: Kind, y: YieldId)
    requires Count(h, kind, y) > 0
    ensures exists i :: 0 <= i < |h| && Matches(h[i], kind, y)
  {
    var last := |h| - 1;
    if !Matches(h[last], kind, y) {
      CountWitness(h[..last], kind, y);
      var i :| 0 <= i < last && Matches(h[..last][i], kind, y);
      assert Matches(h[i], kind, y);
    }
  }

  /** How often a receipt chain has been released and called, by where it stands. */
  ghost predicate Counted(s: SimpleState, h: seq<Act>, y: YieldId) {
    var registrations, releases, calls := Count(h, Registration, y), Count(h, Release, y), Count(h, Call, y);
    && registrations == (if y < s.nextYield then 1 else 0)
    && calls <= releases <= registrations
    && (y in s.chains ==>
          && releases == (if s.chains[y].phase.Waiting? || s.chains[y].phase.Expired? then 0 else 1)
          && calls == (if s.chains[y].phase.Calling? then 1 else 0))
  }

  ghost predicate AllCounted(s: SimpleState, h: seq<Act>) {
    forall y: YieldId :: Counted(s, h, y)
  }

  /** Every call was registered with exactly this content and released before. */
  ghost predicate Preceded(h: seq<Act>) {
    forall i | 0 <= i < |h| && h[i].Called? ::
      && Registered(h[i].y, h[i].call) in h[..i]
      && exists j :: 0 <= j < i && Matches(h[j], Release, h[i].y)
  }

  ghost predicate Recorded(s: SimpleState, h: seq<Act>) {
    forall key | key in s.steps :: Registered(s.steps[key].yieldId, s.steps[key].call) in h
  }

  // --- Runs ---

  datatype RunSoFar = RunSoFar(order: seq<string>, released: seq<string>)

  /** The latest run a caller started, with the step ids released for the caller since. */
  function LatestRun(h: seq<Act>, caller: string): Option<RunSoFar> {
    if h == [] then None
    else
      var before := LatestRun(h[..|h| - 1], caller);
      match h[|h| - 1]
      case Started(c, order) => if c == caller then Some(RunSoFar(order, [])) else before
      case Released(c, _, id) =>
        if c == caller && before.Some? then Some(RunSoFar(before.value.order, before.value.released + [id])) else before
      case _ => before
  }

  lemma LatestRunSnoc(h: seq<Act>, a: Act, caller: string)
    ensures
      var before := LatestRun(h, caller);
      LatestRun(h + [a], caller) ==
      match a
      case Started(c, order) => if c == caller then Some(RunSoFar(order, [])) else before
      case Released(c, _, id) =>
        if c == caller && before.Some? then Some(RunSoFar(before.value.order, before.value.released + [id])) else before
      case _ => before
  {
    assert (h + [a])[..|h|] == h;
  }

  /** What was released is a prefix of what was declared; the queue is exactly the rest. */
  ghost predicate InOrder(s: SimpleState, h: seq<Act>, caller: string) {
    match LatestRun(h, caller)
    case None => caller !in s.queue
    case Some(run) =>
      && run.released <= run.order
      && (caller in s.queue ==> s.queue[caller] != [] && run.released + s.queue[caller] == run.order)
  }

  ghost predicate AllInOrder(s: SimpleState, h: seq<Act>) {
    forall caller :: InOrder(s, h, caller)
  }

  ghost predicate SimpleInv(s: SimpleState, h: seq<Act>) {
    Bijection(s) && AllCounted(s, h) && Recorded(s, h) && Preceded(h) && AllInOrder(s, h)
  }

  // --- One act at a time ---

  lemma PrecededQuiet(h: seq<Act>, a: Act)
    requires Preceded(h) && !a.Called?
    ensures Preceded(h + [a])
  {
    var h' := h + [a];
    forall i | 0 <= i < |h'| && h'[i].Called?
      ensures Registered(h'[i].y, h'[i].call) in h'[..i] && exists j :: 0 <= j < i && Matches(h'[j], Release, h'[i].y)
    {
      assert h'[..i] == h[..i] && h'[i] == h[i];
      var j :| 0 <= j < i && Matches(h[j], Release, h[i].y);
      assert Matches(h'[j], Release, h'[i].y);
    }
  }

  lemma PrecededCall(h: seq<Act>, y: YieldId, call: SimpleStep)
    requires Preceded(h) && Registered(y, call) in h && Count(h, Release, y) > 0
    ensures Preceded(h + [Called(y, call)])
  {
    var h' := h + [Called(y, call)];
    CountWitness(h, Release, y);
    forall i | 0 <= i < |h'| && h'[i].Called?
      ensures Registered(h'[i].y, h'[i].call) in h'[..i] && exists j :: 0 <= j < i && Matches(h'[j], Release, h'[i].y)
    {
      assert h'[..i] == h[..i];
      if i == |h| {
        assert h[..|h|] == h;
        var j :| 0 <= j < |h| && Matches(h[j], Release, y);
        assert Matches(h'[j], Release, h'[i].y);
      } else {
        assert h'[i] == h[i];
        var j :| 0 <= j < i && Matches(h[j], Release, h[i].y);
        assert Matches(h'[j], Release, h'[i].y);
      }
    }
  }

  // --- Registration ---

  lemma RegisterKeeps(s: SimpleState, h: seq<Act>, caller: string, call: SimpleStep)
    requires SimpleInv(s, h) && RegisterStep(s, caller, call).Some?
    ensures var o := RegisterStep(s, caller, call).value; SimpleInv(o.state, h + o.acts)
  {
    hide Preceded, InOrder, Counted, StepKey;
    var o := RegisterStep(s, caller, call).value;
    var a := Registered(s.nextYield, call);
    PrecededQuiet(h, a);
    forall y: YieldId
      ensures Counted(o.state, h + [a], y)
    {
      RegisterCounts(s, h, caller, call, y);
    }
    forall c
      ensures InOrder(o.state, h + [a], c)
    {
      SameOrder(s, o.state, h, a, c);
    }
  }

  lemma RegisterCounts(s: SimpleState, h: seq<Act>, caller: string, call: SimpleStep, y: YieldId)
    requires RegisterStep(s, caller, call).Some? && Bijection(s) && Counted(s, h, y)
    ensures Counted(RegisterStep(s, caller, call).value.state, h + [Registered(s.nextYield, call)], y)
  {
    hide Count;
    CountSnoc(h, Registered(s.nextYield, call), Registration, y);
    CountSnoc(h, Registered(s.nextYield, call), Release, y);
    CountSnoc(h, Registered(s.nextYield, call), Call, y);
  }

  /** An act that is no start and no release leaves the runs alone. */
  lemma SameOrder(s: SimpleState, s': SimpleState, h: seq<Act>, a: Act, caller: string)
    requires InOrder(s, h, caller) && (a.Registered? || a.Called?) && (caller in s'.queue ==> caller in s.queue)
    requires caller in s'.queue ==> s'.queue[caller] == s.queue[caller]
    ensures InOrder(s', h + [a], caller)
  {
    LatestRunSnoc(h, a, caller);
  }

  lemma {:induction false} RegisterAllKeeps(s: SimpleState, h: seq<Act>, caller: string, calls: seq<SimpleStep>)
    requires SimpleInv(s, h) && RegisterAll(s, caller, calls).Some?
    ensures var o := RegisterAll(s, caller, calls).value; SimpleInv(o.state, h + o.acts)
    decreases |calls|
  {
    hide SimpleInv, RegisterStep;
    if calls == [] {
      assert h + [] == h;
    } else {
      var first := RegisterStep(s, caller, calls[0]).value;
      RegisterKeeps(s, h, caller, calls[0]);
      RegisterAllKeeps(first.state, h + first.acts, caller, calls[1..]);
      var rest := RegisterAll(first.state, caller, calls[1..]).value;
      assert h + (first.acts + rest.acts) == (h + first.acts) + rest.acts;
    }
  }

  // --- Release ---

  /** Waking a waiting step, whatever happens to the queues. */
  lemma WakeKeeps(s: SimpleState, h: seq<Act>, caller: string, stepId: string, queue: map<string, seq<string>>)
    requires Bijection(s) && AllCounted(s, h) && Recorded(s, h) && Preceded(h)
    requires ResumeStep(s.(queue := queue), caller, stepId).Some?
    ensures
      var o := ResumeStep(s.(queue := queue), caller, stepId).value;
      && Bijection(o.state) && AllCounted(o.state, h + o.acts) && Recorded(o.state, h + o.acts) && Preceded(h + o.acts)
      && o.state.queue == queue
  {
    hide Preceded, Counted, StepKey;
    var o := ResumeStep(s.(queue := queue), caller, stepId).value;
    PrecededQuiet(h, o.acts[0]);
    forall y: YieldId
      ensures Counted(o.state, h + o.acts, y)
    {
      WakeCounts(s, h, caller, stepId, queue, y);
    }
  }

  lemma WakeCounts(s: SimpleState, h: seq<Act>, caller: string, stepId: string, queue: map<string, seq<string>>, y: YieldId)
    requires ResumeStep(s.(queue := queue), caller, stepId).Some? && Bijection(s) && Counted(s, h, y)
    ensures var o := ResumeStep(s.(queue := queue), caller, stepId).value; Counted(o.state, h + o.acts, y)
  {
    hide Count;
    var a := ResumeStep(s.(queue := queue), caller, stepId).value.acts[0];
    CountSnoc(h, a, Registration, y);
    CountSnoc(h, a, Release, y);
    CountSnoc(h, a, Call, y);
  }

  lemma StartedKeeps(s: SimpleState, h: seq<Act>, a: Act)
    requires AllCounted(s, h) && Recorded(s, h) && Preceded(h) && a.Started?
    ensures AllCounted(s, h + [a]) && Recorded(s, h + [a]) && Preceded(h + [a])
  {
    hide Preceded, Count;
    PrecededQuiet(h, a);
    forall y: YieldId
      ensures Counted(s, h + [a], y)
    {
      CountSnoc(h, a, Registration, y);
      CountSnoc(h, a, Release, y);
      CountSnoc(h, a, Call, y);
      assert Counted(s, h, y);
    }
  }

  lemma StartKeeps(s: SimpleState, h: seq<Act>, caller: string, order: seq<string>)
    requires SimpleInv(s, h) && StartRelease(s, caller, order).Some?
    ensures var o := StartRelease(s, caller, order).value; SimpleInv(o.state, h + o.acts)
  {
    hide Bijection, AllCounted, Recorded, Preceded, ResumeStep, InOrder;
    var queue := if |order| > 1 then s.queue[caller := order[1..]] else s.queue;
    var a := Started(caller, order);
    var o := ResumeStep(s.(queue := queue), caller, order[0]).value;
    ResumeActs(s.(queue := queue), caller, order[0]);
    StartedKeeps(s, h, a);
    WakeKeeps(s, h + [a], caller, order[0], queue);
    assert h + ([a] + o.acts) == (h + [a]) + o.acts;
    forall c
      ensures InOrder(o.state, (h + [a]) + o.acts, c)
    {
      StartOrder(s, o.state, h, caller, order, o.acts[0].y, c);
    }
  }

  lemma ResumeActs(s: SimpleState, caller: string, stepId: string)
    requires ResumeStep(s, caller, stepId).Some?
    ensures
      var o := ResumeStep(s, caller, stepId).value;
      |o.acts| == 1 && o.acts[0].Released? && o.acts == [Released(caller, o.acts[0].y, stepId)] && o.state.queue == s.queue
  {
  }

  lemma StartOrder(s: SimpleState, s': SimpleState, h: seq<Act>, caller: string, order: seq<string>, y: YieldId, c: string)
    requires InOrder(s, h, c) && order != [] && caller !in s.queue
    requires s'.queue == if |order| > 1 then s.queue[caller := order[1..]] else s.queue
    ensures InOrder(s', h + [Started(caller, order)] + [Released(caller, y, order[0])], c)
  {
    LatestRunSnoc(h, Started(caller, order), c);
    LatestRunSnoc(h + [Started(caller, order)], Released(caller, y, order[0]), c);
    assert [order[0]] + order[1..] == order;
    assert [] + [order[0]] == [order[0]];
  }

  // --- Receipts ---

  /** A step and its receipt leave together. */
  lemma RemoveKeeps(s: SimpleState, h: seq<Act>, y: YieldId, queue: map<string, seq<string>>)
    requires Bijection(s) && AllCounted(s, h) && Recorded(s, h) && y in s.chains
    ensures
      var s' := DropChain(s, y).(steps := s.steps - {KeyOf(s.chains[y])}, queue := queue);
      Bijection(s') && AllCounted(s', h) && Recorded(s', h)
  {
    hide Count, StepKey;
    var s' := DropChain(s, y).(steps := s.steps - {KeyOf(s.chains[y])}, queue := queue);
    forall z: YieldId
      ensures Counted(s', h, z)
    {
      assert Counted(s, h, z);
    }
  }

  lemma ClearedOrder(s: SimpleState, s': SimpleState, h: seq<Act>, caller: string)
    requires AllInOrder(s, h) && s'.queue == s.queue - {caller}
    ensures AllInOrder(s', h)
  {
    hide LatestRun;
    forall c
      ensures InOrder(s', h, c)
    {
      assert InOrder(s, h, c);
    }
  }

  /** A woken or expired receipt always finds its step still registered. */
  lemma WokenIsYielded(s: SimpleState, y: YieldId)
    requires Bijection(s) && y in s.chains
    ensures KeyOf(s.chains[y]) in s.steps
  {
  }

  lemma ResumedKeeps(s: SimpleState, h: seq<Act>, y: YieldId)
    requires SimpleInv(s, h) && y in s.chains && (s.chains[y].phase.Woken? || s.chains[y].phase.Expired?)
    ensures var o := OnStepResumed(s, y); SimpleInv(o.state, h + o.acts)
  {
    hide Preceded, AllCounted, Recorded, InOrder, StepKey;
    var chain := s.chains[y];
    WokenIsYielded(s, y);
    if chain.phase.Expired? {
      assert h + [] == h;
      RemoveKeeps(s, h, y, s.queue - {chain.caller});
      ClearedOrder(s, OnStepResumed(s, y).state, h, chain.caller);
    } else {
      var call := s.steps[KeyOf(chain)].call;
      CallKeeps(s, h, y, call);
      forall c
        ensures InOrder(OnStepResumed(s, y).state, h + [Called(y, call)], c)
      {
        SameOrder(s, OnStepResumed(s, y).state, h, Called(y, call), c);
      }
    }
  }

  lemma CallKeeps(s: SimpleState, h: seq<Act>, y: YieldId, call: SimpleStep)
    requires Bijection(s) && AllCounted(s, h) && Recorded(s, h) && Preceded(h)
    requires y in s.chains && s.chains[y].phase.Woken? && call == s.steps[KeyOf(s.chains[y])].call
    ensures
      var s' := s.(chains := s.chains[y := s.chains[y].(phase := Calling(call))]);
      var h' := h + [Called(y, call)];
      Bijection(s') && AllCounted(s', h') && Recorded(s', h') && Preceded(h')
  {
    hide Preceded, Count, StepKey;
    var s' := s.(chains := s.chains[y := s.chains[y].(phase := Calling(call))]);
    assert Counted(s, h, y);
    PrecededCall(h, y, call);
    forall z: YieldId
      ensures Counted(s', h + [Called(y, call)], z)
    {
      CountSnoc(h, Called(y, call), Registration, z);
      CountSnoc(h, Called(y, call), Release, z);
      CountSnoc(h, Called(y, call), Call, z);
      assert Counted(s, h, z);
    }
  }

  lemma ResolvedKeeps(s: SimpleState, h: seq<Act>, y: YieldId, reply: Reply)
    requires SimpleInv(s, h) && y in s.chains && s.chains[y].phase.Calling?
    ensures var o := OnStepResolved(s, y, reply); SimpleInv(o.state, h + o.acts)
  {
    hide Bijection, Preceded, AllCounted, Recorded, AllInOrder, StepKey, Progress;
    var caller := s.chains[y].caller;
    var s1 := DropChain(s, y).(steps := s.steps - {KeyOf(s.chains[y])});
    assert h + [] == h;
    RemoveKeeps(s, h, y, s.queue - {caller});
    RemoveKeeps(s, h, y, s.queue);
    if CheckedReply(reply).Some? {
      SameQueue(s, s1, h);
      ProgressKeeps(s1, h, caller);
    } else {
      ClearedOrder(s, s1.(queue := s1.queue - {caller}), h, caller);
    }
  }

  lemma SameQueue(s: SimpleState, s': SimpleState, h: seq<Act>)
    requires AllInOrder(s, h) && s'.queue == s.queue
    ensures AllInOrder(s', h)
  {
    hide LatestRun;
    forall c
      ensures InOrder(s', h, c)
    {
      assert InOrder(s, h, c);
    }
  }

  /** The invariant looks at queues only through the runs. */
  lemma QueueFree(s: SimpleState, h: seq<Act>, queue: map<string, seq<string>>)
    requires Bijection(s) && AllCounted(s, h) && Recorded(s, h)
    ensures var s' := s.(queue := queue); Bijection(s') && AllCounted(s', h) && Recorded(s', h)
  {
    hide Count, StepKey;
    forall y: YieldId
      ensures Counted(s.(queue := queue), h, y)
    {
      assert Counted(s, h, y);
    }
  }

  lemma ProgressKeeps(s: SimpleState, h: seq<Act>, caller: string)
    requires SimpleInv(s, h)
    ensures var o := Progress(s, caller); SimpleInv(o.state, h + o.acts)
  {
    hide Bijection, Preceded, AllCounted, Recorded, AllInOrder, ResumeStep;
    var (s1, next) := TakeNextQueued(s, caller);
    assert h + [] == h;
    QueueFree(s, h, s1.queue);
    QueueFree(s, h, s.queue - {caller});
    ClearedOrder(s, s.(queue := s.queue - {caller}), h, caller);
    if next.Some? {
      assert s1 == s.(queue := s1.queue);
      if ResumeStep(s1, caller, next.value).Some? {
        ResumeActs(s1, caller, next.value);
        WakeKeeps(s, h, caller, next.value, s1.queue);
        NextOrder(s, s1, ResumeStep(s1, caller, next.value).value.state, h, caller, next.value,
                  ResumeStep(s1, caller, next.value).value.acts[0].y);
      } else {
        assert s1.(queue := s1.queue - {caller}) == s.(queue := s.queue - {caller});
      }
    } else {
      assert s1 == s.(queue := s.queue - {caller});
    }
  }

  /** The next queued step is the next declared one. */
  lemma NextOrder(s: SimpleState, s1: SimpleState, s': SimpleState, h: seq<Act>, caller: string, next: string, y: YieldId)
    requires AllInOrder(s, h) && TakeNextQueued(s, caller) == (s1, Some(next)) && s'.queue == s1.queue
    ensures AllInOrder(s', h + [Released(caller, y, next)])
  {
    hide LatestRun;
    forall c
      ensures InOrder(s', h + [Released(caller, y, next)], c)
    {
      LatestRunSnoc(h, Released(caller, y, next), c);
      assert InOrder(s, h, c);
      if c == caller {
        var run := LatestRun(h, caller).value;
        assert s.queue[caller] == [next] + s.queue[caller][1..];
        assert run.released + s.queue[caller] == (run.released + [next]) + s.queue[caller][1..];
        if |s.queue[caller]| == 1 {
          assert (run.released + [next]) + s.queue[caller][1..] == run.released + [next];
        }
      }
    }
  }

  lemma TimeoutKeeps(s: SimpleState, h: seq<Act>, y: YieldId)
    requires SimpleInv(s, h) && y in s.chains && s.chains[y].phase.Waiting?
    ensures SimpleInv(s.(chains := s.chains[y := s.chains[y].(phase := Expired)]), h)
  {
    hide Preceded, Count, StepKey, LatestRun;
    var s' := s.(chains := s.chains[y := s.chains[y].(phase := Expired)]);
    forall z: YieldId
      ensures Counted(s', h, z)
    {
      assert Counted(s, h, z);
    }
    SameQueue(s, s', h);
  }

  lemma ExecuteKeeps(s: SimpleState, h: seq<Act>, caller: string, calls: seq<SimpleStep>)
    requires SimpleInv(s, h) && ExecuteSteps(s, caller, calls).Some?
    ensures var o := ExecuteSteps(s, caller, calls).value; SimpleInv(o.state, h + o.acts)
  {
    hide SimpleInv, RegisterAll, StartRelease;
    var registered := RegisterAll(s, caller, calls).value;
    RegisterAllKeeps(s, h, caller, calls);
    StartKeeps(registered.state, h + registered.acts, caller, StepIds(calls));
    var started := StartRelease(registered.state, caller, StepIds(calls)).value;
    assert h + (registered.acts + started.acts) == (h + registered.acts) + started.acts;
  }

  // --- Schedules ---

  datatype SimpleWorld = SimpleWorld(state: SimpleState, history: seq<Act>)

  const SimpleInitial: SimpleWorld := SimpleWorld(SimpleState(map[], map[], map[], 0), [])

  function SimpleNext(w: SimpleWorld, e: SimpleEvent): SimpleWorld {
    match SimpleApply(w.state, e)
    case None => w
    case Some(o) => SimpleWorld(o.state, w.history + o.acts)
  }

  ghost predicate SimpleSchedule(worlds: seq<SimpleWorld>, events: seq<SimpleEvent>) {
    && |worlds| == |events| + 1 && worlds[0] == SimpleInitial
    && forall i | 0 <= i < |events| :: worlds[i + 1] == SimpleNext(worlds[i], events[i])
  }

  lemma SimpleNextKeeps(w: SimpleWorld, e: SimpleEvent)
    requires SimpleInv(w.state, w.history)
    ensures SimpleInv(SimpleNext(w, e).state, SimpleNext(w, e).history)
  {
    hide SimpleInv, RegisterStep, ExecuteSteps, StartRelease, OnStepResumed, OnStepResolved;
    var s, h := w.state, w.history;
    assert h + [] == h;
    if SimpleApply(s, e).Some? {
      match e
      case Register(caller, call) => RegisterKeeps(s, h, caller, call);
      case Execute(caller, calls) => ExecuteKeeps(s, h, caller, calls);
      case Run(_, caller, order) => StartKeeps(s, h, caller, order);
      case Timeout(y) => TimeoutKeeps(s, h, y);
      case Receipt(y, reply) =>
        if s.chains[y].phase.Calling? {
          ResolvedKeeps(s, h, y, reply);
        } else {
          ResumedKeeps(s, h, y);
        }
    }
  }

  lemma {:induction false} SimpleReachable(worlds: seq<SimpleWorld>, events: seq<SimpleEvent>, i: nat)
    requires SimpleSchedule(worlds, events) && i < |worlds|
    ensures SimpleInv(worlds[i].state, worlds[i].history)
  {
    hide SimpleNext;
    if i > 0 {
      hide SimpleInv;
      SimpleReachable(worlds, events, i - 1);
      SimpleNextKeeps(worlds[i - 1], events[i - 1]);
    }
  }

  // --- The results ---

  /** At every moment of every schedule, overlapping runs and timeouts included, the
      registered keys and the outstanding receipts correspond one to one, so a
      callback never finds its step gone. */
  lemma YieldBijection(worlds: seq<SimpleWorld>, events: seq<SimpleEvent>, i: nat)
    requires SimpleSchedule(worlds, events) && i < |worlds|
    ensures
      var s := worlds[i].state;
      && (forall key | key in s.steps :: s.steps[key].yieldId in s.chains && KeyOf(s.chains[s.steps[key].yieldId]) == key)
      && (forall y | y in s.chains :: KeyOf(s.chains[y]) in s.steps && s.steps[KeyOf(s.chains[y])].yieldId == y)
      && |s.steps| == |s.chains|
  {
    hide StepKey;
    SimpleReachable(worlds, events, i);
    var s := worlds[i].state;
    var f := map key | key in s.steps :: s.steps[key].yieldId;
    forall y | y in s.chains.Keys
      ensures exists key :: key in f && f[key] == y
    {
      assert KeyOf(s.chains[y]) in f;
    }
    SameSize(f, s.chains.Keys);
    assert f.Keys == s.steps.Keys;
  }

  lemma {:induction false} SameSize(f: map<string, YieldId>, ids: set<YieldId>)
    requires forall key | key in f :: f[key] in ids
    requires forall key, key' | key in f && key' in f && f[key] == f[key'] :: key == key'
    requires forall y | y in ids :: exists key :: key in f && f[key] == y
    ensures |f| == |ids|
    decreases |f|
  {
    if f == map[] {
      assert ids == {};
    } else {
      var key :| key in f;
      var rest := f - {key};
      assert f == rest[key := f[key]];
      SameSize(rest, ids - {f[key]});
    }
  }

  /** Every registration is called at most once, with the very call registered, and
      only after it was released; it is released at most once. */
  lemma CalledAtMostOnce(worlds: seq<SimpleWorld>, events: seq<SimpleEvent>, i: nat, y: YieldId)
    requires SimpleSchedule(worlds, events) && i < |worlds|
    ensures
      var h := worlds[i].history;
      && Count(h, Call, y) <= Count(h, Release, y) <= Count(h, Registration, y) <= 1
      && Preceded(h)
  {
    hide Count;
    SimpleReachable(worlds, events, i);
    assert Counted(worlds[i].state, worlds[i].history, y);
  }

  /** The steps released since a caller started a run are a prefix of the order it
      declared, and what is still queued is exactly the rest. */
  lemma ReleasesFollowOrder(worlds: seq<SimpleWorld>, events: seq<SimpleEvent>, i: nat, caller: string)
    requires SimpleSchedule(worlds, events) && i < |worlds| && LatestRun(worlds[i].history, caller).Some?
    ensures
      var run := LatestRun(worlds[i].history, caller).value;
      && run.released <= run.order
      && (caller in worlds[i].state.queue ==> run.released + worlds[i].state.queue[caller] == run.order)
  {
    hide LatestRun;
    SimpleReachable(worlds, events, i);
    assert InOrder(worlds[i].state, worlds[i].history, caller);
  }
}

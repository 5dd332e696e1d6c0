/** The invariant of one automation run: what its namespace looks like in every
    reachable state, and how far it has followed the sequential interpreter. */
module RunInvariant {
  import opened Prelude
  import opened Types
  import opened Materialize
  import opened Sequencer
  import opened Interpreter

  // History of the run fired last in a namespace: its plan, the yield id of its
  // first step, every call it sent, every reply it was given, and the result bytes
  // of every step that passed, in order.
  datatype Log = Log(plan: seq<Step>, base: YieldId, requests: seq<Request>, replies: seq<Reply>,
                     results: seq<Bytes>, timedOut: bool, funded: nat)

  // --- Where the interpreter stands inside a plan ---

  datatype Cursor = Starting | AtGate | Calling | AtTarget(call: Step) | AtCheck(expectedReturn: Bytes)
                  | Settling(outcome: Reply) | Done(ending: Ending)

  function CursorOf(phase: Phase): Cursor {
    match phase
    case Gating => AtGate
    case Dispatched(call) => AtTarget(call)
    case Postchecking(expectedReturn) => AtCheck(expectedReturn)
    case Resolving(outcome) => Settling(outcome)
    case _ => Starting
  }

  predicate Fits(c: Cursor, plan: seq<Step>) {
    match c
    case Starting => true
    case Done(_) => true
    case AtGate => plan != [] && plan[0].preGate.Some?
    case _ => plan != []
  }

  /** What the interpreter still does from a cursor, given the replies to come. */
  function Rest(c: Cursor, plan: seq<Step>, saved: map<string, Bytes>, replies: seq<Reply>): Trace
    requires Fits(c, plan)
  {
    match c
    case Starting => Interpret(plan, saved, replies)
    case AtGate => AwaitGate(plan, saved, replies)
    case Calling => CallTarget(plan, saved, replies)
    case AtTarget(call) => AwaitTarget(plan, saved, call, replies)
    case AtCheck(expectedReturn) => AwaitCheck(plan, saved, expectedReturn, replies)
    case Settling(outcome) => Settle(plan, saved, outcome, replies)
    case Done(ending) => Trace([], ending)
  }

  /** The run has done exactly what the interpreter does up to the cursor. */
  ghost predicate Follows(log: Log, c: Cursor, plan: seq<Step>, saved: map<string, Bytes>) {
    Fits(c, plan) &&
    forall more: seq<Reply> ::
      Interpret(log.plan, map[], log.replies + more) == After(log.requests, Rest(c, plan, saved, more))
  }

  /** Whatever replies still come, the calls made so far are calls of the interpreter. */
  ghost predicate Prefix(log: Log) {
    forall more: seq<Reply> :: log.requests <= Interpret(log.plan, map[], log.replies + more).requests
  }

  lemma FollowsIsPrefix(log: Log, c: Cursor, plan: seq<Step>, saved: map<string, Bytes>)
    requires Follows(log, c, plan, saved)
    ensures Prefix(log)
  {
  }

  /** The interpreter moves on by itself, sending calls. */
  lemma FollowsSend(log: Log, c: Cursor, plan: seq<Step>, saved: map<string, Bytes>, sent: seq<Request>,
                    c': Cursor, plan': seq<Step>, saved': map<string, Bytes>)
    requires Follows(log, c, plan, saved) && Fits(c', plan')
    requires forall more: seq<Reply> :: Rest(c, plan, saved, more) == After(sent, Rest(c', plan', saved', more))
    ensures Follows(log.(requests := log.requests + sent), c', plan', saved')
  {
    forall more: seq<Reply>
      ensures Interpret(log.plan, map[], log.replies + more)
              == After(log.requests + sent, Rest(c', plan', saved', more))
    {
      assert Rest(c, plan, saved, more) == After(sent, Rest(c', plan', saved', more));
      assert log.requests + (sent + Rest(c', plan', saved', more).requests)
          == (log.requests + sent) + Rest(c', plan', saved', more).requests;
    }
  }

  /** The interpreter consumes one reply. */
  lemma FollowsReply(log: Log, c: Cursor, plan: seq<Step>, saved: map<string, Bytes>, reply: Reply, sent: seq<Request>,
                     c': Cursor, plan': seq<Step>, saved': map<string, Bytes>)
    requires Follows(log, c, plan, saved) && Fits(c', plan')
    requires forall more: seq<Reply> ::
               Rest(c, plan, saved, [reply] + more) == After(sent, Rest(c', plan', saved', more))
    ensures Follows(log.(requests := log.requests + sent, replies := log.replies + [reply]), c', plan', saved')
  {
    forall more: seq<Reply>
      ensures Interpret(log.plan, map[], (log.replies + [reply]) + more)
              == After(log.requests + sent, Rest(c', plan', saved', more))
    {
      assert (log.replies + [reply]) + more == log.replies + ([reply] + more);
      assert Rest(c, plan, saved, [reply] + more) == After(sent, Rest(c', plan', saved', more));
      assert log.requests + (sent + Rest(c', plan', saved', more).requests)
          == (log.requests + sent) + Rest(c', plan', saved', more).requests;
    }
  }

  // How the cursor moves, one lemma per move of the interpreter.

  lemma FollowsStart(log: Log, plan: seq<Step>, saved: map<string, Bytes>)
    requires Follows(log, Starting, plan, saved)
    ensures plan == [] ==> Follows(log, Done(Completed), [], map[])
    ensures plan != [] && plan[0].preGate.None? ==> Follows(log, Calling, plan, saved)
    ensures plan != [] && plan[0].preGate.Some? ==>
              Follows(log.(requests := log.requests + [GateRequest(plan[0])]), AtGate, plan, saved)
  {
    assert log.requests + [] == log.requests;
    if plan == [] {
      FollowsSend(log, Starting, plan, saved, [], Done(Completed), [], map[]);
    } else if plan[0].preGate.None? {
      FollowsSend(log, Starting, plan, saved, [], Calling, plan, saved);
    } else {
      FollowsSend(log, Starting, plan, saved, [GateRequest(plan[0])], AtGate, plan, saved);
    }
  }

  lemma FollowsGate(log: Log, plan: seq<Step>, saved: map<string, Bytes>, reply: Reply)
    requires Follows(log, AtGate, plan, saved)
    ensures
      var log' := log.(replies := log.replies + [reply]);
      if GatePasses(plan[0].preGate.value, reply) then Follows(log', Calling, plan, saved)
      else Follows(log', Done(Failed(plan[0].stepId)), [], map[])
  {
    assert log.requests + [] == log.requests;
    if GatePasses(plan[0].preGate.value, reply) {
      FollowsReply(log, AtGate, plan, saved, reply, [], Calling, plan, saved);
    } else {
      FollowsReply(log, AtGate, plan, saved, reply, [], Done(Failed(plan[0].stepId)), [], map[]);
    }
  }

  lemma FollowsCall(log: Log, plan: seq<Step>, saved: map<string, Bytes>)
    requires Follows(log, Calling, plan, saved)
    ensures
      match MaterializeStep(plan[0], saved)
      case Ok(call) => Follows(log.(requests := log.requests + [TargetRequest(call)]), AtTarget(call), plan, saved)
      case Err(_) => Follows(log, Done(Failed(plan[0].stepId)), [], map[])
  {
    assert log.requests + [] == log.requests;
    match MaterializeStep(plan[0], saved)
    case Ok(call) => FollowsSend(log, Calling, plan, saved, [TargetRequest(call)], AtTarget(call), plan, saved);
    case Err(_) => FollowsSend(log, Calling, plan, saved, [], Done(Failed(plan[0].stepId)), [], map[]);
  }

  lemma FollowsTarget(log: Log, plan: seq<Step>, saved: map<string, Bytes>, call: Step, reply: Reply)
    requires Follows(log, AtTarget(call), plan, saved)
    ensures
      var log' := log.(replies := log.replies + [reply]);
      if !call.policy.Asserted? then Follows(log', Settling(reply), plan, saved)
      else if CheckedReply(reply).None? then Follows(log', Settling(Failure), plan, saved)
      else Follows(log'.(requests := log.requests + [CheckRequest(call)]), AtCheck(call.policy.expectedReturn), plan, saved)
  {
    assert log.requests + [] == log.requests;
    if !call.policy.Asserted? {
      FollowsReply(log, AtTarget(call), plan, saved, reply, [], Settling(reply), plan, saved);
    } else if CheckedReply(reply).None? {
      FollowsReply(log, AtTarget(call), plan, saved, reply, [], Settling(Failure), plan, saved);
    } else {
      FollowsReply(log, AtTarget(call), plan, saved, reply, [CheckRequest(call)],
                   AtCheck(call.policy.expectedReturn), plan, saved);
    }
  }

  lemma FollowsCheck(log: Log, plan: seq<Step>, saved: map<string, Bytes>, expectedReturn: Bytes, reply: Reply)
    requires Follows(log, AtCheck(expectedReturn), plan, saved)
    ensures Follows(log.(replies := log.replies + [reply]), Settling(PostcheckOutcome(expectedReturn, reply)), plan, saved)
  {
    assert log.requests + [] == log.requests;
    FollowsReply(log, AtCheck(expectedReturn), plan, saved, reply, [],
                 Settling(PostcheckOutcome(expectedReturn, reply)), plan, saved);
  }

  lemma FollowsSettle(log: Log, plan: seq<Step>, saved: map<string, Bytes>, outcome: Reply)
    requires Follows(log, Settling(outcome), plan, saved)
    ensures
      match CheckedReply(outcome)
      case None => Follows(log, Done(Failed(plan[0].stepId)), [], map[])
      case Some(bytes) => Follows(log, Starting, plan[1..], SavedAfter(saved, plan[0].saveResult, bytes))
  {
    assert log.requests + [] == log.requests;
    match CheckedReply(outcome)
    case None => FollowsSend(log, Settling(outcome), plan, saved, [], Done(Failed(plan[0].stepId)), [], map[]);
    case Some(bytes) =>
      FollowsSend(log, Settling(outcome), plan, saved, [], Starting, plan[1..], SavedAfter(saved, plan[0].saveResult, bytes));
  }

  lemma PrefixReply(log: Log, reply: Reply)
    requires Prefix(log)
    ensures Prefix(log.(replies := log.replies + [reply]))
  {
    forall more: seq<Reply>
      ensures log.requests <= Interpret(log.plan, map[], (log.replies + [reply]) + more).requests
    {
      assert (log.replies + [reply]) + more == log.replies + ([reply] + more);
    }
  }

  // --- The shape of the namespace ---

  ghost predicate DistinctIds(plan: seq<Step>) {
    forall i, j | 0 <= i < j < |plan| :: plan[i].stepId != plan[j].stepId
  }

  /** The step has been woken up and its chain is on its way. */
  predicate Active(phase: Phase) {
    !phase.Yielded? && !phase.TimedOut?
  }

  /** Index of the one step released and not yet resolved, read off the queue. */
  function Position(l: Local, plan: seq<Step>): int {
    |plan| - 1 - (if l.queue.Some? then |l.queue.value| else 0)
  }

  /** The registrations of the steps from index k on. */
  function StepsFrom(plan: seq<Step>, base: YieldId, k: nat): map<string, RegisteredStep>
    decreases |plan| - k
  {
    if k >= |plan| then map[]
    else StepsFrom(plan, base, k + 1)[plan[k].stepId := RegisteredStep(base + k, plan[k])]
  }

  lemma {:induction false} StepsFromKeys(plan: seq<Step>, base: YieldId, k: nat, id: string)
    ensures id in StepsFrom(plan, base, k) ==> exists i :: k <= i < |plan| && plan[i].stepId == id
    decreases |plan| - k
  {
    if k < |plan| {
      StepsFromKeys(plan, base, k + 1, id);
      assert plan[k].stepId == plan[k].stepId;
    }
  }

  /** Resolving the first of them removes exactly its own registration. */
  lemma StepsFromNext(plan: seq<Step>, base: YieldId, k: nat)
    requires DistinctIds(plan) && k < |plan|
    ensures StepsFrom(plan, base, k) - {plan[k].stepId} == StepsFrom(plan, base, k + 1)
  {
    StepsFromKeys(plan, base, k + 1, plan[k].stepId);
  }

  lemma {:induction false} StepsFromAt(plan: seq<Step>, base: YieldId, k: nat, i: nat)
    requires DistinctIds(plan) && k <= i < |plan|
    ensures plan[i].stepId in StepsFrom(plan, base, k)
    ensures StepsFrom(plan, base, k)[plan[i].stepId] == RegisteredStep(base + i, plan[i])
    decreases |plan| - k
  {
    if k < i {
      StepsFromAt(plan, base, k + 1, i);
    }
  }

  /** The chains of the steps from index k on, each with its own yield id; the
      k-th alone is past its yield. */
  ghost predicate ChainsFrom(chains: map<YieldId, Chain>, plan: seq<Step>, base: YieldId, ns: string, k: nat) {
    && (forall y: YieldId :: y in chains <==> base + k <= y < base + |plan|)
    && (forall y | y in chains ::
          && base <= y < base + |plan|
          && chains[y].ns == ns && chains[y].stepId == plan[y - base].stepId
          && (y == base + k <==> Active(chains[y].phase)))
  }

  /** In flight at step k: steps before k are gone, exactly the steps from k on
      are registered, the queue is exactly the steps after k. */
  ghost predicate FlightShape(l: Local, plan: seq<Step>, base: YieldId, ns: string, k: int) {
    && 0 <= k < |plan| && DistinctIds(plan)
    && l.queue == (if k + 1 < |plan| then Some(IdsOf(plan)[k + 1..]) else None)
    && l.steps == StepsFrom(plan, base, k)
    && ChainsFrom(l.chains, plan, base, ns, k)
    && base + k in l.chains
  }

  ghost predicate NoneTimedOut(chains: map<YieldId, Chain>) {
    forall y | y in chains :: !chains[y].phase.TimedOut?
  }

  /** After a run: nothing registered, queued or saved, and at most one chain
      still on its way. */
  ghost predicate WipedShape(l: Local, ns: string) {
    && l.steps == map[] && l.queue == None && l.context == None
    && (forall y | y in l.chains :: l.chains[y].ns == ns)
    && (forall y, z | y in l.chains && z in l.chains && Active(l.chains[y].phase) && Active(l.chains[z].phase) :: y == z)
  }

  ghost predicate NoneActive(chains: map<YieldId, Chain>) {
    forall y | y in chains :: !Active(chains[y].phase)
  }

  // --- Saved values ---

  /** The values saved by steps that passed with these result bytes, in plan order. */
  function SavedBy(plan: seq<Step>, results: seq<Bytes>): map<string, Bytes>
    requires |results| <= |plan|
  {
    if results == [] then map[]
    else
      var last := |results| - 1;
      SavedAfter(SavedBy(plan, results[..last]), plan[last].saveResult, results[last])
  }

  lemma SavedBySnoc(plan: seq<Step>, results: seq<Bytes>, bytes: Bytes)
    requires |results| < |plan|
    ensures SavedBy(plan, results + [bytes]) == SavedAfter(SavedBy(plan, results), plan[|results|].saveResult, bytes)
  {
    assert (results + [bytes])[..|results|] == results;
  }

  /** The last step that saves under a name decides its value. */
  lemma {:induction false} LastWriterWins(plan: seq<Step>, results: seq<Bytes>, i: nat)
    requires |results| <= |plan| && i < |results| && plan[i].saveResult.Some?
    requires forall j | i < j < |results| && plan[j].saveResult.Some? ::
               plan[j].saveResult.value.asName != plan[i].saveResult.value.asName
    ensures plan[i].saveResult.value.asName in SavedBy(plan, results)
    ensures SavedBy(plan, results)[plan[i].saveResult.value.asName] == results[i]
    decreases |results|
  {
    var last := |results| - 1;
    if i < last {
      LastWriterWins(plan, results[..last], i);
    }
  }

  /** Only declared names are ever saved. */
  lemma {:induction false} OnlyDeclaredNames(plan: seq<Step>, results: seq<Bytes>, name: string)
    requires |results| <= |plan| && name in SavedBy(plan, results)
    ensures exists i :: 0 <= i < |results| && plan[i].saveResult.Some? && plan[i].saveResult.value.asName == name
    decreases |results|
  {
    var last := |results| - 1;
    if plan[last].saveResult.Some? && plan[last].saveResult.value.asName == name {
    } else {
      OnlyDeclaredNames(plan, results[..last], name);
    }
  }

  // --- The run invariant ---

  /** The current step and the interpreter are at the same place. */
  ghost predicate FollowsAt(l: Local, log: Log, k: int)
    requires 0 <= k < |log.plan| && log.base + k in l.chains
  {
    Follows(log, CursorOf(l.chains[log.base + k].phase), log.plan[k..], SavedResults(l))
  }

  ghost predicate InFlightAt(l: Local, log: Log, ns: string, k: int) {
    && FlightShape(l, log.plan, log.base, ns, k)
    && (!log.timedOut ==> NoneTimedOut(l.chains))
    && FollowsAt(l, log, k)
    && |log.results| == k && SavedResults(l) == SavedBy(log.plan, log.results)
  }

  /** A chain that outlived its run still follows the interpreter. */
  ghost predicate Straggler(log: Log, phase: Phase) {
    exists plan: seq<Step>, saved: map<string, Bytes> :: Follows(log, CursorOf(phase), plan, saved)
  }

  ghost predicate Wiped(l: Local, log: Log, ns: string) {
    && WipedShape(l, ns)
    && Prefix(log)
    && forall y | y in l.chains && Active(l.chains[y].phase) :: Straggler(log, l.chains[y].phase)
  }

  ghost predicate StepOfPlan(plan: seq<Step>, id: Option<string>) {
    exists i :: 0 <= i < |plan| && id == Some(plan[i].stepId)
  }

  /** How a finished run relates to the interpreter. */
  ghost predicate OutcomeExplained(l: Local, log: Log) {
    l.run.Some? ==>
      match l.run.value.status
      case InFlight => true
      case Succeeded => NoneActive(l.chains) && Follows(log, Done(Completed), [], map[]) && l.run.value.failedStepId == None
      case DownstreamFailed =>
        && NoneActive(l.chains) && l.run.value.failedStepId.Some?
        && Follows(log, Done(Failed(l.run.value.failedStepId.value)), [], map[])
      case ResumeFailed => log.timedOut && StepOfPlan(log.plan, l.run.value.failedStepId)
  }

  ghost predicate RunInv(l: Local, log: Log, ns: string) {
    if RunInFlight(l) then InFlightAt(l, log, ns, Position(l, log.plan))
    else Wiped(l, log, ns) && OutcomeExplained(l, log)
  }
}

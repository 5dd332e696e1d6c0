/** The small sequencer's contract object: two mutable maps, proved method by method
    against its semantics. */
module SimpleSequencers {
  import opened Prelude
  import opened Types
  import opened NamespaceKeys
  import opened S = SimpleSemantics

  class SimpleSequencer {
    var registeredSteps: map<string, SimpleRegistered>
    var sequenceQueue: map<string, seq<string>>
    // The runtime's side: receipts outstanding for this contract, and the next yield id.
    var receipts: map<YieldId, SimpleChain>
    var nextYield: YieldId

    ghost function View(): SimpleState
      reads this
    {
      SimpleState(registeredSteps, sequenceQueue, receipts, nextYield)
    }

    constructor ()
      ensures View() == SimpleState(map[], map[], map[], 0)
    {
      registeredSteps, sequenceQueue, receipts, nextYield := map[], map[], map[], 0;
    }

    method RegisterStep(caller: string, call: SimpleStep) returns (ok: bool, ghost acts: seq<Act>)
      modifies this
      ensures
        var o := S.RegisterStep(old(View()), caller, call);
        ok == o.Some? && (ok ==> o.value == SimpleOutcome(View(), acts)) && (!ok ==> View() == old(View()))
    {
      acts := [];
      if call.stepId == "" || call.methodName == "" || call.gas == 0 || call.gas > MAX_SIMPLE_STEP_GAS_TGAS {
        return false, acts;
      }
      var key := StepKey(caller, call.stepId);
      if key in registeredSteps {
        return false, acts;
      }
      acts := [Registered(nextYield, call)];
      receipts := receipts[nextYield := SimpleChain(caller, call.stepId, Waiting)];
      registeredSteps := registeredSteps[key := SimpleRegistered(nextYield, call)];
      nextYield := nextYield + 1;
      return true, acts;
    }

    /** The runtime resumes a yield only while it is neither resumed nor timed out. */
    method ResumeRegisteredStep(caller: string, stepId: string) returns (ok: bool, ghost acts: seq<Act>)
      modifies this`receipts
      ensures
        var o := S.ResumeStep(old(View()), caller, stepId);
        ok == o.Some? && (ok ==> o.value == SimpleOutcome(View(), acts)) && (!ok ==> View() == old(View()))
    {
      acts := [];
      var key := StepKey(caller, stepId);
      if key !in registeredSteps {
        return false, acts;
      }
      var y := registeredSteps[key].yieldId;
      if y !in receipts || !receipts[y].phase.Waiting? {
        return false, acts;
      }
      receipts := receipts[y := receipts[y].(phase := Woken)];
      return true, [Released(caller, y, stepId)];
    }

    /** A failed start leaves the maps as they were. */
    method StartSequenceRelease(caller: string, order: seq<string>) returns (ok: bool, ghost acts: seq<Act>)
      modifies this
      ensures
        var o := S.StartRelease(old(View()), caller, order);
        ok == o.Some? && (ok ==> o.value == SimpleOutcome(View(), acts)) && (!ok ==> View() == old(View()))
    {
      acts := [];
      if order == [] || caller in sequenceQueue {
        return false, acts;
      }
      for i := 0 to |order|
        invariant forall j | 0 <= j < i :: StepKey(caller, order[j]) in registeredSteps
      {
        if StepKey(caller, order[i]) !in registeredSteps {
          return false, acts;
        }
      }
      if |order| > 1 {
        sequenceQueue := sequenceQueue[caller := order[1..]];
      }
      ok, acts := ResumeRegisteredStep(caller, order[0]);
      if ok {
        acts := [Started(caller, order)] + acts;
      } else {
        sequenceQueue := sequenceQueue - {caller};
        assert sequenceQueue == old(sequenceQueue);
      }
    }

    /** All or nothing: a panic rolls every registration back. */
    method ExecuteSteps(caller: string, calls: seq<SimpleStep>) returns (ok: bool, ghost acts: seq<Act>)
      modifies this
      ensures
        var o := S.ExecuteSteps(old(View()), caller, calls);
        ok == o.Some? && (ok ==> o.value == SimpleOutcome(View(), acts)) && (!ok ==> View() == old(View()))
    {
      hide S.RegisterStep, S.StartRelease, ValidSimpleStep;
      acts := [];
      var order := S.StepIds(calls);
      if calls == [] || exists i, j | 0 <= i < j < |calls| :: calls[i].stepId == calls[j].stepId {
        return false, acts;
      }
      var steps0, queue0, receipts0, next0 := registeredSteps, sequenceQueue, receipts, nextYield;
      for i := 0 to |calls|
        invariant
          var whole := S.RegisterAll(old(View()), caller, calls);
          var rest := S.RegisterAll(View(), caller, calls[i..]);
          && whole.Some? == rest.Some?
          && (whole.Some? ==> whole.value == SimpleOutcome(rest.value.state, acts + rest.value.acts))
      {
        ghost var before := View();
        assert calls[i..][0] == calls[i] && calls[i..][1..] == calls[i + 1..];
        var one, sent := RegisterStep(caller, calls[i]);
        if !one {
          registeredSteps, sequenceQueue, receipts, nextYield := steps0, queue0, receipts0, next0;
          return false, [];
        }
        ghost var rest := S.RegisterAll(View(), caller, calls[i + 1..]);
        if rest.Some? {
          assert acts + (sent + rest.value.acts) == (acts + sent) + rest.value.acts;
        }
        acts := acts + sent;
      }
      assert acts + [] == acts;
      var started, released := StartSequenceRelease(caller, order);
      if !started {
        registeredSteps, sequenceQueue, receipts, nextYield := steps0, queue0, receipts0, next0;
        return false, [];
      }
      return true, acts + released;
    }

    method RunSequence(predecessor: string, caller: string, order: seq<string>) returns (ok: bool, ghost acts: seq<Act>)
      modifies this
      ensures
        var o := S.RunSequence(old(View()), predecessor, caller, order);
        ok == o.Some? && (ok ==> o.value == SimpleOutcome(View(), acts)) && (!ok ==> View() == old(View()))
    {
      if predecessor != caller {
        return false, [];
      }
      ok, acts := StartSequenceRelease(caller, order);
    }

    method OnStepResumed(y: YieldId) returns (ghost acts: seq<Act>)
      requires y in receipts && (receipts[y].phase.Woken? || receipts[y].phase.Expired?)
      modifies this
      ensures SimpleOutcome(View(), acts) == S.OnStepResumed(old(View()), y)
    {
      var chain := receipts[y];
      var key := StepKey(chain.caller, chain.stepId);
      if key !in registeredSteps {
        receipts := receipts - {y};
        return [];
      }
      if chain.phase.Expired? {
        registeredSteps := registeredSteps - {key};
        sequenceQueue := sequenceQueue - {chain.caller};
        receipts := receipts - {y};
        return [];
      }
      var call := registeredSteps[key].call;
      receipts := receipts[y := chain.(phase := Calling(call))];
      return [Called(y, call)];
    }

    method TakeNextQueuedStep(caller: string) returns (next: Option<string>)
      modifies this`sequenceQueue
      ensures (View(), next) == S.TakeNextQueued(old(View()), caller)
    {
      if caller !in sequenceQueue {
        return None;
      }
      var remaining := sequenceQueue[caller];
      if remaining == [] {
        sequenceQueue := sequenceQueue - {caller};
        return None;
      }
      next := Some(remaining[0]);
      remaining := remaining[1..];
      if remaining == [] {
        sequenceQueue := sequenceQueue - {caller};
      } else {
        sequenceQueue := sequenceQueue[caller := remaining];
      }
    }

    method ProgressAfterSuccessfulResolution(caller: string) returns (ghost acts: seq<Act>)
      modifies this
      ensures SimpleOutcome(View(), acts) == S.Progress(old(View()), caller)
    {
      acts := [];
      var next := TakeNextQueuedStep(caller);
      if next.Some? {
        var ok, sent := ResumeRegisteredStep(caller, next.value);
        if ok {
          acts := sent;
        } else {
          sequenceQueue := sequenceQueue - {caller};
        }
      }
    }

    method OnStepResolved(y: YieldId, reply: Reply) returns (ghost acts: seq<Act>)
      requires y in receipts && receipts[y].phase.Calling?
      modifies this
      ensures SimpleOutcome(View(), acts) == S.OnStepResolved(old(View()), y, reply)
    {
      var chain := receipts[y];
      receipts := receipts - {y};
      registeredSteps := registeredSteps - {StepKey(chain.caller, chain.stepId)};
      if CheckedReply(reply).Some? {
        acts := ProgressAfterSuccessfulResolution(chain.caller);
      } else {
        sequenceQueue := sequenceQueue - {chain.caller};
        acts := [];
      }
    }
  }
}

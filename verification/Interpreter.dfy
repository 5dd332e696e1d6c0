/** The reference: a plain sequential interpreter of a plan. It knows no queue,
    no registration and no yielded receipt; it runs the steps one after the other
    against a script of replies and records every call it makes. */
module Interpreter {
  import opened Prelude
  import opened Types
  import opened Materialize
  import opened Sequencer

  // Waiting: the script ran out. Failed: names the first step that did not pass.
  datatype Ending = Waiting | Completed | Failed(stepId: string)

  datatype Trace = Trace(requests: seq<Request>, ending: Ending)

  function After(requests: seq<Request>, rest: Trace): Trace {
    Trace(requests + rest.requests, rest.ending)
  }

  function Interpret(plan: seq<Step>, saved: map<string, Bytes>, replies: seq<Reply>): Trace
    decreases |plan|, 3
  {
    if plan == [] then Trace([], Completed)
    else if plan[0].preGate.Some? then After([GateRequest(plan[0])], AwaitGate(plan, saved, replies))
    else CallTarget(plan, saved, replies)
  }

  function AwaitGate(plan: seq<Step>, saved: map<string, Bytes>, replies: seq<Reply>): Trace
    requires plan != [] && plan[0].preGate.Some?
    decreases |plan|, 2
  {
    if replies == [] then Trace([], Waiting)
    else if GatePasses(plan[0].preGate.value, replies[0]) then CallTarget(plan, saved, replies[1..])
    else Trace([], Failed(plan[0].stepId))
  }

  function CallTarget(plan: seq<Step>, saved: map<string, Bytes>, replies: seq<Reply>): Trace
    requires plan != []
    decreases |plan|, 1
  {
    match MaterializeStep(plan[0], saved)
    case Err(_) => Trace([], Failed(plan[0].stepId))
    case Ok(call) => After([TargetRequest(call)], AwaitTarget(plan, saved, call, replies))
  }

  function AwaitTarget(plan: seq<Step>, saved: map<string, Bytes>, call: Step, replies: seq<Reply>): Trace
    requires plan != []
    decreases |plan|, 0, 2
  {
    if replies == [] then Trace([], Waiting)
    else if !call.policy.Asserted? then Settle(plan, saved, replies[0], replies[1..])
    else if CheckedReply(replies[0]).None? then Trace([], Failed(plan[0].stepId))
    else After([CheckRequest(call)], AwaitCheck(plan, saved, call.policy.expectedReturn, replies[1..]))
  }

  function AwaitCheck(plan: seq<Step>, saved: map<string, Bytes>, expectedReturn: Bytes, replies: seq<Reply>): Trace
    requires plan != []
    decreases |plan|, 0, 1
  {
    if replies == [] then Trace([], Waiting)
    else Settle(plan, saved, PostcheckOutcome(expectedReturn, replies[0]), replies[1..])
  }

  function Settle(plan: seq<Step>, saved: map<string, Bytes>, outcome: Reply, replies: seq<Reply>): Trace
    requires plan != []
    decreases |plan|, 0, 0
  {
    match CheckedReply(outcome)
    case None => Trace([], Failed(plan[0].stepId))
    case Some(bytes) => Interpret(plan[1..], SavedAfter(saved, plan[0].saveResult, bytes), replies)
  }

  // --- Facts about the interpreter itself ---

  function DepositsOf(requests: seq<Request>): nat {
    if requests == [] then 0
    else (if requests[0].TargetCall? then requests[0].deposit else 0) + DepositsOf(requests[1..])
  }

  function PlanDeposit(plan: seq<Step>): nat {
    if plan == [] then 0 else plan[0].deposit + PlanDeposit(plan[1..])
  }

  lemma {:induction false} DepositsOfConcat(a: seq<Request>, b: seq<Request>)
    ensures DepositsOf(a + b) == DepositsOf(a) + DepositsOf(b)
  {
    if a == [] {
      assert a + b == b;
    } else {
      assert (a + b)[1..] == a[1..] + b;
      DepositsOfConcat(a[1..], b);
    }
  }

  lemma DepositsOfPrefix(a: seq<Request>, b: seq<Request>)
    requires a <= b
    ensures DepositsOf(a) <= DepositsOf(b)
  {
    assert b == a + b[|a|..];
    DepositsOfConcat(a, b[|a|..]);
  }

  /** Whatever the replies, the targets of a plan are never paid more than the
      plan's total: each step is dispatched at most once. */
  lemma {:induction false} InterpretDeposits(plan: seq<Step>, saved: map<string, Bytes>, replies: seq<Reply>)
    ensures DepositsOf(Interpret(plan, saved, replies).requests) <= PlanDeposit(plan)
    decreases |plan|, 3
  {
    if plan != [] {
      if plan[0].preGate.Some? {
        if replies != [] {
          CallTargetDeposits(plan, saved, replies[1..]);
        }
        DepositsOfConcat([GateRequest(plan[0])], AwaitGate(plan, saved, replies).requests);
      } else {
        CallTargetDeposits(plan, saved, replies);
      }
    }
  }

  lemma {:induction false} CallTargetDeposits(plan: seq<Step>, saved: map<string, Bytes>, replies: seq<Reply>)
    requires plan != []
    ensures DepositsOf(CallTarget(plan, saved, replies).requests) <= PlanDeposit(plan)
    decreases |plan|, 1
  {
    var made := MaterializeStep(plan[0], saved);
    if made.Ok? {
      var call := made.value;
      var rest := AwaitTarget(plan, saved, call, replies);
      DepositsOfConcat([TargetRequest(call)], rest.requests);
      assert DepositsOf(rest.requests) <= PlanDeposit(plan[1..]) by {
        if replies != [] {
          if !call.policy.Asserted? {
            SettleDeposits(plan, saved, replies[0], replies[1..]);
          } else if CheckedReply(replies[0]).Some? {
            var check := AwaitCheck(plan, saved, call.policy.expectedReturn, replies[1..]);
            DepositsOfConcat([CheckRequest(call)], check.requests);
            if replies[1..] != [] {
              SettleDeposits(plan, saved, PostcheckOutcome(call.policy.expectedReturn, replies[1..][0]), replies[1..][1..]);
            }
          }
        }
      }
      assert TargetRequest(call).deposit == plan[0].deposit;
    }
  }

  lemma {:induction false} SettleDeposits(plan: seq<Step>, saved: map<string, Bytes>, outcome: Reply, replies: seq<Reply>)
    requires plan != []
    ensures DepositsOf(Settle(plan, saved, outcome, replies).requests) <= PlanDeposit(plan[1..])
    decreases |plan|, 0
  {
    if CheckedReply(outcome).Some? {
      InterpretDeposits(plan[1..], SavedAfter(saved, plan[0].saveResult, CheckedReply(outcome).value), replies);
    }
  }
}

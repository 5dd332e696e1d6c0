/** The two adapters a step can be wrapped by: the polling adapter, whose retry loop
    threads a shrinking gas budget from callback to callback, and the wrapping
    adapter, which splits a deposit; and why the sequencer's reserve suffices. */
module Adapters {
  import opened Prelude
  import opened Types
  import opened Sequencer
  import opened Gas

  const MIN_CALLBACK_BUDGET_TGAS: nat := 40
  const ADAPTER_START_OVERHEAD_TGAS: nat := 30
  const POLL_GAS_TGAS: nat := 10
  const POLL_STEP_OVERHEAD_TGAS: nat := 25
  const MAX_POLL_ATTEMPTS: nat := 4
  const WRAP_TRANSFER_GAS_TGAS: nat := 20
  const WRAP_TRANSFER_STEP_OVERHEAD_TGAS: nat := 25
  const FT_TRANSFER_DEPOSIT_YOCTO: nat := 1

  function SaturatingSub(a: nat, b: nat): nat {
    if a >= b then a - b else 0
  }

  datatype Panic = WrongMethod | BadArgs | DepositTooSmall | GasOverflow | BudgetTooSmall | StartFailed
                 | PollBudgetTooSmall | NeverFinished | TransferBudgetTooSmall | TransferFailed

  // Waiting: the script of answers ran out before the adapter did.
  datatype Answer<T> = Waiting | Returned(value: T) | Panicked(reason: Panic)

  // One receipt of the adapter that attached gas: its own gas, and what it attached.
  datatype Spend = Spend(own: nat, attached: nat)

  datatype Story<T> = Story(answer: Answer<T>, spends: seq<Spend>, deposits: seq<nat>)

  function Then<T>(spend: Spend, deposits: seq<nat>, rest: Story<T>): Story<T> {
    Story(rest.answer, [spend] + rest.spends, deposits + rest.deposits)
  }

  function Stop<T>(answer: Answer<T>): Story<T> {
    Story(answer, [], [])
  }

  /** The budget both adapters compute from the gas they were given, if any. */
  function CallbackBudget(gas: u64, prepaid: u64): Result<nat, Panic> {
    if gas + ADAPTER_START_OVERHEAD_TGAS >= TWO_64 then Err(GasOverflow)
    else
      var budget := SaturatingSub(prepaid, gas + ADAPTER_START_OVERHEAD_TGAS);
      if budget < MIN_CALLBACK_BUDGET_TGAS then Err(BudgetTooSmall) else Ok(budget)
  }

  /** The budget is what is left of the gas given beyond the target's and 30 TGas; it
      must come to 40. */
  lemma BudgetIff(gas: u64, prepaid: u64)
    ensures CallbackBudget(gas, prepaid) ==
            if gas + 30 >= TWO_64 then Err(GasOverflow)
            else if prepaid < gas + 70 then Err(BudgetTooSmall)
            else Ok(prepaid - gas - 30)
  {
  }

  // --- The polling adapter ---

  datatype Poll = Shown(finished: Option<u32>) | PollFailed

  function SchedulePoll(expected: u32, budget: nat, attempts: nat, polls: seq<Poll>): Story<u32>
    decreases attempts, 1
  {
    var next := SaturatingSub(budget, POLL_STEP_OVERHEAD_TGAS);
    if next < MIN_CALLBACK_BUDGET_TGAS then Stop(Panicked(PollBudgetTooSmall))
    else Then(Spend(budget, POLL_GAS_TGAS + next), [], OnPolled(expected, next, attempts, polls))
  }

  function OnPolled(expected: u32, budget: nat, attempts: nat, polls: seq<Poll>): Story<u32>
    decreases attempts, 0
  {
    if polls == [] then Stop(Waiting)
    else if polls[0] == Shown(Some(expected)) then Stop(Returned(expected))
    else if attempts == 0 then Stop(Panicked(NeverFinished))
    else SchedulePoll(expected, budget, attempts - 1, polls[1..])
  }

  function OnRouteEchoStarted(expected: u32, budget: nat, attempts: nat, started: bool, polls: seq<Poll>): Story<u32> {
    if started then SchedulePoll(expected, budget, attempts, polls) else Stop(Panicked(StartFailed))
  }

  /** `args` is what the JSON arguments decode to, if they do. */
  function AdaptRouteEcho(methodName: string, args: Option<u32>, gas: u64, deposit: u128, prepaid: u64, started: bool,
                          polls: seq<Poll>): Story<u32>
  {
    if methodName != "route_echo_fire_and_forget" then Stop(Panicked(WrongMethod))
    else if args.None? then Stop(Panicked(BadArgs))
    else
      match CallbackBudget(gas, prepaid)
      case Err(e) => Stop(Panicked(e))
      case Ok(budget) =>
        Then(Spend(prepaid, gas + budget), [deposit],
             OnRouteEchoStarted(args.value, budget, MAX_POLL_ATTEMPTS, started, polls))
  }

  function Min(a: nat, b: nat): nat {
    if a <= b then a else b
  }

  /** How many polls a budget pays for, given the retries left. */
  function PollCount(budget: nat, attempts: nat): nat {
    Min(attempts + 1, SaturatingSub(budget, MIN_CALLBACK_BUDGET_TGAS) / POLL_STEP_OVERHEAD_TGAS)
  }

  predicate Seen(expected: u32, polls: seq<Poll>, count: nat) {
    exists i :: 0 <= i < count && i < |polls| && polls[i] == Shown(Some(expected))
  }

  /** With enough answers to go by, the loop returns the expected number exactly when
      one of the polls it can pay for shows it, and otherwise panics. */
  lemma {:induction false} PollingReturnsIff(expected: u32, budget: nat, attempts: nat, polls: seq<Poll>)
    requires |polls| >= PollCount(budget, attempts)
    ensures
      var answer := SchedulePoll(expected, budget, attempts, polls).answer;
      if Seen(expected, polls, PollCount(budget, attempts)) then answer == Returned(expected)
      else answer == Panicked(if PollCount(budget, attempts) == attempts + 1 then NeverFinished else PollBudgetTooSmall)
    decreases attempts
  {
    var next := SaturatingSub(budget, POLL_STEP_OVERHEAD_TGAS);
    var count := PollCount(budget, attempts);
    if next >= MIN_CALLBACK_BUDGET_TGAS {
      assert count >= 1;
      if polls[0] != Shown(Some(expected)) {
        var rest := polls[1..];
        if attempts > 0 {
          assert PollCount(next, attempts - 1) == count - 1;
          PollingReturnsIff(expected, next, attempts - 1, rest);
        }
        assert Seen(expected, polls, count) <==> Seen(expected, rest, count - 1) by {
          if i :| 0 <= i < count && i < |polls| && polls[i] == Shown(Some(expected)) {
            assert rest[i - 1] == Shown(Some(expected));
          }
          if i :| 0 <= i < count - 1 && i < |rest| && rest[i] == Shown(Some(expected)) {
            assert polls[i + 1] == Shown(Some(expected));
          }
        }
      }
    }
  }

  /** No receipt attaches more gas than it was given. */
  ghost predicate WithinBudget<T>(story: Story<T>) {
    forall i | 0 <= i < |story.spends| :: story.spends[i].attached <= story.spends[i].own
  }

  /** Each callback runs on exactly the budget its predecessor attached for it, and
      keeps at least the minimum; the callbacks never overspend. */
  lemma {:induction false} PollingStaysWithinBudget(expected: u32, budget: nat, attempts: nat, polls: seq<Poll>)
    ensures
      var story := SchedulePoll(expected, budget, attempts, polls);
      && WithinBudget(story)
      && |story.spends| <= PollCount(budget, attempts)
      && forall i | 0 <= i < |story.spends| ::
           story.spends[i].own == budget - i * 25 && story.spends[i].own >= 65
           && story.spends[i].attached == story.spends[i].own - 15
    ensures SchedulePoll(expected, budget, attempts, polls).deposits == []
    decreases attempts
  {
    var next := SaturatingSub(budget, POLL_STEP_OVERHEAD_TGAS);
    if next >= MIN_CALLBACK_BUDGET_TGAS && polls != [] && polls[0] != Shown(Some(expected)) && attempts > 0 {
      PollingStaysWithinBudget(expected, next, attempts - 1, polls[1..]);
      var rest := SchedulePoll(expected, next, attempts - 1, polls[1..]);
      var story := SchedulePoll(expected, budget, attempts, polls);
      assert PollCount(next, attempts - 1) == PollCount(budget, attempts) - 1;
      forall i | 0 <= i < |story.spends|
        ensures story.spends[i].own == budget - i * 25 && story.spends[i].own >= 65
        ensures story.spends[i].attached == story.spends[i].own - 15
      {
        if i > 0 {
          assert story.spends[i] == rest.spends[i - 1];
        }
      }
    }
  }

  /** The whole adapter, whatever it is given: it returns the expected number exactly
      when its checks pass, the start succeeds, and one of the first
      min(5, (B - 40) / 25) polls shows that number, B being its callback budget. */
  lemma AdapterReturnsIff(methodName: string, args: Option<u32>, gas: u64, deposit: u128, prepaid: u64, started: bool,
                          polls: seq<Poll>)
    requires |polls| >= MAX_POLL_ATTEMPTS + 1
    ensures
      var story := AdaptRouteEcho(methodName, args, gas, deposit, prepaid, started, polls);
      && !story.answer.Waiting? && WithinBudget(story)
      && (story.answer.Returned? <==>
            && methodName == "route_echo_fire_and_forget" && args.Some? && gas + 30 < TWO_64 && prepaid >= gas + 70 && started
            && Seen(args.value, polls, Min(5, (prepaid - gas - 70) / 25)))
      && (story.answer.Returned? ==> Some(story.answer.value) == args)
      && (if methodName == "route_echo_fire_and_forget" && args.Some? && gas + 30 < TWO_64 && prepaid >= gas + 70 then
            story.deposits == [deposit] && story.spends != [] && story.spends[0] == Spend(prepaid, prepaid - 30)
          else story.deposits == [] && story.spends == [])
  {
    var budget := CallbackBudget(gas, prepaid);
    if args.Some? && budget.Ok? {
      PollingReturnsIff(args.value, budget.value, MAX_POLL_ATTEMPTS, polls);
      PollingStaysWithinBudget(args.value, budget.value, MAX_POLL_ATTEMPTS, polls);
      var story := AdaptRouteEcho(methodName, args, gas, deposit, prepaid, started, polls);
      var rest := SchedulePoll(args.value, budget.value, MAX_POLL_ATTEMPTS, polls);
      forall i | 0 <= i < |story.spends|
        ensures story.spends[i].attached <= story.spends[i].own
      {
        if i > 0 {
          assert story.spends[i] == rest.spends[i - 1];
        }
      }
    }
  }

  // --- The wrapping adapter ---

  function OnWrapStarted(wrapped: nat, budget: nat, started: bool, transferred: bool): Story<nat> {
    if !started then Stop(Panicked(StartFailed))
    else
      var next := SaturatingSub(budget, WRAP_TRANSFER_STEP_OVERHEAD_TGAS);
      if next < MIN_CALLBACK_BUDGET_TGAS then Stop(Panicked(TransferBudgetTooSmall))
      else
        Then(Spend(budget, WRAP_TRANSFER_GAS_TGAS + next), [FT_TRANSFER_DEPOSIT_YOCTO],
             Stop(if transferred then Returned(wrapped) else Panicked(TransferFailed)))
  }

  function AdaptWrap(methodName: string, gas: u64, deposit: u128, prepaid: u64, started: bool, transferred: bool): Story<nat> {
    if methodName != "near_deposit" then Stop(Panicked(WrongMethod))
    else if deposit <= FT_TRANSFER_DEPOSIT_YOCTO then Stop(Panicked(DepositTooSmall))
    else
      var wrapped := deposit - FT_TRANSFER_DEPOSIT_YOCTO;
      match CallbackBudget(gas, prepaid)
      case Err(e) => Stop(Panicked(e))
      case Ok(budget) =>
        Then(Spend(prepaid, gas + budget), [wrapped], OnWrapStarted(wrapped, budget, started, transferred))
  }

  function Sum(amounts: seq<nat>): nat {
    if amounts == [] then 0 else amounts[0] + Sum(amounts[1..])
  }

  /** The wrapping adapter spends its deposit exactly when it returns, reports the
      amount wrapped, never attaches more than it was given, and wraps all of it
      only if both calls succeed. */
  lemma WrapSplitsDeposit(methodName: string, gas: u64, deposit: u128, prepaid: u64, started: bool, transferred: bool)
    ensures
      var story := AdaptWrap(methodName, gas, deposit, prepaid, started, transferred);
      var begins := methodName == "near_deposit" && deposit > 1 && gas + 30 < TWO_64 && prepaid >= gas + 70;
      && WithinBudget(story) && Sum(story.deposits) <= deposit
      && story.deposits == (if !begins then [] else if !started || prepaid < gas + 95 then [deposit - 1] else [deposit - 1, 1])
      && (story.answer.Returned? <==> begins && prepaid >= gas + 95 && started && transferred)
      && (story.answer.Returned? ==>
            && Sum(story.deposits) == deposit && story.answer.value == deposit - 1
            && story.spends == [Spend(prepaid, prepaid - 30), Spend(prepaid - gas - 30, prepaid - gas - 35)])
  {
    var story := AdaptWrap(methodName, gas, deposit, prepaid, started, transferred);
    if story.deposits != [] {
      assert story.deposits[0] == deposit - 1;
      if |story.deposits| > 1 {
        assert story.deposits == [deposit - 1, 1];
        assert [deposit - 1, 1][1..] == [1] && [1][1..] == [];
      } else {
        assert story.deposits[1..] == [];
      }
    }
  }

  // --- Under the sequencer ---

  predicate BudgetPanic(reason: Panic) {
    reason.GasOverflow? || reason.BudgetTooSmall? || reason.PollBudgetTooSmall? || reason.TransferBudgetTooSmall?
  }

  /** A step the sequencer accepts and dispatches through an adapter carries a reserve
      on which neither adapter ever fails a budget check: the polling adapter gets all
      five polls, the wrapping adapter both of its calls. */
  lemma SequencedAdaptersNeverStarve(call: Step, args: Option<u32>, started: bool, transferred: bool, polls: seq<Poll>)
    requires ValidStep(call) && call.policy.Adapter? && |polls| >= MAX_POLL_ATTEMPTS + 1
    ensures
      var sent := TargetRequest(call);
      var echo := AdaptRouteEcho(sent.payload.methodName, args, sent.payload.gas, sent.payload.deposit, sent.gas, started, polls);
      var wrap := AdaptWrap(sent.payload.methodName, sent.payload.gas, sent.payload.deposit, sent.gas, started, transferred);
      && CallbackBudget(sent.payload.gas, sent.gas) == Ok(290)
      && (echo.answer.Panicked? ==> !BudgetPanic(echo.answer.reason))
      && (wrap.answer.Panicked? ==> !BudgetPanic(wrap.answer.reason))
      && (call.methodName == "route_echo_fire_and_forget" && args.Some? && started ==>
            (echo.answer == Returned(args.value) <==> Seen(args.value, polls, 5)))
      && (call.methodName == "near_deposit" && call.deposit > 1 && started && transferred ==>
            wrap.answer == Returned(call.deposit - 1) && wrap.spends[1] == Spend(290, 20 + 265))
  {
    if args.Some? {
      PollingReturnsIff(args.value, 290, MAX_POLL_ATTEMPTS, polls);
    }
  }
}

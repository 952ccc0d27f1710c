/**
  `components/AdminTradeExecutor.tsx`: the three-step wizard (swap USDC to
  USDT, move USDC between the spot and perp accounts, open the HYPE
  position). The component's state is a class; each remote step is decided
  by the token-details read (`details`, the result of
  `getTokenDetailsByName("USDC")`), the wallet, and what the chain does with
  the one call handed to the wallet (`chain`). `parseUnits` is viem's decimal-to-integer
  conversion, a parameter.
 */
module AdminTradeExecutor {
  import opened Wrappers
  import opened Chain
  import CoreActions
  import HyperliquidClient

  type TokenDetails = HyperliquidClient.TokenDetails

  datatype Direction = ToPerp | ToSpot

  /** `StepData`: the swap (step 1, with `isBuy`) and the position (step 3, with `isLong`). */
  datatype StepData = StepData(isBuy: Option<bool>, isLong: Option<bool>, price: real, positionSize: real)

  /** `TransferData`; the form starts without an amount, so it may be undefined. */
  datatype TransferData = TransferData(amount: Option<real>, direction: Direction)

  datatype Submission = StepSubmission(data: StepData) | TransferSubmission(transfer: TransferData)

  /** The form state of the step modal. */
  datatype FormData = FormData(isLong: bool, isBuy: bool, price: real, positionSize: real,
                               amount: Option<real>, direction: Direction)

  datatype Alert =
    | SwapCompleted
    | SwapFailed(message: string)
    | TransferFailed(message: string)
    | PositionOpened
    | OperationFailed(message: string)
    | OrderTooSmall(minOrder: Option<real>)

  const UsdcDetailsMissing: string := "Could not fetch USDC token details"
  const HypeDetailsMissing: string := "Could not fetch HYPE token details"
  /** The TypeError thrown by `undefined.toString()` when no amount was entered. */
  const AmountUndefined: string := "Cannot read properties of undefined (reading 'toString')"

  /** USDC amounts for the account transfer are always scaled by six decimals. */
  const TransferDecimals: nat := 6

  const MinOrderNotional: real := 10.1

  // ---------------------------------------------------------------- submit gates

  /** `calculateMinOrderValue`: `10.1 / price`; `None` stands for the `Infinity` a zero price gives. */
  function MinOrderValue(price: real): (m: Option<real>)
    ensures m.None? <==> price == 0.0
    ensures m.Some? ==> m.value * price == MinOrderNotional
  {
    if price == 0.0 then None else Some(MinOrderNotional / price)
  }

  /** `positionSize < minOrder`, with every finite size below `Infinity`. */
  predicate BelowMinimum(positionSize: real, minOrder: Option<real>) {
    minOrder.None? || positionSize < minOrder.value
  }

  /** `isAmountValid`: step 1 needs a non-zero price and a size of at least the minimum order. */
  predicate IsAmountValid(step: int, form: FormData) {
    step == 1 ==> form.price != 0.0 && form.positionSize >= MinOrderNotional / form.price
  }

  /** `handleSubmit`: the data handed on for the current step, or `None` when nothing is submitted. */
  function SubmissionFor(step: int, form: FormData): Option<Submission>
  {
    if step == 1 then
      if BelowMinimum(form.positionSize, MinOrderValue(form.price)) then None
      else Some(StepSubmission(StepData(Some(form.isBuy), None, form.price, form.positionSize)))
    else if step == 2 then Some(TransferSubmission(TransferData(form.amount, form.direction)))
    else if step == 3 then Some(StepSubmission(StepData(None, Some(form.isLong), form.price, form.positionSize)))
    else None
  }

  /**
    The submit button's gate and `handleSubmit`'s check agree: step 1 is
    submitted exactly when the amount is valid, which for a positive price
    means a notional of at least 10.1; a zero price is refused but a negative
    one is not; steps 2 and 3 are never size-checked.
   */
  lemma SubmitGatesAgree(step: int, form: FormData)
    ensures 1 <= step <= 3 ==> (SubmissionFor(step, form).Some? <==> IsAmountValid(step, form))
    ensures step == 2 || step == 3 ==> SubmissionFor(step, form).Some?
    ensures step == 1 && form.price == 0.0 ==> SubmissionFor(step, form).None?
    ensures step == 1 && form.price > 0.0 ==>
      (SubmissionFor(step, form).Some? <==> form.positionSize * form.price >= MinOrderNotional)
    ensures step == 1 && form.price < 0.0 && form.positionSize >= 0.0 ==> SubmissionFor(step, form).Some?
  {
    if step == 1 && form.price > 0.0 {
      var m := MinOrderNotional / form.price;
      assert m * form.price == MinOrderNotional;
      if form.positionSize >= m {
        assert form.positionSize * form.price >= m * form.price;
      } else {
        assert form.positionSize * form.price < m * form.price;
      }
    }
  }

  /** `handleSubmit` builds data that fits the step `handleModalSubmit` will read it as. */
  predicate Fits(step: int, sub: Submission) {
    && (step == 1 ==> sub.StepSubmission? && sub.data.isBuy.Some?)
    && (step == 2 ==> sub.TransferSubmission?)
    && (step == 3 ==> sub.StepSubmission?)
  }

  lemma SubmissionFits(step: int, form: FormData)
    ensures SubmissionFor(step, form).Some? ==> Fits(step, SubmissionFor(step, form).value)
  {
  }

  // ---------------------------------------------------------------- the write each step makes

  /**
    The write step `step` attempts for a submission: it throws before any call
    when the token details are missing (or, in step 2, no amount was entered),
    and otherwise is the hook's write for that step.
   */
  function StepPlan(step: int, sub: Submission, w: Wallet, details: Option<TokenDetails>,
                    parseUnits: (real, nat) -> int): Plan
    requires Fits(step, sub)
  {
    if step == 1 then
      if details.None? then Throws(UsdcDetailsMissing)
      else
        var d := details.value.szDecimals;
        CoreActions.SwapUsdcToUsdt(w, sub.data.isBuy.value, parseUnits(sub.data.price, d), parseUnits(sub.data.positionSize, d))
    else if step == 2 then
      if details.None? then Throws(UsdcDetailsMissing)
      else if sub.transfer.amount.None? then Throws(AmountUndefined)
      else
        var amount := parseUnits(sub.transfer.amount.value, TransferDecimals);
        if sub.transfer.direction == ToPerp then CoreActions.TransferUsdcToPerp(w, amount)
        else CoreActions.TransferUsdcToSpot(w, amount)
    else if step == 3 then
      if details.None? then Throws(HypeDetailsMissing)
      else
        var d := details.value.szDecimals;
        var isLong := if sub.data.isLong.Some? then sub.data.isLong.value else true;
        CoreActions.OpenHypePosition(w, isLong, parseUnits(sub.data.price, d), parseUnits(sub.data.positionSize, d))
    else NoCall
  }

  /** The calls a plan hands to the wallet: the one it gets past its guards with, if any. */
  function SentBy(p: Plan): (calls: seq<ContractCall>)
    ensures |calls| <= 1
    ensures calls != [] <==> p.Calls?
  {
    if p.Calls? then [p.call] else []
  }

  /**
    What each step sends: step 1 swaps on market 11115 with the chosen side,
    step 2 moves the amount at six decimals toward the chosen account (any
    direction but "toPerp" goes to spot), step 3 opens on market 135 with a
    missing side read as long. Missing token details or a missing wallet send
    nothing.
   */
  lemma StepPlanRouting(step: int, sub: Submission, w: Wallet, details: Option<TokenDetails>,
                        parseUnits: (real, nat) -> int)
    requires Fits(step, sub) && 1 <= step <= 3
    ensures details.None? || !Connected(w) ==> StepPlan(step, sub, w, details, parseUnits).Throws?
    ensures details.Some? && Connected(w) && step == 1 ==>
      StepPlan(step, sub, w, details, parseUnits).Calls? &&
      StepPlan(step, sub, w, details, parseUnits).call == ContractCall(Executor, "swapUSDT2USDC",
        [ABool(sub.data.isBuy.value), AUint(parseUnits(sub.data.price, details.value.szDecimals)),
         AUint(parseUnits(sub.data.positionSize, details.value.szDecimals))], w.address.value)
    ensures details.Some? && Connected(w) && step == 2 && sub.transfer.amount.Some? ==>
      StepPlan(step, sub, w, details, parseUnits).Calls? &&
      StepPlan(step, sub, w, details, parseUnits).call == ContractCall(Executor, "transferUSDCFromSpotToPerp",
        [AUint(parseUnits(sub.transfer.amount.value, 6)), ABool(sub.transfer.direction == ToPerp)], w.address.value)
    ensures details.Some? && Connected(w) && step == 3 ==>
      StepPlan(step, sub, w, details, parseUnits).Calls? &&
      StepPlan(step, sub, w, details, parseUnits).call == ContractCall(Executor, "openHypeShort",
        [ABool(sub.data.isLong != Some(false)), AUint(parseUnits(sub.data.price, details.value.szDecimals)),
         AUint(parseUnits(sub.data.positionSize, details.value.szDecimals))], w.address.value)
  {
  }

  /** The alerts `handleModalSubmit` raises for a step and how its write ended. */
  function Alerts(step: int, settled: Settled): (a: seq<Alert>)
    ensures settled.Threw? ==> |a| > 0 && a[|a| - 1] == OperationFailed(settled.message)
    ensures settled.Threw? ==> (|a| == 2 <==> step == 1 || step == 2)
    ensures settled.Returned? ==> |a| <= 1 && (a == [] <==> step != 1 && step != 3)
  {
    match settled
    case Threw(m) =>
      if step == 1 then [SwapFailed(m), OperationFailed(m)]
      else if step == 2 then [TransferFailed(m), OperationFailed(m)]
      else [OperationFailed(m)]
    case Returned(_) =>
      if step == 1 then [SwapCompleted] else if step == 3 then [PositionOpened] else []
  }

  // ---------------------------------------------------------------- the component

  class TradeExecutor {
    var currentStep: int
    var isModalOpen: bool
    var isLoading: bool
    var stepCompletionStatus: map<int, bool>
    var stepData: StepData
    var transferData: TransferData
    /**
      Every contract call this component has handed to the wallet's
      `writeContract`, in order, whether or not it was then signed and broadcast.
     */
    var sent: seq<ContractCall>

    ghost predicate Valid()
      reads this
    {
      stepCompletionStatus.Keys == {1, 2, 3}
    }

    /** Completion flags are only ever raised. */
    twostate predicate FlagsOnlyRise()
      reads this
    {
      forall k :: k in old(stepCompletionStatus) && old(stepCompletionStatus)[k] ==>
        k in stepCompletionStatus && stepCompletionStatus[k]
    }

    constructor ()
      ensures Valid()
      ensures currentStep == 1 && !isModalOpen && !isLoading
      ensures stepCompletionStatus == map[1 := false, 2 := false, 3 := false]
      ensures stepData == StepData(Some(true), None, 0.0, 0.0)
      ensures transferData == TransferData(Some(0.0), ToPerp)
      ensures sent == []
    {
      currentStep := 1;
      isModalOpen := false;
      isLoading := false;
      stepCompletionStatus := map[1 := false, 2 := false, 3 := false];
      stepData := StepData(Some(true), None, 0.0, 0.0);
      transferData := TransferData(Some(0.0), ToPerp);
      sent := [];
    }

    /** `handleStepClick`: any step may be opened, completed or not. */
    method HandleStepClick(stepId: int)
      modifies this
      ensures currentStep == stepId && isModalOpen
      ensures stepCompletionStatus == old(stepCompletionStatus) && isLoading == old(isLoading)
      ensures stepData == old(stepData) && transferData == old(transferData) && sent == old(sent)
    {
      currentStep := stepId;
      isModalOpen := true;
    }

    /** Hands the planned call, if any, to the wallet and reports how awaiting it ended. */
    method Send(p: Plan, chain: ChainOutcome) returns (settled: Settled)
      modifies this`sent
      ensures sent == old(sent) + SentBy(p)
      ensures settled == Settle(p, chain)
    {
      if p.Calls? {
        sent := sent + [p.call];
      }
      settled := Settle(p, chain);
    }

    /** `executeSwap`: on success marks step 1 done, keeps the data and moves to step 2. */
    method ExecuteSwap(data: StepData, w: Wallet, details: Option<TokenDetails>,
                       parseUnits: (real, nat) -> int, chain: ChainOutcome) returns (settled: Settled)
      requires Valid() && data.isBuy.Some?
      modifies this
      ensures Valid()
      ensures settled == Settle(StepPlan(1, StepSubmission(data), w, details, parseUnits), chain)
      ensures sent == old(sent) + SentBy(StepPlan(1, StepSubmission(data), w, details, parseUnits))
      ensures settled.Returned? ==>
        stepCompletionStatus == old(stepCompletionStatus)[1 := true] && stepData == data && currentStep == 2
      ensures settled.Threw? ==>
        stepCompletionStatus == old(stepCompletionStatus) && stepData == old(stepData) && currentStep == old(currentStep)
      ensures !isLoading && isModalOpen == old(isModalOpen) && transferData == old(transferData)
    {
      isLoading := true;
      var plan := StepPlan(1, StepSubmission(data), w, details, parseUnits);
      settled := Send(plan, chain);
      if settled.Returned? {
        stepCompletionStatus := stepCompletionStatus[1 := true];
        stepData := data;
        currentStep := 2;
      }
      isLoading := false;
    }

    /** `executeTransfer`: only sends; the caller records the result. */
    method ExecuteTransfer(data: TransferData, w: Wallet, details: Option<TokenDetails>,
                           parseUnits: (real, nat) -> int, chain: ChainOutcome) returns (settled: Settled)
      modifies this
      ensures settled == Settle(StepPlan(2, TransferSubmission(data), w, details, parseUnits), chain)
      ensures sent == old(sent) + SentBy(StepPlan(2, TransferSubmission(data), w, details, parseUnits))
      ensures !isLoading
      ensures currentStep == old(currentStep) && isModalOpen == old(isModalOpen)
      ensures stepCompletionStatus == old(stepCompletionStatus)
      ensures stepData == old(stepData) && transferData == old(transferData)
    {
      isLoading := true;
      settled := Send(StepPlan(2, TransferSubmission(data), w, details, parseUnits), chain);
      isLoading := false;
    }

    /**
      `handleModalSubmit`: runs the current step. A success records it
      (steps 1 and 2 advance, step 3 stays), a failure changes no flag, no
      step and no data; loading always ends false.
     */
    method HandleModalSubmit(sub: Submission, w: Wallet, details: Option<TokenDetails>,
                             parseUnits: (real, nat) -> int, chain: ChainOutcome) returns (alerts: seq<Alert>)
      requires Valid() && Fits(currentStep, sub)
      modifies this
      ensures Valid() && FlagsOnlyRise()
      ensures var plan := StepPlan(old(currentStep), sub, w, details, parseUnits);
        && sent == old(sent) + SentBy(plan)
        && alerts == Alerts(old(currentStep), Settle(plan, chain))
      ensures !isLoading
      ensures var settled := Settle(StepPlan(old(currentStep), sub, w, details, parseUnits), chain);
        (settled.Threw? || !(1 <= old(currentStep) <= 3)) ==>
          && currentStep == old(currentStep) && isModalOpen == old(isModalOpen)
          && stepCompletionStatus == old(stepCompletionStatus)
          && stepData == old(stepData) && transferData == old(transferData)
      ensures var settled := Settle(StepPlan(old(currentStep), sub, w, details, parseUnits), chain);
        settled.Returned? && old(currentStep) == 1 ==>
          && stepCompletionStatus == old(stepCompletionStatus)[1 := true]
          && currentStep == 2 && !isModalOpen && stepData == sub.data && transferData == old(transferData)
      ensures var settled := Settle(StepPlan(old(currentStep), sub, w, details, parseUnits), chain);
        settled.Returned? && old(currentStep) == 2 ==>
          && stepCompletionStatus == old(stepCompletionStatus)[2 := true]
          && currentStep == 3 && !isModalOpen && transferData == sub.transfer && stepData == old(stepData)
      ensures var settled := Settle(StepPlan(old(currentStep), sub, w, details, parseUnits), chain);
        settled.Returned? && old(currentStep) == 3 ==>
          && stepCompletionStatus == old(stepCompletionStatus)[3 := true]
          && currentStep == 3 && !isModalOpen && stepData == sub.data && transferData == old(transferData)
    {
      var step := currentStep;
      if step == 1 {
        var settled := ExecuteSwap(sub.data, w, details, parseUnits, chain);
        if settled.Returned? {
          isModalOpen := false;
        }
        alerts := Alerts(step, settled);
      } else if step == 2 {
        var settled := ExecuteTransfer(sub.transfer, w, details, parseUnits, chain);
        if settled.Returned? {
          transferData := sub.transfer;
          stepCompletionStatus := stepCompletionStatus[2 := true];
          isModalOpen := false;
          if currentStep < 3 {
            currentStep := currentStep + 1;
          }
        }
        alerts := Alerts(step, settled);
      } else if step == 3 {
        isLoading := true;
        var settled := Send(StepPlan(3, sub, w, details, parseUnits), chain);
        if settled.Returned? {
          stepData := sub.data;
          stepCompletionStatus := stepCompletionStatus[3 := true];
          isModalOpen := false;
        }
        alerts := Alerts(step, settled);
      } else {
        alerts := Alerts(step, Settle(NoCall, chain));
      }
      isLoading := false;
    }

    /**
      `handleSubmit`: step 1 below the minimum order only alerts and submits
      nothing; otherwise the step's data goes to `handleModalSubmit`.
     */
    method HandleSubmit(form: FormData, w: Wallet, details: Option<TokenDetails>,
                        parseUnits: (real, nat) -> int, chain: ChainOutcome) returns (alerts: seq<Alert>)
      requires Valid()
      modifies this
      ensures Valid() && FlagsOnlyRise()
      ensures SubmissionFor(old(currentStep), form).None? ==>
        && sent == old(sent) && currentStep == old(currentStep)
        && stepCompletionStatus == old(stepCompletionStatus) && isLoading == old(isLoading)
        && isModalOpen == old(isModalOpen) && stepData == old(stepData) && transferData == old(transferData)
        && alerts == (if old(currentStep) == 1 then [OrderTooSmall(MinOrderValue(form.price))] else [])
      ensures SubmissionFor(old(currentStep), form).Some? ==>
        var plan := StepPlan(old(currentStep), SubmissionFor(old(currentStep), form).value, w, details, parseUnits);
        && sent == old(sent) + SentBy(plan)
        && alerts == Alerts(old(currentStep), Settle(plan, chain))
        && !isLoading
      ensures SubmissionFor(old(currentStep), form).Some? ==>
        var sub := SubmissionFor(old(currentStep), form).value;
        var settled := Settle(StepPlan(old(currentStep), sub, w, details, parseUnits), chain);
        (settled.Threw? || !(1 <= old(currentStep) <= 3)) ==>
          && currentStep == old(currentStep) && isModalOpen == old(isModalOpen)
          && stepCompletionStatus == old(stepCompletionStatus)
          && stepData == old(stepData) && transferData == old(transferData)
      ensures SubmissionFor(old(currentStep), form).Some? ==>
        var sub := SubmissionFor(old(currentStep), form).value;
        var settled := Settle(StepPlan(old(currentStep), sub, w, details, parseUnits), chain);
        settled.Returned? && old(currentStep) == 1 ==>
          && stepCompletionStatus == old(stepCompletionStatus)[1 := true]
          && currentStep == 2 && !isModalOpen && stepData == sub.data && transferData == old(transferData)
      ensures SubmissionFor(old(currentStep), form).Some? ==>
        var sub := SubmissionFor(old(currentStep), form).value;
        var settled := Settle(StepPlan(old(currentStep), sub, w, details, parseUnits), chain);
        settled.Returned? && old(currentStep) == 2 ==>
          && stepCompletionStatus == old(stepCompletionStatus)[2 := true]
          && currentStep == 3 && !isModalOpen && transferData == sub.transfer && stepData == old(stepData)
      ensures SubmissionFor(old(currentStep), form).Some? ==>
        var sub := SubmissionFor(old(currentStep), form).value;
        var settled := Settle(StepPlan(old(currentStep), sub, w, details, parseUnits), chain);
        settled.Returned? && old(currentStep) == 3 ==>
          && stepCompletionStatus == old(stepCompletionStatus)[3 := true]
          && currentStep == 3 && !isModalOpen && stepData == sub.data && transferData == old(transferData)
    {
      var sub := SubmissionFor(currentStep, form);
      SubmissionFits(currentStep, form);
      if sub.None? {
        alerts := if currentStep == 1 then [OrderTooSmall(MinOrderValue(form.price))] else [];
      } else {
        alerts := HandleModalSubmit(sub.value, w, details, parseUnits, chain);
      }
    }
  }

  /**
    The wizard run straight through from the form, every step's form valid
    and every transaction returning a receipt, completes all three steps.
   */
  method WizardRun(w: Wallet, details: TokenDetails, parseUnits: (real, nat) -> int, tx: string)
    returns (e: TradeExecutor)
    requires Connected(w)
    ensures e.stepCompletionStatus == map[1 := true, 2 := true, 3 := true]
    ensures e.currentStep == 3 && !e.isModalOpen && |e.sent| == 3
  {
    e := new TradeExecutor();
    var a := e.HandleSubmit(FormData(false, true, 1.0, 20.0, None, ToPerp), w, Some(details), parseUnits, Confirmed(tx));
    assert e.currentStep == 2;
    a := e.HandleSubmit(FormData(false, true, 1.0, 20.0, Some(20.0), ToPerp), w, Some(details), parseUnits, Confirmed(tx));
    assert e.currentStep == 3;
    a := e.HandleSubmit(FormData(false, false, 25.0, 1.0, Some(20.0), ToPerp), w, Some(details), parseUnits, Confirmed(tx));
  }
}

/**
  `components/LoopCycleExecutor.tsx`: the button that walks the progress
  modal through the five strategy steps and then calls `executeEvmFlow`.
  Each `setCurrentStep` and the flow call are recorded in a trace so the
  order of what the user sees can be stated; the one-second pauses are not
  modelled.
 */
module LoopCycleExecutor {
  import opened Chain
  import EvmActions

  const ExecutionSteps: seq<string> := [
    "Pulls HYPE from the vault",
    "Supplies 20% of HYPE to HyperLend",
    "Borrows 50% of supplied value in USDT",
    "Transfers borrowed USDT to core",
    "Remaining HYPE + flashloan to open a leveraged loop position"
  ]

  /** What the component does, in order: show a step, invoke the flow, and the write the flow sends. */
  datatype Event = ShowStep(index: int) | InvokeEvmFlow | Write(call: ContractCall)

  datatype Alert = CycleSucceeded | CycleFailed(message: string)

  /** The step indices the progress loop shows, first `n` of them. */
  function Progress(n: nat): (r: seq<Event>)
    ensures |r| == n
    ensures forall i :: 0 <= i < n ==> r[i] == ShowStep(i)
  {
    if n == 0 then [] else Progress(n - 1) + [ShowStep(n - 1)]
  }

  /** The events of one run of the cycle for a wallet. */
  function CycleTrace(w: Wallet): seq<Event>
  {
    var plan := EvmActions.ExecuteEvmFlow(w);
    [ShowStep(0)] + Progress(|ExecutionSteps|) + [InvokeEvmFlow]
      + (if plan.Calls? then [Write(plan.call)] else [])
  }

  /**
    A run shows step 0 (the reset), then 0, 1, ..., 4 in increasing order,
    invokes the flow exactly once right after the last step is shown, and
    writes at most the one flow call, last, and only from a connected wallet.
   */
  lemma CycleOrder(w: Wallet)
    ensures var t := CycleTrace(w);
      && t[0] == ShowStep(0)
      && (forall i :: 1 <= i <= |ExecutionSteps| ==> t[i] == ShowStep(i - 1))
      && t[|ExecutionSteps| + 1] == InvokeEvmFlow
      && (forall i :: 0 <= i < |t| && t[i] == InvokeEvmFlow ==> i == |ExecutionSteps| + 1)
      && (forall i :: 0 <= i < |t| && t[i].Write? ==> i == |t| - 1 && Connected(w))
      && |t| == |ExecutionSteps| + 2 + (if Connected(w) then 1 else 0)
  {
    var t := CycleTrace(w);
    var p := Progress(|ExecutionSteps|);
    forall i | 1 <= i <= |ExecutionSteps|
      ensures t[i] == ShowStep(i - 1)
    {
      assert t[i] == p[i - 1];
    }
  }

  /** Step badges of the modal. */
  datatype Badge = Done | Active | Pending

  function StepBadge(index: int, currentStep: int): (b: Badge)
    ensures b == Done <==> index < currentStep
    ensures b == Active <==> index == currentStep
  {
    if index < currentStep then Done else if index == currentStep then Active else Pending
  }

  /**
    As the loop advances, a done badge stays done and exactly the badge of
    the shown step is active; after the reset to step 0 nothing is done.
   */
  lemma BadgesAdvance(index: int, c1: int, c2: int)
    ensures StepBadge(index, c1) == Done && c1 <= c2 ==> StepBadge(index, c2) == Done
    ensures 0 <= c1 < |ExecutionSteps| ==>
      (forall i :: 0 <= i < |ExecutionSteps| && StepBadge(i, c1) == Active ==> i == c1)
      && StepBadge(c1, c1) == Active
    ensures 0 <= index ==> StepBadge(index, 0) != Done
  {
  }

  /** The start button is enabled exactly when no cycle is running. */
  predicate StartEnabled(isLoading: bool) {
    !isLoading
  }

  class Runner {
    var isModalOpen: bool
    var isLoading: bool
    var currentStep: int
    /** Everything the component has shown and sent, in order. */
    var trace: seq<Event>

    constructor ()
      ensures !isModalOpen && !isLoading && currentStep == 0 && trace == []
    {
      isModalOpen := false;
      isLoading := false;
      currentStep := 0;
      trace := [];
    }

    /**
      `executeLoopCycle`: however the flow ends, the component is back to
      not loading, modal closed, step 0; the events are exactly `CycleTrace`.
     */
    method ExecuteLoopCycle(w: Wallet, chain: ChainOutcome) returns (alert: Alert)
      modifies this
      ensures trace == old(trace) + CycleTrace(w)
      ensures var settled := Settle(EvmActions.ExecuteEvmFlow(w), chain);
        alert == (if settled.Returned? then CycleSucceeded else CycleFailed(settled.message))
      ensures StartEnabled(isLoading) && !isModalOpen && currentStep == 0
    {
      isLoading := true;
      currentStep := 0;
      trace := trace + [ShowStep(0)];
      isModalOpen := true;

      var i := 0;
      while i < |ExecutionSteps|
        invariant 0 <= i <= |ExecutionSteps|
        invariant trace == old(trace) + [ShowStep(0)] + Progress(i)
        invariant currentStep == if i == 0 then 0 else i - 1
        invariant isLoading && isModalOpen
      {
        currentStep := i;
        trace := trace + [ShowStep(i)];
        i := i + 1;
      }

      // the flow starts while the last step is on screen
      assert currentStep == |ExecutionSteps| - 1;
      var plan := EvmActions.ExecuteEvmFlow(w);
      ghost var shown := trace;
      trace := trace + [InvokeEvmFlow] + (if plan.Calls? then [Write(plan.call)] else []);
      assert trace == old(trace) + CycleTrace(w) by {
        assert shown == old(trace) + ([ShowStep(0)] + Progress(|ExecutionSteps|));
      }
      var settled := Settle(plan, chain);
      alert := if settled.Returned? then CycleSucceeded else CycleFailed(settled.message);

      isLoading := false;
      isModalOpen := false;
      currentStep := 0;
    }

    /** A click on the backdrop closes the modal only when no cycle is running. */
    method BackdropClick()
      modifies this`isModalOpen
      ensures isModalOpen == (old(isModalOpen) && isLoading)
    {
      if !isLoading {
        isModalOpen := false;
      }
    }
  }
}

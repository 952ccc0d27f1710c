/**
  `useEvmActions`: the single loop-cycle write and the basis-point slippage
  helper that sits beside it.
 */
module EvmActions {
  import opened Wrappers
  import opened Chain

  const MaxBps: int := 10_000

  /** The `targetLoopValue` the flow is always sent with (150 USDT at 6 decimals). */
  const TargetLoopValue: int := 150_000_000

  /** BigInt division: the quotient is truncated toward zero. */
  function TruncDiv(a: int, b: int): (q: int)
    requires b > 0
    ensures a >= 0 ==> 0 <= q * b <= a < q * b + b
    ensures a < 0 ==> q * b - b < a <= q * b <= 0
  {
    if a >= 0 then
      DivBracket(a, b);
      a / b
    else
      DivBracket(-a, b);
      assert -((-a) / b) * b == -(((-a) / b) * b);
      -((-a) / b)
  }

  /** Euclidean division of a non-negative number: the quotient times the divisor brackets it. */
  lemma DivBracket(n: int, b: int)
    requires n >= 0 && b > 0
    ensures 0 <= (n / b) * b <= n < (n / b) * b + b
  {
    assert n == (n / b) * b + n % b;
    assert n / b >= 0;
  }

  /** `getSlippageAdjustedAmount`: `amount * (10000 - bps) / 10000` in BigInt arithmetic. */
  function SlippageAdjustedAmount(amount: int, slippageBps: int): int
  {
    TruncDiv(amount * (MaxBps - slippageBps), MaxBps)
  }

  /** For a non-negative amount and a slippage within 0..100%, the result lies between 0 and the amount. */
  lemma SlippageBounds(amount: int, slippageBps: int)
    requires amount >= 0 && 0 <= slippageBps <= MaxBps
    ensures 0 <= SlippageAdjustedAmount(amount, slippageBps) <= amount
  {
    var k := MaxBps - slippageBps;
    assert 0 <= amount * k <= amount * MaxBps by {
      MulMonotone(amount, k, MaxBps);
    }
  }

  lemma SlippageZeroIsIdentity(amount: int)
    ensures SlippageAdjustedAmount(amount, 0) == amount
  {
  }

  lemma SlippageFullIsZero(amount: int)
    ensures SlippageAdjustedAmount(amount, MaxBps) == 0
  {
  }

  /** More slippage never gives a larger minimum amount. */
  lemma SlippageMonotone(amount: int, bps1: int, bps2: int)
    requires amount >= 0 && bps1 <= bps2
    ensures SlippageAdjustedAmount(amount, bps2) <= SlippageAdjustedAmount(amount, bps1)
  {
    var p1 := amount * (MaxBps - bps1);
    var p2 := amount * (MaxBps - bps2);
    assert p2 <= p1 by {
      MulMonotone(amount, MaxBps - bps2, MaxBps - bps1);
    }
    TruncDivMonotone(p2, p1);
  }

  /** Within 0..100% the result is the floor of the exact amount. */
  lemma SlippageIsFloor(amount: int, slippageBps: int)
    requires amount >= 0 && slippageBps <= MaxBps
    ensures var r := SlippageAdjustedAmount(amount, slippageBps);
      r * MaxBps <= amount * (MaxBps - slippageBps) < (r + 1) * MaxBps
  {
    var p := amount * (MaxBps - slippageBps);
    assert p >= 0 by {
      MulMonotone(amount, 0, MaxBps - slippageBps);
    }
  }

  /** Above 100% the product is negative and BigInt division rounds it up, toward zero. */
  lemma OverfullSlippageRoundsTowardZero(amount: int, slippageBps: int)
    requires amount > 0 && slippageBps > MaxBps
    ensures var r := SlippageAdjustedAmount(amount, slippageBps);
      r <= 0 && (r - 1) * MaxBps < amount * (MaxBps - slippageBps) <= r * MaxBps
  {
    var p := amount * (MaxBps - slippageBps);
    assert p < 0 by {
      assert amount * (slippageBps - MaxBps) > 0;
    }
  }

  lemma MulMonotone(a: int, x: int, y: int)
    requires a >= 0 && x <= y
    ensures a * x <= a * y
  {
    assert a * y - a * x == a * (y - x);
  }

  lemma TruncDivMonotone(a: int, b: int)
    requires a <= b
    ensures TruncDiv(a, MaxBps) <= TruncDiv(b, MaxBps)
  {
  }

  /**
    `executeEvmFlow`: throws without a wallet; otherwise one
    `executeFullEvmFlow(1, 1, 150000000)` call. The local `slippageBps` is
    never read, so the arguments are constants.
   */
  function ExecuteEvmFlow(w: Wallet): (p: Plan)
    ensures !Connected(w) ==> p == Throws(WalletNotConnected)
    ensures Connected(w) ==>
      && p.Calls? && p.call.target == Executor
      && p.call.functionName == "executeFullEvmFlow"
      && p.call.args == [AUint(1), AUint(1), AUint(150_000_000)]
      && p.call.account == w.address.value
  {
    if !Connected(w) then Throws(WalletNotConnected)
    else Calls(ContractCall(Executor, "executeFullEvmFlow", [AUint(1), AUint(1), AUint(TargetLoopValue)], w.address.value))
  }
}

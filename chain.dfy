/**
  The wallet and the HyperEVM write surface as the hooks see them. A write is
  described, not performed: `Plan` says whether a hook throws before writing,
  returns without writing, or sends one contract call. What the chain then
  does with a sent call (receipt confirmed or an error) is a `ChainOutcome`
  supplied from outside.
 */
module Chain {
  import opened Wrappers

  /** `useWalletClient().data` (present or not) and `useAccount().address`. */
  datatype Wallet = Wallet(hasClient: bool, address: Option<string>)

  /** The guard `!walletClient || !address` fails; an empty address is falsy too. */
  predicate Connected(w: Wallet) {
    w.hasClient && w.address.Some? && w.address.value != ""
  }

  const WalletNotConnected: string := "Wallet not connected"

  /** The executor contract (src/config/constants.ts defines no address for it) and the raw-action relay. */
  datatype Contract = Executor | CoreWriter

  datatype Arg = ABool(b: bool) | AUint(n: int) | ABytes(hex: string)

  datatype ContractCall = ContractCall(target: Contract, functionName: string, args: seq<Arg>, account: string)

  datatype Plan = Throws(message: string) | NoCall | Calls(call: ContractCall)

  /**
    What happens after `writeContract`: a receipt is returned, or the write or
    the wait throws. `waitForTransactionReceipt` returns a reverted receipt
    without throwing, so `Confirmed` covers reverted transactions too.
   */
  datatype ChainOutcome = Confirmed(txHash: string) | Failed(message: string)

  /** How an awaited write ends for its caller: it returns (a hash or `undefined`) or it throws. */
  datatype Settled = Returned(txHash: Option<string>) | Threw(message: string)

  /** Awaiting a planned write: only a sent call can fail on chain. */
  function Settle(p: Plan, o: ChainOutcome): (r: Settled)
    ensures p.Throws? ==> r == Threw(p.message)
    ensures p.NoCall? ==> r == Returned(None)
    ensures p.Calls? ==> (r.Returned? <==> o.Confirmed?)
  {
    match p
    case Throws(m) => Threw(m)
    case NoCall => Returned(None)
    case Calls(_) =>
      match o
      case Confirmed(h) => Returned(Some(h))
      case Failed(m) => Threw(m)
  }
}

# Delpho admin console — a Dafny model of its trading core

Delpho's admin console is a React front end. It drives a strategy executor
contract on HyperEVM and the Hyperliquid order book. This project models
what that front end decides, and states properties of those decisions:

- **Raw actions and contract writes** (`core_actions.dfy`, `evm_actions.dfy`).
  - `buildAction` frames an ABI payload with a one-byte encoding version and a
    three-byte action id, both in hex.
  - Each write hook (`transferUSDC`, `createOrder`, `transferToEVM`, the
    wrappers, `executeEvmFlow`) is a function from the wallet and the arguments
    to a *plan*. A plan throws (the wallet guard's "Wallet not connected", or
    the ABI encoder's error in `transferToEVM`), sends nothing, or sends
    exactly one contract call, described by target, function name, arguments
    and account.
  - `getSlippageAdjustedAmount` is BigInt arithmetic that truncates toward zero.
- **Hyperliquid info client** (`hyperliquid_client.dfy`).
  - The base URL choice.
  - Each read with its fallback value when the request fails.
  - The token lookup by name, which ignores case.
  - The asset price for the perp and spot paths.
- **Redux slices** (`hyperliquid_slice.dfy`, `wallet_slice.dfy`).
  - Each slice is a class with one field per state field and one method per
    reducer.
  - Each method is proved against a reducer function on a snapshot of the
    fields (`Reduce`, `Apply`). Frame, reset, idempotence and commutation
    properties are proved about those functions.
- **Account-data hook** (`hyperliquid_data.dfy`).
  - The balance and position lookups.
  - Every `fetch*` handler and `updateBalance`, as methods on the slice object.
    Each is proved equal to folding its dispatched actions through `Reduce`.
  - The handlers composed with the client's reads. Those reads catch their
    own failures, so a failed request stores the client's fallback value
    rather than an error; the handlers whose client method does not exist
    always store their error.
- **Trade executor wizard** (`trade_executor.dfy`).
  - Its three steps: swap USDC to USDT, move USDC to the perp account, open
    the HYPE position.
  - Its completion flags, modal and loading state.
  - The minimum-order gate.
- **Loop-cycle runner** (`loop_cycle.dfy`).
  - The progress loop and the reset in `finally`.
  - The step badges and the backdrop guard.

Some things are parameters rather than modelled code:

- What the network, the wallet and the libraries return: `parseUnits`,
  `parseFloat`, ABI encoding, HTTP responses and transaction receipts.
- The clock (`now`): one instant per handler.

JavaScript semantics are written out where they matter:

- `Number.toString(16)` and `padStart`, which never truncates.
- `slice(2)`.
- ASCII `toUpperCase`.
- `Array.find`, which returns the first match.
- Truncating BigInt division.
- Falsy empty strings and `null`.

Facts about the code that the model follows as written:

- `priceWithSlippage` does not exist in src/hooks/useEvmActions.ts. The only
  slippage arithmetic there is `getSlippageAdjustedAmount`, and its callers
  are commented out: `executeEvmFlow` sends the literal minimums 1 and 1.
  That is what the model states.
- The minimum-order check in src/components/AdminTradeExecutor.tsx rejects
  only a zero price, because `10.1 / 0` is `Infinity`. A negative price gives
  a negative minimum, and any non-negative size passes
  (`AdminTradeExecutor.SubmitGatesAgree`).
- `handleStepClick` in src/components/AdminTradeExecutor.tsx opens any step
  at any time; nothing gates the order of the steps.

## Model

| member | source | states |
|---|---|---|
| CoreActions.BuildActionWith | src/hooks/useCoreActions.ts:19-28 | the raw action starts with "0x" and is at least ten characters plus the payload without its "0x" |
| CoreActions.BuildAction | src/hooks/useCoreActions.ts:19-28 | `buildAction` at encoding version 1; its header and round trip are stated by `BuildActionRoundTrip` and `SpotSendHeader` |
| CoreActions.DecodeAction | src/hooks/useCoreActions.ts:19-28 | the reading of a raw action back into version, action id and payload; `BuildActionRoundTrip` proves it inverts `buildAction` |
| CoreActions.PaddedHexRoundTrip | src/hooks/useCoreActions.ts:21-22 | a number below 16^width, written in hex and left-padded with zeros, is exactly `width` hex digits that decode back to the number |
| CoreActions.BuildActionRoundTrip | src/hooks/useCoreActions.ts:19-28 | for a version below 256 and an action id below 2^24 the header is exactly 10 characters and decoding the raw action gives back version, action id and payload |
| CoreActions.WideFieldsLengthenHeader | src/hooks/useCoreActions.ts:21-22 | `padStart` never truncates: a version of 256 or more, or an action id of 2^24 or more, makes the raw action longer than 10 header characters plus payload, so the byte layout shifts |
| CoreActions.SpotSendHeader | src/hooks/useCoreActions.ts:133-137 | the SPOT_SEND raw action begins "0x01000006" (version 1, action 6) |
| CoreActions.TransferUsdc | src/hooks/useCoreActions.ts:33-49 | `transferUSDCFromSpotToPerp(amount, toPerp)` from the connected account; stated by `WalletGuard` and `UsdcTransferDirection` |
| CoreActions.CloseHypeShort | src/hooks/useCoreActions.ts:51-71 | `closeHypeShort(limitPrice, size)` from the connected account; stated by `CloseHypeShortRouting` |
| CoreActions.CreateOrder | src/hooks/useCoreActions.ts:73-111 | the order write, routed by market id; stated by `CreateOrderRouting` |
| CoreActions.TransferToEvm | src/hooks/useCoreActions.ts:113-151 | the EVM transfer, routed by token id, with the encoder's throw for a non-USDT token; stated by `TransferToEvmRouting` |
| CoreActions.Perform | src/hooks/useCoreActions.ts:33-193 | every write the hook returns, by name; stated by `WalletGuard` and `OnlyUnknownMarketsSendNothing` |
| CoreActions.WalletGuard | src/hooks/useCoreActions.ts:33-193 | every write throws "Wallet not connected" without a client or address; from a connected wallet a write throws exactly when it is a non-USDT `transferToEVM` whose ABI encoding fails, and then with the encoder's error; any call sent is from the connected address |
| CoreActions.OnlyUnknownMarketsSendNothing | src/hooks/useCoreActions.ts:73-111 | from a connected wallet, a write sends nothing only when it is an order on a market other than 135 and 11115 |
| CoreActions.CreateOrderRouting | src/hooks/useCoreActions.ts:73-111 | market 135 calls `openHypeShort`, market 11115 calls `swapUSDT2USDC`, both with (isBuy, limitPrice, size); any other market sends nothing and returns undefined |
| CoreActions.CloseHypeShortRouting | src/hooks/useCoreActions.ts:51-71 | without a wallet it throws "Wallet not connected"; otherwise exactly one `closeHypeShort(limitPrice, size)` call on the executor from the connected address |
| CoreActions.TransferToEvmRouting | src/hooks/useCoreActions.ts:113-151 | token 1105 calls `transferUSDT2Core(amount)` on the executor and ignores the recipient; any other token throws the encoder's error when encoding fails, and otherwise sends one `sendRawAction` to the CoreWriter whose bytes decode to version 1, SPOT_SEND and the encoded (recipient, token, amount) |
| CoreActions.WrappersFixTheirArguments | src/hooks/useCoreActions.ts:153-193 | each wrapper is its underlying write with the market, side, direction or token fixed: USDC to spot/perp, swap on 11115, short on 135 with side false, position on 135, USDT to EVM with token 1105 and the own address |
| CoreActions.UsdcTransferDirection | src/hooks/useCoreActions.ts:33-49 | both USDC transfers call `transferUSDCFromSpotToPerp(amount, toPerp)` and differ only in the direction flag |
| EvmActions.TruncDiv | src/hooks/useEvmActions.ts:54 | BigInt division truncates toward zero: for a non-negative numerator the quotient times the divisor is at most the numerator and within one divisor of it; for a negative numerator it is at least the numerator and within one divisor, and never positive |
| EvmActions.SlippageAdjustedAmount | src/hooks/useEvmActions.ts:49-55 | `amount * (10000 - bps) / 10000` in BigInt arithmetic; its bounds, monotonicity and rounding are the `Slippage*` lemmas below |
| EvmActions.SlippageBounds | src/hooks/useEvmActions.ts:49-55 | for a non-negative amount and 0..10000 bps the adjusted amount is between 0 and the amount |
| EvmActions.SlippageZeroIsIdentity | src/hooks/useEvmActions.ts:49-55 | zero slippage returns the amount unchanged |
| EvmActions.SlippageFullIsZero | src/hooks/useEvmActions.ts:49-55 | 10000 bps returns 0 |
| EvmActions.SlippageMonotone | src/hooks/useEvmActions.ts:49-55 | more slippage never gives a larger minimum |
| EvmActions.SlippageIsFloor | src/hooks/useEvmActions.ts:49-55 | for a non-negative amount the result is the largest integer r with r·10000 ≤ amount·(10000 − bps) |
| EvmActions.OverfullSlippageRoundsTowardZero | src/hooks/useEvmActions.ts:49-55 | above 10000 bps the product is negative and the result rounds up toward zero, unlike a floor |
| EvmActions.TruncDivMonotone | src/hooks/useEvmActions.ts:54 | truncating division by 10000 is monotone in the numerator |
| EvmActions.ExecuteEvmFlow | src/hooks/useEvmActions.ts:13-42 | without a wallet it throws "Wallet not connected"; otherwise one `executeFullEvmFlow(1, 1, 150000000)` call on the executor from the connected address |
| Chain.Settle | src/hooks/useCoreActions.ts:37-47 | awaiting a write: a guard throw rethrows its message, no call returns undefined, a call returns exactly when its receipt is confirmed |
| Helper.ResolveCoinName | src/utils/helper.ts:3-9 | a name with a non-empty mapping resolves to the mapping, and any other name to itself |
| Helper.ResolvedNameEmpty | src/utils/helper.ts:3-9 | the resolved name is empty only for an empty input that has no non-empty mapping |
| Helper.SortDirection | src/utils/helper.ts:11-15 | "A" is "Buy", "B" is "Sell", and anything else is unchanged |
| Helper.SortDirectionIdempotent | src/utils/helper.ts:11-15 | a sorted direction is never "A" or "B", so sorting twice equals sorting once |
| HyperliquidClient.BaseUrl | src/utils/hyperliquid.ts:67-70 | the testnet URL exactly when `testnet` is true, and the mainnet URL when it is false or absent |
| HyperliquidClient.GetUserOpenOrders | src/utils/hyperliquid.ts:84-95 | a failed request gives [], and any answer is passed through |
| HyperliquidClient.GetSpotClearinghouseState | src/utils/hyperliquid.ts:101-111 | the answer when it is present, and otherwise (failure or falsy body) empty balances |
| HyperliquidClient.GetAllMids | src/utils/hyperliquid.ts:116-126 | a failed request gives an empty map, and any answer is passed through |
| HyperliquidClient.GetSpotMeta | src/utils/hyperliquid.ts:131-141 | the answer when it is present, and otherwise empty tokens and universe |
| HyperliquidClient.GetTokenDetails | src/utils/hyperliquid.ts:147-158 | details exactly when the request succeeded with a non-null body, and then that body |
| HyperliquidClient.FindToken | src/utils/hyperliquid.ts:167-169 | no token exactly when no name equals the asset ignoring case; a found token is one of the list and matches ignoring case |
| HyperliquidClient.GetTokenDetailsByName | src/utils/hyperliquid.ts:164-180 | null without a request when no token name matches ignoring case; otherwise the details of the first such token's id |
| HyperliquidClient.GetUserState | src/utils/hyperliquid.ts:185-210 | positions are the open orders and balances are the spot state, each with its own failure fallback |
| HyperliquidClient.UserStatePartialFailure | src/utils/hyperliquid.ts:199-210 | one failing read yields its default while the other read's answer is kept |
| HyperliquidClient.GetAssetPrice | src/utils/hyperliquid.ts:215-245 | the price of an asset on the perp or the spot path, `null` when missing or empty; stated by `PerpPrice`, `SpotPriceAgreesWithLookup` and `AssetPriceIgnoresCase` |
| HyperliquidClient.AssetPriceIgnoresCase | src/utils/hyperliquid.ts:216 | the price of an asset and of its upper-cased name are the same |
| HyperliquidClient.PerpPrice | src/utils/hyperliquid.ts:215-224 | the perp price is `parseFloat` of the non-empty mid under the upper-cased asset; anything else gives null |
| HyperliquidClient.SpotPriceAgreesWithLookup | src/utils/hyperliquid.ts:225-240 | the spot price looks up the same token as `getTokenDetailsByName` and is its non-empty `midPx`; otherwise null |
| HyperliquidClient.FindTokenIgnoresCase | src/utils/hyperliquid.ts:226-229 | upper-casing the asset first does not change which token the case-insensitive search finds |
| JsLib.DigitValue | src/hooks/useCoreActions.ts:21-22 | a hex digit's value is below 16 and maps back to the same digit |
| JsLib.ToHex | src/hooks/useCoreActions.ts:21-22 | `toString(16)` of a natural is non-empty, all hex digits, with no leading zero except for 0 itself |
| JsLib.HexRoundTrip | src/hooks/useCoreActions.ts:21-22 | decoding `toString(16)` gives the number back |
| JsLib.HexLength | src/hooks/useCoreActions.ts:21-22 | the hex form has at most k digits exactly when the number is below 16^k |
| JsLib.PadStart | src/hooks/useCoreActions.ts:21-22 | the result's length is max(length, width); the input is its suffix and the rest is fill characters |
| JsLib.FromHexLeadingZeros | src/hooks/useCoreActions.ts:21-22 | leading zeros do not change a hex value |
| JsLib.SliceFrom2 | src/hooks/useCoreActions.ts:28 | the input is its first two characters followed by the result, and the result is empty for a shorter input |
| JsLib.ToUpperCase | src/utils/hyperliquid.ts:216 | same length; every lower-case ASCII letter is upper-cased and every other character kept |
| JsLib.UpperCaseIdempotent | src/utils/hyperliquid.ts:168 | upper-casing twice equals upper-casing once |
| JsLib.Find | src/utils/hyperliquid.ts:167-169 | no result exactly when no element matches; otherwise the first matching element |
| JsLib.FindFirstMatch | src/hooks/useHyperliquidData.ts:30-32 | when index k holds the first match, `find` returns that element |
| JsLib.FindExtensional | src/utils/hyperliquid.ts:226-229 | predicates that agree on every element find the same element |
| HyperliquidSlice.Reduce | src/features/hyperliquidSlice.ts:58-125 | every reducer as a function of the state, the action and the clock; stated by the lemmas below |
| HyperliquidSlice.Run | src/features/hyperliquidSlice.ts:58-125 | dispatching a list of actions in order; `RunConcat` splits it |
| HyperliquidSlice.RunConcat | src/features/hyperliquidSlice.ts:58-125 | dispatching two lists one after the other equals dispatching their concatenation |
| HyperliquidSlice.ReduceFrame | src/features/hyperliquidSlice.ts:58-125 | a reducer leaves every field outside its write set unchanged |
| HyperliquidSlice.ReduceFrameAll | src/features/hyperliquidSlice.ts:58-125 | the same frame, for all fields at once |
| HyperliquidSlice.UpdateStampsClock | src/features/hyperliquidSlice.ts:59-113 | every update stamps `lastUpdated` with the clock and keeps `loading`; only `updateCompleteState` clears the error |
| HyperliquidSlice.FlagsKeepClock | src/features/hyperliquidSlice.ts:115-121 | `setLoading` and `setError` change exactly their own flag, and not the time stamp |
| HyperliquidSlice.ReduceForgetsWrittenFields | src/features/hyperliquidSlice.ts:58-125 | a reducer's result depends only on the fields it does not write: states that agree outside the write set reduce to the same state |
| HyperliquidSlice.ReduceIdempotent | src/features/hyperliquidSlice.ts:58-125 | dispatching the same action twice at the same instant equals dispatching it once |
| HyperliquidSlice.ResetFromAnyState | src/features/hyperliquidSlice.ts:25-53 | reset from any state gives the initial state: empty lists, "0" withdrawable and summaries, not loading, no error, no time stamp |
| HyperliquidSlice.UpdatedSlice | src/features/hyperliquidSlice.ts:80-113 | a single-slice update writes exactly its own data field and the time stamp |
| HyperliquidSlice.UpdatesOfDifferentSlicesCommute | src/features/hyperliquidSlice.ts:80-113 | two updates of different slices at the same instant give the same state in either order |
| HyperliquidSlice.Slice.constructor | src/features/hyperliquidSlice.ts:25-57 | a new store holds the initial state |
| HyperliquidSlice.Slice.UpdateCompleteStateReducer | src/features/hyperliquidSlice.ts:59-77 | the fields after the in-place assignments are the reducer function's result |
| HyperliquidSlice.Slice.UpdateBalancesReducer | src/features/hyperliquidSlice.ts:80-83 | as above, for `updateBalances` |
| HyperliquidSlice.Slice.UpdatePositionsReducer | src/features/hyperliquidSlice.ts:85-88 | as above, for `updatePositions` |
| HyperliquidSlice.Slice.UpdateOpenOrdersReducer | src/features/hyperliquidSlice.ts:90-93 | as above, for `updateOpenOrders` |
| HyperliquidSlice.Slice.UpdateTradeHistoryReducer | src/features/hyperliquidSlice.ts:95-98 | as above, for `updateTradeHistory` |
| HyperliquidSlice.Slice.UpdateFundingHistoryReducer | src/features/hyperliquidSlice.ts:100-103 | as above, for `updateFundingHistory` |
| HyperliquidSlice.Slice.UpdateOrderHistoryReducer | src/features/hyperliquidSlice.ts:105-108 | as above, for `updateOrderHistory` |
| HyperliquidSlice.Slice.UpdateActiveTWAPsReducer | src/features/hyperliquidSlice.ts:110-113 | as above, for `updateActiveTWAPs` |
| HyperliquidSlice.Slice.SetLoadingReducer | src/features/hyperliquidSlice.ts:115-117 | as above, for `setLoading`, whatever the clock |
| HyperliquidSlice.Slice.SetErrorReducer | src/features/hyperliquidSlice.ts:119-121 | as above, for `setError`, whatever the clock |
| HyperliquidSlice.Slice.ResetReducer | src/features/hyperliquidSlice.ts:123-125 | every field is back to the initial state |
| HyperliquidSlice.Slice.Dispatch | src/features/hyperliquidSlice.ts:58-125 | dispatching any action leaves the fields at the reducer function's result |
| WalletSlice.Apply | src/features/wallet/walletSlice.ts:17-29 | the three reducers as a function on the state; stated by the lemmas below |
| WalletSlice.ConnectSetsBoth | src/features/wallet/walletSlice.ts:17-20 | `connect` sets connected and stores the payload as the address |
| WalletSlice.DisconnectResets | src/features/wallet/walletSlice.ts:21-24 | `disconnect` returns to the initial state from any state, so it is idempotent |
| WalletSlice.SetAddressFrame | src/features/wallet/walletSlice.ts:25-27 | `setAddress` stores the payload and leaves the connected flag alone |
| WalletSlice.ConsistencyPreserved | src/features/wallet/walletSlice.ts:8-27 | "an address only while connected" holds initially and after connect and disconnect; after `setAddress` it holds exactly when connected or the payload is null |
| WalletSlice.SetAddressWhileDisconnectedBreaksConsistency | src/features/wallet/walletSlice.ts:25-27 | `setAddress` with an address on the initial state yields an address while disconnected |
| WalletSlice.Slice.constructor | src/features/wallet/walletSlice.ts:8-11 | a new store holds the initial state |
| WalletSlice.Slice.ConnectReducer | src/features/wallet/walletSlice.ts:17-20 | the fields after the assignments are `Apply(connect)` of the old ones |
| WalletSlice.Slice.DisconnectReducer | src/features/wallet/walletSlice.ts:21-24 | the fields after the assignments are `Apply(disconnect)` of the old ones |
| WalletSlice.Slice.SetAddressReducer | src/features/wallet/walletSlice.ts:25-27 | the fields after the assignment are `Apply(setAddress)` of the old ones |
| HyperliquidData.GetSpotBalance | src/hooks/useHyperliquidData.ts:29-34 | `parseFloat` of the first exact match's total, else 0; stated by `SpotBalanceIsFirstExactMatch` |
| HyperliquidData.SpotBalanceIsFirstExactMatch | src/hooks/useHyperliquidData.ts:29-34 | the spot balance is `parseFloat` of the total of the first balance whose coin is exactly the name, and 0 when none is |
| HyperliquidData.GetPerpWithdrawableBalance | src/hooks/useHyperliquidData.ts:36-38 | a field read with no contract of its own: the stored withdrawable string, unparsed |
| HyperliquidData.GetAssetPerpPosition | src/hooks/useHyperliquidData.ts:40-51 | the empty position exactly when no coin matches ignoring case; otherwise the first match, whose coin equals the asset ignoring case |
| HyperliquidData.RunThree | src/hooks/useHyperliquidData.ts:53-68 | dispatching three actions is reducing them in order |
| HyperliquidData.FetchOutcome | src/hooks/useHyperliquidData.ts:53-187 | a successful fetch stores exactly what its own update stores; a failed one changes only the error, to the handler's own message; loading ends false either way |
| HyperliquidData.FailedFetchKeepsData | src/hooks/useHyperliquidData.ts:60-64 | a failed fetch changes no data slice and no time stamp |
| HyperliquidData.SuccessfulFetchTouchesOnlyItsSlice | src/hooks/useHyperliquidData.ts:70-187 | a successful fetch changes no data slice other than its own |
| HyperliquidData.Fetch | src/hooks/useHyperliquidData.ts:53-187 | the try/catch/finally every `fetch*` handler shares: the store ends at its dispatched sequence folded through the reducer |
| HyperliquidData.FetchBalances | src/hooks/useHyperliquidData.ts:70-85 | `fetchBalances` always dispatches the client's spot reply as the balances update |
| HyperliquidData.BalancesFetchOutcome | src/hooks/useHyperliquidData.ts:70-85 | a balance fetch stores the client's reply, stamps the clock and never sets the error; a failed request replaces the balances with the empty list |
| HyperliquidData.FetchOpenOrders | src/hooks/useHyperliquidData.ts:104-119 | `fetchOpenOrders` always dispatches the client's open-order reply, a `null` body included |
| HyperliquidData.OpenOrdersFetchOutcome | src/hooks/useHyperliquidData.ts:104-119 | an open-order fetch stores the client's reply, stamps the clock and never sets the error; a failed request stores `[]` |
| HyperliquidData.FetchPositions | src/hooks/useHyperliquidData.ts:87-102 | `fetchPositions` always stores its read as the positions with the time stamp, leaving the error as it was and loading false |
| HyperliquidData.FetchWithMissingMethod | src/hooks/useHyperliquidData.ts:53-68 | a handler whose client method does not exist only sets its own error message and ends not loading |
| HyperliquidData.MissingMethodAlwaysFails | src/hooks/useHyperliquidData.ts:121-187 | such a handler ends with its own message stored, not loading, and every data slice and the time stamp unchanged |
| HyperliquidData.UpdateBalanceOutcome | src/hooks/useHyperliquidData.ts:188-207 | on success both the spot and perp slices are stored with one time stamp; on failure only the error is set, to its own message; loading ends false |
| HyperliquidData.UpdateBalanceWith | src/hooks/useHyperliquidData.ts:188-207 | `updateBalance`'s try/catch: true exactly when the combined read returned, and the store at its dispatches folded through the reducer |
| HyperliquidData.UpdateBalance | src/hooks/useHyperliquidData.ts:188-207 | always returns true, because the client's `getUserState` never throws; stores the client's spot reply and the positions |
| HyperliquidData.UpdateBalanceStoresClientRead | src/hooks/useHyperliquidData.ts:188-207 | afterwards the balances are the client's spot reply (empty after a failed request) and the positions are stored, with the time stamp, the error untouched and loading false |
| HyperliquidData.GetUserState | src/hooks/useHyperliquidData.ts:209-226 | reads through a client built for the chosen network and always succeeds, with the client's spot reply as balances and its open-order reply as positions |
| AdminTradeExecutor.MinOrderValue | src/components/AdminTradeExecutor.tsx:113-115 | no finite minimum exactly at price 0; otherwise a minimum whose notional at that price is 10.1 |
| AdminTradeExecutor.IsAmountValid | src/components/AdminTradeExecutor.tsx:352-359 | the submit button's gate; `SubmitGatesAgree` relates it to `handleSubmit` |
| AdminTradeExecutor.SubmissionFor | src/components/AdminTradeExecutor.tsx:309-340 | what `handleSubmit` hands on for the current step; `SubmitGatesAgree` and `SubmissionFits` state it |
| AdminTradeExecutor.SubmitGatesAgree | src/components/AdminTradeExecutor.tsx:309-359 | the button gate and `handleSubmit` agree for steps 1–3; step 1 with a positive price is submitted exactly when size·price ≥ 10.1; a zero price is refused, a negative one is not; steps 2 and 3 always submit |
| AdminTradeExecutor.SubmissionFits | src/components/AdminTradeExecutor.tsx:309-340 | what `handleSubmit` hands on has the shape the step's branch of `handleModalSubmit` reads |
| AdminTradeExecutor.SentBy | src/components/AdminTradeExecutor.tsx:119-208 | a step hands at most one call to the wallet, and one exactly when its plan gets past its guards to `writeContract` |
| AdminTradeExecutor.StepPlan | src/components/AdminTradeExecutor.tsx:119-204 | the write each step makes; stated by `StepPlanRouting` |
| AdminTradeExecutor.Alerts | src/components/AdminTradeExecutor.tsx:117-219 | a failure always ends with the generic failure alert, preceded by a step-specific one for steps 1 and 2; a success raises one alert at steps 1 and 3 and none otherwise |
| AdminTradeExecutor.StepPlanRouting | src/components/AdminTradeExecutor.tsx:119-204 | missing token details or a missing wallet send nothing; step 1 swaps on 11115 with the chosen side; step 2 moves the amount at 6 decimals, toward perp only for "toPerp"; step 3 opens on 135 with a missing side read as long |
| AdminTradeExecutor.TradeExecutor.constructor | src/components/AdminTradeExecutor.tsx:40-58 | step 1, modal closed, not loading, steps 1–3 incomplete, default step and transfer data |
| AdminTradeExecutor.TradeExecutor.HandleStepClick | src/components/AdminTradeExecutor.tsx:108-111 | any step id becomes current and the modal opens; completion flags and data are untouched |
| AdminTradeExecutor.TradeExecutor.Send | src/components/AdminTradeExecutor.tsx:128 | the planned call, if any, is appended to the calls handed to the wallet (whether or not it is then signed and broadcast), and the awaited result is the plan settled against the chain |
| AdminTradeExecutor.TradeExecutor.ExecuteSwap | src/components/AdminTradeExecutor.tsx:117-145 | success marks step 1 done, stores the data and moves to step 2; failure changes no flag, step or data; loading ends false |
| AdminTradeExecutor.TradeExecutor.ExecuteTransfer | src/components/AdminTradeExecutor.tsx:146-173 | sends the step 2 plan and changes nothing else; loading ends false |
| AdminTradeExecutor.TradeExecutor.HandleModalSubmit | src/components/AdminTradeExecutor.tsx:174-219 | for each step: success sets that step's flag, stores its data, closes the modal and moves 1→2 and 2→3 (3 stays); failure changes no flag, step, modal or data; flags only rise; loading ends false; alerts per step and outcome |
| AdminTradeExecutor.TradeExecutor.HandleSubmit | src/components/AdminTradeExecutor.tsx:309-343 | an order below the minimum only raises the "too small" alert and changes and sends nothing; otherwise the step is run as by `handleModalSubmit`, with the same step, flag, modal and data outcome for success and failure |
| AdminTradeExecutor.WizardRun | src/components/AdminTradeExecutor.tsx:309-343 | submitting valid forms for steps 1, 2 and 3 with every write returning a receipt completes all three steps, ends at step 3 with the modal closed, and hands three calls to the wallet |
| LoopCycleExecutor.Progress | src/components/LoopCycleExecutor.tsx:29-32 | the loop shows step indices 0, 1, …, n−1 in that order |
| LoopCycleExecutor.CycleTrace | src/components/LoopCycleExecutor.tsx:20-49 | the events of one run; stated by `CycleOrder` |
| LoopCycleExecutor.CycleOrder | src/components/LoopCycleExecutor.tsx:20-35 | a run shows step 0, then 0..4 in increasing order, invokes `executeEvmFlow` exactly once right after step 4, and writes at most that one call, last, and only from a connected wallet |
| LoopCycleExecutor.StepBadge | src/components/LoopCycleExecutor.tsx:104-113 | done exactly when the index is below the current step; active exactly at the current step |
| LoopCycleExecutor.BadgesAdvance | src/components/LoopCycleExecutor.tsx:104-113 | a done badge stays done as the step advances; exactly the current step's badge is active; after the reset to 0 nothing is done |
| LoopCycleExecutor.StartEnabled | src/components/LoopCycleExecutor.tsx:187 | the start button is enabled exactly when no cycle runs; `ExecuteLoopCycle` ensures it holds again after a run |
| LoopCycleExecutor.Runner.constructor | src/components/LoopCycleExecutor.tsx:6-8 | modal closed, not loading, step 0 |
| LoopCycleExecutor.Runner.ExecuteLoopCycle | src/components/LoopCycleExecutor.tsx:20-49 | the trace is exactly the cycle's events; success alerts success and a throw alerts its message; afterwards the start button is enabled again, the modal closed and the step back at 0 |
| LoopCycleExecutor.Runner.BackdropClick | src/components/LoopCycleExecutor.tsx:60 | the modal closes on a backdrop click only when no cycle is running |

## Left out

- Rendering, animations and styles, including the form's slider and the
  percentage-of-balance sizing (AdminTradeExecutor.tsx:672-674, 919-921).
  These are floating-point UI arithmetic.
- Numbers are Dafny reals. `10.1 / price`, `parseFloat` and `toFixed` carry
  no IEEE rounding claims. NaN and Infinity inputs are not modelled, except
  the `Infinity` of a zero price.
- `parseUnits`, `parseFloat`, ABI encoding (`encodeAbiParameters`),
  axios/HTTP, `writeContract` and `waitForTransactionReceipt` are foreign
  calls. They are parameters: a function, a response value or a chain
  outcome. The ABI encoder's result is the bytes or the error it throws;
  which inputs it rejects (a malformed address, a value outside uint64) is
  the encoder's own and is not modelled.
- A `parseUnits` that throws on malformed input is not modelled.
- `toUpperCase` is modelled for ASCII only. Unicode case mapping is not
  modelled.
- `Date.now()` is one instant per handler. In `updateBalance` both updates
  share that instant.
- `setTimeout` delays and event-loop interleaving of concurrent handlers are
  not modelled. `isLoading` is a UI flag, not a lock.
- The start button's `disabled` is the predicate `StartEnabled`. The runner
  does not require it, because a click handler is not the place it is
  enforced.
- src/utils/hyperliquid.ts defines no `getCompleteUserState`,
  `getTradeHistory`, `getFundingHistory`, `getOrderHistory` or
  `getActiveTWAPOrders`. The handlers that call them always throw and are
  modelled by `HyperliquidData.FetchWithMissingMethod`; the data those
  calls would return is not modelled.
- src/config/constants.ts defines no `EXECUTOR_ADDRESS` and no
  `COIN_NAME_MAP`, and src/config/Abi.ts is not part of this model. The
  executor is a named target, and the coin map is a parameter.
- `buildAction` with a negative action id is not modelled, because
  `toString(16)` would give a minus sign. Action ids are naturals.
- The TypeScript type mismatches of the slice payloads are not reconciled.
  Data shapes are kept abstract.
- HyperliquidData.FetchPositions: takes the positions it stores as an input.
  The client's `getPerpPositions` returns the open-order list, which the
  handler stores as the perp positions; that mismatch is not modelled. The
  handler's error branch is unreachable with the client as written.
- HyperliquidData.UpdateBalance: the perp half is an input for the same
  reason, the open-order list being stored as positions. Its failure branch
  (`UpdateBalanceWith` with no read) is unreachable with the client as
  written.
- HyperliquidData.GetUserState: the catch branch's reply
  `UserStateFailure("Failed to fetch user state")` is a constructor that the
  function never returns, because the client's `getUserState` never throws.
- `getSpotBalances` and `getPerpPositions` are modelled as aliases of the
  reads they forward to, with no contract of their own.
- The components' mount effects (the balance and position fetches, the
  mid-price prefill) are not modelled.
- Other pages and hooks (HyperLend, vault data, wallet button) are outside
  this model.
- HyperliquidData.GetAssetPerpPosition: the `{}` returned when no position
  matches is `None`. A thrown lookup (a missing `position`) is not modelled.

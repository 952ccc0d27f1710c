/**
  `hooks/useHyperliquidData.ts`: lookups over the cached account data and the
  fetch handlers that refresh it. `Fetch` is the shape every handler shares,
  over the update its read produced or `None` when the read threw; the
  handlers below compose it with the client's reads, whose raw responses
  are inputs. Each handler is a method on the slice object, proved against
  the list of actions it dispatches.
 */
module HyperliquidData {
  import opened Wrappers
  import JsLib
  import HyperliquidClient
  import opened HyperliquidSlice

  // ---------------------------------------------------------------- lookups

  /**
    `getSpotBalance`: the parsed `total` of the first balance whose coin is
    exactly `assetName` (case matters), else 0. `parseFloat` is a parameter.
   */
  function GetSpotBalance(s: State, assetName: string, parseFloat: string -> real): real
  {
    match JsLib.Find(s.balances.balances, (b: HyperliquidClient.SpotBalance) => b.coin == assetName)
    case Some(b) => parseFloat(b.total)
    case None => 0.0
  }

  /** The spot balance is the first exact match, and 0 when no coin is spelled exactly so. */
  lemma SpotBalanceIsFirstExactMatch(s: State, assetName: string, parseFloat: string -> real)
    ensures var bs := s.balances.balances;
      && ((forall i :: 0 <= i < |bs| ==> bs[i].coin != assetName) ==> GetSpotBalance(s, assetName, parseFloat) == 0.0)
      && (forall k :: 0 <= k < |bs| && bs[k].coin == assetName && (forall j :: 0 <= j < k ==> bs[j].coin != assetName)
            ==> GetSpotBalance(s, assetName, parseFloat) == parseFloat(bs[k].total))
  {
    var bs := s.balances.balances;
    var p := (b: HyperliquidClient.SpotBalance) => b.coin == assetName;
    forall k | 0 <= k < |bs| && bs[k].coin == assetName && (forall j :: 0 <= j < k ==> bs[j].coin != assetName)
      ensures GetSpotBalance(s, assetName, parseFloat) == parseFloat(bs[k].total)
    {
      JsLib.FindFirstMatch(bs, p, k);
    }
  }

  /** `getPerpWithdrawableBalance`: the stored withdrawable amount, unparsed. */
  function GetPerpWithdrawableBalance(s: State): string
  {
    s.positions.withdrawable
  }

  /** Index `i` holds the first position whose coin matches `asset` ignoring case. */
  predicate FirstMatchAt(aps: seq<AssetPosition>, asset: string, i: int) {
    && 0 <= i < |aps|
    && JsLib.SameIgnoringCase(aps[i].position.coin, asset)
    && forall j :: 0 <= j < i ==> !JsLib.SameIgnoringCase(aps[j].position.coin, asset)
  }

  /** `getAssetPerpPosition`: the first position whose coin matches ignoring case; `None` stands for `{}`. */
  function GetAssetPerpPosition(s: State, asset: string): (r: Option<Position>)
    ensures r.None? <==> forall i :: 0 <= i < |s.positions.assetPositions| ==>
      !JsLib.SameIgnoringCase(s.positions.assetPositions[i].position.coin, asset)
    ensures r.Some? ==> JsLib.SameIgnoringCase(r.value.coin, asset)
    ensures r.Some? ==>
      exists i :: FirstMatchAt(s.positions.assetPositions, asset, i) && s.positions.assetPositions[i].position == r.value
  {
    match JsLib.Find(s.positions.assetPositions, (p: AssetPosition) => JsLib.SameIgnoringCase(p.position.coin, asset))
    case Some(p) => Some(p.position)
    case None => None
  }

  // ---------------------------------------------------------------- fetch handlers

  datatype FetchKind = CompleteStateFetch | BalancesFetch | PositionsFetch | OpenOrdersFetch
                     | TradeHistoryFetch | FundingHistoryFetch | OrderHistoryFetch | ActiveTWAPsFetch

  /** The fixed message each handler stores when its read throws. */
  function ErrorMessage(k: FetchKind): string
  {
    match k
    case CompleteStateFetch => "Failed to load data. Please try again later."
    case BalancesFetch => "Failed to load balances. Please try again later."
    case PositionsFetch => "Failed to load positions. Please try again later."
    case OpenOrdersFetch => "Failed to load open orders. Please try again later."
    case TradeHistoryFetch => "Failed to load trade history. Please try again later."
    case FundingHistoryFetch => "Failed to load funding history. Please try again later."
    case OrderHistoryFetch => "Failed to load order history. Please try again later."
    case ActiveTWAPsFetch => "Failed to load active TWAPs. Please try again later."
  }

  /** The handler whose read yields the data this update carries. */
  function KindOf(a: Action): Option<FetchKind>
  {
    match a
    case UpdateCompleteState(_) => Some(CompleteStateFetch)
    case UpdateBalances(_) => Some(BalancesFetch)
    case UpdatePositions(_) => Some(PositionsFetch)
    case UpdateOpenOrders(_) => Some(OpenOrdersFetch)
    case UpdateTradeHistory(_) => Some(TradeHistoryFetch)
    case UpdateFundingHistory(_) => Some(FundingHistoryFetch)
    case UpdateOrderHistory(_) => Some(OrderHistoryFetch)
    case UpdateActiveTWAPs(_) => Some(ActiveTWAPsFetch)
    case _ => None
  }

  /** What a `fetch*` handler dispatches: loading on, then the data or the error, then loading off. */
  function FetchDispatches(k: FetchKind, response: Option<Action>): seq<Action>
  {
    [SetLoading(true)]
    + (if response.Some? then [response.value] else [SetError(Some(ErrorMessage(k)))])
    + [SetLoading(false)]
  }

  lemma RunThree(s: State, a: Action, b: Action, c: Action, now: int)
    ensures Run(s, [a, b, c], now) == Reduce(Reduce(Reduce(s, a, now), b, now), c, now)
  {
    var s1 := Reduce(s, a, now);
    var s2 := Reduce(s1, b, now);
    assert [a, b, c][1..] == [b, c];
    assert [b, c][1..] == [c];
    assert [c][1..] == [];
    assert Run(s2, [c], now) == Run(Reduce(s2, c, now), [], now);
    assert Run(s1, [b, c], now) == Run(s2, [c], now);
    assert Run(s, [a, b, c], now) == Run(s1, [b, c], now);
  }

  /**
    A successful fetch stores exactly its own data (with the time stamp, and
    for the complete read a cleared error); a failed one changes no data and
    stores the handler's own message. Either way loading ends false.
   */
  lemma FetchOutcome(s: State, k: FetchKind, response: Option<Action>, now: int)
    requires response.Some? ==> KindOf(response.value) == Some(k)
    ensures var t := Run(s, FetchDispatches(k, response), now);
      && !t.loading
      && (response.Some? ==> t == Reduce(s, response.value, now).(loading := false))
      && (response.None? ==> t == s.(error := Some(ErrorMessage(k)), loading := false))
  {
    var mid := if response.Some? then response.value else SetError(Some(ErrorMessage(k)));
    assert FetchDispatches(k, response) == [SetLoading(true), mid, SetLoading(false)];
    RunThree(s, SetLoading(true), mid, SetLoading(false), now);
    if response.Some? {
      UpdateIgnoresLoading(s, mid, true, now);
    }
  }

  /** A data update neither reads nor writes `loading`. */
  lemma UpdateIgnoresLoading(s: State, a: Action, b: bool, now: int)
    requires KindOf(a).Some?
    ensures Reduce(s.(loading := b), a, now) == Reduce(s, a, now).(loading := b)
  {
  }

  /** A failed fetch leaves every field but the two flags (every data slice and the time stamp) as it was. */
  lemma FailedFetchKeepsData(s: State, k: FetchKind, now: int, f: Field)
    requires f != Loading && f != Error
    ensures SameField(s, Run(s, FetchDispatches(k, None), now), f)
  {
    FetchOutcome(s, k, None, now);
  }

  /** A fetch that returned data changes no data slice but its own. */
  lemma SuccessfulFetchTouchesOnlyItsSlice(s: State, k: FetchKind, a: Action, now: int, f: Field)
    requires KindOf(a) == Some(k) && f in DataFields && f !in Writes(a)
    ensures SameField(s, Run(s, FetchDispatches(k, Some(a)), now), f)
  {
    FetchOutcome(s, k, Some(a), now);
    ReduceFrame(s, a, now, f);
  }

  /** Every `fetch*` handler: the response is what the handler's own read returns. */
  method Fetch(store: Slice, k: FetchKind, response: Option<Action>, now: int)
    requires response.Some? ==> KindOf(response.value) == Some(k)
    modifies store
    ensures store.Snapshot() == Run(old(store.Snapshot()), FetchDispatches(k, response), now)
  {
    ghost var s0 := store.Snapshot();
    store.Dispatch(SetLoading(true), now);
    if response.Some? {
      store.Dispatch(response.value, now);
    } else {
      store.Dispatch(SetError(Some(ErrorMessage(k))), now);
    }
    store.Dispatch(SetLoading(false), now);
    FetchOutcome(s0, k, response, now);
  }

  // ---------------------------------------------------------------- handlers over the client

  /**
    `fetchBalances`: the client's `getSpotClearinghouseState` catches its own
    failures, so the handler always takes its success branch.
   */
  method FetchBalances(store: Slice, r: HyperliquidClient.Response<HyperliquidClient.SpotClearinghouseState>, now: int)
    modifies store
    ensures store.Snapshot() ==
      Run(old(store.Snapshot()), FetchDispatches(BalancesFetch, Some(UpdateBalances(HyperliquidClient.GetSpotClearinghouseState(r)))), now)
  {
    Fetch(store, BalancesFetch, Some(UpdateBalances(HyperliquidClient.GetSpotClearinghouseState(r))), now);
  }

  /**
    A balance fetch stores the client's reply, stamps the clock and never
    sets the error; a failed request replaces the cached balances with the
    empty list.
   */
  lemma BalancesFetchOutcome(s: State, r: HyperliquidClient.Response<HyperliquidClient.SpotClearinghouseState>, now: int)
    ensures var t := Run(s, FetchDispatches(BalancesFetch, Some(UpdateBalances(HyperliquidClient.GetSpotClearinghouseState(r)))), now);
      && t == s.(balances := HyperliquidClient.GetSpotClearinghouseState(r), lastUpdated := Some(now), loading := false)
      && t.error == s.error
      && (r.Failed? ==> t.balances == HyperliquidClient.EmptySpotState)
      && (r.Body? && r.data.Some? ==> t.balances == r.data.value)
  {
    FetchOutcome(s, BalancesFetch, Some(UpdateBalances(HyperliquidClient.GetSpotClearinghouseState(r))), now);
  }

  /**
    `fetchOpenOrders`: the client's `getUserOpenOrders` catches its own
    failures, so the handler always stores what it returns, a `null` body included.
   */
  method FetchOpenOrders(store: Slice, r: HyperliquidClient.Response<seq<OpenOrder>>, now: int)
    modifies store
    ensures store.Snapshot() ==
      Run(old(store.Snapshot()), FetchDispatches(OpenOrdersFetch, Some(UpdateOpenOrders(HyperliquidClient.GetUserOpenOrders(r)))), now)
  {
    Fetch(store, OpenOrdersFetch, Some(UpdateOpenOrders(HyperliquidClient.GetUserOpenOrders(r))), now);
  }

  /**
    An open-order fetch stores the client's reply, stamps the clock and never
    sets the error; a failed request replaces the cached orders with `[]`.
   */
  lemma OpenOrdersFetchOutcome(s: State, r: HyperliquidClient.Response<seq<OpenOrder>>, now: int)
    ensures var t := Run(s, FetchDispatches(OpenOrdersFetch, Some(UpdateOpenOrders(HyperliquidClient.GetUserOpenOrders(r)))), now);
      && t == s.(openOrders := HyperliquidClient.GetUserOpenOrders(r), lastUpdated := Some(now), loading := false)
      && t.error == s.error
      && (r.Failed? ==> t.openOrders == Some([]))
      && (r.Body? ==> t.openOrders == r.data)
  {
    FetchOutcome(s, OpenOrdersFetch, Some(UpdateOpenOrders(HyperliquidClient.GetUserOpenOrders(r))), now);
  }

  /**
    `fetchPositions`: the client's `getPerpPositions` never throws either, so
    the handler always stores what it returns; that reply is an input here.
   */
  method FetchPositions(store: Slice, positions: ClearinghouseState, now: int)
    modifies store
    ensures store.Snapshot() == old(store.Snapshot()).(positions := positions, lastUpdated := Some(now), loading := false)
  {
    ghost var s0 := store.Snapshot();
    Fetch(store, PositionsFetch, Some(UpdatePositions(positions)), now);
    FetchOutcome(s0, PositionsFetch, Some(UpdatePositions(positions)), now);
  }

  /**
    The handlers that call a method the client does not define
    (`getCompleteUserState`, `getTradeHistory`, `getFundingHistory`,
    `getOrderHistory`, `getActiveTWAPOrders`): the call always throws.
   */
  predicate CallsMissingMethod(k: FetchKind) {
    k == CompleteStateFetch || k == TradeHistoryFetch || k == FundingHistoryFetch
    || k == OrderHistoryFetch || k == ActiveTWAPsFetch
  }

  /** Such a handler always takes its error branch: it stores its message and changes no data. */
  method FetchWithMissingMethod(store: Slice, k: FetchKind, now: int)
    requires CallsMissingMethod(k)
    modifies store
    ensures store.Snapshot() == old(store.Snapshot()).(error := Some(ErrorMessage(k)), loading := false)
  {
    ghost var s0 := store.Snapshot();
    Fetch(store, k, None, now);
    FetchOutcome(s0, k, None, now);
  }

  /** Every handler over a missing method ends with its own message stored and the data and clock untouched. */
  lemma MissingMethodAlwaysFails(s: State, k: FetchKind, now: int)
    requires CallsMissingMethod(k)
    ensures var t := Run(s, FetchDispatches(k, None), now);
      && t.error == Some(ErrorMessage(k)) && !t.loading
      && t.lastUpdated == s.lastUpdated
      && t.balances == s.balances && t.openOrders == s.openOrders
      && t.tradeHistory == s.tradeHistory && t.fundingHistory == s.fundingHistory
      && t.orderHistory == s.orderHistory && t.activeTWAPs == s.activeTWAPs
  {
    FetchOutcome(s, k, None, now);
  }

  const UpdateBalanceError: string := "Failed to update both spot and perpetual data. Please try again later."

  /** What `updateBalance` dispatches for a read of both balances and positions (`None`: the read threw). */
  function UpdateBalanceDispatches(response: Option<(HyperliquidClient.SpotClearinghouseState, ClearinghouseState)>): seq<Action>
  {
    [SetLoading(true)]
    + (if response.Some? then [UpdateBalances(response.value.0), UpdatePositions(response.value.1)]
       else [SetError(Some(UpdateBalanceError))])
    + [SetLoading(false)]
  }

  /** `updateBalance` stores both slices or sets its error, and always ends not loading. */
  lemma UpdateBalanceOutcome(s: State, response: Option<(HyperliquidClient.SpotClearinghouseState, ClearinghouseState)>, now: int)
    ensures var t := Run(s, UpdateBalanceDispatches(response), now);
      && !t.loading
      && (response.Some? ==> t == s.(balances := response.value.0, positions := response.value.1, lastUpdated := Some(now), loading := false))
      && (response.None? ==> t == s.(error := Some(UpdateBalanceError), loading := false))
  {
    if response.Some? {
      var ds := UpdateBalanceDispatches(response);
      var b, p := response.value.0, response.value.1;
      assert ds == [SetLoading(true), UpdateBalances(b), UpdatePositions(p), SetLoading(false)];
      assert ds[1..] == [UpdateBalances(b), UpdatePositions(p), SetLoading(false)];
      RunThree(Reduce(s, SetLoading(true), now), UpdateBalances(b), UpdatePositions(p), SetLoading(false), now);
    } else {
      RunThree(s, SetLoading(true), SetError(Some(UpdateBalanceError)), SetLoading(false), now);
    }
  }

  /** `updateBalance`'s try/catch over a read of both halves: true exactly when the read returned. */
  method UpdateBalanceWith(store: Slice, response: Option<(HyperliquidClient.SpotClearinghouseState, ClearinghouseState)>, now: int)
    returns (ok: bool)
    modifies store
    ensures ok <==> response.Some?
    ensures store.Snapshot() == Run(old(store.Snapshot()), UpdateBalanceDispatches(response), now)
  {
    ghost var s0 := store.Snapshot();
    store.Dispatch(SetLoading(true), now);
    if response.Some? {
      store.Dispatch(UpdateBalances(response.value.0), now);
      store.Dispatch(UpdatePositions(response.value.1), now);
      ok := true;
    } else {
      store.Dispatch(SetError(Some(UpdateBalanceError)), now);
      ok := false;
    }
    store.Dispatch(SetLoading(false), now);
    UpdateBalanceOutcome(s0, response, now);
  }

  /**
    `updateBalance`: the client's `getUserState` never throws, so the handler
    always stores the spot reply and the positions and returns true. `spot`
    is the balance request's response; the positions reply is an input.
   */
  method UpdateBalance(store: Slice, spot: HyperliquidClient.Response<HyperliquidClient.SpotClearinghouseState>,
                       positions: ClearinghouseState, now: int)
    returns (ok: bool)
    modifies store
    ensures ok
    ensures store.Snapshot() ==
      Run(old(store.Snapshot()), UpdateBalanceDispatches(Some((HyperliquidClient.GetSpotClearinghouseState(spot), positions))), now)
  {
    ok := UpdateBalanceWith(store, Some((HyperliquidClient.GetSpotClearinghouseState(spot), positions)), now);
  }

  /**
    After `updateBalance` the balances are the client's spot reply (empty
    when the request failed), the clock is stamped and the error untouched.
   */
  lemma UpdateBalanceStoresClientRead(s: State, spot: HyperliquidClient.Response<HyperliquidClient.SpotClearinghouseState>,
                                      positions: ClearinghouseState, now: int)
    ensures var t := Run(s, UpdateBalanceDispatches(Some((HyperliquidClient.GetSpotClearinghouseState(spot), positions))), now);
      && t.balances == HyperliquidClient.GetSpotClearinghouseState(spot)
      && t.positions == positions
      && t.lastUpdated == Some(now) && t.error == s.error && !t.loading
      && (spot.Failed? ==> t.balances == HyperliquidClient.EmptySpotState)
  {
    UpdateBalanceOutcome(s, Some((HyperliquidClient.GetSpotClearinghouseState(spot), positions)), now);
  }

  /** The hook's reply; `UserStateFailure` belongs to its catch branch, which the client never reaches. */
  datatype UserStateReply =
    | UserStateSuccess(balances: HyperliquidClient.SpotClearinghouseState, positions: Option<seq<HyperliquidClient.OpenOrder>>)
    | UserStateFailure(error: string)

  /**
    The hook's `getUserState(testnet)`: asks a client built for the chosen
    network. `readAt` gives the responses of the open-order and the spot
    request against a base URL; the client's `getUserState` turns them into
    a user state without throwing.
   */
  function GetUserState(testnet: bool,
                        readAt: string -> (HyperliquidClient.Response<seq<OpenOrder>>, HyperliquidClient.Response<HyperliquidClient.SpotClearinghouseState>))
    : (r: UserStateReply)
    ensures r.UserStateSuccess?
    ensures var read := readAt(HyperliquidClient.BaseUrl(Some(testnet)));
      && r.balances == HyperliquidClient.GetSpotClearinghouseState(read.1)
      && r.positions == HyperliquidClient.GetUserOpenOrders(read.0)
  {
    var read := readAt(HyperliquidClient.BaseUrl(Some(testnet)));
    var u := HyperliquidClient.GetUserState(read.0, read.1);
    UserStateSuccess(u.balances, u.positions)
  }
}

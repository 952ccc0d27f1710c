/**
  `features/hyperliquidSlice.ts`: the cached account data. The slice object
  holds one field per state field and has one method per reducer, each
  assigning its fields in place; `Reduce` is the reducer as a function on a
  snapshot of those fields, and the lemmas below are about it. `now` is the
  value `Date.now()` returns when a reducer runs.
 */
module HyperliquidSlice {
  import opened Wrappers
  import HyperliquidClient

  type SpotClearinghouseState = HyperliquidClient.SpotClearinghouseState
  type OpenOrder = HyperliquidClient.OpenOrder

  datatype MarginSummary = MarginSummary(accountValue: string, totalMarginUsed: string, totalNtlPos: string, totalRawUsd: string)

  datatype Position = Position(coin: string, szi: string, entryPx: string)

  datatype AssetPosition = AssetPosition(position: Position)

  datatype ClearinghouseState = ClearinghouseState(
    assetPositions: seq<AssetPosition>,
    crossMaintenanceMarginUsed: string,
    crossMarginSummary: MarginSummary,
    marginSummary: MarginSummary,
    time: int,
    withdrawable: string)

  /** A fill, funding payment, historical order or TWAP slice fill: only stored and replaced here. */
  datatype Row = Row(fields: map<string, string>)

  /** `openOrders` is `None` when a read's `null` body was stored as received. */
  datatype State = State(
    balances: SpotClearinghouseState,
    positions: ClearinghouseState,
    openOrders: Option<seq<OpenOrder>>,
    activeTWAPs: seq<Row>,
    tradeHistory: seq<Row>,
    fundingHistory: seq<Row>,
    orderHistory: seq<Row>,
    loading: bool,
    error: Option<string>,
    lastUpdated: Option<int>)

  datatype CompleteState = CompleteState(
    balances: SpotClearinghouseState,
    positions: ClearinghouseState,
    openOrders: Option<seq<OpenOrder>>,
    tradeHistory: seq<Row>,
    fundingHistory: seq<Row>,
    orderHistory: seq<Row>,
    activeTWAPs: seq<Row>)

  datatype Action =
    | UpdateCompleteState(complete: CompleteState)
    | UpdateBalances(balances: SpotClearinghouseState)
    | UpdatePositions(positions: ClearinghouseState)
    | UpdateOpenOrders(openOrders: Option<seq<OpenOrder>>)
    | UpdateTradeHistory(rows: seq<Row>)
    | UpdateFundingHistory(rows: seq<Row>)
    | UpdateOrderHistory(rows: seq<Row>)
    | UpdateActiveTWAPs(rows: seq<Row>)
    | SetLoading(loading: bool)
    | SetError(error: Option<string>)
    | ResetHyperliquidState

  const ZeroSummary: MarginSummary := MarginSummary("0", "0", "0", "0")

  const EmptyPositions: ClearinghouseState := ClearinghouseState([], "0", ZeroSummary, ZeroSummary, 0, "0")

  /** `initialState`. */
  const Initial: State := State(HyperliquidClient.SpotClearinghouseState([]), EmptyPositions, Some([]), [], [], [], [], false, None, None)

  /** The fields of the state, for saying which ones an action may change. */
  datatype Field = Balances | Positions | OpenOrders | ActiveTWAPs | TradeHistory | FundingHistory | OrderHistory
                 | Loading | Error | LastUpdated

  const DataFields: set<Field> := {Balances, Positions, OpenOrders, ActiveTWAPs, TradeHistory, FundingHistory, OrderHistory}

  predicate SameField(s: State, t: State, f: Field) {
    match f
    case Balances => s.balances == t.balances
    case Positions => s.positions == t.positions
    case OpenOrders => s.openOrders == t.openOrders
    case ActiveTWAPs => s.activeTWAPs == t.activeTWAPs
    case TradeHistory => s.tradeHistory == t.tradeHistory
    case FundingHistory => s.fundingHistory == t.fundingHistory
    case OrderHistory => s.orderHistory == t.orderHistory
    case Loading => s.loading == t.loading
    case Error => s.error == t.error
    case LastUpdated => s.lastUpdated == t.lastUpdated
  }

  /** The fields each reducer writes: the frame of the slice, stated apart from the reducer. */
  function Writes(a: Action): set<Field>
  {
    match a
    case UpdateCompleteState(_) => DataFields + {Error, LastUpdated}
    case UpdateBalances(_) => {Balances, LastUpdated}
    case UpdatePositions(_) => {Positions, LastUpdated}
    case UpdateOpenOrders(_) => {OpenOrders, LastUpdated}
    case UpdateTradeHistory(_) => {TradeHistory, LastUpdated}
    case UpdateFundingHistory(_) => {FundingHistory, LastUpdated}
    case UpdateOrderHistory(_) => {OrderHistory, LastUpdated}
    case UpdateActiveTWAPs(_) => {ActiveTWAPs, LastUpdated}
    case SetLoading(_) => {Loading}
    case SetError(_) => {Error}
    case ResetHyperliquidState => DataFields + {Loading, Error, LastUpdated}
  }

  /** The reducer the slice builds. */
  function Reduce(s: State, a: Action, now: int): State
  {
    match a
    case UpdateCompleteState(c) =>
      s.(balances := c.balances, positions := c.positions, openOrders := c.openOrders,
         tradeHistory := c.tradeHistory, fundingHistory := c.fundingHistory,
         orderHistory := c.orderHistory, activeTWAPs := c.activeTWAPs,
         lastUpdated := Some(now), error := None)
    case UpdateBalances(b) => s.(balances := b, lastUpdated := Some(now))
    case UpdatePositions(p) => s.(positions := p, lastUpdated := Some(now))
    case UpdateOpenOrders(o) => s.(openOrders := o, lastUpdated := Some(now))
    case UpdateTradeHistory(r) => s.(tradeHistory := r, lastUpdated := Some(now))
    case UpdateFundingHistory(r) => s.(fundingHistory := r, lastUpdated := Some(now))
    case UpdateOrderHistory(r) => s.(orderHistory := r, lastUpdated := Some(now))
    case UpdateActiveTWAPs(r) => s.(activeTWAPs := r, lastUpdated := Some(now))
    case SetLoading(b) => s.(loading := b)
    case SetError(e) => s.(error := e)
    case ResetHyperliquidState => Initial
  }

  /** The fold of `Reduce` over dispatched actions, all at the same instant. */
  function Run(s: State, actions: seq<Action>, now: int): State
    decreases |actions|
  {
    if actions == [] then s else Run(Reduce(s, actions[0], now), actions[1..], now)
  }

  /** Dispatching two lists in turn is dispatching their concatenation. */
  lemma {:induction false} RunConcat(s: State, xs: seq<Action>, ys: seq<Action>, now: int)
    ensures Run(s, xs + ys, now) == Run(Run(s, xs, now), ys, now)
    decreases |xs|
  {
    if xs == [] {
      assert xs + ys == ys;
    } else {
      assert (xs + ys)[0] == xs[0];
      assert (xs + ys)[1..] == xs[1..] + ys;
      RunConcat(Reduce(s, xs[0], now), xs[1..], ys, now);
    }
  }

  /** A data update (one of the `update*` reducers). */
  predicate IsUpdate(a: Action) {
    !(a.SetLoading? || a.SetError? || a.ResetHyperliquidState?)
  }

  /** No reducer changes a field outside `Writes`. */
  lemma ReduceFrame(s: State, a: Action, now: int, f: Field)
    requires f !in Writes(a)
    ensures SameField(s, Reduce(s, a, now), f)
  {
  }

  /** Every data update stamps the clock and keeps `loading`; only the complete update clears `error`. */
  lemma UpdateStampsClock(s: State, a: Action, now: int)
    requires IsUpdate(a)
    ensures Reduce(s, a, now).lastUpdated == Some(now)
    ensures Reduce(s, a, now).loading == s.loading
    ensures Reduce(s, a, now).error == if a.UpdateCompleteState? then None else s.error
  {
  }

  /** `setLoading` and `setError` leave `lastUpdated` alone. */
  lemma FlagsKeepClock(s: State, a: Action, now: int)
    requires a.SetLoading? || a.SetError?
    ensures Reduce(s, a, now).lastUpdated == s.lastUpdated
    ensures a.SetLoading? ==> Reduce(s, a, now) == s.(loading := a.loading)
    ensures a.SetError? ==> Reduce(s, a, now) == s.(error := a.error)
  {
  }

  /** `s` and `t` agree on every field that `a` does not write. */
  predicate AgreeOutside(s: State, t: State, a: Action) {
    && (Balances !in Writes(a) ==> s.balances == t.balances)
    && (Positions !in Writes(a) ==> s.positions == t.positions)
    && (OpenOrders !in Writes(a) ==> s.openOrders == t.openOrders)
    && (ActiveTWAPs !in Writes(a) ==> s.activeTWAPs == t.activeTWAPs)
    && (TradeHistory !in Writes(a) ==> s.tradeHistory == t.tradeHistory)
    && (FundingHistory !in Writes(a) ==> s.fundingHistory == t.fundingHistory)
    && (OrderHistory !in Writes(a) ==> s.orderHistory == t.orderHistory)
    && (Loading !in Writes(a) ==> s.loading == t.loading)
    && (Error !in Writes(a) ==> s.error == t.error)
    && (LastUpdated !in Writes(a) ==> s.lastUpdated == t.lastUpdated)
  }

  /** The result of every reducer depends only on the fields it does not write. */
  lemma ReduceForgetsWrittenFields(s: State, t: State, a: Action, now: int)
    requires AgreeOutside(s, t, a)
    ensures Reduce(s, a, now) == Reduce(t, a, now)
  {
  }

  /** Dispatching the same action twice at the same instant is dispatching it once. */
  lemma ReduceIdempotent(s: State, a: Action, now: int)
    ensures Reduce(Reduce(s, a, now), a, now) == Reduce(s, a, now)
  {
    ReduceFrameAll(s, a, now);
    ReduceForgetsWrittenFields(Reduce(s, a, now), s, a, now);
  }

  lemma ReduceFrameAll(s: State, a: Action, now: int)
    ensures forall f :: f !in Writes(a) ==> SameField(s, Reduce(s, a, now), f)
  {
    forall f | f !in Writes(a) ensures SameField(s, Reduce(s, a, now), f) {
      ReduceFrame(s, a, now, f);
    }
  }

  /** `resetHyperliquidState` gives the initial state from any state. */
  lemma ResetFromAnyState(s: State, now: int)
    ensures Reduce(s, ResetHyperliquidState, now) == Initial
    ensures Initial.balances.balances == [] && Initial.openOrders == Some([]) && Initial.positions.assetPositions == []
    ensures Initial.positions.withdrawable == "0" && Initial.positions.marginSummary.accountValue == "0"
    ensures !Initial.loading && Initial.error == None && Initial.lastUpdated == None
  {
  }

  /** The one data slice a single-slice updater replaces. */
  function UpdatedSlice(a: Action): (f: Field)
    requires IsUpdate(a) && !a.UpdateCompleteState?
    ensures Writes(a) == {f, LastUpdated} && f in DataFields
  {
    match a
    case UpdateBalances(_) => Balances
    case UpdatePositions(_) => Positions
    case UpdateOpenOrders(_) => OpenOrders
    case UpdateTradeHistory(_) => TradeHistory
    case UpdateFundingHistory(_) => FundingHistory
    case UpdateOrderHistory(_) => OrderHistory
    case UpdateActiveTWAPs(_) => ActiveTWAPs
  }

  /** Two updates of different slices at the same instant commute. */
  lemma UpdatesOfDifferentSlicesCommute(s: State, a: Action, b: Action, now: int)
    requires IsUpdate(a) && IsUpdate(b) && !a.UpdateCompleteState? && !b.UpdateCompleteState?
    requires UpdatedSlice(a) != UpdatedSlice(b)
    ensures Reduce(Reduce(s, a, now), b, now) == Reduce(Reduce(s, b, now), a, now)
  {
  }

  /** The slice object: one field per state field, updated in place by its reducers. */
  class Slice {
    var balances: SpotClearinghouseState
    var positions: ClearinghouseState
    var openOrders: Option<seq<OpenOrder>>
    var activeTWAPs: seq<Row>
    var tradeHistory: seq<Row>
    var fundingHistory: seq<Row>
    var orderHistory: seq<Row>
    var loading: bool
    var error: Option<string>
    var lastUpdated: Option<int>

    function Snapshot(): State
      reads this
    {
      State(balances, positions, openOrders, activeTWAPs, tradeHistory, fundingHistory, orderHistory,
            loading, error, lastUpdated)
    }

    constructor ()
      ensures Snapshot() == Initial
    {
      balances, positions, openOrders := Initial.balances, Initial.positions, Initial.openOrders;
      activeTWAPs, tradeHistory, fundingHistory, orderHistory := [], [], [], [];
      loading, error, lastUpdated := false, None, None;
    }

    method UpdateCompleteStateReducer(c: CompleteState, now: int)
      modifies this
      ensures Snapshot() == Reduce(old(Snapshot()), UpdateCompleteState(c), now)
    {
      balances := c.balances;
      positions := c.positions;
      openOrders := c.openOrders;
      tradeHistory := c.tradeHistory;
      fundingHistory := c.fundingHistory;
      orderHistory := c.orderHistory;
      activeTWAPs := c.activeTWAPs;
      lastUpdated := Some(now);
      error := None;
    }

    method UpdateBalancesReducer(b: SpotClearinghouseState, now: int)
      modifies this
      ensures Snapshot() == Reduce(old(Snapshot()), UpdateBalances(b), now)
    {
      balances := b;
      lastUpdated := Some(now);
    }

    method UpdatePositionsReducer(p: ClearinghouseState, now: int)
      modifies this
      ensures Snapshot() == Reduce(old(Snapshot()), UpdatePositions(p), now)
    {
      positions := p;
      lastUpdated := Some(now);
    }

    method UpdateOpenOrdersReducer(o: Option<seq<OpenOrder>>, now: int)
      modifies this
      ensures Snapshot() == Reduce(old(Snapshot()), UpdateOpenOrders(o), now)
    {
      openOrders := o;
      lastUpdated := Some(now);
    }

    method UpdateTradeHistoryReducer(r: seq<Row>, now: int)
      modifies this
      ensures Snapshot() == Reduce(old(Snapshot()), UpdateTradeHistory(r), now)
    {
      tradeHistory := r;
      lastUpdated := Some(now);
    }

    method UpdateFundingHistoryReducer(r: seq<Row>, now: int)
      modifies this
      ensures Snapshot() == Reduce(old(Snapshot()), UpdateFundingHistory(r), now)
    {
      fundingHistory := r;
      lastUpdated := Some(now);
    }

    method UpdateOrderHistoryReducer(r: seq<Row>, now: int)
      modifies this
      ensures Snapshot() == Reduce(old(Snapshot()), UpdateOrderHistory(r), now)
    {
      orderHistory := r;
      lastUpdated := Some(now);
    }

    method UpdateActiveTWAPsReducer(r: seq<Row>, now: int)
      modifies this
      ensures Snapshot() == Reduce(old(Snapshot()), UpdateActiveTWAPs(r), now)
    {
      activeTWAPs := r;
      lastUpdated := Some(now);
    }

    method SetLoadingReducer(b: bool)
      modifies this
      ensures forall now :: Snapshot() == Reduce(old(Snapshot()), SetLoading(b), now)
    {
      loading := b;
    }

    method SetErrorReducer(e: Option<string>)
      modifies this
      ensures forall now :: Snapshot() == Reduce(old(Snapshot()), SetError(e), now)
    {
      error := e;
    }

    method ResetReducer()
      modifies this
      ensures Snapshot() == Initial
    {
      balances, positions, openOrders := Initial.balances, Initial.positions, Initial.openOrders;
      activeTWAPs, tradeHistory, fundingHistory, orderHistory := [], [], [], [];
      loading, error, lastUpdated := false, None, None;
    }

    /** `dispatch`: runs the reducer the action names. */
    method Dispatch(a: Action, now: int)
      modifies this
      ensures Snapshot() == Reduce(old(Snapshot()), a, now)
    {
      match a
      case UpdateCompleteState(c) => UpdateCompleteStateReducer(c, now);
      case UpdateBalances(b) => UpdateBalancesReducer(b, now);
      case UpdatePositions(p) => UpdatePositionsReducer(p, now);
      case UpdateOpenOrders(o) => UpdateOpenOrdersReducer(o, now);
      case UpdateTradeHistory(r) => UpdateTradeHistoryReducer(r, now);
      case UpdateFundingHistory(r) => UpdateFundingHistoryReducer(r, now);
      case UpdateOrderHistory(r) => UpdateOrderHistoryReducer(r, now);
      case UpdateActiveTWAPs(r) => UpdateActiveTWAPsReducer(r, now);
      case SetLoading(b) => SetLoadingReducer(b);
      case SetError(e) => SetErrorReducer(e);
      case ResetHyperliquidState => ResetReducer();
    }
  }
}

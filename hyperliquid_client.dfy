/**
  `utils/hyperliquid.ts`: the read client for the Hyperliquid info API. Every
  HTTP exchange is an input: it failed (axios threw), or it produced a body,
  which may be falsy (`None`). The client turns failures, and for some
  requests falsy bodies, into fixed defaults.
 */
module HyperliquidClient {
  import opened Wrappers
  import JsLib

  const MainnetUrl: string := "https://api.hyperliquid.xyz"
  const TestnetUrl: string := "https://api.hyperliquid-testnet.xyz"

  /** `options.testnet ? testnet : mainnet`, where an absent option is falsy. */
  function BaseUrl(testnet: Option<bool>): (url: string)
    ensures url == TestnetUrl <==> testnet == Some(true)
    ensures url == MainnetUrl <==> testnet != Some(true)
  {
    if testnet == Some(true) then TestnetUrl else MainnetUrl
  }

  datatype Response<T> = Failed | Body(data: Option<T>)

  datatype OpenOrder = OpenOrder(coin: string, limitPx: string, oid: int, side: string, sz: string, timestamp: int)

  /** A spot balance row, with the field names the dashboard reads. */
  datatype SpotBalance = SpotBalance(coin: string, total: string)

  datatype SpotClearinghouseState = SpotClearinghouseState(balances: seq<SpotBalance>)

  datatype SpotToken = SpotToken(name: string, szDecimals: nat, weiDecimals: nat, index: int, tokenId: string, isCanonical: bool)

  datatype SpotMarket = SpotMarket(name: string, tokens: (int, int), index: int, isCanonical: bool)

  datatype SpotMeta = SpotMeta(tokens: seq<SpotToken>, universe: seq<SpotMarket>)

  datatype TokenDetails = TokenDetails(name: string, szDecimals: nat, weiDecimals: nat, midPx: string, markPx: string, prevDayPx: string)

  type AllMids = map<string, string>

  const EmptySpotState: SpotClearinghouseState := SpotClearinghouseState([])
  const EmptySpotMeta: SpotMeta := SpotMeta([], [])

  /** `getUserOpenOrders`: `[]` on failure; any body, even a falsy one, is passed through. */
  function GetUserOpenOrders(r: Response<seq<OpenOrder>>): (orders: Option<seq<OpenOrder>>)
    ensures r.Failed? ==> orders == Some([])
    ensures r.Body? ==> orders == r.data
  {
    match r
    case Failed => Some([])
    case Body(d) => d
  }

  /** `getSpotClearinghouseState`: `{balances: []}` on failure or a falsy body. */
  function GetSpotClearinghouseState(r: Response<SpotClearinghouseState>): (s: SpotClearinghouseState)
    ensures r == Body(Some(s)) || s == EmptySpotState
    ensures r.Body? && r.data.Some? ==> s == r.data.value
  {
    match r
    case Body(Some(d)) => d
    case _ => EmptySpotState
  }

  /** `getAllMids`: `{}` on failure; a falsy body is passed through. */
  function GetAllMids(r: Response<AllMids>): (mids: Option<AllMids>)
    ensures r.Failed? ==> mids == Some(map[])
    ensures r.Body? ==> mids == r.data
  {
    match r
    case Failed => Some(map[])
    case Body(d) => d
  }

  /** `getSpotMeta`: `{tokens: [], universe: []}` on failure or a falsy body. */
  function GetSpotMeta(r: Response<SpotMeta>): (m: SpotMeta)
    ensures r == Body(Some(m)) || m == EmptySpotMeta
    ensures r.Body? && r.data.Some? ==> m == r.data.value
  {
    match r
    case Body(Some(d)) => d
    case _ => EmptySpotMeta
  }

  /** `getTokenDetails`: `null` on failure or a falsy body. */
  function GetTokenDetails(r: Response<TokenDetails>): (d: Option<TokenDetails>)
    ensures d.Some? <==> r.Body? && r.data.Some?
    ensures d.Some? ==> d == r.data
  {
    match r
    case Body(Some(d)) => Some(d)
    case _ => None
  }

  /** The first spot token whose name equals `asset` ignoring case. */
  function FindToken(tokens: seq<SpotToken>, asset: string): (r: Option<SpotToken>)
    ensures r.None? <==> forall i :: 0 <= i < |tokens| ==> !JsLib.SameIgnoringCase(tokens[i].name, asset)
    ensures r.Some? ==> r.value in tokens && JsLib.SameIgnoringCase(r.value.name, asset)
  {
    JsLib.Find(tokens, (t: SpotToken) => JsLib.SameIgnoringCase(t.name, asset))
  }

  /** The details found by name, and the token id whose details were requested, if any. */
  datatype TokenLookup = TokenLookup(details: Option<TokenDetails>, requested: Option<string>)

  /**
    `getTokenDetailsByName`: look the asset up in the spot metadata, ignoring
    case; only when a token matches are its details requested (by the
    matching token's id). `detailsFor` gives the response for each token id.
   */
  function GetTokenDetailsByName(asset: string, meta: Response<SpotMeta>,
                                 detailsFor: string -> Response<TokenDetails>): (r: TokenLookup)
    ensures r.requested.None? <==> forall i :: 0 <= i < |GetSpotMeta(meta).tokens| ==>
      !JsLib.SameIgnoringCase(GetSpotMeta(meta).tokens[i].name, asset)
    ensures r.requested.None? ==> r.details.None?
    ensures r.requested.Some? ==>
      exists i :: && 0 <= i < |GetSpotMeta(meta).tokens|
                  && GetSpotMeta(meta).tokens[i].tokenId == r.requested.value
                  && JsLib.SameIgnoringCase(GetSpotMeta(meta).tokens[i].name, asset)
                  && (forall j :: 0 <= j < i ==> !JsLib.SameIgnoringCase(GetSpotMeta(meta).tokens[j].name, asset))
    ensures r.requested.Some? ==> r.details == GetTokenDetails(detailsFor(r.requested.value))
  {
    match FindToken(GetSpotMeta(meta).tokens, asset)
    case Some(t) => TokenLookup(GetTokenDetails(detailsFor(t.tokenId)), Some(t.tokenId))
    case None => TokenLookup(None, None)
  }

  /** `getPerpPositions` is `getUserOpenOrders` under another name. */
  function GetPerpPositions(r: Response<seq<OpenOrder>>): Option<seq<OpenOrder>>
  {
    GetUserOpenOrders(r)
  }

  /** `getSpotBalances` is `getSpotClearinghouseState` under another name. */
  function GetSpotBalances(r: Response<SpotClearinghouseState>): SpotClearinghouseState
  {
    GetSpotClearinghouseState(r)
  }

  datatype UserState = UserState(positions: Option<seq<OpenOrder>>, balances: SpotClearinghouseState)

  /**
    `getUserState`: both reads together. Neither read can throw (each already
    falls back to its default), so the combined fallback is never reached and
    a failure of one read leaves the other's data intact.
   */
  function GetUserState(orders: Response<seq<OpenOrder>>, spot: Response<SpotClearinghouseState>): (u: UserState)
    ensures u.positions == GetUserOpenOrders(orders)
    ensures u.balances == GetSpotClearinghouseState(spot)
  {
    UserState(GetPerpPositions(orders), GetSpotBalances(spot))
  }

  /** One failed read gives that read's default and keeps the other's data. */
  lemma UserStatePartialFailure(orders: seq<OpenOrder>, spot: SpotClearinghouseState)
    ensures GetUserState(Failed, Body(Some(spot))) == UserState(Some([]), spot)
    ensures GetUserState(Body(Some(orders)), Failed) == UserState(Some(orders), EmptySpotState)
  {
  }

  /**
    `getAssetPrice`. On the perp path the upper-cased asset is looked up in
    the mids (a falsy mids body throws and is caught as `null`); on the spot
    path the token is found ignoring case and its `midPx` used. An empty or
    missing price gives `null`. `parseFloat` is a parameter.
   */
  function GetAssetPrice(asset: string, isPerp: bool, mids: Response<AllMids>, meta: Response<SpotMeta>,
                         detailsFor: string -> Response<TokenDetails>, parseFloat: string -> real): (price: Option<real>)
  {
    var assetKey := JsLib.ToUpperCase(asset);
    if isPerp then
      match GetAllMids(mids)
      case None => None
      case Some(m) => if assetKey in m && m[assetKey] != "" then Some(parseFloat(m[assetKey])) else None
    else
      match FindToken(GetSpotMeta(meta).tokens, assetKey)
      case None => None
      case Some(t) =>
        match GetTokenDetails(detailsFor(t.tokenId))
        case Some(d) => if d.midPx != "" then Some(parseFloat(d.midPx)) else None
        case None => None
  }

  /** The perp price is the upper-cased asset's non-empty mid, and nothing else. */
  lemma PerpPrice(asset: string, mids: Response<AllMids>, meta: Response<SpotMeta>,
                  detailsFor: string -> Response<TokenDetails>, parseFloat: string -> real)
    ensures var key := JsLib.ToUpperCase(asset);
      GetAssetPrice(asset, true, mids, meta, detailsFor, parseFloat)
      == if mids.Body? && mids.data.Some? && key in mids.data.value && mids.data.value[key] != ""
         then Some(parseFloat(mids.data.value[key])) else None
  {
  }

  /** The price does not depend on the case of the asset name. */
  lemma AssetPriceIgnoresCase(asset: string, isPerp: bool, mids: Response<AllMids>, meta: Response<SpotMeta>,
                              detailsFor: string -> Response<TokenDetails>, parseFloat: string -> real)
    ensures GetAssetPrice(JsLib.ToUpperCase(asset), isPerp, mids, meta, detailsFor, parseFloat)
         == GetAssetPrice(asset, isPerp, mids, meta, detailsFor, parseFloat)
  {
    JsLib.UpperCaseIdempotent(asset);
  }

  /** The spot price asks for the same token as `getTokenDetailsByName`, and is its non-empty `midPx`. */
  lemma SpotPriceAgreesWithLookup(asset: string, mids: Response<AllMids>, meta: Response<SpotMeta>,
                                  detailsFor: string -> Response<TokenDetails>, parseFloat: string -> real)
    ensures var lookup := GetTokenDetailsByName(asset, meta, detailsFor);
      GetAssetPrice(asset, false, mids, meta, detailsFor, parseFloat)
      == if lookup.details.Some? && lookup.details.value.midPx != ""
         then Some(parseFloat(lookup.details.value.midPx)) else None
  {
    FindTokenIgnoresCase(GetSpotMeta(meta).tokens, asset);
  }

  /** Looking a token up by the upper-cased asset finds the same token as by the asset itself. */
  lemma FindTokenIgnoresCase(tokens: seq<SpotToken>, asset: string)
    ensures FindToken(tokens, JsLib.ToUpperCase(asset)) == FindToken(tokens, asset)
  {
    JsLib.UpperCaseIdempotent(asset);
    JsLib.FindExtensional(tokens,
      (t: SpotToken) => JsLib.SameIgnoringCase(t.name, JsLib.ToUpperCase(asset)),
      (t: SpotToken) => JsLib.SameIgnoringCase(t.name, asset));
  }
}

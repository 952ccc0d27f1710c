/**
  `useCoreActions`: the contract writes the trade wizard uses, as pure
  functions from the wallet and the arguments to the call they send, and the
  raw-action encoder for the CoreWriter relay.
 */
module CoreActions {
  import opened Wrappers
  import opened Chain
  import JsLib

  const EncodingVersion: nat := 1

  const SpotSendAction: nat := 6

  const UsdtTokenId: int := 1105

  const UsdtUsdcSpotMarket: int := 11115
  const HypePerpMarket: int := 135

  // ---------------------------------------------------------------- raw actions

  /**
    The raw action for the relay: "0x", the version as at least two hex
    digits, the action id as at least six, then the ABI payload without its
    "0x".
   */
  function BuildActionWith(version: nat, actionId: nat, abiData: string): (r: string)
    ensures |r| >= 10 + |JsLib.SliceFrom2(abiData)|
    ensures r[..2] == "0x"
  {
    "0x" + JsLib.PadStart(JsLib.ToHex(version), 2, '0')
         + JsLib.PadStart(JsLib.ToHex(actionId), 6, '0')
         + JsLib.SliceFrom2(abiData)
  }

  /** `buildAction`, which always writes `ENCODING_VERSION`. */
  function BuildAction(actionId: nat, abiData: string): string
  {
    BuildActionWith(EncodingVersion, actionId, abiData)
  }

  datatype RawAction = RawAction(version: nat, actionId: nat, payload: string)

  /** Reads a fixed 8-digit header back: the inverse of `BuildActionWith` within its widths. */
  function DecodeAction(raw: string): Option<RawAction>
  {
    if |raw| >= 10 && raw[..2] == "0x" && JsLib.AllHex(raw[2..10]) then
      Some(RawAction(JsLib.FromHex(raw[2..4]), JsLib.FromHex(raw[4..10]), raw[10..]))
    else None
  }

  /** A padded hex field reads back as the number it encodes. */
  lemma PaddedHexRoundTrip(n: nat, width: nat)
    requires width >= 1 && n < JsLib.Pow16(width)
    ensures |JsLib.PadStart(JsLib.ToHex(n), width, '0')| == width
    ensures JsLib.AllHex(JsLib.PadStart(JsLib.ToHex(n), width, '0'))
    ensures JsLib.FromHex(JsLib.PadStart(JsLib.ToHex(n), width, '0')) == n
  {
    var h := JsLib.ToHex(n);
    JsLib.HexLength(n, width);
    JsLib.HexRoundTrip(n);
    var z := JsLib.Repeat('0', width - |h|);
    assert JsLib.PadStart(h, width, '0') == z + h;
    JsLib.FromHexLeadingZeros(z, h);
  }

  /**
    For a version below 256 and an action id below 2^24 the header is exactly
    eight hex digits and decoding gives back version, action id and payload.
   */
  lemma BuildActionRoundTrip(version: nat, actionId: nat, abiData: string)
    requires version < 256 && actionId < 0x100_0000
    ensures |BuildActionWith(version, actionId, abiData)| == 10 + |JsLib.SliceFrom2(abiData)|
    ensures DecodeAction(BuildActionWith(version, actionId, abiData))
         == Some(RawAction(version, actionId, JsLib.SliceFrom2(abiData)))
  {
    HeaderWidths();
    PaddedHexRoundTrip(version, 2);
    PaddedHexRoundTrip(actionId, 6);
    HeaderSlices(JsLib.PadStart(JsLib.ToHex(version), 2, '0'),
                 JsLib.PadStart(JsLib.ToHex(actionId), 6, '0'),
                 JsLib.SliceFrom2(abiData));
  }

  lemma HeaderWidths()
    ensures JsLib.Pow16(2) == 256 && JsLib.Pow16(6) == 0x100_0000
  {
    assert JsLib.Pow16(1) == 16;
    assert JsLib.Pow16(3) == 4096;
  }

  lemma HeaderSlices(v: string, a: string, t: string)
    requires |v| == 2 && |a| == 6
    ensures var r := "0x" + v + a + t;
      |r| == 10 + |t| && r[..2] == "0x" && r[2..4] == v && r[4..10] == a && r[2..10] == v + a && r[10..] == t
  {
  }

  /** `padStart` never truncates: a version from 256 or an id from 2^24 lengthens the header. */
  lemma WideFieldsLengthenHeader(version: nat, actionId: nat, abiData: string)
    requires version >= 256 || actionId >= 0x100_0000
    ensures |BuildActionWith(version, actionId, abiData)| > 10 + |JsLib.SliceFrom2(abiData)|
  {
    HeaderWidths();
    JsLib.HexLength(version, 2);
    JsLib.HexLength(actionId, 6);
  }

  /** The raw spot-send action always starts with version 01 and action 000006. */
  lemma SpotSendHeader(abiData: string)
    ensures BuildAction(SpotSendAction, abiData)[..10] == "0x01000006"
  {
    assert JsLib.ToHex(1) == "1";
    assert JsLib.ToHex(6) == "6";
    assert JsLib.PadStart("1", 2, '0') == "01";
    assert JsLib.PadStart("6", 6, '0') == "000006";
  }

  // ---------------------------------------------------------------- writes

  /** The connected account, once the guard has passed. */
  function Account(w: Wallet): string
    requires Connected(w)
  {
    w.address.value
  }

  function TransferUsdc(w: Wallet, amount: int, toPerp: bool): Plan
  {
    if !Connected(w) then Throws(WalletNotConnected)
    else Calls(ContractCall(Executor, "transferUSDCFromSpotToPerp", [AUint(amount), ABool(toPerp)], Account(w)))
  }

  function CloseHypeShort(w: Wallet, limitPrice: int, size: int): Plan
  {
    if !Connected(w) then Throws(WalletNotConnected)
    else Calls(ContractCall(Executor, "closeHypeShort", [AUint(limitPrice), AUint(size)], Account(w)))
  }

  /** Market 135 opens on the perp, market 11115 swaps on the spot book, any other market sends nothing. */
  function CreateOrder(w: Wallet, marketId: int, isBuy: bool, limitPrice: int, size: int): Plan
  {
    if !Connected(w) then Throws(WalletNotConnected)
    else if marketId == HypePerpMarket then
      Calls(ContractCall(Executor, "openHypeShort", [ABool(isBuy), AUint(limitPrice), AUint(size)], Account(w)))
    else if marketId == UsdtUsdcSpotMarket then
      Calls(ContractCall(Executor, "swapUSDT2USDC", [ABool(isBuy), AUint(limitPrice), AUint(size)], Account(w)))
    else NoCall
  }

  /**
    What viem's `encodeAbiParameters` gives for `(address recipient, uint64
    tokenId, uint64 weiAmount)`: the encoded bytes, or the error it throws (on
    a malformed address or a value outside uint64).
   */
  datatype Encoding = Encoded(hex: string) | EncodingFailed(message: string)

  /**
    USDT goes through the executor; any other token is a spot-send raw action
    on the CoreWriter relay, whose ABI encoding can throw before anything is
    sent. `abiEncode` stands for viem's encoder.
   */
  function TransferToEvm(w: Wallet, recipient: string, tokenId: int, amount: int,
                         abiEncode: (string, int, int) -> Encoding): Plan
  {
    if !Connected(w) then Throws(WalletNotConnected)
    else if tokenId == UsdtTokenId then
      Calls(ContractCall(Executor, "transferUSDT2Core", [AUint(amount)], Account(w)))
    else
      match abiEncode(recipient, tokenId, amount)
      case EncodingFailed(m) => Throws(m)
      case Encoded(hex) =>
        Calls(ContractCall(CoreWriter, "sendRawAction", [ABytes(BuildAction(SpotSendAction, hex))], Account(w)))
  }

  function TransferUsdcToSpot(w: Wallet, amount: int): Plan { TransferUsdc(w, amount, false) }

  function TransferUsdcToPerp(w: Wallet, amount: int): Plan { TransferUsdc(w, amount, true) }

  function SwapUsdcToUsdt(w: Wallet, isBuy: bool, limitPrice: int, size: int): Plan
  {
    CreateOrder(w, UsdtUsdcSpotMarket, isBuy, limitPrice, size)
  }

  function OpenHypeShort(w: Wallet, limitPrice: int, size: int): Plan
  {
    CreateOrder(w, HypePerpMarket, false, limitPrice, size)
  }

  /** `address!`: the recipient is whatever the account holds, which matters only past the guard. */
  function TransferUsdtToEvm(w: Wallet, amount: int, abiEncode: (string, int, int) -> Encoding): Plan
  {
    TransferToEvm(w, if w.address.Some? then w.address.value else "", UsdtTokenId, amount, abiEncode)
  }

  function OpenHypePosition(w: Wallet, isLong: bool, limitPrice: int, size: int): Plan
  {
    CreateOrder(w, HypePerpMarket, isLong, limitPrice, size)
  }

  // ---------------------------------------------------------------- the hook as a whole

  /** Every write the hook returns, with its arguments. */
  datatype Write =
    | TransferUsdcW(amount: int, toPerp: bool)
    | CloseHypeShortW(limitPrice: int, size: int)
    | CreateOrderW(marketId: int, isBuy: bool, limitPrice: int, size: int)
    | TransferToEvmW(recipient: string, tokenId: int, amount: int)
    | TransferUsdcToSpotW(amount: int)
    | TransferUsdcToPerpW(amount: int)
    | SwapUsdcToUsdtW(isBuy: bool, limitPrice: int, size: int)
    | OpenHypeShortW(limitPrice: int, size: int)
    | TransferUsdtToEvmW(amount: int)
    | OpenHypePositionW(isLong: bool, limitPrice: int, size: int)

  function Perform(w: Wallet, op: Write, abiEncode: (string, int, int) -> Encoding): Plan
  {
    match op
    case TransferUsdcW(a, t) => TransferUsdc(w, a, t)
    case CloseHypeShortW(p, s) => CloseHypeShort(w, p, s)
    case CreateOrderW(m, b, p, s) => CreateOrder(w, m, b, p, s)
    case TransferToEvmW(r, t, a) => TransferToEvm(w, r, t, a, abiEncode)
    case TransferUsdcToSpotW(a) => TransferUsdcToSpot(w, a)
    case TransferUsdcToPerpW(a) => TransferUsdcToPerp(w, a)
    case SwapUsdcToUsdtW(b, p, s) => SwapUsdcToUsdt(w, b, p, s)
    case OpenHypeShortW(p, s) => OpenHypeShort(w, p, s)
    case TransferUsdtToEvmW(a) => TransferUsdtToEvm(w, a, abiEncode)
    case OpenHypePositionW(l, p, s) => OpenHypePosition(w, l, p, s)
  }

  /** A non-USDT `transferToEVM` whose ABI encoding throws. */
  predicate EncodingFails(op: Write, abiEncode: (string, int, int) -> Encoding) {
    op.TransferToEvmW? && op.tokenId != UsdtTokenId && abiEncode(op.recipient, op.tokenId, op.amount).EncodingFailed?
  }

  /**
    The guard of every write: without a connected wallet it throws "Wallet not
    connected" and sends nothing. With one, the only throw is the encoder's
    error on a non-USDT `transferToEVM`, and whatever is sent is signed by the
    connected account.
   */
  lemma WalletGuard(w: Wallet, op: Write, abiEncode: (string, int, int) -> Encoding)
    ensures !Connected(w) ==> Perform(w, op, abiEncode) == Throws(WalletNotConnected)
    ensures Connected(w) ==> (Perform(w, op, abiEncode).Throws? <==> EncodingFails(op, abiEncode))
    ensures Connected(w) && EncodingFails(op, abiEncode) ==>
      Perform(w, op, abiEncode) == Throws(abiEncode(op.recipient, op.tokenId, op.amount).message)
    ensures Perform(w, op, abiEncode).Calls? ==> Connected(w) && Perform(w, op, abiEncode).call.account == w.address.value
  {
  }

  /** Only `createOrder` (directly) can return without sending: for a market other than 135 and 11115. */
  lemma OnlyUnknownMarketsSendNothing(w: Wallet, op: Write, abiEncode: (string, int, int) -> Encoding)
    requires Connected(w)
    ensures Perform(w, op, abiEncode) == NoCall
        <==> op.CreateOrderW? && op.marketId != HypePerpMarket && op.marketId != UsdtUsdcSpotMarket
  {
  }

  /** `createOrder` routing by market id. */
  lemma CreateOrderRouting(w: Wallet, marketId: int, isBuy: bool, limitPrice: int, size: int)
    requires Connected(w)
    ensures marketId == HypePerpMarket ==>
      CreateOrder(w, marketId, isBuy, limitPrice, size)
      == Calls(ContractCall(Executor, "openHypeShort", [ABool(isBuy), AUint(limitPrice), AUint(size)], w.address.value))
    ensures marketId == UsdtUsdcSpotMarket ==>
      CreateOrder(w, marketId, isBuy, limitPrice, size)
      == Calls(ContractCall(Executor, "swapUSDT2USDC", [ABool(isBuy), AUint(limitPrice), AUint(size)], w.address.value))
    ensures marketId != HypePerpMarket && marketId != UsdtUsdcSpotMarket ==>
        CreateOrder(w, marketId, isBuy, limitPrice, size) == NoCall
  {
  }

  /** `closeHypeShort` throws without a wallet and otherwise calls the executor with price and size. */
  lemma CloseHypeShortRouting(w: Wallet, limitPrice: int, size: int)
    ensures !Connected(w) ==> CloseHypeShort(w, limitPrice, size) == Throws(WalletNotConnected)
    ensures Connected(w) ==>
      CloseHypeShort(w, limitPrice, size)
      == Calls(ContractCall(Executor, "closeHypeShort", [AUint(limitPrice), AUint(size)], w.address.value))
  {
  }

  /**
    `transferToEVM` routing: USDT calls the executor and ignores the
    recipient; any other token throws the encoder's error when the encoding
    fails, and otherwise sends a raw action to the relay whose header decodes
    to version 1, action SPOT_SEND.
   */
  lemma TransferToEvmRouting(w: Wallet, recipient: string, tokenId: int, amount: int,
                             abiEncode: (string, int, int) -> Encoding)
    requires Connected(w)
    ensures tokenId == UsdtTokenId ==>
      TransferToEvm(w, recipient, tokenId, amount, abiEncode)
      == Calls(ContractCall(Executor, "transferUSDT2Core", [AUint(amount)], w.address.value))
    ensures tokenId != UsdtTokenId && abiEncode(recipient, tokenId, amount).EncodingFailed? ==>
      TransferToEvm(w, recipient, tokenId, amount, abiEncode)
      == Throws(abiEncode(recipient, tokenId, amount).message)
    ensures tokenId != UsdtTokenId && abiEncode(recipient, tokenId, amount).Encoded? ==>
        var p := TransferToEvm(w, recipient, tokenId, amount, abiEncode);
        && p.Calls? && p.call.target == CoreWriter && p.call.functionName == "sendRawAction"
        && |p.call.args| == 1 && p.call.args[0].ABytes?
        && p.call.args[0].hex[..10] == "0x01000006"
        && DecodeAction(p.call.args[0].hex)
           == Some(RawAction(EncodingVersion, SpotSendAction, JsLib.SliceFrom2(abiEncode(recipient, tokenId, amount).hex)))
  {
    var enc := abiEncode(recipient, tokenId, amount);
    if tokenId != UsdtTokenId && enc.Encoded? {
      SpotSendHeader(enc.hex);
      BuildActionRoundTrip(EncodingVersion, SpotSendAction, enc.hex);
    }
  }

  /** The wrappers only fix a market, a side or a direction of the function they call. */
  lemma WrappersFixTheirArguments(w: Wallet, amount: int, isBuy: bool, limitPrice: int, size: int,
                                  recipient: string, abiEncode: (string, int, int) -> Encoding)
    ensures TransferUsdcToSpot(w, amount) == TransferUsdc(w, amount, false)
    ensures TransferUsdcToPerp(w, amount) == TransferUsdc(w, amount, true)
    ensures SwapUsdcToUsdt(w, isBuy, limitPrice, size) == CreateOrder(w, 11115, isBuy, limitPrice, size)
    ensures OpenHypeShort(w, limitPrice, size) == CreateOrder(w, 135, false, limitPrice, size)
    ensures OpenHypePosition(w, isBuy, limitPrice, size) == CreateOrder(w, 135, isBuy, limitPrice, size)
    ensures TransferUsdtToEvm(w, amount, abiEncode) == TransferToEvm(w, recipient, 1105, amount, abiEncode)
  {
  }

  /** Both USDC transfers call `transferUSDCFromSpotToPerp`, differing only in the `toPerp` flag. */
  lemma UsdcTransferDirection(w: Wallet, amount: int)
    requires Connected(w)
    ensures TransferUsdcToSpot(w, amount).call.args == [AUint(amount), ABool(false)]
    ensures TransferUsdcToPerp(w, amount).call.args == [AUint(amount), ABool(true)]
    ensures TransferUsdcToSpot(w, amount).call.(args := []) == TransferUsdcToPerp(w, amount).call.(args := [])
    ensures TransferUsdcToSpot(w, amount).call.functionName == "transferUSDCFromSpotToPerp"
  {
  }
}

/**
  `features/wallet/walletSlice.ts`: whether a wallet is connected and its
  address. The slice object's reducers assign its two fields in place; `Apply`
  is the reducer on a snapshot, and the lemmas are about it.
 */
module WalletSlice {
  import opened Wrappers

  datatype WalletState = WalletState(connected: bool, address: Option<string>)

  datatype WalletAction = Connect(payload: Option<string>) | Disconnect | SetAddress(payload: Option<string>)

  const Initial: WalletState := WalletState(false, None)

  function Apply(s: WalletState, a: WalletAction): WalletState
  {
    match a
    case Connect(p) => s.(connected := true, address := p)
    case Disconnect => s.(connected := false, address := None)
    case SetAddress(p) => s.(address := p)
  }

  /** "Not connected implies no address". */
  predicate Consistent(s: WalletState) {
    !s.connected ==> s.address.None?
  }

  /** `connect` records the address and marks the wallet connected, whatever came before. */
  lemma ConnectSetsBoth(s: WalletState, p: Option<string>)
    ensures Apply(s, Connect(p)) == WalletState(true, p)
  {
  }

  /** `disconnect` yields the initial state from any state, so doing it twice is doing it once. */
  lemma DisconnectResets(s: WalletState)
    ensures Apply(s, Disconnect) == Initial
    ensures Apply(Apply(s, Disconnect), Disconnect) == Apply(s, Disconnect)
  {
  }

  /** `setAddress` changes only the address. */
  lemma SetAddressFrame(s: WalletState, p: Option<string>)
    ensures Apply(s, SetAddress(p)).connected == s.connected
    ensures Apply(s, SetAddress(p)).address == p
  {
  }

  /**
    The initial state is consistent and `connect`/`disconnect` keep any state
    consistent; `setAddress` keeps it exactly when the wallet is connected or
    the new address is null.
   */
  lemma ConsistencyPreserved(s: WalletState, a: WalletAction)
    requires Consistent(s)
    ensures Consistent(Initial)
    ensures !a.SetAddress? ==> Consistent(Apply(s, a))
    ensures a.SetAddress? ==> (Consistent(Apply(s, a)) <==> s.connected || a.payload.None?)
  {
  }

  /** The counterexample: an address set on a disconnected wallet. */
  lemma SetAddressWhileDisconnectedBreaksConsistency(p: string)
    ensures !Consistent(Apply(Initial, SetAddress(Some(p))))
  {
  }

  class Slice {
    var connected: bool
    var address: Option<string>

    function Snapshot(): WalletState
      reads this
    {
      WalletState(connected, address)
    }

    constructor ()
      ensures Snapshot() == Initial
    {
      connected := false;
      address := None;
    }

    method ConnectReducer(payload: Option<string>)
      modifies this
      ensures Snapshot() == Apply(old(Snapshot()), Connect(payload))
    {
      connected := true;
      address := payload;
    }

    method DisconnectReducer()
      modifies this
      ensures Snapshot() == Apply(old(Snapshot()), Disconnect)
    {
      connected := false;
      address := None;
    }

    method SetAddressReducer(payload: Option<string>)
      modifies this
      ensures Snapshot() == Apply(old(Snapshot()), SetAddress(payload))
    {
      address := payload;
    }
  }
}

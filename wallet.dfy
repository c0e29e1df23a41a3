/** The three wallet operations `WalletProviderContent` offers its children
    (frontend/src/components/WalletProvider.tsx:48-101). Each looks up one
    wallet-standard feature on the current wallet and forwards to it. The two
    signing operations throw when no wallet is connected or the feature is
    missing; effect reporting returns quietly instead. The feature itself is
    the wallet's code: a successful guard is modelled as the request the
    feature receives, and what the feature then answers is not modelled. */
module Wallet {
  import opened Common

  /** The wallet-standard features the provider looks up. */
  datatype Feature = SignAndExecuteTransactionBlock | SignTransactionBlock | ReportTransactionEffects
  {
    function Name(): string {
      match this
      case SignAndExecuteTransactionBlock => "sui:signAndExecuteTransactionBlock"
      case SignTransactionBlock => "sui:signTransactionBlock"
      case ReportTransactionEffects => "sui:reportTransactionEffects"
    }
  }

  /** A wallet as far as the guards see it: the names of its features. */
  datatype WalletInfo = WalletInfo(features: set<string>)

  /** What `useCurrentWallet()` reports. */
  datatype WalletState = WalletState(isConnected: bool, currentWallet: Option<WalletInfo>)

  /** The request a feature receives: the payload (a transaction or an effects
      record), the account, and the chain `sui:<network>`. */
  datatype FeatureRequest<P> = FeatureRequest(feature: Feature, input: P, account: string, chain: string)

  datatype WalletError = NoWalletConnected | Unsupported(feature: Feature)
  {
    /** The text of the thrown `Error`. Reporting never throws, so the last
        text is never shown; it only completes the match. */
    function Message(): string {
      match this
      case NoWalletConnected => "No wallet connected"
      case Unsupported(SignAndExecuteTransactionBlock) => "Wallet does not support signAndExecuteTransactionBlock"
      case Unsupported(SignTransactionBlock) => "Wallet does not support signTransactionBlock"
      case Unsupported(ReportTransactionEffects) => "Wallet does not support reportTransactionEffects"
    }
  }

  /** The capability check every operation starts with: connected, a current
      wallet, and the feature present, in that order. */
  function Check(state: WalletState, feature: Feature): (r: Result<(), WalletError>)
    ensures r.Ok? <==> state.isConnected && state.currentWallet.Some?
                       && feature.Name() in state.currentWallet.value.features
    ensures r == Err(NoWalletConnected) <==> !state.isConnected || state.currentWallet.None?
    ensures r.Err? ==> r.error in {NoWalletConnected, Unsupported(feature)}
  {
    if !state.isConnected || state.currentWallet.None? then Err(NoWalletConnected)
    else if feature.Name() !in state.currentWallet.value.features then Err(Unsupported(feature))
    else Ok(())
  }

  function Chain(network: string): string
  {
    "sui:" + network
  }

  /** `signAndExecuteTransaction(tx, account)` */
  function SignAndExecuteTransaction<T>(state: WalletState, network: string, tx: T, account: string)
    : (r: Result<FeatureRequest<T>, WalletError>)
    ensures r.Ok? <==> Check(state, SignAndExecuteTransactionBlock).Ok?
    ensures r.Ok? ==> r.value == FeatureRequest(SignAndExecuteTransactionBlock, tx, account, Chain(network))
    ensures r.Err? ==> r.error == Check(state, SignAndExecuteTransactionBlock).error
  {
    match Check(state, SignAndExecuteTransactionBlock)
    case Err(e) => Err(e)
    case Ok(_) => Ok(FeatureRequest(SignAndExecuteTransactionBlock, tx, account, Chain(network)))
  }

  /** `signTransaction(tx, account)`: the same guards, on its own feature. */
  function SignTransaction<T>(state: WalletState, network: string, tx: T, account: string)
    : (r: Result<FeatureRequest<T>, WalletError>)
    ensures r.Ok? <==> Check(state, SignTransactionBlock).Ok?
    ensures r.Ok? ==> r.value == FeatureRequest(SignTransactionBlock, tx, account, Chain(network))
    ensures r.Err? ==> r.error == Check(state, SignTransactionBlock).error
  {
    match Check(state, SignTransactionBlock)
    case Err(e) => Err(e)
    case Ok(_) => Ok(FeatureRequest(SignTransactionBlock, tx, account, Chain(network)))
  }

  /** `reportTransactionEffects(effects, account)`: never throws for a missing
      wallet or feature; None means it returned without calling anything. */
  function ReportEffects<E>(state: WalletState, network: string, effects: E, account: string)
    : (r: Option<FeatureRequest<E>>)
    ensures r.Some? <==> Check(state, ReportTransactionEffects).Ok?
    ensures r.Some? ==> r.value == FeatureRequest(ReportTransactionEffects, effects, account, Chain(network))
  {
    match Check(state, ReportTransactionEffects)
    case Err(_) => None
    case Ok(_) => Some(FeatureRequest(ReportTransactionEffects, effects, account, Chain(network)))
  }

  /** The three operations share the connection guard: when one fails with
      "No wallet connected" the other signer fails the same way and reporting
      does nothing; and a feature is only ever invoked on a connected wallet
      that lists it. */
  lemma SharedConnectionGuard<T, E>(state: WalletState, network: string, tx: T, effects: E, account: string)
    ensures SignAndExecuteTransaction(state, network, tx, account) == Err(NoWalletConnected)
        <==> SignTransaction(state, network, tx, account) == Err(NoWalletConnected)
    ensures SignAndExecuteTransaction(state, network, tx, account) == Err(NoWalletConnected)
        ==> ReportEffects(state, network, effects, account).None?
    ensures ReportEffects(state, network, effects, account).Some? ==>
              state.isConnected && state.currentWallet.Some?
              && ReportTransactionEffects.Name() in state.currentWallet.value.features
  {
  }

  /** A connected wallet that offers both signing features but not effect
      reporting forwards both signing calls and silently skips reporting. */
  lemma SigningOnlyWallet<T, E>(state: WalletState, network: string, tx: T, effects: E, account: string)
    requires state.isConnected && state.currentWallet.Some?
    requires SignAndExecuteTransactionBlock.Name() in state.currentWallet.value.features
    requires SignTransactionBlock.Name() in state.currentWallet.value.features
    requires ReportTransactionEffects.Name() !in state.currentWallet.value.features
    ensures SignAndExecuteTransaction(state, network, tx, account)
              == Ok(FeatureRequest(SignAndExecuteTransactionBlock, tx, account, Chain(network)))
    ensures SignTransaction(state, network, tx, account)
              == Ok(FeatureRequest(SignTransactionBlock, tx, account, Chain(network)))
    ensures ReportEffects(state, network, effects, account) == None
  {
  }

  /** The names of the three features differ, so a wallet can offer the
      signing features without the reporting one. */
  lemma FeatureNamesDistinct(f1: Feature, f2: Feature)
    ensures f1.Name() == f2.Name() <==> f1 == f2
  {
    if f1 != f2 {
      assert f1.Name()[4..] != f2.Name()[4..];
    }
  }
}

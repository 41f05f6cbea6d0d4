/**
 * The connection gate of the page: every remote step first asks for a
 * provider, or a signer, and gets one only on the supported network.
 */
module Network {
  import opened Wrappers

  /** The chain id of the Rinkeby test network, the only one the page accepts. */
  const SupportedChainId: int := 4

  /**
   * What the wallet collaborator yields on one connection attempt:
   * `Unreachable` when connecting or reading the network throws,
   * otherwise the chain id the wallet reports.
   */
  datatype Provider = Unreachable | Reachable(chainId: int)

  /** A read-only provider, or a signer bound to the active account. */
  datatype Handle = ReadOnly | Signer

  predicate OnSupportedNetwork(p: Provider) {
    p.Reachable? && p.chainId == SupportedChainId
  }

  /**
   * `getProviderOrSigner(needSigner)`: swallows every failure and yields
   * no handle instead, so callers never see an exception from it.
   */
  function ProviderOrSigner(p: Provider, needSigner: bool): (h: Option<Handle>)
    ensures h.None? <==> !OnSupportedNetwork(p)
    ensures h == Some(Signer) <==> OnSupportedNetwork(p) && needSigner
    ensures h == Some(ReadOnly) <==> OnSupportedNetwork(p) && !needSigner
  {
    match p
    case Unreachable => None
    case Reachable(chainId) =>
      if chainId != SupportedChainId then None
      else if needSigner then Some(Signer)
      else Some(ReadOnly)
  }

  /** Any other network gives no handle, whatever is asked for. */
  lemma WrongNetworkGivesNoHandle(chainId: int, needSigner: bool)
    requires chainId != SupportedChainId
    ensures ProviderOrSigner(Reachable(chainId), needSigner) == None
  {
  }
}

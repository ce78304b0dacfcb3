/** The chains the service knows, in the order their identifiers sort. */
module Chains {
  datatype Chain = BaseMainnet | EthereumMainnet | UnsupportedChain(id: nat)

  predicate Supported(c: Chain) {
    !c.UnsupportedChain?
  }

  function ChainRank(c: Chain): nat {
    match c
    case BaseMainnet => 0
    case EthereumMainnet => 1
    case UnsupportedChain(id) => 2 + id
  }
}

/** The fixed configuration of the minter: the ticket contract, the price,
    the required network and the explorer links built from them. */
module Config {

  /** The deployed ticket contract every mint request is sent to. */
  const EventTicketContract: string := "0xd9145CCE52D386f254917e481eB44e9943F39138"

  /** The ticket price in ether, as written in the configuration. */
  const TicketPrice: string := "0.00001"

  /** The ticket price in wei, `parseEther("0.00001")`: 0.00001 * 10^18 = 10^13. */
  const TicketPriceWei: nat := 10_000_000_000_000

  /** Chain id of Ethereum Sepolia, the only network the button allows. */
  const SepoliaChainId: int := 11155111

  const SepoliaName: string := "Ethereum Sepolia"

  /** Block explorer base URL; it already ends in '/'. */
  const BlockExplorer: string := "https://sepolia.etherscan.io/"

  const OpenSeaCollectionLink: string := "https://testnets.opensea.io/assets/sepolia/" + EventTicketContract

  /** Explorer link for a transaction, concatenated as the code does (the base's
      trailing '/' followed by "/tx/" gives a double slash). */
  function EtherscanTxLink(hash: string): (link: string)
    ensures |link| == |BlockExplorer| + 4 + |hash|
    ensures link[..|BlockExplorer|] == BlockExplorer
    ensures link[|BlockExplorer| - 1..|BlockExplorer| + 4] == "//tx/"
    ensures link[|BlockExplorer| + 4..] == hash
  {
    BlockExplorer + "/tx/" + hash
  }
}

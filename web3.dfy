/**
 * The web3 library's pure part: the task and wallet records, the table of
 * supported chains, the reverse lookup from a chain's hex id, the short
 * display form of an address, the disconnected wallet and the sample
 * tasks. The wallet provider itself is not modelled.
 */
module Web3 {
  import opened Wrappers

  datatype Web3TaskType = Mint | Claim | Vote | Stake | Bridge | Swap | Sign | Custom
  datatype ChainId = Ethereum | Polygon | Arbitrum | Base | Optimism | Solana

  datatype Web3Task = Web3Task(
    id: string,
    kind: Web3TaskType,
    title: string,
    description: Option<string>,
    chain: ChainId,
    contractAddress: Option<string>,
    deadline: Option<int>,
    estimatedGas: Option<string>,
    value: Option<string>,
    deepLink: Option<string>,
    completed: bool)

  datatype WalletState = WalletState(
    isConnected: bool,
    address: Option<string>,
    chainId: Option<ChainId>,
    balance: Option<string>)

  datatype ChainConfig = ChainConfig(name: string, chainIdHex: string, rpcUrl: string, explorer: string)

  /** The `chains` table. */
  function Chain(c: ChainId): ChainConfig {
    match c
    case Ethereum => ChainConfig("Ethereum", "0x1", "https://eth.llamarpc.com", "https://etherscan.io")
    case Polygon => ChainConfig("Polygon", "0x89", "https://polygon.llamarpc.com", "https://polygonscan.com")
    case Arbitrum => ChainConfig("Arbitrum", "0xa4b1", "https://arb1.arbitrum.io/rpc", "https://arbiscan.io")
    case Base => ChainConfig("Base", "0x2105", "https://mainnet.base.org", "https://basescan.org")
    case Optimism => ChainConfig("Optimism", "0xa", "https://mainnet.optimism.io", "https://optimistic.etherscan.io")
    case Solana => ChainConfig("Solana", "solana", "https://api.mainnet-beta.solana.com", "https://solscan.io")
  }

  /** The table's entries in declaration order, the order `Object.entries` visits them. */
  const ChainOrder: seq<ChainId> := [Ethereum, Polygon, Arbitrum, Base, Optimism, Solana]

  lemma ChainOrderComplete(c: ChainId)
    ensures c in ChainOrder
  {
  }

  /** No two chains share a hex id, so the hex id identifies the chain. */
  lemma HexIdsDistinct(a: ChainId, b: ChainId)
    ensures Chain(a).chainIdHex == Chain(b).chainIdHex ==> a == b
  {
  }

  /**
   * `getChainIdFromHex`: walks the table and returns the first chain with
   * this hex id, or nothing. Since the hex ids are distinct, the chain
   * found is the only one with that id.
   */
  method GetChainIdFromHex(hex: string) returns (r: Option<ChainId>)
    ensures r.Some? ==> Chain(r.value).chainIdHex == hex
    ensures r.None? <==> forall c :: Chain(c).chainIdHex != hex
    ensures forall c :: Chain(c).chainIdHex == hex ==> r == Some(c)
  {
    var i := 0;
    while i < |ChainOrder|
      invariant 0 <= i <= |ChainOrder|
      invariant forall j :: 0 <= j < i ==> Chain(ChainOrder[j]).chainIdHex != hex
    {
      var c := ChainOrder[i];
      if Chain(c).chainIdHex == hex {
        forall d | Chain(d).chainIdHex == hex ensures d == c {
          HexIdsDistinct(c, d);
        }
        return Some(c);
      }
      i := i + 1;
    }
    forall c ensures Chain(c).chainIdHex != hex {
      ChainOrderComplete(c);
      var j :| 0 <= j < |ChainOrder| && ChainOrder[j] == c;
    }
    return None;
  }

  /** `s.slice(0, n)` for `n >= 0`. */
  function Take(s: string, n: nat): (r: string)
    ensures |r| == if n < |s| then n else |s|
    ensures r == s[..|r|]
  {
    if n < |s| then s[..n] else s
  }

  /** `s.slice(-n)` for `n > 0`: the last `n` characters, or all of a shorter string. */
  function TakeLast(s: string, n: nat): (r: string)
    ensures |r| == if n < |s| then n else |s|
    ensures r == s[|s| - |r|..]
  {
    if n < |s| then s[|s| - n..] else s
  }

  /** `formatAddress`: the first six characters, `...`, and the last four. */
  function FormatAddress(address: string): (r: string)
    ensures var head := if |address| < 6 then |address| else 6;
            var tail := if |address| < 4 then |address| else 4;
            |r| == head + 3 + tail
            && r[..head] == address[..head]
            && r[head..head + 3] == "..."
            && r[head + 3..] == address[|address| - tail..]
  {
    Take(address, 6) + "..." + TakeLast(address, 4)
  }

  /** An address of ten characters or more is shown in thirteen. */
  lemma FormatLongAddress(address: string)
    requires |address| >= 10
    ensures |FormatAddress(address)| == 13
    ensures FormatAddress(address) == address[..6] + "..." + address[|address| - 4..]
  {
    var r := FormatAddress(address);
    assert r == r[..6] + r[6..9] + r[9..];
  }

  /** `disconnectWallet`: not connected, with no address, chain or balance. */
  const Disconnected := WalletState(false, None, None, None)

  function DisconnectWallet(): (w: WalletState)
    ensures !w.isConnected && w.address.None? && w.chainId.None? && w.balance.None?
  {
    Disconnected
  }

  /** 48 hours in milliseconds: how long the sample airdrop claim stays open. */
  const AirdropWindow := 48 * 60 * 60 * 1000

  /** `createSampleWeb3Tasks` at time `now`: four pending tasks. */
  function CreateSampleWeb3Tasks(now: int): (r: seq<Web3Task>)
    ensures |r| == 4
    ensures forall i :: 0 <= i < |r| ==> !r[i].completed
    ensures r[0].deadline == Some(now + 172_800_000)
    ensures forall i :: 1 <= i < |r| ==> r[i].deadline.None?
    ensures forall i, j :: 0 <= i < j < |r| ==> r[i].id != r[j].id
  {
    [ Web3Task("w3-1", Claim, "Claim your AIRDROP", Some("You have unclaimed tokens waiting!"), Ethereum,
               None, Some(now + AirdropWindow), None, None, Some("https://app.uniswap.org"), false),
      Web3Task("w3-2", Vote, "Vote on governance proposal", Some("Your tokens want to be heard"), Ethereum,
               None, None, None, None, Some("https://snapshot.org"), false),
      Web3Task("w3-3", Stake, "Stake ETH for rewards", Some("Earn passive income on your holdings"), Ethereum,
               None, None, Some("0.002 ETH"), None, None, false),
      Web3Task("w3-4", Mint, "Mint daily NFT reward", Some("Free mint for active users"), Base,
               None, None, None, None, Some("https://opensea.io"), false) ]
  }
}

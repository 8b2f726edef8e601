/**
 * The MemeCore network table of lib/memecore/config.ts and the explorer
 * links built from it.
 */
module MemecoreConfig {
  import opened Wrappers
  import opened Strings

  datatype Network = Mainnet | Insectarium | Formicarium

  datatype NetworkConfig = NetworkConfig(
    name: string,
    chainId: nat,
    rpcUrl: string,
    wsUrl: string,
    explorerUrl: string,
    faucetUrl: Option<string>,
    symbol: string)

  /** `DEFAULT_INITIAL_SUPPLY`: one billion tokens. */
  const DEFAULT_INITIAL_SUPPLY: nat := 1_000_000_000

  /** `MEMECORE_NETWORKS`, entry by entry; `getNetworkConfig` is this lookup. */
  function GetNetworkConfig(network: Network): (c: NetworkConfig)
    ensures c.symbol == "M"
    ensures |c.explorerUrl| >= 2 && EndsWith(c.explorerUrl, "/") && !EndsWith(c.explorerUrl, "//")
    ensures c.faucetUrl.Some? <==> network != Mainnet
  {
    match network
    case Mainnet => NetworkConfig(
      "MemeCore Mainnet", 4352,
      "https://rpc.memecore.net/", "wss://ws.memecore.net",
      "https://memecorescan.io/", None, "M")
    case Insectarium => NetworkConfig(
      "MemeCore Insectarium Testnet", 43522,
      "https://rpc.insectarium.memecore.net/", "wss://ws.insectarium.memecore.net",
      "https://insectarium.blockscout.memecore.com/",
      Some("https://faucet.memecore.com/insectarium"), "M")
    case Formicarium => NetworkConfig(
      "MemeCore Formicarium Testnet", 43521,
      "https://rpc.formicarium.memecore.net/", "wss://ws.formicarium.memecore.net",
      "https://formicarium.memecorescan.io/",
      Some("https://faucet.memecore.com/formicarium"), "M")
  }

  /** The table has three networks with three different chain ids: 4352, 43522 and 43521. */
  lemma ChainIdsDistinct(a: Network, b: Network)
    ensures GetNetworkConfig(a).chainId in {4352, 43522, 43521}
    ensures a != b ==> GetNetworkConfig(a).chainId != GetNetworkConfig(b).chainId
  {
  }

  /** The key of a network in `MEMECORE_NETWORKS`, its `MemecoreNetwork` name. */
  function Key(network: Network): (key: string)
    ensures key in {"mainnet", "insectarium", "formicarium"}
  {
    match network
    case Mainnet => "mainnet"
    case Insectarium => "insectarium"
    case Formicarium => "formicarium"
  }

  /**
   * `DEFAULT_NETWORK`: the `MEMECORE_NETWORK` variable when set, else
   * insectarium. A value that names no network is passed on unchecked and
   * makes the later lookup yield `undefined`, shown here as None.
   */
  function DefaultNetwork(env: string): (n: Option<Network>)
    ensures env == "" ==> n == Some(Insectarium)
    ensures env == "mainnet" ==> n == Some(Mainnet)
    ensures env == "insectarium" ==> n == Some(Insectarium)
    ensures env == "formicarium" ==> n == Some(Formicarium)
    ensures env != "" && n.Some? ==> Key(n.value) == env
    ensures n.None? <==> env !in {"", "mainnet", "insectarium", "formicarium"}
  {
    if env == "" || env == "insectarium" then Some(Insectarium)
    else if env == "mainnet" then Some(Mainnet)
    else if env == "formicarium" then Some(Formicarium)
    else None
  }

  /** Setting the variable to a network's key selects that network, and only it. */
  lemma EveryKeySelectsItsNetwork(network: Network, env: string)
    ensures DefaultNetwork(Key(network)) == Some(network)
    ensures DefaultNetwork(env) == Some(network) && env != "" ==> env == Key(network)
  {
  }

  /** `getExplorerUrl`: the network's explorer root, then "address/", then the address. */
  function GetExplorerUrl(network: Network, address: string): (url: string)
    ensures var root := GetNetworkConfig(network).explorerUrl;
      StartsWith(url, root) && url[|root|..] == "address/" + address
  {
    GetNetworkConfig(network).explorerUrl + "address/" + address
  }

  /** `getTxExplorerUrl`: the network's explorer root, then "tx/", then the hash. */
  function GetTxExplorerUrl(network: Network, txHash: string): (url: string)
    ensures var root := GetNetworkConfig(network).explorerUrl;
      StartsWith(url, root) && url[|root|..] == "tx/" + txHash
  {
    GetNetworkConfig(network).explorerUrl + "tx/" + txHash
  }

  /**
   * Because every explorer root ends in exactly one "/", the path segment of
   * a built link is preceded by a single separator.
   */
  lemma SingleSeparator(network: Network, address: string, txHash: string)
    ensures var n := |GetNetworkConfig(network).explorerUrl|;
      && GetExplorerUrl(network, address)[n - 1] == '/'
      && GetExplorerUrl(network, address)[n - 2] != '/'
      && GetExplorerUrl(network, address)[n..n + 8] == "address/"
      && GetTxExplorerUrl(network, txHash)[n - 1] == '/'
      && GetTxExplorerUrl(network, txHash)[n - 2] != '/'
      && GetTxExplorerUrl(network, txHash)[n..n + 3] == "tx/"
  {
    var root := GetNetworkConfig(network).explorerUrl;
    RootThenSegment(root, "address/", address, GetExplorerUrl(network, address));
    RootThenSegment(root, "tx/", txHash, GetTxExplorerUrl(network, txHash));
  }

  /** A root ending in one "/" followed by a segment keeps that lone separator. */
  lemma RootThenSegment(root: string, segment: string, tail: string, url: string)
    requires |root| >= 2 && EndsWith(root, "/") && !EndsWith(root, "//")
    requires url == root + segment + tail
    ensures url[|root| - 1] == '/' && url[|root| - 2] != '/'
    ensures url[|root|..|root| + |segment|] == segment
  {
    var n := |root|;
    assert root[n - 1..] == "/";
    assert root[n - 1] == '/';
    assert root[n - 2..] == [root[n - 2], root[n - 1]];
    assert url[..n] == root;
  }
}

/**
 * The cluster names of packages/gill/src/types/rpc.ts: the moniker union
 * (`"mainnet" | "devnet" | "testnet" | "localnet"`) and the `Cluster` enum.
 */
module RpcTypes {
  import opened Wrappers

  /** `SolanaClusterMoniker`: the four public network names. */
  datatype Moniker = MainnetMoniker | DevnetMoniker | TestnetMoniker | LocalnetMoniker

  /** The `Cluster` enum; each member carries the same string as the matching moniker. */
  datatype Cluster = Mainnet | Devnet | Localnet | Testnet

  function MonikerName(m: Moniker): string
  {
    match m
    case MainnetMoniker => "mainnet"
    case DevnetMoniker => "devnet"
    case TestnetMoniker => "testnet"
    case LocalnetMoniker => "localnet"
  }

  /** The string value of a `Cluster` enum member. */
  function ClusterName(c: Cluster): string
  {
    match c
    case Mainnet => "mainnet"
    case Devnet => "devnet"
    case Localnet => "localnet"
    case Testnet => "testnet"
  }

  /** Recognises a moniker string; every other string is not a moniker. */
  function ParseMoniker(s: string): (r: Option<Moniker>)
    ensures r.Some? ==> MonikerName(r.value) == s
  {
    if s == "mainnet" then Some(MainnetMoniker)
    else if s == "devnet" then Some(DevnetMoniker)
    else if s == "testnet" then Some(TestnetMoniker)
    else if s == "localnet" then Some(LocalnetMoniker)
    else None
  }

  /** The moniker names round-trip through ParseMoniker, so the four names are distinct. */
  lemma MonikerRoundTrip(m: Moniker)
    ensures ParseMoniker(MonikerName(m)) == Some(m)
  {
  }

  /** The enum's string values are exactly the moniker names (rpc.ts:17 against rpc.ts:27-32). */
  lemma ClusterNamesAreMonikers(c: Cluster)
    ensures ParseMoniker(ClusterName(c)).Some?
    ensures ClusterName(c) == MonikerName(ParseMoniker(ClusterName(c)).value)
  {
  }
}

/** The environment lookup and the static network table of the deployment script. */
module Network {
  import opened Wrappers
  import opened Failures

  /** The process environment. */
  type Env = map<string, string>

  /** `env(name, fallback)`: the variable's value, or `fallback` when it is unset or empty. */
  function EnvOr(env: Env, name: string, fallback: string): (r: string)
    ensures r == fallback || (name in env && env[name] == r && r != "")
    ensures name in env && env[name] != "" ==> r == env[name]
  {
    if name in env && env[name] != "" then env[name] else fallback
  }

  /** `HARDHAT_NETWORK || NETWORK || "mainnet"`: JavaScript's `||` skips
      unset and empty variables exactly as `env` does. */
  function NetworkName(env: Env): (name: string)
    ensures name != ""
    ensures "HARDHAT_NETWORK" in env && env["HARDHAT_NETWORK"] != "" ==> name == env["HARDHAT_NETWORK"]
    ensures name == "mainnet" || name == EnvOr(env, "HARDHAT_NETWORK", "") || name == EnvOr(env, "NETWORK", "")
    ensures !("HARDHAT_NETWORK" in env && env["HARDHAT_NETWORK"] != "") ==> name == EnvOr(env, "NETWORK", "mainnet")
  {
    EnvOr(env, "HARDHAT_NETWORK", EnvOr(env, "NETWORK", "mainnet"))
  }

  datatype NetConfig = NetConfig(name: string, chainId: nat, rpc: string)

  /** The supported networks and their chain identifiers. */
  const ChainIds: map<string, nat> :=
    map["mainnet" := 1, "sepolia" := 11155111, "arbitrumOne" := 42161, "bsc" := 56]

  /** The environment variable that overrides each network's RPC endpoint. */
  const RpcVariables: map<string, string> :=
    map["mainnet" := "ETH_RPC_URL", "sepolia" := "SEPOLIA_RPC_URL",
        "arbitrumOne" := "ARB_RPC_URL", "bsc" := "BSC_RPC_URL"]

  /** Each network's default RPC endpoint. */
  const DefaultRpcs: map<string, string> :=
    map["mainnet" := "https://rpc.ankr.com/eth",
        "sepolia" := "https://ethereum-sepolia-rpc.publicnode.com",
        "arbitrumOne" := "https://arb1.arbitrum.io/rpc",
        "bsc" := "https://bsc-dataseed.binance.org"]

  /** `resolveNetwork()`: the configuration of the selected network, or
      the "Unsupported network" error for a name outside the table. */
  function ResolveNetwork(env: Env): (r: Result<NetConfig, Failure>)
    ensures r.Ok? <==> NetworkName(env) in ChainIds
    ensures r.Err? ==> r.error == UnsupportedNetwork(NetworkName(env))
    ensures r.Ok? ==> var name := NetworkName(env);
      && name in RpcVariables && name in DefaultRpcs
      && r.value == NetConfig(name, ChainIds[name], EnvOr(env, RpcVariables[name], DefaultRpcs[name]))
  {
    var name := NetworkName(env);
    if name == "mainnet" then
      Ok(NetConfig(name, 1, EnvOr(env, "ETH_RPC_URL", "https://rpc.ankr.com/eth")))
    else if name == "sepolia" then
      Ok(NetConfig(name, 11155111, EnvOr(env, "SEPOLIA_RPC_URL", "https://ethereum-sepolia-rpc.publicnode.com")))
    else if name == "arbitrumOne" then
      Ok(NetConfig(name, 42161, EnvOr(env, "ARB_RPC_URL", "https://arb1.arbitrum.io/rpc")))
    else if name == "bsc" then
      Ok(NetConfig(name, 56, EnvOr(env, "BSC_RPC_URL", "https://bsc-dataseed.binance.org")))
    else
      Err(UnsupportedNetwork(name))
  }

  /** With neither variable set the script deploys to mainnet, chain 1. */
  lemma DefaultsToMainnet(env: Env)
    requires "HARDHAT_NETWORK" !in env && "NETWORK" !in env
    ensures ResolveNetwork(env).Ok? && ResolveNetwork(env).value.name == "mainnet"
    ensures ResolveNetwork(env).value.chainId == 1
  {
  }

  /** No two supported networks share a chain identifier, so the chain id
      signed into a transaction names its network. */
  lemma ChainIdsDistinct(a: string, b: string)
    requires a in ChainIds && b in ChainIds && a != b
    ensures ChainIds[a] != ChainIds[b]
  {
  }
}

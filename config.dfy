/** Build-time configuration read from `NEXT_PUBLIC_*` environment variables
    (frontend/src/lib/sui.ts:7-24, frontend/src/components/WalletProvider.tsx:17).
    An environment value is a string, and the empty string stands for a
    variable that is not set: JavaScript's `||` treats `undefined` and `""`
    alike, so every fallback below fires for both. */
module Config {

  /** The environment variables the front-end reads. */
  datatype Env = Env(
    network: string,      // NEXT_PUBLIC_NETWORK
    packageId: string,    // NEXT_PUBLIC_PACKAGE_ID
    moduleName: string,   // NEXT_PUBLIC_MODULE_NAME
    localRpc: string,     // NEXT_PUBLIC_LOCAL_RPC
    devnetRpc: string,    // NEXT_PUBLIC_DEVNET_RPC
    testnetRpc: string,   // NEXT_PUBLIC_TESTNET_RPC
    mainnetRpc: string)   // NEXT_PUBLIC_MAINNET_RPC

  /** What the SDK's `getFullnodeUrl` returns for each public network; the SDK
      is not part of this model, so its answers are an input. */
  datatype Fullnodes = Fullnodes(devnet: string, testnet: string, mainnet: string)

  /** The contract the transactions call: `CONTRACT_CONFIG`. */
  datatype ContractConfig = ContractConfig(packageId: string, moduleName: string)

  const LocalRpcDefault := "http://localhost:9000"
  const DefaultNetwork := "testnet"
  const DefaultModuleName := "sand_dollar"

  /** `value || fallback` on strings. */
  function OrElse(value: string, fallback: string): (r: string)
    ensures value != "" ==> r == value
    ensures value == "" ==> r == fallback
  {
    if value != "" then value else fallback
  }

  /** `NETWORK`: the configured network name, `testnet` when unset. */
  function Network(env: Env): (r: string)
    ensures r != ""
    ensures env.network != "" ==> r == env.network
    ensures env.network == "" ==> r == DefaultNetwork
  {
    OrElse(env.network, DefaultNetwork)
  }

  /** `CONTRACT_CONFIG`: the package id (empty when unset) and the module name
      (`sand_dollar` when unset). */
  function Contract(env: Env): (r: ContractConfig)
    ensures r.packageId == env.packageId
    ensures r.moduleName != ""
    ensures env.moduleName != "" ==> r.moduleName == env.moduleName
    ensures env.moduleName == "" ==> r.moduleName == DefaultModuleName
  {
    ContractConfig(OrElse(env.packageId, ""), OrElse(env.moduleName, DefaultModuleName))
  }

  /** `getRpcUrl`: the RPC endpoint for the configured network. Each known
      network takes its own override variable, else its default; any other name
      is served like `testnet`. */
  function GetRpcUrl(env: Env, fullnodes: Fullnodes): (r: string)
    ensures Network(env) == "local" ==> r == OrElse(env.localRpc, LocalRpcDefault)
    ensures Network(env) == "devnet" ==> r == OrElse(env.devnetRpc, fullnodes.devnet)
    ensures Network(env) == "mainnet" ==> r == OrElse(env.mainnetRpc, fullnodes.mainnet)
    ensures Network(env) !in {"local", "devnet", "mainnet"} ==> r == OrElse(env.testnetRpc, fullnodes.testnet)
    ensures fullnodes.devnet != "" && fullnodes.testnet != "" && fullnodes.mainnet != "" ==> r != ""
  {
    match Network(env)
    case "local" => OrElse(env.localRpc, LocalRpcDefault)
    case "devnet" => OrElse(env.devnetRpc, fullnodes.devnet)
    case "testnet" => OrElse(env.testnetRpc, fullnodes.testnet)
    case "mainnet" => OrElse(env.mainnetRpc, fullnodes.mainnet)
    case _ => OrElse(env.testnetRpc, fullnodes.testnet)
  }

  /** The URL is always either an override variable or a default, never
      anything else. */
  lemma RpcUrlIsOverrideOrDefault(env: Env, fullnodes: Fullnodes)
    ensures GetRpcUrl(env, fullnodes) in
      {env.localRpc, env.devnetRpc, env.testnetRpc, env.mainnetRpc,
       LocalRpcDefault, fullnodes.devnet, fullnodes.testnet, fullnodes.mainnet}
  {
  }

  /** With no variable set, the front-end targets the testnet full node of
      the SDK and calls a contract whose package id is empty and whose module
      is `sand_dollar`. */
  lemma UnsetEnvironment(fullnodes: Fullnodes)
    ensures var env := Env("", "", "", "", "", "", "");
            && Network(env) == "testnet"
            && Contract(env) == ContractConfig("", "sand_dollar")
            && GetRpcUrl(env, fullnodes) == fullnodes.testnet
  {
  }

  /** An unknown network name behaves exactly as `testnet`, and so does an
      unset one. */
  lemma UnknownNetworkIsTestnet(env: Env, fullnodes: Fullnodes)
    requires Network(env) !in {"local", "devnet", "testnet", "mainnet"} || env.network == ""
    ensures GetRpcUrl(env, fullnodes) == GetRpcUrl(env.(network := "testnet"), fullnodes)
  {
  }
}

/** The service settings the core reads. They come from the environment with
    documented defaults; loading them is not modelled, only their values. */
module Config {

  datatype Settings = Settings(
    swarmGatewayUrl: string,
    defaultStampAmount: int,
    defaultStampDepth: int,
    mcpServerName: string,
    mcpServerVersion: string)

  /** The defaults used when no environment variable overrides them. */
  const Defaults := Settings(
    "https://provenance-gateway.datafund.io",
    2000000000,
    17,
    "swarm-provenance-mcp",
    "0.1.0")
}

/**
 * The settings record of the conversation-agent library, reduced to the
 * fields the agent and the two provider adapters read. Values that the
 * library takes from environment variables are parameters here.
 */
module Settings {
  import opened Wrappers

  datatype ProviderKind = AzureOpenAI | AIFoundry | Mock

  datatype AgentConfig = AgentConfig(
    provider: ProviderKind,
    azureOpenAIEndpoint: Option<string>,
    azureOpenAIApiKey: Option<string>,
    azureOpenAIApiVersion: string,
    azureOpenAIDeployment: Option<string>,
    aiFoundryEndpoint: Option<string>,
    aiFoundryApiKey: Option<string>,
    maxTokens: int,
    temperature: real,
    streaming: bool,
    systemPrompt: string)

  /** The defaults, with the environment-provided endpoints, keys and deployment passed in. */
  function DefaultConfig(
    azureOpenAIEndpoint: Option<string>, azureOpenAIApiKey: Option<string>, azureOpenAIDeployment: Option<string>,
    aiFoundryEndpoint: Option<string>, aiFoundryApiKey: Option<string>): AgentConfig
  {
    AgentConfig(
      AzureOpenAI, azureOpenAIEndpoint, azureOpenAIApiKey, "2024-02-01", azureOpenAIDeployment,
      aiFoundryEndpoint, aiFoundryApiKey, 1000, 0.7, true,
      "You are a helpful AI assistant providing real-time responses.")
  }

  /** Python truthiness of an optional string setting. */
  predicate Present(setting: Option<string>) {
    setting.Some? && setting.value != ""
  }
}

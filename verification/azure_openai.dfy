/**
 * The Azure OpenAI provider adapter: its constructor checks, the conversion
 * of messages to chat-completion dictionaries, the API parameters of a
 * request, and the client's lifecycle. The SDK client is an opaque handle;
 * the streamed and single replies are turned into responses by the shared
 * logic in Providers.
 */
module AzureOpenAI {
  import opened Wrappers
  import opened Json
  import opened Interfaces
  import opened Settings
  import opened Providers

  const EndpointRequired := "Azure OpenAI endpoint is required"
  const DeploymentRequired := "Azure OpenAI deployment name is required"

  /** The constructor's checks: the endpoint first, then the deployment; `None` when both are set. */
  function ConfigError(config: AgentConfig): (r: Option<string>)
    ensures r.None? <==> Present(config.azureOpenAIEndpoint) && Present(config.azureOpenAIDeployment)
    ensures !Present(config.azureOpenAIEndpoint) ==> r == Some(EndpointRequired)
    ensures Present(config.azureOpenAIEndpoint) && !Present(config.azureOpenAIDeployment) ==> r == Some(DeploymentRequired)
  {
    if !Present(config.azureOpenAIEndpoint) then Some(EndpointRequired)
    else if !Present(config.azureOpenAIDeployment) then Some(DeploymentRequired)
    else None
  }

  /** One message as a chat-completion dictionary, for the types that have a role. */
  function OpenAIMessage(m: Message): (r: Option<Json>)
    ensures r.Some? <==> Conversational(m.msgType)
    ensures r.Some? ==> r.value.JObj? && r.value.fields.Keys == {"role", "content"}
    ensures r.Some? ==> r.value.fields["content"] == JStr(m.content)
    ensures r.Some? ==> r.value.fields["role"].JStr? && ParseMessageType(r.value.fields["role"].s) == Some(m.msgType)
  {
    if Conversational(m.msgType) then Some(JObj(map["role" := JStr(TypeValue(m.msgType)), "content" := JStr(m.content)]))
    else None
  }

  /** The converted conversation: the messages with a role, in order. */
  function OpenAIFormat(messages: seq<Message>): seq<Json> {
    if messages == [] then []
    else
      var last := OpenAIMessage(messages[|messages| - 1]);
      OpenAIFormat(messages[..|messages| - 1]) + (if last.Some? then [last.value] else [])
  }

  /** Conversion distributes over concatenation, so order is preserved and each message converts on its own. */
  lemma {:induction false} OpenAIFormatAppend(a: seq<Message>, b: seq<Message>)
    ensures OpenAIFormat(a + b) == OpenAIFormat(a) + OpenAIFormat(b)
  {
    if b == [] {
      assert a + b == a;
    } else {
      assert (a + b)[..|a + b| - 1] == a + b[..|b| - 1];
      OpenAIFormatAppend(a, b[..|b| - 1]);
    }
  }

  /** One dictionary per USER, ASSISTANT or SYSTEM message; ERROR and STATUS messages are dropped. */
  lemma {:induction false} OpenAIFormatCount(messages: seq<Message>)
    ensures |OpenAIFormat(messages)| == ConversationalCount(messages)
    ensures forall j <- OpenAIFormat(messages) :: j.JObj? && j.fields.Keys == {"role", "content"}
  {
    if messages != [] {
      OpenAIFormatCount(messages[..|messages| - 1]);
    }
  }

  /** The parameters before the keyword arguments are merged in. */
  function BaseParams(config: AgentConfig, messages: seq<Message>, stream: bool, kwargs: KwArgs): map<string, Param> {
    map[
      "model" := Value(if config.azureOpenAIDeployment.Some? then JStr(config.azureOpenAIDeployment.value) else JNull),
      "messages" := Value(JArr(OpenAIFormat(messages))),
      "max_tokens" := KwGet(kwargs, "max_tokens", Value(JInt(config.maxTokens))),
      "temperature" := KwGet(kwargs, "temperature", Value(JFloat(config.temperature))),
      "stream" := Value(JBool(stream))]
  }

  /** The parameters of the SDK call for a request. */
  function RequestParams(config: AgentConfig, messages: seq<Message>, stream: bool, kwargs: KwArgs): map<string, Param> {
    MergeKwargs(BaseParams(config, messages, stream, kwargs), kwargs)
  }

  /**
   * `max_tokens` and `temperature` come from the keyword arguments when given
   * and from the settings otherwise; `model`, `messages` and `stream` keep
   * their base values unless a non-`None` keyword argument of that name
   * overrides them.
   */
  lemma RequestParamsShape(config: AgentConfig, messages: seq<Message>, stream: bool, kwargs: KwArgs, key: string)
    ensures var p := RequestParams(config, messages, stream, kwargs);
      && "max_tokens" in p && p["max_tokens"] == KwGet(kwargs, "max_tokens", Value(JInt(config.maxTokens)))
      && "temperature" in p && p["temperature"] == KwGet(kwargs, "temperature", Value(JFloat(config.temperature)))
    ensures key in {"model", "messages", "stream"} &&
            (forall i :: 0 <= i < |kwargs| && kwargs[i].0 == key ==> !Merged(kwargs[i])) ==>
            key in RequestParams(config, messages, stream, kwargs) &&
            RequestParams(config, messages, stream, kwargs)[key] == BaseParams(config, messages, stream, kwargs)[key]
  {
    MergeKeepsLimits(BaseParams(config, messages, stream, kwargs), kwargs);
    if key in {"model", "messages", "stream"} && (forall i :: 0 <= i < |kwargs| && kwargs[i].0 == key ==> !Merged(kwargs[i])) {
      MergeUntouched(BaseParams(config, messages, stream, kwargs), kwargs, key);
    }
  }

  /**
   * With the default settings and no keyword arguments, a request asks for
   * 1000 tokens at temperature 0.7 from the configured deployment, and a
   * missing endpoint variable is the first error the constructor reports.
   */
  lemma DefaultRequest(endpoint: Option<string>, apiKey: Option<string>, deployment: Option<string>,
                       foundryEndpoint: Option<string>, foundryKey: Option<string>, messages: seq<Message>, stream: bool)
    ensures var p := RequestParams(DefaultConfig(endpoint, apiKey, deployment, foundryEndpoint, foundryKey), messages, stream, []);
      && p["max_tokens"] == Value(JInt(1000)) && p["temperature"] == Value(JFloat(0.7))
      && p["model"] == Value(if deployment.Some? then JStr(deployment.value) else JNull)
    ensures !Present(endpoint) ==> ConfigError(DefaultConfig(endpoint, apiKey, deployment, foundryEndpoint, foundryKey)) == Some(EndpointRequired)
  {
    var config := DefaultConfig(endpoint, apiKey, deployment, foundryEndpoint, foundryKey);
    RequestParamsShape(config, messages, stream, [], "model");
  }

  class AzureOpenAIProvider {
    const config: AgentConfig
    /** The SDK client, an opaque handle; `None` before `initialize` and after `close`. */
    var client: Option<nat>
    /** The clients whose `close` has been awaited, in order. */
    var closedClients: seq<nat>

    constructor(config: AgentConfig)
      requires ConfigError(config).None?
      ensures this.config == config && client.None? && closedClients == []
    {
      this.config := config;
      client := None;
      closedClients := [];
    }

    /** `AzureOpenAIProvider(config)`: raises ValueError when a check fails, else a provider with no client. */
    static method Create(config: AgentConfig) returns (provider: Option<AzureOpenAIProvider>, error: Option<string>)
      ensures error == ConfigError(config)
      ensures provider.Some? <==> error.None?
      ensures provider.Some? ==> fresh(provider.value) && provider.value.config == config && provider.value.client.None?
    {
      error := ConfigError(config);
      if error.Some? {
        return None, error;
      }
      var p := new AzureOpenAIProvider(config);
      provider := Some(p);
    }

    /**
     * `initialize()`: the client is built (None when getting the credential
     * or token fails first) and then tested; a failed test leaves the client
     * in place and re-raises.
     */
    method Initialize(created: Option<nat>, testOk: bool) returns (raised: bool)
      modifies this
      ensures client == (if created.Some? then created else old(client))
      ensures raised == (created.None? || !testOk)
      ensures closedClients == old(closedClients)
    {
      if created.None? {
        return true;
      }
      client := created;
      raised := !testOk;
    }

    /** `_messages_to_openai_format(messages)`. */
    method ToOpenAIFormat(messages: seq<Message>) returns (converted: seq<Json>)
      ensures converted == OpenAIFormat(messages)
    {
      converted := [];
      var i := 0;
      while i < |messages|
        invariant 0 <= i <= |messages|
        invariant converted == OpenAIFormat(messages[..i])
      {
        assert messages[..i + 1][..i] == messages[..i];
        var m := messages[i];
        if Conversational(m.msgType) {
          converted := converted + [JObj(map["role" := JStr(TypeValue(m.msgType)), "content" := JStr(m.content)])];
        }
        i := i + 1;
      }
      assert messages[..i] == messages;
    }

    /**
     * `generate_response(messages, stream, **kwargs)` up to the SDK call:
     * RuntimeError without a client, else the parameters the call is made with.
     */
    method GenerateResponse(messages: seq<Message>, stream: bool, kwargs: KwArgs) returns (params: Option<map<string, Param>>)
      ensures params.None? <==> client.None?
      ensures params.Some? ==> params.value == RequestParams(config, messages, stream, kwargs)
    {
      if client.None? {
        return None;
      }
      var converted := ToOpenAIFormat(messages);
      var base := map[
        "model" := Value(if config.azureOpenAIDeployment.Some? then JStr(config.azureOpenAIDeployment.value) else JNull),
        "messages" := Value(JArr(converted)),
        "max_tokens" := KwGet(kwargs, "max_tokens", Value(JInt(config.maxTokens))),
        "temperature" := KwGet(kwargs, "temperature", Value(JFloat(config.temperature))),
        "stream" := Value(JBool(stream))];
      var merged := MergeParams(base, kwargs);
      params := Some(merged);
    }

    /** `close()`: closes the client if there is one and forgets it; a second call does nothing. */
    method Close()
      modifies this
      ensures client.None?
      ensures closedClients == old(closedClients) + (if old(client).Some? then [old(client).value] else [])
    {
      if client.Some? {
        closedClients := closedClients + [client.value];
        client := None;
      }
    }
  }
}

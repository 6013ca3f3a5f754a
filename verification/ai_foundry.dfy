/**
 * The AI Foundry provider adapter: its constructor check, the conversion of
 * messages to the SDK's message classes, the API parameters of a request,
 * and the client's lifecycle. The SDK client is an opaque handle; the
 * streamed and single replies are turned into responses by the shared
 * logic in Providers.
 */
module AIFoundry {
  import opened Wrappers
  import opened Json
  import opened Interfaces
  import opened Settings
  import opened Providers

  const EndpointRequired := "AI Foundry endpoint is required"

  /** The constructor's only check: the endpoint. There is no deployment to check. */
  function ConfigError(config: AgentConfig): (r: Option<string>)
    ensures r.None? <==> Present(config.aiFoundryEndpoint)
    ensures r.Some? ==> r.value == EndpointRequired
  {
    if !Present(config.aiFoundryEndpoint) then Some(EndpointRequired) else None
  }

  /** One message as the SDK class of the same kind, for USER, ASSISTANT and SYSTEM messages. */
  function FoundryMessageOf(m: Message): (r: Option<FoundryMessage>)
    ensures r.Some? <==> Conversational(m.msgType)
    ensures r.Some? ==> r.value.content == m.content
    ensures r.Some? ==> (r.value.UserMessage? <==> m.msgType == User)
    ensures r.Some? ==> (r.value.AssistantMessage? <==> m.msgType == Assistant)
    ensures r.Some? ==> (r.value.SystemMessage? <==> m.msgType == System)
  {
    match m.msgType
    case User => Some(UserMessage(m.content))
    case Assistant => Some(AssistantMessage(m.content))
    case System => Some(SystemMessage(m.content))
    case _ => None
  }

  /** The converted conversation: the messages of those three kinds, in order. */
  function FoundryFormat(messages: seq<Message>): seq<FoundryMessage> {
    if messages == [] then []
    else
      var last := FoundryMessageOf(messages[|messages| - 1]);
      FoundryFormat(messages[..|messages| - 1]) + (if last.Some? then [last.value] else [])
  }

  /** Conversion distributes over concatenation, so order is preserved and each message converts on its own. */
  lemma {:induction false} FoundryFormatAppend(a: seq<Message>, b: seq<Message>)
    ensures FoundryFormat(a + b) == FoundryFormat(a) + FoundryFormat(b)
  {
    if b == [] {
      assert a + b == a;
    } else {
      assert (a + b)[..|a + b| - 1] == a + b[..|b| - 1];
      FoundryFormatAppend(a, b[..|b| - 1]);
    }
  }

  /** One SDK message per USER, ASSISTANT or SYSTEM message; the others are dropped. */
  lemma {:induction false} FoundryFormatCount(messages: seq<Message>)
    ensures |FoundryFormat(messages)| == ConversationalCount(messages)
  {
    if messages != [] {
      FoundryFormatCount(messages[..|messages| - 1]);
    }
  }

  /** The parameters before the keyword arguments are merged in; there is no `model` key. */
  function BaseParams(config: AgentConfig, messages: seq<Message>, stream: bool, kwargs: KwArgs): (r: map<string, Param>)
    ensures r.Keys == {"messages", "max_tokens", "temperature", "stream"}
  {
    map[
      "messages" := FoundryMessages(FoundryFormat(messages)),
      "max_tokens" := KwGet(kwargs, "max_tokens", Value(JInt(config.maxTokens))),
      "temperature" := KwGet(kwargs, "temperature", Value(JFloat(config.temperature))),
      "stream" := Value(JBool(stream))]
  }

  /** The parameters of the SDK call for a request. */
  function RequestParams(config: AgentConfig, messages: seq<Message>, stream: bool, kwargs: KwArgs): map<string, Param> {
    MergeKwargs(BaseParams(config, messages, stream, kwargs), kwargs)
  }

  /**
   * `max_tokens` and `temperature` come from the keyword arguments when given
   * and from the settings otherwise, and a `model` parameter appears only
   * when a non-`None` keyword argument supplies it.
   */
  lemma RequestParamsShape(config: AgentConfig, messages: seq<Message>, stream: bool, kwargs: KwArgs)
    ensures var p := RequestParams(config, messages, stream, kwargs);
      && "max_tokens" in p && p["max_tokens"] == KwGet(kwargs, "max_tokens", Value(JInt(config.maxTokens)))
      && "temperature" in p && p["temperature"] == KwGet(kwargs, "temperature", Value(JFloat(config.temperature)))
    ensures (forall i :: 0 <= i < |kwargs| && kwargs[i].0 == "model" ==> !Merged(kwargs[i])) ==>
      "model" !in RequestParams(config, messages, stream, kwargs)
  {
    MergeKeepsLimits(BaseParams(config, messages, stream, kwargs), kwargs);
    if forall i :: 0 <= i < |kwargs| && kwargs[i].0 == "model" ==> !Merged(kwargs[i]) {
      MergeUntouched(BaseParams(config, messages, stream, kwargs), kwargs, "model");
    }
  }

  class AIFoundryProvider {
    const config: AgentConfig
    /** The SDK client, an opaque handle; `None` before `initialize` and after `close`. */
    var client: Option<nat>
    /** The clients whose `close` has been awaited, in order. */
    var closedClients: seq<nat>

    constructor(config: AgentConfig)
      requires ConfigError(config).None?
      ensures this.config == config && client.None? && closedClients == []
    {
      this.config := config;
      client := None;
      closedClients := [];
    }

    /** `AIFoundryProvider(config)`: raises ValueError without an endpoint, else a provider with no client. */
    static method Create(config: AgentConfig) returns (provider: Option<AIFoundryProvider>, error: Option<string>)
      ensures error == ConfigError(config)
      ensures provider.Some? <==> error.None?
      ensures provider.Some? ==> fresh(provider.value) && provider.value.config == config && provider.value.client.None?
    {
      error := ConfigError(config);
      if error.Some? {
        return None, error;
      }
      var p := new AIFoundryProvider(config);
      provider := Some(p);
    }

    /**
     * `initialize()`: the client is built (None when building it fails) and
     * then tested; a failed test leaves the client in place and re-raises.
     */
    method Initialize(created: Option<nat>, testOk: bool) returns (raised: bool)
      modifies this
      ensures client == (if created.Some? then created else old(client))
      ensures raised == (created.None? || !testOk)
      ensures closedClients == old(closedClients)
    {
      if created.None? {
        return true;
      }
      client := created;
      raised := !testOk;
    }

    /** `_messages_to_foundry_format(messages)`. */
    method ToFoundryFormat(messages: seq<Message>) returns (converted: seq<FoundryMessage>)
      ensures converted == FoundryFormat(messages)
    {
      converted := [];
      var i := 0;
      while i < |messages|
        invariant 0 <= i <= |messages|
        invariant converted == FoundryFormat(messages[..i])
      {
        assert messages[..i + 1][..i] == messages[..i];
        var m := messages[i];
        if m.msgType == User {
          converted := converted + [UserMessage(m.content)];
        } else if m.msgType == Assistant {
          converted := converted + [AssistantMessage(m.content)];
        } else if m.msgType == System {
          converted := converted + [SystemMessage(m.content)];
        }
        i := i + 1;
      }
      assert messages[..i] == messages;
    }

    /**
     * `generate_response(messages, stream, **kwargs)` up to the SDK call:
     * RuntimeError without a client, else the parameters the call is made with.
     */
    method GenerateResponse(messages: seq<Message>, stream: bool, kwargs: KwArgs) returns (params: Option<map<string, Param>>)
      ensures params.None? <==> client.None?
      ensures params.Some? ==> params.value == RequestParams(config, messages, stream, kwargs)
    {
      if client.None? {
        return None;
      }
      var converted := ToFoundryFormat(messages);
      var base := map[
        "messages" := FoundryMessages(converted),
        "max_tokens" := KwGet(kwargs, "max_tokens", Value(JInt(config.maxTokens))),
        "temperature" := KwGet(kwargs, "temperature", Value(JFloat(config.temperature))),
        "stream" := Value(JBool(stream))];
      var merged := MergeParams(base, kwargs);
      params := Some(merged);
    }

    /** `close()`: closes the client if there is one and forgets it; a second call does nothing. */
    method Close()
      modifies this
      ensures client.None?
      ensures closedClients == old(closedClients) + (if old(client).Some? then [old(client).value] else [])
    {
      if client.Some? {
        closedClients := closedClients + [client.value];
        client := None;
      }
    }
  }
}

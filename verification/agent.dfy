/**
 * `RealTimeAgent`: a connection-status state machine around a provider,
 * holding the conversation history as a list it updates in place. The
 * provider is a collaborator; each call to it is a parameter giving its
 * outcome, and the request the agent makes is returned for inspection.
 */
module Agent {
  import opened Wrappers
  import opened Json
  import opened Interfaces
  import opened Settings

  /** What the provider's `generate_response` hands back. */
  datatype ProviderReply =
    | Responds(response: AgentResponse)
    | Streams(chunks: seq<AgentResponse>, failed: bool)   // failed: the generator raises after these chunks instead of ending
    | ProviderRaises

  /** The arguments of the agent's one call to `generate_response`. */
  datatype ProviderRequest = ProviderRequest(messages: seq<Message>, stream: bool, maxTokens: int, temperature: real)

  /** How `send_message` ends. */
  datatype SendOutcome =
    | NotConnectedError             // RuntimeError("Agent is not connected")
    | ProviderFailed                // the provider's exception, re-raised
    | ReplyNotAResponse             // a stream where a single response was expected: AttributeError
    | Answered(response: AgentResponse)
    | StreamReady(chunks: seq<AgentResponse>, failed: bool)
    | StreamNotIterable             // a single response where a stream was expected: TypeError on iteration

  /** The message `send_message` builds from its arguments. */
  function UserMessage(content: string, msgType: MessageType, metadata: Option<map<string, Json>>, id: string, now: Timestamp): Message {
    Message(id, msgType, content, Some(now), metadata)
  }

  /** The history after a connected `send_message`: the user message always, then the answer if one came back. */
  function AfterSend(history: seq<Message>, streaming: bool, user: Message, reply: ProviderReply): (r: seq<Message>)
    ensures |r| == |history| + (if !streaming && reply.Responds? then 2 else 1)
    ensures r[..|history| + 1] == history + [user]
    ensures !streaming && reply.Responds? ==> r[|history| + 1] == reply.response.message
  {
    if !streaming && reply.Responds? then history + [user, reply.response.message] else history + [user]
  }

  /** The outcome of a connected `send_message`, by mode and reply. */
  function SendResult(streaming: bool, reply: ProviderReply): (r: SendOutcome)
    ensures r.Answered? <==> !streaming && reply.Responds?
    ensures r.StreamReady? <==> streaming && reply.Streams?
    ensures r == ProviderFailed <==> reply.ProviderRaises?
    ensures r.Answered? ==> r.response == reply.response
    ensures r.StreamReady? ==> r.chunks == reply.chunks && r.failed == reply.failed
    ensures r != NotConnectedError
  {
    match reply
    case ProviderRaises => ProviderFailed
    case Responds(response) => if streaming then StreamNotIterable else Answered(response)
    case Streams(chunks, failed) => if streaming then StreamReady(chunks, failed) else ReplyNotAResponse
  }

  /** A streamed chunk as the agent passes it on: relabelled with the stream's id and a fresh timestamp. */
  function Relabel(chunk: AgentResponse, id: string, now: Timestamp): (r: AgentResponse)
    ensures r.message.id == id && r.message.timestamp == Some(now)
    ensures r.message.content == chunk.message.content && r.message.msgType == chunk.message.msgType
    ensures r.isFinal == chunk.isFinal && r.usage == chunk.usage && r.message.metadata == chunk.message.metadata
  {
    chunk.(message := chunk.message.(id := id, timestamp := Some(now)))
  }

  /** The number of chunks marked final. */
  function FinalCount(chunks: seq<AgentResponse>): nat {
    if chunks == [] then 0 else FinalCount(chunks[..|chunks| - 1]) + (if chunks[|chunks| - 1].isFinal then 1 else 0)
  }

  /**
   * The assistant messages the streaming handler appends to the history:
   * one per final chunk, each holding everything accumulated so far.
   */
  function FinalMessages(chunks: seq<AgentResponse>, id: string, now: Timestamp): seq<Message> {
    if chunks == [] then []
    else
      var last := chunks[|chunks| - 1];
      FinalMessages(chunks[..|chunks| - 1], id, now) +
        (if last.isFinal then [Message(id, Assistant, Contents(chunks), Some(now), last.message.metadata)] else [])
  }

  /**
   * How the caller iterates the stream: to exhaustion, or with a `break`
   * after receiving `received` chunks. A break planned past the last chunk
   * never happens, and the stream is exhausted.
   */
  datatype Consumer = Exhausts | BreaksAfter(received: nat)

  /** How many chunks the consumer receives. */
  function Received(consumer: Consumer, n: nat): nat {
    match consumer
    case Exhausts => n
    case BreaksAfter(k) => if k <= n then k else n
  }

  /**
   * How many chunks have had the code after their `yield` run: all of them
   * when the consumer asks past the last one, otherwise all but the last
   * one received.
   */
  function Resumed(consumer: Consumer, n: nat): (r: nat)
    ensures r <= Received(consumer, n) <= n
    ensures consumer.Exhausts? ==> r == n
    ensures consumer.BreaksAfter? && 1 <= consumer.received <= n ==> r == consumer.received - 1
    ensures consumer.BreaksAfter? && consumer.received > n ==> r == n
  {
    match consumer
    case Exhausts => n
    case BreaksAfter(k) => if k == 0 then 0 else if k > n then n else k - 1
  }

  class RealTimeAgent {
    var config: AgentConfig
    var history: seq<Message>
    var status: ConnectionStatus

    /** A new agent is disconnected and has an empty history. */
    constructor(config: AgentConfig)
      ensures this.config == config && history == [] && status == Disconnected
    {
      this.config := config;
      history := [];
      status := Disconnected;
    }

    /** `initialize()`: CONNECTED when the provider initialises, otherwise ERROR and the failure is re-raised. */
    method Initialize(providerInitOk: bool) returns (raised: bool)
      modifies this
      ensures raised == !providerInitOk
      ensures status == (if providerInitOk then Connected else Failed)
      ensures history == old(history) && config == old(config)
    {
      if providerInitOk {
        status := Connected;
        raised := false;
      } else {
        status := Failed;
        raised := true;
      }
    }

    /**
     * `send_message(content, message_type, metadata)`. Unless connected it
     * raises before touching anything. Otherwise the user message is appended
     * first, the provider is asked with the whole history, and a single
     * response (non-streaming mode) is appended after it.
     */
    method SendMessage(content: string, msgType: MessageType, metadata: Option<map<string, Json>>,
                       freshId: string, now: Timestamp, reply: ProviderReply)
      returns (request: Option<ProviderRequest>, outcome: SendOutcome)
      modifies this
      ensures status == old(status) && config == old(config)
      ensures old(status) != Connected ==>
        outcome == NotConnectedError && request.None? && history == old(history)
      ensures old(status) == Connected ==>
        var user := UserMessage(content, msgType, metadata, freshId, now);
        && request == Some(ProviderRequest(old(history) + [user], config.streaming, config.maxTokens, config.temperature))
        && history == AfterSend(old(history), config.streaming, user, reply)
        && outcome == SendResult(config.streaming, reply)
    {
      if status != Connected {
        return None, NotConnectedError;
      }
      var user := UserMessage(content, msgType, metadata, freshId, now);
      history := history + [user];
      request := Some(ProviderRequest(history, config.streaming, config.maxTokens, config.temperature));
      match reply {
        case ProviderRaises =>
          outcome := ProviderFailed;
        case Streams(chunks, failed) =>
          outcome := if config.streaming then StreamReady(chunks, failed) else ReplyNotAResponse;
        case Responds(response) =>
          if config.streaming {
            outcome := StreamNotIterable;
          } else {
            history := history + [response.message];
            outcome := Answered(response);
          }
      }
    }

    /**
     * Iterating the stream `send_message` returned. Each chunk is relabelled
     * and yielded; the code after the `yield`, which appends one assistant
     * message holding the content accumulated so far when the chunk is
     * final, runs only when the consumer asks for the next chunk. A consumer
     * that breaks after receiving `k` chunks therefore leaves the appends of
     * chunk `k - 1` undone.
     *
     * When the provider's stream `failed`, the exception surfaces at the
     * consumer's request for a chunk past the last one. It reaches the
     * caller outside `send_message`'s `try`: nothing is logged and the
     * status stays as it was, and the history is that of a full iteration.
     */
    method ConsumeStream(chunks: seq<AgentResponse>, failed: bool, consumer: Consumer, streamId: string, now: Timestamp)
      returns (passedOn: seq<AgentResponse>, raised: bool)
      requires consumer.BreaksAfter? ==> 1 <= consumer.received
      modifies this
      ensures |passedOn| == Received(consumer, |chunks|)
      ensures forall i :: 0 <= i < |passedOn| ==> passedOn[i] == Relabel(chunks[i], streamId, now)
      ensures history == old(history) + FinalMessages(chunks[..Resumed(consumer, |chunks|)], streamId, now)
      ensures raised <==> failed && (consumer.Exhausts? || consumer.received > |chunks|)
      ensures raised ==> history == old(history) + FinalMessages(chunks, streamId, now)
      ensures status == old(status) && config == old(config)
    {
      var received := Received(consumer, |chunks|);
      var resumed := Resumed(consumer, |chunks|);
      var accumulated := "";
      passedOn := [];
      var i := 0;
      while i < received
        invariant 0 <= i <= received
        invariant accumulated == Contents(chunks[..i])
        invariant |passedOn| == i
        invariant forall j :: 0 <= j < i ==> passedOn[j] == Relabel(chunks[j], streamId, now)
        invariant history == old(history) + FinalMessages(chunks[..if i <= resumed then i else resumed], streamId, now)
        invariant status == old(status) && config == old(config)
      {
        var chunk := chunks[i];
        accumulated := accumulated + chunk.message.content;
        passedOn := passedOn + [Relabel(chunk, streamId, now)];
        assert chunks[..i + 1][..i] == chunks[..i];
        // the consumer asks for another chunk: the generator resumes after its `yield`
        if i < resumed && chunk.isFinal {
          history := history + [Message(streamId, Assistant, accumulated, Some(now), chunk.message.metadata)];
        }
        i := i + 1;
      }
      // past the last chunk the consumer's request reaches the provider's generator, which raises
      raised := failed && (consumer.Exhausts? || consumer.received > |chunks|);
      assert chunks[..|chunks|] == chunks;
    }

    /** `clear_conversation()`. */
    method ClearConversation()
      modifies this
      ensures history == [] && status == old(status) && config == old(config)
    {
      history := [];
    }

    /** `get_conversation_history()`: a copy of the history; the agent is unchanged. */
    method GetConversationHistory() returns (copy: seq<Message>)
      ensures copy == history
    {
      copy := history;
    }

    /** `set_system_prompt(prompt)`: records the prompt and puts it at the head of the history. */
    method SetSystemPrompt(prompt: string, freshId: string, now: Timestamp)
      modifies this
      ensures config == old(config).(systemPrompt := prompt)
      ensures history == WithSystemPrompt(old(history), prompt, freshId, now)
      ensures status == old(status)
    {
      config := config.(systemPrompt := prompt);
      if history == [] || history[0].msgType != System {
        history := [Message(freshId, System, prompt, Some(now), None)] + history;
      } else {
        history := [history[0].(content := prompt, timestamp := Some(now))] + history[1..];
      }
    }

    /**
     * `close()`: closes the provider and ends DISCONNECTED; when the provider's
     * close raises, the status is left as it was and the error re-raised. The
     * agent's `session` is never assigned, so no session is stopped.
     */
    method Close(providerCloseRaises: bool) returns (raised: bool)
      modifies this
      ensures raised == providerCloseRaises
      ensures status == (if raised then old(status) else Disconnected)
      ensures history == old(history) && config == old(config)
    {
      if providerCloseRaises {
        return true;
      }
      status := Disconnected;
      raised := false;
    }
  }

  /**
   * The history after `set_system_prompt`: its head is a SYSTEM message with
   * the prompt, inserted when the history is empty or starts otherwise, and
   * updated in place (same id and metadata) when it already starts with one.
   */
  function WithSystemPrompt(history: seq<Message>, prompt: string, freshId: string, now: Timestamp): (r: seq<Message>)
    ensures |r| >= 1 && r[0].msgType == System && r[0].content == prompt && r[0].timestamp == Some(now)
    ensures history == [] || history[0].msgType != System ==>
      r == [Message(freshId, System, prompt, Some(now), None)] + history
    ensures history != [] && history[0].msgType == System ==>
      |r| == |history| && r[1..] == history[1..] &&
      r[0].id == history[0].id && r[0].metadata == history[0].metadata
  {
    if history == [] || history[0].msgType != System then [Message(freshId, System, prompt, Some(now), None)] + history
    else [history[0].(content := prompt, timestamp := Some(now))] + history[1..]
  }

  /** Setting the same prompt again only refreshes the timestamp; the history does not grow. */
  lemma SystemPromptIdempotent(history: seq<Message>, prompt: string, id1: string, id2: string, t1: Timestamp, t2: Timestamp)
    ensures var once := WithSystemPrompt(history, prompt, id1, t1);
      WithSystemPrompt(once, prompt, id2, t2) == once[0 := once[0].(timestamp := Some(t2))]
  {
  }

  /** Every message the streaming handler appends is an assistant message carrying the stream's id. */
  lemma {:induction false} FinalMessagesAreAssistant(chunks: seq<AgentResponse>, id: string, now: Timestamp)
    ensures forall m <- FinalMessages(chunks, id, now) :: m.msgType == Assistant && m.id == id && m.timestamp == Some(now)
  {
    if chunks != [] {
      FinalMessagesAreAssistant(chunks[..|chunks| - 1], id, now);
    }
  }

  /** One message is appended per final chunk; with no final chunk nothing is appended. */
  lemma {:induction false} FinalMessagesCount(chunks: seq<AgentResponse>, id: string, now: Timestamp)
    ensures |FinalMessages(chunks, id, now)| == FinalCount(chunks)
    ensures FinalCount(chunks) == 0 <==> forall i :: 0 <= i < |chunks| ==> !chunks[i].isFinal
  {
    if chunks != [] {
      var init := chunks[..|chunks| - 1];
      FinalMessagesCount(init, id, now);
      if FinalCount(chunks) == 0 {
        forall i | 0 <= i < |chunks| ensures !chunks[i].isFinal {
          if i < |init| { assert chunks[i] == init[i]; }
        }
      }
      if forall i :: 0 <= i < |chunks| ==> !chunks[i].isFinal {
        forall i | 0 <= i < |init| ensures !init[i].isFinal { assert init[i] == chunks[i]; }
      }
    }
  }

  /**
   * The first message appended holds the contents of every chunk up to and
   * including the first final one, and the final chunk's metadata.
   */
  lemma {:induction false} FirstFinalContent(chunks: seq<AgentResponse>, k: nat, id: string, now: Timestamp)
    requires k < |chunks| && chunks[k].isFinal
    requires forall j :: 0 <= j < k ==> !chunks[j].isFinal
    ensures FinalMessages(chunks, id, now) != []
    ensures FinalMessages(chunks, id, now)[0] ==
      Message(id, Assistant, Contents(chunks[..k + 1]), Some(now), chunks[k].message.metadata)
  {
    var init := chunks[..|chunks| - 1];
    if |chunks| == k + 1 {
      FinalMessagesCount(init, id, now);
      forall i | 0 <= i < |init| ensures !init[i].isFinal { assert init[i] == chunks[i]; }
      assert FinalMessages(init, id, now) == [];
      assert chunks[..k + 1] == chunks;
    } else {
      assert init[k] == chunks[k];
      FirstFinalContent(init, k, id, now);
      assert init[..k + 1] == chunks[..k + 1];
    }
  }

  /** Stopping the stream early leaves a prefix of what full consumption would have appended. */
  lemma {:induction false} FinalMessagesPrefix(chunks: seq<AgentResponse>, k: nat, id: string, now: Timestamp)
    requires k <= |chunks|
    ensures FinalMessages(chunks[..k], id, now) <= FinalMessages(chunks, id, now)
  {
    if k < |chunks| {
      var init := chunks[..|chunks| - 1];
      assert init[..k] == chunks[..k];
      FinalMessagesPrefix(init, k, id, now);
    } else {
      assert chunks[..k] == chunks;
    }
  }

  /**
   * A consumer that breaks as soon as it has received the first final chunk
   * (the way every caller in the repository iterates) leaves the history
   * exactly as `send_message` left it: the final message is never appended.
   */
  lemma {:induction false} BreakAtFirstFinalAppendsNothing(chunks: seq<AgentResponse>, k: nat, id: string, now: Timestamp)
    requires k < |chunks| && chunks[k].isFinal
    requires forall j :: 0 <= j < k ==> !chunks[j].isFinal
    ensures FinalMessages(chunks[..Resumed(BreaksAfter(k + 1), |chunks|)], id, now) == []
  {
    var prefix := chunks[..k];
    assert Resumed(BreaksAfter(k + 1), |chunks|) == k;
    FinalMessagesCount(prefix, id, now);
    forall i | 0 <= i < |prefix| ensures !prefix[i].isFinal { assert prefix[i] == chunks[i]; }
  }

  /** A connected non-streaming exchange that gets an answer grows the history by exactly [user, answer]. */
  lemma NonStreamingAddsTwo(history: seq<Message>, user: Message, response: AgentResponse)
    ensures AfterSend(history, false, user, Responds(response)) == history + [user, response.message]
  {
  }
}

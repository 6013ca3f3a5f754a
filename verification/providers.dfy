/**
 * The logic the two provider adapters share, written once: the keyword
 * argument merge into the API parameters, the `is_final` rule, and the
 * streamed-chunk accumulation. The SDK's streamed chunks and completions
 * are plain records here; `Adapter` selects the few places where the
 * adapters differ.
 */
module Providers {
  import opened Wrappers
  import opened Json
  import opened Interfaces
  import opened Agent

  datatype Adapter = AzureOpenAIAdapter | AIFoundryAdapter

  /** A message in the AI Foundry SDK's own classes. */
  datatype FoundryMessage = UserMessage(content: string) | AssistantMessage(content: string) | SystemMessage(content: string)

  /** A value in the API parameters: a JSON-like value, or the Foundry SDK's message objects. */
  datatype Param = Value(v: Json) | FoundryMessages(msgs: seq<FoundryMessage>)

  /** A keyword argument whose value is `None`. */
  const NoneArg := Value(JNull)

  /** Keyword arguments, in call order. */
  type KwArgs = seq<(string, Param)>

  /** `kwargs.get(key, default)`: the value given for the key, else the default. */
  function KwGet(kwargs: KwArgs, key: string, default: Param): Param {
    if kwargs == [] then default
    else if kwargs[|kwargs| - 1].0 == key then kwargs[|kwargs| - 1].1
    else KwGet(kwargs[..|kwargs| - 1], key, default)
  }

  /** The lookup finds the last value given for the key, and the default when none is. */
  lemma {:induction false} KwGetFinds(kwargs: KwArgs, key: string, default: Param)
    ensures (forall i :: 0 <= i < |kwargs| ==> kwargs[i].0 != key) ==> KwGet(kwargs, key, default) == default
    ensures forall i :: 0 <= i < |kwargs| && kwargs[i].0 == key && (forall j :: i < j < |kwargs| ==> kwargs[j].0 != key) ==>
      KwGet(kwargs, key, default) == kwargs[i].1
  {
    if kwargs != [] {
      var init := kwargs[..|kwargs| - 1];
      KwGetFinds(init, key, default);
      if forall i :: 0 <= i < |kwargs| ==> kwargs[i].0 != key {
        assert forall i :: 0 <= i < |init| ==> init[i] == kwargs[i];
      }
      forall i | 0 <= i < |kwargs| && kwargs[i].0 == key && (forall j :: i < j < |kwargs| ==> kwargs[j].0 != key)
        ensures KwGet(kwargs, key, default) == kwargs[i].1
      {
        if i < |init| {
          assert init[i] == kwargs[i];
          assert forall j :: i < j < |init| ==> init[j] == kwargs[j];
        }
      }
    }
  }

  /** A keyword argument that the merge copies: not `max_tokens`/`temperature`, and not `None`. */
  predicate Merged(kv: (string, Param)) {
    kv.0 != "max_tokens" && kv.0 != "temperature" && kv.1 != NoneArg
  }

  /** The parameters after the loop over the keyword arguments. */
  function MergeKwargs(base: map<string, Param>, kwargs: KwArgs): map<string, Param> {
    if kwargs == [] then base
    else
      var params := MergeKwargs(base, kwargs[..|kwargs| - 1]);
      var kv := kwargs[|kwargs| - 1];
      if Merged(kv) then params[kv.0 := kv.1] else params
  }

  /** `for key, value in kwargs.items(): if key not in [...] and value is not None: api_params[key] = value`. */
  method MergeParams(base: map<string, Param>, kwargs: KwArgs) returns (params: map<string, Param>)
    ensures params == MergeKwargs(base, kwargs)
  {
    params := base;
    var i := 0;
    while i < |kwargs|
      invariant 0 <= i <= |kwargs|
      invariant params == MergeKwargs(base, kwargs[..i])
    {
      assert kwargs[..i + 1][..i] == kwargs[..i];
      var (key, value) := kwargs[i];
      if key != "max_tokens" && key != "temperature" && value != NoneArg {
        params := params[key := value];
      }
      i := i + 1;
    }
    assert kwargs[..i] == kwargs;
  }

  /** A key no copied keyword argument names keeps its base value (or stays absent). */
  lemma {:induction false} MergeUntouched(base: map<string, Param>, kwargs: KwArgs, key: string)
    requires forall i :: 0 <= i < |kwargs| && kwargs[i].0 == key ==> !Merged(kwargs[i])
    ensures key in MergeKwargs(base, kwargs) <==> key in base
    ensures key in base ==> MergeKwargs(base, kwargs)[key] == base[key]
  {
    if kwargs != [] {
      var init := kwargs[..|kwargs| - 1];
      forall i | 0 <= i < |init| && init[i].0 == key ensures !Merged(init[i]) {
        assert init[i] == kwargs[i];
      }
      MergeUntouched(base, init, key);
    }
  }

  /** `max_tokens` and `temperature` are never changed by the merge, whatever the keyword arguments. */
  lemma MergeKeepsLimits(base: map<string, Param>, kwargs: KwArgs)
    ensures "max_tokens" in MergeKwargs(base, kwargs) <==> "max_tokens" in base
    ensures "max_tokens" in base ==> MergeKwargs(base, kwargs)["max_tokens"] == base["max_tokens"]
    ensures "temperature" in MergeKwargs(base, kwargs) <==> "temperature" in base
    ensures "temperature" in base ==> MergeKwargs(base, kwargs)["temperature"] == base["temperature"]
  {
    MergeUntouched(base, kwargs, "max_tokens");
    MergeUntouched(base, kwargs, "temperature");
  }

  /** A copied keyword argument overrides the base, unless a later copied one names the same key. */
  lemma {:induction false} MergeOverrides(base: map<string, Param>, kwargs: KwArgs, i: nat)
    requires i < |kwargs| && Merged(kwargs[i])
    requires forall j :: i < j < |kwargs| && kwargs[j].0 == kwargs[i].0 ==> !Merged(kwargs[j])
    ensures kwargs[i].0 in MergeKwargs(base, kwargs) && MergeKwargs(base, kwargs)[kwargs[i].0] == kwargs[i].1
  {
    var init := kwargs[..|kwargs| - 1];
    if i < |kwargs| - 1 {
      assert init[i] == kwargs[i];
      forall j | i < j < |init| && init[j].0 == init[i].0 ensures !Merged(init[j]) {
        assert init[j] == kwargs[j];
      }
      MergeOverrides(base, init, i);
    }
  }

  /** The `is_final` rule: a finish reason is present and is not the string "null". */
  predicate IsFinal(finishReason: Option<string>) {
    finishReason.Some? && finishReason.value != "null"
  }

  datatype Delta = Delta(content: Option<string>)
  datatype ChunkChoice = ChunkChoice(delta: Option<Delta>, finishReason: Option<string>)
  /** A streamed chunk; a missing `model` attribute is `None`. */
  datatype Chunk = Chunk(choices: seq<ChunkChoice>, model: Option<string>)

  /** What the generator does with one chunk. */
  datatype ChunkStep =
    | SkipChunk
    | YieldDelta(content: string, model: string, isFinal: bool)
    | ChunkFails    // AttributeError on a missing `delta` or `model`

  /**
   * The test on `chunk.choices` and its delta's content: the Azure adapter
   * reads `delta.content` unguarded and its chunks must carry `model`; the
   * Foundry adapter skips a missing delta and defaults the model to
   * "ai-foundry".
   */
  function Step(chunk: Chunk, adapter: Adapter): (r: ChunkStep)
    ensures r.YieldDelta? ==>
      && r.content != "" && chunk.choices != []
      && chunk.choices[0].delta == Some(Delta(Some(r.content)))
      && r.isFinal == IsFinal(chunk.choices[0].finishReason)
    ensures r.ChunkFails? ==> adapter == AzureOpenAIAdapter
    ensures chunk.choices == [] ==> r.SkipChunk?
    ensures chunk.choices != [] && chunk.choices[0].delta.None? ==>
      (if adapter == AzureOpenAIAdapter then r.ChunkFails? else r.SkipChunk?)
    ensures (chunk.choices != [] && chunk.choices[0].delta.Some? &&
             (chunk.choices[0].delta.value.content.None? || chunk.choices[0].delta.value.content.value == "")) ==> r.SkipChunk?
    ensures (chunk.choices != [] && chunk.choices[0].delta.Some? && chunk.choices[0].delta.value.content.Some? &&
             chunk.choices[0].delta.value.content.value != "") ==>
      if adapter == AzureOpenAIAdapter && chunk.model.None? then r.ChunkFails?
      else r.YieldDelta? && r.model == (if chunk.model.Some? then chunk.model.value else "ai-foundry")
  {
    if chunk.choices == [] then SkipChunk
    else
      var choice := chunk.choices[0];
      if choice.delta.None? then (if adapter == AzureOpenAIAdapter then ChunkFails else SkipChunk)
      else if choice.delta.value.content.None? || choice.delta.value.content.value == "" then SkipChunk
      else if adapter == AzureOpenAIAdapter && chunk.model.None? then ChunkFails
      else
        var model := if chunk.model.Some? then chunk.model.value else "ai-foundry";
        YieldDelta(choice.delta.value.content.value, model, IsFinal(choice.finishReason))
  }

  /** The response yielded for one delta: the delta itself, with the content accumulated so far as metadata. */
  function DeltaResponse(content: string, accumulated: string, model: string, isFinal: bool, id: string, now: Timestamp): AgentResponse {
    AgentResponse(
      Message(id, Assistant, content, Some(now), Some(map["model" := JStr(model), "accumulated_content" := JStr(accumulated)])),
      isFinal, None)
  }

  /** What the stream yields, and whether it then raised instead of ending. */
  datatype StreamRun = StreamRun(responses: seq<AgentResponse>, failed: bool)

  /** The streaming generator over a finite run of chunks. */
  function Stream(chunks: seq<Chunk>, adapter: Adapter, id: string, now: Timestamp): StreamRun {
    if chunks == [] then StreamRun([], false)
    else
      var prev := Stream(chunks[..|chunks| - 1], adapter, id, now);
      if prev.failed then prev
      else
        match Step(chunks[|chunks| - 1], adapter)
        case SkipChunk => prev
        case ChunkFails => StreamRun(prev.responses, true)
        case YieldDelta(content, model, final) =>
          StreamRun(prev.responses + [DeltaResponse(content, Contents(prev.responses) + content, model, final, id, now)], false)
  }

  /** `_generate_streaming_response`, for either adapter. */
  method StreamResponses(chunks: seq<Chunk>, adapter: Adapter, id: string, now: Timestamp)
    returns (responses: seq<AgentResponse>, failed: bool)
    ensures StreamRun(responses, failed) == Stream(chunks, adapter, id, now)
  {
    var accumulated := "";
    responses, failed := [], false;
    var i := 0;
    while i < |chunks|
      invariant 0 <= i <= |chunks|
      invariant StreamRun(responses, false) == Stream(chunks[..i], adapter, id, now)
      invariant accumulated == Contents(responses)
    {
      var step := Step(chunks[i], adapter);
      StreamPrefixStep(chunks, adapter, id, now, i, step);
      if step.ChunkFails? {
        StreamFailurePersists(chunks, adapter, id, now, i + 1);
        return responses, true;
      } else if step.YieldDelta? {
        accumulated := accumulated + step.content;
        responses := responses + [DeltaResponse(step.content, accumulated, step.model, step.isFinal, id, now)];
      }
      i := i + 1;
    }
    assert chunks[..i] == chunks;
  }

  /** The generator over one more chunk, unfolded once, and what a yielded response adds to the contents. */
  lemma StreamPrefixStep(chunks: seq<Chunk>, adapter: Adapter, id: string, now: Timestamp, i: nat, step: ChunkStep)
    requires i < |chunks| && step == Step(chunks[i], adapter)
    requires !Stream(chunks[..i], adapter, id, now).failed
    ensures step.SkipChunk? ==> Stream(chunks[..i + 1], adapter, id, now) == Stream(chunks[..i], adapter, id, now)
    ensures step.ChunkFails? ==>
      Stream(chunks[..i + 1], adapter, id, now) == StreamRun(Stream(chunks[..i], adapter, id, now).responses, true)
    ensures step.YieldDelta? ==>
      var rs := Stream(chunks[..i], adapter, id, now).responses;
      var r := DeltaResponse(step.content, Contents(rs) + step.content, step.model, step.isFinal, id, now);
      && Stream(chunks[..i + 1], adapter, id, now) == StreamRun(rs + [r], false)
      && Contents(rs + [r]) == Contents(rs) + step.content
  {
    assert chunks[..i + 1][..i] == chunks[..i];
    if step.YieldDelta? {
      var rs := Stream(chunks[..i], adapter, id, now).responses;
      var r := rs + [DeltaResponse(step.content, Contents(rs) + step.content, step.model, step.isFinal, id, now)];
      assert r[..|r| - 1] == rs;
    }
  }

  /** Once the generator has raised, later chunks are never read. */
  lemma {:induction false} StreamFailurePersists(chunks: seq<Chunk>, adapter: Adapter, id: string, now: Timestamp, k: nat)
    requires k <= |chunks| && Stream(chunks[..k], adapter, id, now).failed
    ensures Stream(chunks, adapter, id, now) == Stream(chunks[..k], adapter, id, now)
  {
    if k < |chunks| {
      var init := chunks[..|chunks| - 1];
      assert init[..k] == chunks[..k];
      StreamFailurePersists(init, adapter, id, now, k);
    } else {
      assert chunks[..k] == chunks;
    }
  }

  /**
   * The k-th yielded response is an assistant message with the stream's one
   * id, non-empty delta content and no usage, and its `accumulated_content`
   * is the concatenation of the deltas yielded up to it.
   */
  ghost predicate ShapedAt(rs: seq<AgentResponse>, k: nat, id: string)
    requires k < |rs|
  {
    && rs[k].message.id == id && rs[k].message.msgType == Assistant
    && rs[k].message.content != "" && rs[k].usage.None?
    && rs[k].message.metadata.Some?
    && "accumulated_content" in rs[k].message.metadata.value
    && rs[k].message.metadata.value["accumulated_content"] == JStr(Contents(rs[..k + 1]))
  }

  /** Every response the generator yields has that shape. */
  lemma {:induction false} StreamShape(chunks: seq<Chunk>, adapter: Adapter, id: string, now: Timestamp)
    ensures forall k :: 0 <= k < |Stream(chunks, adapter, id, now).responses| ==>
      ShapedAt(Stream(chunks, adapter, id, now).responses, k, id)
  {
    if chunks != [] {
      var init := chunks[..|chunks| - 1];
      StreamShape(init, adapter, id, now);
      var prev := Stream(init, adapter, id, now);
      var step := Step(chunks[|chunks| - 1], adapter);
      if !prev.failed && step.YieldDelta? {
        var n := |prev.responses|;
        var rs := Stream(chunks, adapter, id, now).responses;
        assert rs == prev.responses + [DeltaResponse(step.content, Contents(prev.responses) + step.content, step.model, step.isFinal, id, now)];
        forall k | 0 <= k < |rs| ensures ShapedAt(rs, k, id) {
          if k < n {
            assert ShapedAt(prev.responses, k, id);
            assert rs[k] == prev.responses[k];
            assert rs[..k + 1] == prev.responses[..k + 1];
          } else {
            assert rs[..k + 1] == rs;
            assert rs[..|rs| - 1] == prev.responses;
          }
        }
      }
    }
  }

  /** Chunks that carry no content never reach the caller: dropping one changes nothing. */
  lemma {:induction false} StreamSkipsChunk(a: seq<Chunk>, c: Chunk, b: seq<Chunk>, adapter: Adapter, id: string, now: Timestamp)
    requires Step(c, adapter).SkipChunk?
    ensures Stream(a + [c] + b, adapter, id, now) == Stream(a + b, adapter, id, now)
  {
    if b == [] {
      assert (a + [c] + b)[..|a + [c] + b| - 1] == a;
      assert a + b == a;
    } else {
      var b', last := b[..|b| - 1], b[|b| - 1];
      StreamSkipsChunk(a, c, b', adapter, id, now);
      assert a + [c] + b == (a + [c] + b') + [last];
      assert a + b == (a + b') + [last];
      StreamSnocCongruent(a + [c] + b', a + b', last, adapter, id, now);
    }
  }

  /** Runs that agree so far agree after one more chunk. */
  lemma StreamSnocCongruent(s1: seq<Chunk>, s2: seq<Chunk>, x: Chunk, adapter: Adapter, id: string, now: Timestamp)
    requires Stream(s1, adapter, id, now) == Stream(s2, adapter, id, now)
    ensures Stream(s1 + [x], adapter, id, now) == Stream(s2 + [x], adapter, id, now)
  {
    assert (s1 + [x])[..|s1 + [x]| - 1] == s1 && (s1 + [x])[|s1 + [x]| - 1] == x;
    assert (s2 + [x])[..|s2 + [x]| - 1] == s2 && (s2 + [x])[|s2 + [x]| - 1] == x;
  }

  /** When every chunk carries content, there is one response per chunk, carrying its delta and its finality. */
  lemma {:induction false} StreamOnePerChunk(chunks: seq<Chunk>, adapter: Adapter, id: string, now: Timestamp)
    requires forall i :: 0 <= i < |chunks| ==> Step(chunks[i], adapter).YieldDelta?
    ensures var run := Stream(chunks, adapter, id, now);
      && !run.failed && |run.responses| == |chunks|
      && forall i :: 0 <= i < |chunks| ==>
           && Step(chunks[i], adapter).YieldDelta?
           && run.responses[i].message.content == chunks[i].choices[0].delta.value.content.value
           && run.responses[i].isFinal == IsFinal(chunks[i].choices[0].finishReason)
  {
    if chunks != [] {
      var init := chunks[..|chunks| - 1];
      forall i | 0 <= i < |init| ensures Step(init[i], adapter).YieldDelta? { assert init[i] == chunks[i]; }
      StreamOnePerChunk(init, adapter, id, now);
      var run := Stream(chunks, adapter, id, now);
      forall i | 0 <= i < |chunks|
        ensures run.responses[i].message.content == chunks[i].choices[0].delta.value.content.value
        ensures run.responses[i].isFinal == IsFinal(chunks[i].choices[0].finishReason)
      {
        if i < |init| { assert chunks[i] == init[i]; }
      }
    }
  }

  /** The Azure adapter fails only on a missing delta or model. */
  predicate AzureReadable(chunk: Chunk) {
    chunk.choices != [] ==> chunk.choices[0].delta.Some? && (chunk.choices[0].delta.value.content.Some? && chunk.choices[0].delta.value.content.value != "" ==> chunk.model.Some?)
  }

  /** On chunks the Azure adapter can read, both adapters yield the same responses. */
  lemma {:induction false} AdaptersAgree(chunks: seq<Chunk>, id: string, now: Timestamp)
    requires forall i :: 0 <= i < |chunks| ==> AzureReadable(chunks[i])
    ensures Stream(chunks, AzureOpenAIAdapter, id, now) == Stream(chunks, AIFoundryAdapter, id, now)
  {
    if chunks != [] {
      var init := chunks[..|chunks| - 1];
      forall i | 0 <= i < |init| ensures AzureReadable(init[i]) { assert init[i] == chunks[i]; }
      AdaptersAgree(init, id, now);
      assert AzureReadable(chunks[|chunks| - 1]);
    }
  }

  /** A missing delta ends the Azure stream with an error, where the Foundry stream goes on. */
  lemma MissingDeltaScenario(id: string, now: Timestamp)
    ensures var chunks := [Chunk([ChunkChoice(None, None)], Some("m")), Chunk([ChunkChoice(Some(Delta(Some("hi"))), Some("stop"))], Some("m"))];
      && Stream(chunks, AzureOpenAIAdapter, id, now) == StreamRun([], true)
      && Stream(chunks, AIFoundryAdapter, id, now) == StreamRun([DeltaResponse("hi", "hi", "m", true, id, now)], false)
  {
    var chunks := [Chunk([ChunkChoice(None, None)], Some("m")), Chunk([ChunkChoice(Some(Delta(Some("hi"))), Some("stop"))], Some("m"))];
    assert chunks[..|chunks| - 1] == [chunks[0]] && [chunks[0]][..0] == [];
    assert Step(chunks[0], AzureOpenAIAdapter) == ChunkFails;
    assert Step(chunks[0], AIFoundryAdapter) == SkipChunk;
    assert Step(chunks[1], AIFoundryAdapter) == YieldDelta("hi", "m", true);
    assert Stream([chunks[0]], AzureOpenAIAdapter, id, now) == StreamRun([], true);
    assert Stream([chunks[0]], AIFoundryAdapter, id, now) == StreamRun([], false);
    assert Contents([]) + "hi" == "hi";
  }

  /**
   * Fed to the agent, a provider stream produces history messages whose
   * content is the `accumulated_content` the provider reported on the
   * first final chunk.
   */
  lemma AgentStoresAccumulatedContent(chunks: seq<Chunk>, adapter: Adapter, id: string, now: Timestamp,
                                      streamId: string, later: Timestamp, k: nat)
    requires var rs := Stream(chunks, adapter, id, now).responses;
      k < |rs| && rs[k].isFinal && forall j :: 0 <= j < k ==> !rs[j].isFinal
    ensures var rs := Stream(chunks, adapter, id, now).responses;
      && FinalMessages(rs, streamId, later) != []
      && FinalMessages(rs, streamId, later)[0].metadata == rs[k].message.metadata
      && rs[k].message.metadata.Some? && "accumulated_content" in rs[k].message.metadata.value
      && JStr(FinalMessages(rs, streamId, later)[0].content) == rs[k].message.metadata.value["accumulated_content"]
  {
    var rs := Stream(chunks, adapter, id, now).responses;
    StreamShape(chunks, adapter, id, now);
    assert ShapedAt(rs, k, id);
    FirstFinalContent(rs, k, streamId, later);
  }

  // ---------------------------------------------------------- single replies

  datatype CompletionChoice = CompletionChoice(content: Option<string>, finishReason: Option<string>)
  datatype Usage = Usage(promptTokens: int, completionTokens: int, totalTokens: int)
  /** A non-streamed completion; a missing `model` attribute is `None`. */
  datatype Completion = Completion(choices: seq<CompletionChoice>, model: Option<string>, usage: Option<Usage>)

  /**
   * `_generate_single_response`: the first choice's content (or ""), with
   * the model and finish reason as metadata and the usage counts if any.
   * `None` when there is no choice (IndexError) or, for the Azure adapter,
   * no `model` (AttributeError).
   */
  function SingleResponse(completion: Completion, adapter: Adapter, id: string, now: Timestamp): (r: Option<AgentResponse>)
    ensures r.Some? <==> completion.choices != [] && (adapter == AzureOpenAIAdapter ==> completion.model.Some?)
    ensures r.Some? ==> r.value.isFinal && r.value.message.msgType == Assistant && r.value.message.id == id
    ensures r.Some? ==> (r.value.message.content ==
      if completion.choices[0].content.Some? then completion.choices[0].content.value else "")
    ensures r.Some? ==> r.value.message.metadata.Some? && r.value.message.metadata.value.Keys == {"model", "finish_reason"}
    ensures r.Some? && completion.model.Some? ==> r.value.message.metadata.value["model"] == JStr(completion.model.value)
    ensures r.Some? ==> (r.value.usage.Some? <==> completion.usage.Some?)
    ensures r.Some? ==> r.value.message.timestamp == Some(now)
    ensures r.Some? ==> (r.value.message.metadata.value["finish_reason"] ==
      if completion.choices[0].finishReason.Some? then JStr(completion.choices[0].finishReason.value) else JNull)
    ensures r.Some? && completion.model.None? ==> r.value.message.metadata.value["model"] == JStr("ai-foundry")
    ensures r.Some? && completion.usage.Some? ==> r.value.usage.value == map[
      "prompt_tokens" := JInt(completion.usage.value.promptTokens),
      "completion_tokens" := JInt(completion.usage.value.completionTokens),
      "total_tokens" := JInt(completion.usage.value.totalTokens)]
  {
    if completion.choices == [] then None
    else if adapter == AzureOpenAIAdapter && completion.model.None? then None
    else
      var choice := completion.choices[0];
      var content := if choice.content.Some? then choice.content.value else "";
      var model := if completion.model.Some? then completion.model.value else "ai-foundry";
      var finish := if choice.finishReason.Some? then JStr(choice.finishReason.value) else JNull;
      var usage := match completion.usage
        case None => None
        case Some(u) => Some(map[
          "prompt_tokens" := JInt(u.promptTokens),
          "completion_tokens" := JInt(u.completionTokens),
          "total_tokens" := JInt(u.totalTokens)]);
      Some(AgentResponse(Message(id, Assistant, content, Some(now), Some(map["model" := JStr(model), "finish_reason" := finish])), true, usage))
  }
}

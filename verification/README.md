# real-time-agent, modelled in Dafny

This project models the core of the real-time-agent repository, which has
two parts.

**The call backend** bridges a telephony websocket (Azure Communication
Services) and a realtime model session:

- The `/realtime` endpoint accepts the socket and builds a
  `CommunicationHandler`. The handler opens the model session and starts one
  background task, the outbound dispatcher. The endpoint then runs the
  inbound pump and tears down according to its `error_occurred` flag.
- The inbound pump takes client `AudioData` frames, base64-decodes them and
  forwards the bytes to the session with `commit=False`.
- The outbound dispatcher turns model events into client frames: `AudioData`
  frames carrying base64 audio, and a fixed `StopAudio` frame on
  interruption. It logs transcripts and errors.
- An earlier variant of the handler is modelled beside the current one.
  Its loop never checks the socket state and it forwards undecoded payloads.
- The agent manager loads agent configurations from a directory listing,
  keyed by name with the last one winning. It picks an opener agent and
  wires handoffs between registered agents.
- `_truncate_str` is modelled with Python's slice semantics, negative limits
  included.

**The real-time-agent library** provides:

- the message and status enumerations and their dictionary forms;
- `RealTimeAgent`, a connection-status state machine that keeps the
  conversation history as a list updated in place, for both streaming and
  single replies;
- the helper utilities: token estimates, validation, JSON and Markdown
  export, and the retry wrapper;
- two provider adapters, Azure OpenAI and AI Foundry. Each adapter covers
  its configuration checks, its message conversion, the parameters it sends
  to the SDK (keyword-argument merge included), the responses it builds from
  streamed chunks and single completions, and its client lifecycle.

Base64 (section 4 of RFC 4648) is modelled with its round trip, because the
pump's forwarding property depends on it.

## How the model is built

Collaborators the code only calls are represented in one of three ways:

- **As a log.** Calls on the socket, the model session and the background
  task are appended, in order, to one shared `CallLog` of `Effect` values.
  The warnings and errors that the two communication handlers and the
  endpoint log appear in the same log, and so do the transcript lines the
  dispatcher logs at info level. The agent manager's warnings are not
  recorded. Because there is one log, the teardown properties can speak
  about order across collaborators.
- **As a script.** What a collaborator delivers is given in advance: the
  client's `ClientStep`s and the model's `StreamItem`s.
- **As parameters.** The outcome of an SDK call, a uuid or the current time
  is passed in: `OpenOutcome`, `TeardownFaults`, `ProviderReply`,
  `created`/`testOk`, `freshId`, `now`. So is the way a caller iterates a
  stream (`Consumer`).

Each loop of the source is a method with a `while` loop, proved against a
specification function over the sequence it walks. Examples are
`ReceiveAudio` against `Pump`, `ProcessRealtimeMessages` against `Dispatch`,
`ConsumeStream` against `FinalMessages`, `StreamResponses` against `Stream`,
`ValidateConversation` against `ConversationErrors`, and `AsyncRetry.Call`
against `Retry`. The lemmas state what the source promises about those
functions.

Objects whose fields the source updates become classes:

- `CommunicationHandler`
- `LegacyCommunicationHandler`
- `AgentManager`
- `RealTimeAgent`
- the two providers
- `AsyncRetry`

Notable behaviours of the code:

- A failure of the outbound dispatcher task is never observed by the
  endpoint. Only the inbound pump's exception leads to the 1011 close.
- If opening the model session fails, the exception escapes before the
  endpoint's `try`. No session is exited and the socket is not closed.
- `end_session` has no closed flag, so it is not idempotent.
- If `__aexit__` raises inside `end_session`, the receive task is never
  cancelled, the 1000 close is never sent, and the exception escapes the
  endpoint (`ExitFailureEscapes`).
- The agent's streaming handler appends a history message on every chunk
  marked final, each with the content accumulated so far, not only on the
  first one. `FirstFinalContent` states what the first one holds.
- That append runs after the `yield`, so only when the caller asks for the
  next chunk. A caller that breaks right after the final chunk, as the
  repository's examples do, leaves no assistant message in the history
  (`BreakAtFirstFinalAppendsNothing`).
- A streamed chunk's message is relabelled with the stream's id and a fresh
  timestamp before being passed on.

## Model

| member | source | states |
|---|---|---|
| Utils.PyPrefix | code/backend/app/utils.py:3 | Python's `s[:n]`. The result is a prefix of `s` with length min(n, len) for n ≥ 0, and len + n (at least 0) for negative n. |
| Utils.TruncateStr | code/backend/app/utils.py:1-4 | A string no longer than the limit is returned unchanged. Otherwise the result is the first `max_length` characters plus "...", of length `max_length + 3`. A negative limit cuts from the end. |
| Utils.TruncateIdempotent | code/backend/app/utils.py:1-4 | For a non-negative limit, truncating twice equals truncating once. |
| Utils.TruncateNegativeNotIdempotent | code/backend/app/utils.py:2-3 | For a negative limit the result exceeds `max_length + 3` and a second truncation differs ("ab", -1 gives "a..." and then "a....."). |
| Base64.Encode | code/backend/app/realtime/communication.py:156 | The encoding has 4·⌈n/3⌉ characters. |
| Base64.DecodeEncode | code/backend/app/realtime/communication.py:156 | Decoding the encoding of any byte sequence gives the bytes back. |
| Base64.Decode | code/backend/app/realtime/communication.py:136 | Strict base64 decoding: text is accepted only in whole groups of four, and the bytes number 3 per group less at most 2 for padding. |
| Base64.DecodeEmptyOnlyFromEmpty | code/backend/app/realtime/communication.py:136-139 | For the strict decoder, only the empty text decodes to no bytes, so the pump skips exactly the empty payload. Python's non-validating decoder also gives no bytes for texts such as a lone newline (see Left out). |
| Communication.AudioPayloadAction | code/backend/app/realtime/communication.py:130-140 | The `AudioData` branch forwards only non-empty decoded bytes. Otherwise it skips, or fails on a missing payload or one the strict decoder rejects. |
| Communication.ClassifyFrame | code/backend/app/realtime/communication.py:126-145 | A frame is warned about exactly when its `type` is not "AudioData". A forwarded payload is non-empty. |
| Communication.AudioFrame | code/backend/app/realtime/communication.py:147-159 | The outbound frame has `Kind` "AudioData" and an `AudioData.Data` string that decodes back to the audio. |
| Communication.WebSocket.ReceiveJson | code/backend/app/realtime/communication.py:124 | Consumes one scripted step and returns its frame, or None when the read raises. |
| Communication.CommunicationHandler.constructor | code/backend/app/realtime/communication.py:26-30 | The handler keeps the socket and holds no session, context or task. |
| Communication.CommunicationHandler.InitModelRealtimeSession | code/backend/app/realtime/communication.py:83-97 | Makes the run, enter and create-task calls in order and sets all three handles, or stops at the first failure with nothing set and no task created. |
| Communication.CommunicationHandler.EndSession | code/backend/app/realtime/communication.py:99-107 | Exits the session context, then cancels the receive task. If `__aexit__` raises, that exception escapes and the task is not cancelled. Without a context it raises and makes no call. |
| Communication.CommunicationHandler.SendAudio | code/backend/app/realtime/communication.py:109-116 | Forwards the bytes unchanged with `commit=False`. Without a session it raises. |
| Communication.CommunicationHandler.ReceiveOnce | code/backend/app/realtime/communication.py:122-145 | One pass of the loop consumes exactly one scripted step. It either ends the pump as `Pump` says, or leaves the rest of the pump to the remaining script. |
| Communication.CommunicationHandler.ReceiveAudio | code/backend/app/realtime/communication.py:118-145 | The calls made and the way the loop ends equal `Pump` of the client's script. Only a prefix of the script is consumed. |
| Communication.CommunicationHandler.ReturnAudio | code/backend/app/realtime/communication.py:147-159 | Sends exactly one `AudioFrame` of the audio. |
| Communication.CommunicationHandler.InterruptAudio | code/backend/app/realtime/communication.py:161-174 | Sends exactly the fixed `StopAudio` frame. |
| Communication.TranscriptEffects | code/backend/app/realtime/communication.py:214-233 | A raw model event logs at most one transcript line. |
| Communication.EventEffects | code/backend/app/realtime/communication.py:191-240 | One event has at most one effect: a frame sent, a transcript logged or an error logged. |
| Communication.CommunicationHandler.HandleEvent | code/backend/app/realtime/communication.py:191-240 | Appends exactly the event's effects from the `if/elif` chain. |
| Communication.CommunicationHandler.HandleItem | code/backend/app/realtime/communication.py:182-189 | Appends one stream item's effects. It reports a break exactly when the stream raised, with its reason. |
| Communication.CommunicationHandler.ProcessRealtimeMessages | code/backend/app/realtime/communication.py:176-243 | The calls made and the way the loop ends equal `Dispatch` of the event stream. |
| Communication.PumpOnlyForwardsOrWarns | code/backend/app/realtime/communication.py:118-145 | The pump only forwards audio with `commit=False` and logs. It never writes to the client and never commits. |
| Communication.PumpAppend | code/backend/app/realtime/communication.py:122-145 | Frames are handled in order: after a prefix that returns, the pump continues with the rest. |
| Communication.PumpForwardsDecodedAudio | code/backend/app/realtime/communication.py:127-140 | A well-formed non-empty audio frame is decoded and forwarded once before the next frame is read. |
| Communication.PumpForwardsEncodedAudio | code/backend/app/realtime/communication.py:131-140 | The bytes the client base64-encoded are exactly the bytes the session receives. |
| Communication.PumpSkipsEmptyPayload | code/backend/app/realtime/communication.py:136-140 | An empty payload forwards nothing and the loop goes on. |
| Communication.PumpMissingPayloadRaises | code/backend/app/realtime/communication.py:131-136 | A missing `audioData`, a missing `data` or a null `data` reaches the decoder as None and ends the pump with an error. |
| Communication.PumpWarnsOnOtherTags | code/backend/app/realtime/communication.py:142-145 | Any other tag, or a missing tag, adds one warning and the loop goes on. |
| Communication.PumpScenarioAudioStopBogus | code/backend/app/realtime/communication.py:122-145 | For any non-empty well-encoded audio, then `StopAudio`, then an unknown tag, the pump forwards the decoded bytes once and warns twice. |
| Communication.EventWrites | code/backend/app/realtime/communication.py:191-240 | An event writes at most one frame: audio with data writes its `AudioData` frame, an interruption writes the `StopAudio` frame, and nothing else writes. |
| Communication.DispatchWriteCount | code/backend/app/realtime/communication.py:182-240 | The dispatcher writes exactly one frame per writing event before the first break. |
| Communication.DispatchAppend | code/backend/app/realtime/communication.py:182-240 | Events are handled in stream order. A break-free prefix returns and the rest follows it. |
| Communication.DispatchBreakEndsStream | code/backend/app/realtime/communication.py:241-243 | A stream error is logged and re-raised, and nothing after it is handled. |
| Communication.DispatchUnprintableContinues | code/backend/app/realtime/communication.py:184-189 | Unprintable event data only adds a warning. The event is still handled. |
| Communication.DispatchScenarioAudioInterruptBreak | code/backend/app/realtime/communication.py:176-243 | For any non-empty audio, an interruption, then a break: the audio frame, the stop frame, the error log, and a re-raise. |
| RealtimeEndpoint.Preamble | code/backend/app/api/v1/endpoints/realtime.py:29-37 | The first call is `accept`. |
| RealtimeEndpoint.Teardown | code/backend/app/api/v1/endpoints/realtime.py:51-64 | The handler raises exactly when `__aexit__` or a close raises, and an `__aexit__` failure is the exception that escapes. |
| RealtimeEndpoint.CloseSocket | code/backend/app/api/v1/endpoints/realtime.py:56 | One close call with the given frame, raising when the socket's close does. |
| RealtimeEndpoint.ExceptAndFinally | code/backend/app/api/v1/endpoints/realtime.py:51-64 | The calls made by the `except` and `finally` branches, and how the handler ends, equal `Teardown` of the pump's ending. |
| RealtimeEndpoint.Realtime | code/backend/app/api/v1/endpoints/realtime.py:19-64 | The calls made and the way the handler ends equal `EndpointRun` of the header, the client script, the opening outcome and the teardown faults. |
| RealtimeEndpoint.AcceptFirstAndOnce | code/backend/app/api/v1/endpoints/realtime.py:32 | `accept` is the first call and is made exactly once. |
| RealtimeEndpoint.MissingHeaderOnlyWarns | code/backend/app/api/v1/endpoints/realtime.py:34-37 | A missing header only adds one warning after `accept`. Everything else is the same. |
| RealtimeEndpoint.OpenFailureSkipsTeardown | code/backend/app/api/v1/endpoints/realtime.py:39-47 | When opening fails the error escapes, and there is no task, no session exit and no close. |
| RealtimeEndpoint.AcceptOnceAfterOpen | code/backend/app/api/v1/endpoints/realtime.py:32-64 | The opened case of AcceptFirstAndOnce, for any pump that only forwards and warns. |
| RealtimeEndpoint.TeardownExactlyOnce | code/backend/app/api/v1/endpoints/realtime.py:47-64 | Once open and when `__aexit__` returns, the session is exited once, the receive task cancelled once and the socket closed once, with 1011 or 1000. The handler returns unless that close raises. |
| RealtimeEndpoint.TeardownCounts | code/backend/app/api/v1/endpoints/realtime.py:51-64 | The counting argument for the teardown when `__aexit__` returns, for any pump that only forwards and warns. |
| RealtimeEndpoint.TailCounts | code/backend/app/api/v1/endpoints/realtime.py:51-64 | A teardown whose `__aexit__` returns exits once, cancels once, and closes once with 1011 or 1000. |
| RealtimeEndpoint.TeardownFacts | code/backend/app/realtime/communication.py:99-107 | The teardown exits the session once. It cancels the task exactly when `__aexit__` returns, and closes with 1000 exactly when, in addition, the pump returned. |
| RealtimeEndpoint.ExitFailureEscapes | code/backend/app/realtime/communication.py:103-105 | When `__aexit__` raises, its exception escapes the endpoint. The session exit is attempted once, the receive task is never cancelled and there is no normal close. |
| RealtimeEndpoint.ExitFailureAfterOpen | code/backend/app/api/v1/endpoints/realtime.py:58-64 | The counting argument behind ExitFailureEscapes, for any calls made before the teardown. |
| RealtimeEndpoint.PumpErrorClosesWithInternalError | code/backend/app/api/v1/endpoints/realtime.py:51-60 | A pump error is logged, the socket closed with 1011, then the session exited and, if `__aexit__` returns, the task cancelled. There is no normal close. The handler raises exactly when `__aexit__` or the close raises. |
| RealtimeEndpoint.PumpErrorAfterOpen | code/backend/app/api/v1/endpoints/realtime.py:51-64 | PumpErrorClosesWithInternalError for any calls made before the teardown. |
| RealtimeEndpoint.PumpReturnClosesNormally | code/backend/app/api/v1/endpoints/realtime.py:58-64 | After a normal pump end, when `__aexit__` returns, the session is exited, then the socket closed with 1000. There is no 1011 and no error log. |
| RealtimeEndpoint.ScenarioNormalCallEnd | code/backend/app/api/v1/endpoints/realtime.py:29-64 | The complete call sequence for a call whose socket is no longer connected at the first loop test. |
| RealtimeEndpoint.ScenarioExitRaises | code/backend/app/api/v1/endpoints/realtime.py:29-64 | The same call when `__aexit__` raises: the calls stop at the exit attempt and the exit's exception escapes. |
| LegacyCommunication.ClassifyLegacyFrame | code/backend/realtime/communication.py:100-117 | Warns exactly on a tag other than "AudioData". Forwards only a truthy top-level `data`. |
| LegacyCommunication.LegacyPumpNeverReturns | code/backend/realtime/communication.py:94-117 | The `while True` loop ends only by raising. It only forwards and warns. |
| LegacyCommunication.LegacyForwardsRawPayload | code/backend/realtime/communication.py:103-114 | A non-empty `data` string is forwarded undecoded with `commit=False`. |
| LegacyCommunication.LegacyIgnoresNestedPayload | code/backend/realtime/communication.py:107-110 | A frame in the current `audioData.data` format forwards nothing in the legacy loop, while the current pump forwards its decoded bytes. |
| LegacyCommunication.LegacyAudioFrame | code/backend/realtime/communication.py:128-139 | The corrected frame has lower-case `kind`/`audioData.data`, and its data decodes back to the audio. |
| LegacyCommunication.LegacyEventEffects | code/backend/realtime/communication.py:152-195 | One event has at most one effect, a frame or a transcript line. A frame is sent exactly for an audio event with data. |
| LegacyCommunication.LegacyDispatchAsWritten | code/backend/realtime/communication.py:121-198 | As written, the dispatcher never sends a frame, and it raises only with the serialisation error or a stream error. |
| LegacyCommunication.AsWrittenAudioEndsDispatcher | code/backend/realtime/communication.py:128-139 | As written, the first audio event with data raises in `json.dumps`. Nothing is sent and nothing after it is handled. |
| LegacyCommunication.CorrectedAudioIsSentAndDecodes | code/backend/realtime/communication.py:130-139 | Corrected, the audio frame is sent, the loop goes on, and the data decodes to the audio. |
| LegacyCommunication.AsWrittenAgreesWithoutAudio | code/backend/realtime/communication.py:141-198 | The written and corrected dispatchers agree on every stream without audio data. |
| LegacyCommunication.LegacyIgnoresInterruptAndError | code/backend/realtime/communication.py:167-191 | Interruptions and error events have no effect in the legacy dispatcher, unlike the current one. |
| LegacyCommunication.DispatchInterruptThenError | code/backend/app/realtime/communication.py:204-236 | In the current dispatcher, an interruption then an error event send the stop frame and log the error, and the stream goes on. |
| LegacyCommunication.LegacySocket.ReceiveParsed | code/backend/realtime/communication.py:96-99 | Consumes one text frame. Gives the parsed value, or None when the read or parse raises. |
| LegacyCommunication.LegacyCommunicationHandler.constructor | code/backend/realtime/communication.py:22-26 | The handler keeps the socket and holds no session and no task. |
| LegacyCommunication.LegacyCommunicationHandler.InitModelRealtimeSession | code/backend/realtime/communication.py:28-88 | Makes the same three calls as the current handler. It keeps only the session and the receive task. |
| LegacyCommunication.LegacyCommunicationHandler.ReciveAudio | code/backend/realtime/communication.py:90-117 | The calls made and the ending equal `LegacyPump` of the script. |
| LegacyCommunication.HandleRealtimeMessages | code/backend/realtime/communication.py:121-198 | The calls made and the ending equal the corrected `LegacyDispatch`. |
| AgentManagement.LastDot | code/backend/app/realtime/agentmanager.py:64 | The index of the last '.' in the name, or -1 when there is none. |
| AgentManagement.Suffix | code/backend/app/realtime/agentmanager.py:64 | `Path.suffix` is empty, or a dot followed by at least one dot-free character taken from the end of the name. |
| AgentManagement.AsWrittenSuffixNeverMatches | code/backend/app/realtime/agentmanager.py:64 | No suffix equals "yaml" or "yml". |
| AgentManagement.YamlSuffixExamples | code/backend/app/realtime/agentmanager.py:64 | With the dot, ".yaml"/".yml" names are accepted. Dot-less, hidden and other suffixes are not. |
| AgentManagement.Accepted | code/backend/app/realtime/agentmanager.py:57-75 | An entry contributes exactly when it is a file with a listed suffix that loads. |
| AgentManagement.AsWrittenLoadsNothing | code/backend/app/realtime/agentmanager.py:57-66 | With the suffix list as written, no listing loads any agent. |
| AgentManagement.LoadWellFormed | code/backend/app/realtime/agentmanager.py:57-90 | After loading, the agent and handoff dictionaries have the same keys. Handles are in range, distinct, and point to an agent of that name. The wiring order lists each name once, and no agent has handoffs yet. |
| AgentManagement.LoadLastWins | code/backend/app/realtime/agentmanager.py:83-90 | A name is registered exactly when some accepted configuration has it. Its agent and handoffs come from the last such configuration. |
| AgentManagement.LoadOpenerIsLast | code/backend/app/realtime/agentmanager.py:86-87 | The opener is the last configuration marked as opener, or none if no configuration is marked. |
| AgentManagement.OpenerMayBeReplacedByName | code/backend/app/realtime/agentmanager.py:83-87 | The opener is an object: a later non-opener with the same name replaces the registered agent but not the opener. |
| AgentManagement.Edges | code/backend/app/realtime/agentmanager.py:109-125 | There are at most as many handoffs as configurations. |
| AgentManagement.EdgesAppend | code/backend/app/realtime/agentmanager.py:109-125 | Handoffs keep configuration order. |
| AgentManagement.EdgesExactlyWired | code/backend/app/realtime/agentmanager.py:111-125 | A handoff exists exactly for each configuration whose target is registered and whose condition is non-empty. |
| AgentManagement.WireAll | code/backend/app/realtime/agentmanager.py:100-125 | Wiring neither creates nor drops agents. |
| AgentManagement.WireAllFrame | code/backend/app/realtime/agentmanager.py:100-125 | Agents not registered under a wired name are untouched. |
| AgentManagement.WireAllEdges | code/backend/app/realtime/agentmanager.py:100-125 | A registered agent's handoffs become exactly the edges of its own configurations. |
| AgentManagement.AgentManager.constructor | code/backend/app/realtime/agentmanager.py:23-45 | For any suffix list (the written one or the corrected one), the dictionaries are `Load` of the listing with that list, then the handoffs are wired. No session handles are set. |
| AgentManagement.AgentManager.LoadAgents | code/backend/app/realtime/agentmanager.py:47-90 | The loop's dictionaries equal `Load` of the listing with the manager's suffix list. |
| AgentManagement.AgentManager.LoadEntry | code/backend/app/realtime/agentmanager.py:57-90 | One iteration: a directory, a file with another suffix or a file that fails to load is skipped; a loaded configuration is registered. |
| AgentManagement.AgentManager.RegisterConfig | code/backend/app/realtime/agentmanager.py:79-90 | One registration step: a new agent under the name, the opener updated if marked, and the handoff list stored. |
| AgentManagement.AgentManager.SetHandoffs | code/backend/app/realtime/agentmanager.py:92-125 | The agents equal `WireAll` of their previous state. The dictionaries are unchanged. |
| AgentManagement.AgentManager.InitRealtimeSession | code/backend/app/realtime/agentmanager.py:127-187 | Makes the same calls as the handler, sets all three handles or none, and leaves the agents unchanged. |
| AgentManagement.AgentManager.SendAudio | code/backend/app/realtime/agentmanager.py:195-202 | Forwards the bytes unchanged with `commit=False`. Without a session it raises. |
| AgentManagement.ConstructedHandoffs | code/backend/app/realtime/agentmanager.py:36-40 | For any suffix list, after construction each agent's handoffs are exactly the wired edges of its last configuration. |
| Interfaces.TypeValue | src/real_time_agent/core/interfaces.py:12-18 | Parsing a type's value gives the type back. |
| Interfaces.ParseMessageType | src/real_time_agent/core/interfaces.py:12-18 | Fails exactly on strings that are not one of the five values. |
| Interfaces.ParseMessageTypeInverse | src/real_time_agent/core/interfaces.py:12-18 | A parsed value renders back to the same string. |
| Interfaces.TypeValuesDistinct | src/real_time_agent/core/interfaces.py:14-18 | The five values are pairwise distinct. |
| Interfaces.StatusValue | src/real_time_agent/core/interfaces.py:21-27 | Parsing a status's value gives the status back. |
| Interfaces.ParseConnectionStatus | src/real_time_agent/core/interfaces.py:21-27 | Fails exactly on strings that are not one of the five values. |
| Interfaces.ParseConnectionStatusInverse | src/real_time_agent/core/interfaces.py:21-27 | A parsed value renders back to the same string. |
| Interfaces.StatusValuesDistinct | src/real_time_agent/core/interfaces.py:23-27 | The five values are pairwise distinct. |
| Interfaces.MetadataOrEmpty | src/real_time_agent/core/interfaces.py:47 | `metadata or {}`. |
| Interfaces.ToDict | src/real_time_agent/core/interfaces.py:40-48 | Defined exactly when there is a timestamp. Has exactly the five keys, with the id, content, a type that parses back, the timestamp's ISO text and the metadata or {}. |
| Interfaces.ToDictInjective | src/real_time_agent/core/interfaces.py:40-48 | Equal dictionaries mean equal id, type, content, timestamp text and metadata-or-empty. |
| Interfaces.MetadataNoneAndEmptyAgree | src/real_time_agent/core/interfaces.py:47 | No metadata and empty metadata serialise alike. |
| Interfaces.DefaultResponse | src/real_time_agent/core/interfaces.py:51-57 | The defaults are `is_final` True and no usage. |
| Interfaces.ResponseToDict | src/real_time_agent/core/interfaces.py:59-65 | Defined exactly when the message's dictionary is. Has three keys, with the nested message, `is_final`, and `usage` (null exactly when absent). |
| Interfaces.ContentsAppend | src/real_time_agent/core/agent.py:136-140 | Accumulated content over concatenated chunks is the concatenation. |
| Agent.AfterSend | src/real_time_agent/core/agent.py:100-122 | The history grows by the user message, and then by the answer only for a non-streamed single reply. |
| Agent.SendResult | src/real_time_agent/core/agent.py:107-129 | An answer exactly for a non-streamed reply, a stream exactly for a streamed one (with its failure flag), a failure exactly when the provider raises, and never "not connected". |
| Agent.Relabel | src/real_time_agent/core/agent.py:142-144 | A passed-on chunk gets the stream id and the new timestamp. Everything else is kept. |
| Agent.RealTimeAgent.constructor | src/real_time_agent/core/agent.py:37-42 | A new agent is DISCONNECTED with an empty history. |
| Agent.RealTimeAgent.Initialize | src/real_time_agent/core/agent.py:53-70 | The status becomes CONNECTED, or ERROR with a re-raise. The history is unchanged. |
| Agent.RealTimeAgent.SendMessage | src/real_time_agent/core/agent.py:72-129 | Not connected: raises and changes nothing. Connected: the provider gets the old history plus the new message with the configured mode, max tokens and temperature, and the history and outcome follow `AfterSend`/`SendResult`. |
| Agent.Resumed | src/real_time_agent/core/agent.py:150-161 | The code after `yield` has run for every chunk when the caller iterates to the end or breaks later than the stream's length, and for all but the last chunk received when it breaks earlier. |
| Agent.RealTimeAgent.ConsumeStream | src/real_time_agent/core/agent.py:131-161 | Every chunk the caller receives is passed on relabelled, in order. The history gains `FinalMessages` of the chunks whose post-`yield` code ran. A failed provider stream raises exactly when the caller asks past the last chunk, after the full history update and with the status unchanged. |
| Agent.RealTimeAgent.ClearConversation | src/real_time_agent/core/agent.py:174-177 | The history becomes empty. Nothing else changes. |
| Agent.RealTimeAgent.GetConversationHistory | src/real_time_agent/core/agent.py:179-181 | Returns the history and changes nothing. |
| Agent.RealTimeAgent.SetSystemPrompt | src/real_time_agent/core/agent.py:183-199 | Records the prompt. The history becomes `WithSystemPrompt` of the old history. |
| Agent.RealTimeAgent.Close | src/real_time_agent/core/agent.py:201-219 | DISCONNECTED after the provider closes. If the provider's close raises, the status is unchanged and the error re-raised. |
| Agent.WithSystemPrompt | src/real_time_agent/core/agent.py:183-199 | The head becomes a SYSTEM message with the prompt. It is inserted in front when the history is empty or starts otherwise. An existing head keeps its id and metadata and the rest is unchanged. |
| Agent.SystemPromptIdempotent | src/real_time_agent/core/agent.py:187-199 | Setting the same prompt twice only refreshes the timestamp. |
| Agent.FinalMessagesAreAssistant | src/real_time_agent/core/agent.py:153-161 | Appended messages are ASSISTANT messages with the stream id. |
| Agent.FinalMessagesCount | src/real_time_agent/core/agent.py:153-161 | One message per final chunk, and none exactly when no chunk is final. |
| Agent.FirstFinalContent | src/real_time_agent/core/agent.py:136-161 | The first appended message holds every chunk's content up to the first final chunk, and that chunk's metadata. |
| Agent.BreakAtFirstFinalAppendsNothing | src/real_time_agent/core/agent.py:150-161 | A caller that breaks right after the first final chunk leaves the history unchanged. |
| Agent.FinalMessagesPrefix | src/real_time_agent/core/agent.py:139-161 | Stopping the iteration early leaves a prefix of the full appends. |
| Agent.NonStreamingAddsTwo | src/real_time_agent/core/agent.py:163-172 | A non-streamed answered exchange adds exactly the user message and the answer. |
| Text.NatToString | src/real_time_agent/utils/helpers.py:191 | The decimal rendering is non-empty, all digits, with no leading zero. |
| Text.ParseNatToString | src/real_time_agent/utils/helpers.py:191 | Reading the rendering back gives the number. |
| Text.NatToStringInjective | src/real_time_agent/utils/helpers.py:191 | Distinct indices render differently. |
| Helpers.EstimateTokens | src/real_time_agent/utils/helpers.py:108-122 | The length divided by four, rounded down: `4r ≤ len < 4r + 4`. |
| Helpers.EstimateConversationTokens | src/real_time_agent/utils/helpers.py:124-144 | The loop's total equals `ConversationTokens`. |
| Helpers.ConversationTokensBounds | src/real_time_agent/utils/helpers.py:135-144 | At least ten per message, and the rest at most a quarter of the total content. |
| Helpers.ConversationTokensAppend | src/real_time_agent/utils/helpers.py:135-144 | The estimate adds up over concatenated conversations. |
| Helpers.MessageErrors | src/real_time_agent/utils/helpers.py:150-174 | Each of the three errors is present exactly when its field is empty. The errors come in the fixed order, and the list is empty exactly for a valid message. |
| Helpers.Numbered | src/real_time_agent/utils/helpers.py:190-191 | Each error is prefixed "Message i: ". |
| Helpers.ValidateConversation | src/real_time_agent/utils/helpers.py:176-193 | The loop's list equals `ConversationErrors`. |
| Helpers.AppendNumbered | src/real_time_agent/utils/helpers.py:190-191 | The inner loop appends one message's numbered errors in order. |
| Helpers.ConversationValidIff | src/real_time_agent/utils/helpers.py:176-193 | No conversation errors exactly when no message has errors. |
| Helpers.ConversationErrorsStep | src/real_time_agent/utils/helpers.py:188-191 | One more message appends exactly its numbered errors. |
| Helpers.MessageLines | src/real_time_agent/utils/helpers.py:80-100 | Three lines for USER/ASSISTANT/SYSTEM and none for others, with the content (italic for SYSTEM) and a blank line. |
| Helpers.ToMarkdown | src/real_time_agent/utils/helpers.py:61-102 | The loop's export exists exactly when `MarkdownBody` does, and is the header plus the body joined by newlines. |
| Helpers.MarkdownBodyNonePersists | src/real_time_agent/utils/helpers.py:80-81 | A message without a timestamp fails the export, whatever follows. |
| Helpers.MarkdownShape | src/real_time_agent/utils/helpers.py:71-102 | The export exists exactly when every message has a timestamp, with three lines per exported message. |
| Helpers.MessageDicts | src/real_time_agent/utils/helpers.py:51 | Each message's `to_dict`, in order. Fails only when some message has no timestamp. |
| Helpers.ToJson | src/real_time_agent/utils/helpers.py:39-59 | Has exactly three keys, with the conversation's dictionaries and `message_count` equal to the number of messages. |
| Helpers.ToJsonDeterminesMessages | src/real_time_agent/utils/helpers.py:50-54 | Equal exports mean equal lengths and equal id, type and content per message. |
| Helpers.AsyncRetry.constructor | src/real_time_agent/utils/helpers.py:199-217 | Keeps `max_attempts`. |
| Helpers.AsyncRetry.Call | src/real_time_agent/utils/helpers.py:219-249 | The result, number of calls and number of sleeps equal `Retry` from the first attempt. |
| Helpers.RetryCounts | src/real_time_agent/utils/helpers.py:236-249 | At most `max_attempts` calls, and one fewer sleeps than calls. With no attempts, `None` is raised. |
| Helpers.RetryFirstDecisive | src/real_time_agent/utils/helpers.py:236-246 | The first success or non-retryable failure decides the result after k+1 calls and k sleeps. |
| Helpers.RetryAllFail | src/real_time_agent/utils/helpers.py:236-249 | If every attempt fails retryably, the last exception is raised after `max_attempts` calls and one fewer sleeps. |
| Providers.KwGetFinds | src/real_time_agent/integrations/azure_openai.py:129-130 | `kwargs.get` finds the last value given for the key, or the default. |
| Providers.MergeParams | src/real_time_agent/integrations/azure_openai.py:134-137 | The loop's parameters equal `MergeKwargs`. |
| Providers.MergeUntouched | src/real_time_agent/integrations/azure_openai.py:134-137 | A key no copied argument names keeps its base value, or stays absent. |
| Providers.MergeKeepsLimits | src/real_time_agent/integrations/azure_openai.py:136 | `max_tokens` and `temperature` are never overwritten by the merge. |
| Providers.MergeOverrides | src/real_time_agent/integrations/azure_openai.py:135-137 | A copied non-`None` argument overrides the base unless a later one names the same key. |
| Providers.Step | src/real_time_agent/integrations/azure_openai.py:191-212 | A chunk with no choice, or whose delta has no or empty content, is skipped. A missing delta is skipped by Foundry and fails on Azure. A non-empty delta is yielded with its finality and with `model` (Foundry defaults it to "ai-foundry"), except that Azure fails without `model`. |
| Providers.StreamResponses | src/real_time_agent/integrations/azure_openai.py:183-218 | The generator's responses and failure equal `Stream` of the chunks. |
| Providers.StreamFailurePersists | src/real_time_agent/integrations/azure_openai.py:191-193 | Once the generator raises, later chunks are not read. |
| Providers.StreamShape | src/real_time_agent/integrations/azure_openai.py:196-218 | Every response is an ASSISTANT message with the stream id, and its `accumulated_content` is all content so far. |
| Providers.StreamSkipsChunk | src/real_time_agent/integrations/azure_openai.py:192 | A skipped chunk (`Step` gives `SkipChunk`) can be dropped from any run without changing it. |
| Providers.StreamOnePerChunk | src/real_time_agent/integrations/azure_openai.py:191-218 | With content in every chunk, there is one response per chunk carrying its delta and finality. |
| Providers.AdaptersAgree | src/real_time_agent/integrations/ai_foundry.py:178-205 | On chunks Azure can read, both adapters yield the same responses. |
| Providers.MissingDeltaScenario | src/real_time_agent/integrations/ai_foundry.py:179 | A missing delta ends the Azure stream with an error. The Foundry stream skips it and goes on. |
| Providers.AgentStoresAccumulatedContent | src/real_time_agent/core/agent.py:136-161 | When the caller iterates past the first final chunk, the agent's first stored message equals the provider's `accumulated_content` at that chunk. |
| Providers.SingleResponse | src/real_time_agent/integrations/azure_openai.py:149-181 | Fails exactly without a choice (and, for Azure, without a model). Otherwise a final ASSISTANT message with the first choice's content or "", model and finish-reason metadata, and usage exactly when reported, with all three counts. The finish reason is the first choice's or null. The timestamp is the call's time. A missing model is "ai-foundry" (Foundry only). |
| AzureOpenAI.ConfigError | src/real_time_agent/integrations/azure_openai.py:29-33 | The endpoint is checked first, then the deployment. No error exactly when both are set. |
| AzureOpenAI.OpenAIMessage | src/real_time_agent/integrations/azure_openai.py:88-99 | A dictionary exactly for USER/ASSISTANT/SYSTEM, with keys role and content, and the role parsing back to the type. |
| AzureOpenAI.OpenAIFormatAppend | src/real_time_agent/integrations/azure_openai.py:84-101 | Conversion keeps order and is per message. |
| AzureOpenAI.OpenAIFormatCount | src/real_time_agent/integrations/azure_openai.py:84-101 | One dictionary per conversational message, each with two keys. |
| AzureOpenAI.RequestParamsShape | src/real_time_agent/integrations/azure_openai.py:126-137 | `max_tokens`/`temperature` come from the keyword arguments or the settings. `model`, `messages` and `stream` keep their base values unless overridden. |
| AzureOpenAI.DefaultRequest | src/real_time_agent/core/config.py:12-81 | With the default settings and no keyword arguments, a request asks for 1000 tokens at temperature 0.7 from the configured deployment. A missing endpoint is the first constructor error. |
| AzureOpenAI.AzureOpenAIProvider.constructor | src/real_time_agent/integrations/azure_openai.py:19-33 | A checked configuration gives a provider with no client. |
| AzureOpenAI.AzureOpenAIProvider.Create | src/real_time_agent/integrations/azure_openai.py:19-33 | Raises exactly the configuration error. Otherwise gives a new provider with no client. |
| AzureOpenAI.AzureOpenAIProvider.Initialize | src/real_time_agent/integrations/azure_openai.py:35-64 | The client is set when built. The call raises when building or the test fails, and a failed test keeps the client. |
| AzureOpenAI.AzureOpenAIProvider.ToOpenAIFormat | src/real_time_agent/integrations/azure_openai.py:84-101 | The loop's list equals `OpenAIFormat`. |
| AzureOpenAI.AzureOpenAIProvider.GenerateResponse | src/real_time_agent/integrations/azure_openai.py:103-137 | Raises exactly without a client. Otherwise calls the SDK with `RequestParams`. |
| AzureOpenAI.AzureOpenAIProvider.Close | src/real_time_agent/integrations/azure_openai.py:220-226 | The client is closed once if present and then forgotten. A second close does nothing. |
| AIFoundry.ConfigError | src/real_time_agent/integrations/ai_foundry.py:31-33 | No error exactly when the endpoint is set. |
| AIFoundry.FoundryMessageOf | src/real_time_agent/integrations/ai_foundry.py:81-87 | An SDK message of the matching class exactly for USER/ASSISTANT/SYSTEM, with the content. |
| AIFoundry.FoundryFormatAppend | src/real_time_agent/integrations/ai_foundry.py:77-89 | Conversion keeps order and is per message. |
| AIFoundry.FoundryFormatCount | src/real_time_agent/integrations/ai_foundry.py:77-89 | One SDK message per conversational message. |
| AIFoundry.BaseParams | src/real_time_agent/integrations/ai_foundry.py:114-119 | Exactly four keys, with no `model`. |
| AIFoundry.RequestParamsShape | src/real_time_agent/integrations/ai_foundry.py:113-124 | `max_tokens`/`temperature` come from the keyword arguments or the settings. `model` appears only if a keyword argument supplies it. |
| AIFoundry.AIFoundryProvider.constructor | src/real_time_agent/integrations/ai_foundry.py:21-33 | A checked configuration gives a provider with no client. |
| AIFoundry.AIFoundryProvider.Create | src/real_time_agent/integrations/ai_foundry.py:21-33 | Raises exactly the configuration error. Otherwise gives a new provider with no client. |
| AIFoundry.AIFoundryProvider.Initialize | src/real_time_agent/integrations/ai_foundry.py:35-58 | The client is set when built. The call raises when building or the test fails, and a failed test keeps the client. |
| AIFoundry.AIFoundryProvider.ToFoundryFormat | src/real_time_agent/integrations/ai_foundry.py:77-89 | The loop's list equals `FoundryFormat`. |
| AIFoundry.AIFoundryProvider.GenerateResponse | src/real_time_agent/integrations/ai_foundry.py:91-124 | Raises exactly without a client. Otherwise calls the SDK with `RequestParams`. |
| AIFoundry.AIFoundryProvider.Close | src/real_time_agent/integrations/ai_foundry.py:207-213 | The client is closed once if present and then forgotten. A second close does nothing. |

## Left out

- Concurrency is not modelled. The inbound pump and the outbound task run interleaved in the source, but here each loop is modelled on its own, and the order between their calls is not.
- Communication.CommunicationHandler.ProcessRealtimeMessages: `websocket.send_text` never raises in the model. In the source a send failure, for instance after the client has gone, ends the dispatcher through its `except` branch; the model's dispatcher ends only on a stream error.
- Communication.CommunicationHandler.ReturnAudio: the send never raises, as for ProcessRealtimeMessages.
- Communication.CommunicationHandler.InterruptAudio: the send never raises, as for ProcessRealtimeMessages.
- LegacyCommunication.HandleRealtimeMessages: the corrected send never raises, as for ProcessRealtimeMessages.
- Communication.CommunicationHandler.SendAudio: the session's `send_audio` never raises in the model. In the source such a failure would end the pump, and the endpoint would log it and close with 1011.
- LegacyCommunication.LegacyCommunicationHandler.ReciveAudio: the session's `send_audio` never raises in the model. In the source such a failure would end the `while True` loop with that exception.
- AgentManagement.AgentManager.SendAudio: the session's `send_audio` never raises in the model. In the source the failure would propagate to the caller.
- Communication.AudioPayloadAction: the decoder is strict base64 (section 4 of RFC 4648). Python's `b64decode` without `validate=True` first discards characters outside the alphabet and raises only on bad padding. So "YWJj\n" is forwarded as the bytes of "abc" there but fails here, and "\n" or "====" decode to no bytes there and are skipped, but fail here.
- Base64.DecodeEmptyOnlyFromEmpty: it holds for the strict decoder only. Python's decoder also gives no bytes for texts made only of padding or of characters outside the alphabet.
- Providers.MergeKwargs: a keyword-argument list may name `stream` or `messages`, and may repeat a key. In Python both are impossible: those names bind to `generate_response`'s own parameters, and keyword names are distinct. The merge lemmas hold for these lists too.
- AgentManagement.AgentManager.LoadEntry: the warning or error logged for a skipped entry is not recorded in the call log.
- The realtime agent, runner and model configuration objects are opaque SDK objects built from settings. This covers instructions, voice, turn detection and the websocket URL. Only whether opening succeeds is modelled.
- Log text is not modelled. The warnings and errors of the two handlers and the endpoint, and the dispatcher's info-level transcript lines, are recorded. The agent manager's warnings and all library logging are not.
- `str(event.data)` and its 200-character truncation for the debug log are not modelled. Only whether formatting the data raises is modelled.
- The endpoint's `acs_client` dependency is not modelled, because the endpoint never uses it.
- The agent manager's `end_session` and `process_realtime_messages` are empty in the source. The receive task the manager creates is only recorded as created.
- The agent manager's file-system access is not modelled. The listing, the file test and the outcome of reading and validating each file are inputs. This covers `os.listdir`, `isfile`/`open` on the bare name relative to the working directory, YAML parsing and `AgentConfig(**content)`. As written, `AgentConfig(**yaml_content)` receives a string and raises for every file, so each entry's configuration outcome is left to the input.
- LegacyCommunication.LegacyCommunicationHandler.constructor: the source declares `__init__` as a coroutine, which Python refuses when constructing the object. The model constructs the handler as evidently intended.
- The agent's event-handler callbacks (`on_message`, `on_connection_status`, `on_error`) are not modelled, because they are optional foreign code.
- The agent's `session` is never assigned in the source, so `close` never stops a session. The model has no session field.
- Aliasing of message objects is not modelled. `get_conversation_history` returns a shallow copy, and the streaming handler relabels the provider's message objects in place. The model works on values.
- `uuid4` and `datetime.now` are not called. Identifiers and times are parameters, with one time per operation (`now`). Each chunk's own `datetime.now` is not distinguished.
- Provider client construction, credential and token retrieval, and the `_test_connection` call are parameters (`created`, `testOk`). The SDK calls themselves are not modelled: the model states the parameters they are called with, and the reply is an input.
- Providers.Chunk: a `None` model stands for a missing `model` attribute. A present attribute whose value is `None` is not represented.
- Helpers.ToJson: it gives the structure `json.dumps` serialises, not its text. Indentation, `ensure_ascii` and `pretty` are left out.
- Helpers.ToMarkdown: the export time and each timestamp's `strftime` text are inputs, and clock formatting is not modelled.
- Helpers.AsyncRetry.Call: the delays, the backoff factor and the sleep durations are floating-point and left out. Sleeps are counted. The configured exception tuple is reduced to each attempt being retryable or not.
- Helpers.MessageErrors: the "Invalid message type" check is dead code, because a message's type is always a `MessageType`.
- `estimate_tokens`' `model` argument is ignored by the source and not modelled.
- The library configuration's environment loading and validation are not modelled. Only the fields the core reads are kept, in `Settings.AgentConfig`.

## Findings

| source | as written | input that shows it | evidently intended | confidence | as-written member | corrected member |
|---|---|---|---|---|---|---|
| code/backend/app/realtime/agentmanager.py:64 | The YAML test compares `Path.suffix` with "yaml" and "yml", but a suffix includes its leading dot. | A listing with the file `agent.yaml`: its suffix is ".yaml", so it is skipped and no agent is loaded. | Compare with ".yaml" and ".yml". | high; not executed | AgentManagement.AsWrittenLoadsNothing | AgentManagement.YamlSuffixExamples |
| code/backend/realtime/communication.py:128-139 | The legacy `return_audio` passes the raw audio bytes to `json.dumps`, which raises TypeError. | Any audio event with non-empty data: the dispatcher raises and stops. | Send the base64 text of the audio (the commented-out expression on line 135). | high; not executed | LegacyCommunication.AsWrittenAudioEndsDispatcher | LegacyCommunication.CorrectedAudioIsSentAndDecodes |

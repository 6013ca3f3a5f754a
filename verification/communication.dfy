/**
 * The realtime communication bridge of the call backend: one handler per
 * accepted telephony websocket, owning a model session, an inbound pump
 * (client audio frames to the model) and an outbound dispatcher (model
 * events to client frames).
 *
 * The socket, the model session and the background task are collaborators
 * that are not modelled inside: every call made to them is appended, in
 * order, to one shared CallLog, and what they deliver is given as a script
 * (the client's receive results, the model's event stream).
 */
module Communication {
  import opened Wrappers
  import opened Json
  import Base64

  type byte = Base64.byte

  // ---------------------------------------------------------------------
  // Inputs: what the client socket and the model session deliver
  // ---------------------------------------------------------------------

  /** One turn of the inbound loop, as seen at its `client_state` check. */
  datatype ClientStep =
    | Receive(frame: Json)   // CONNECTED, and `receive_json` returns this value
    | ReceiveFails           // CONNECTED, and `receive_json` raises
    | NotConnected           // `client_state` is no longer CONNECTED

  /** The payload of a `raw_model_event`: a raw server event, or anything else. */
  datatype RawPayload =
    | NotServerEvent
    | ServerEvent(eventType: Option<string>, transcript: Option<string>)

  /** The model session's event variants that the dispatcher distinguishes. */
  datatype ModelEvent =
    | AgentStart | AgentEnd | Handoff | ToolStart | ToolEnd
    | Audio(audio: Option<seq<byte>>)   // None: the event has no audio object
    | AudioInterrupted | AudioEnd
    | HistoryUpdated | HistoryAdded | GuardrailTripped
    | RawModelEvent(raw: RawPayload)
    | Error(detail: string)
    | InputAudioTimeoutTriggered
    | Unrecognized(eventType: string)   // any type the dispatcher has no branch for, never one of the names above

  /** One step of `async for event in session`: an event, or the iteration raising. */
  datatype StreamItem =
    | Next(event: ModelEvent, dataUnprintable: bool)   // dataUnprintable: formatting `event.data` raises
    | Breaks(reason: string)

  /** How the model session opens: `runner.run` and then `__aenter__`, either of which may raise. */
  datatype OpenOutcome =
    | Opens(context: nat, session: nat, task: nat)
    | RunFails
    | EnterFails

  // ---------------------------------------------------------------------
  // Effects: the calls made on the collaborators, in order
  // ---------------------------------------------------------------------

  /** The exceptions that end a pump or an operation. */
  datatype Failure =
    | ReceiveFailed          // the socket read raised
    | FrameNotAnObject       // AttributeError: `.get` on a frame that is not a JSON object
    | AudioDataNotAnObject   // AttributeError: `.get` on an `audioData` that is not an object
    | PayloadMissing         // TypeError: `b64decode(None)`
    | PayloadNotText         // TypeError: `b64decode` of a number, list, object or boolean
    | PayloadMalformed       // not strict base64 (Python raises binascii.Error only on bad padding)
    | InvalidJson            // json.JSONDecodeError (legacy handler)
    | NotSerializable        // TypeError from json.dumps (legacy handler)
    | NoSession              // AttributeError: the handler has no session yet
    | NoSessionContext       // AttributeError: the handler has no session context yet
    | OpenFailed             // opening the model session raised
    | ExitFailed             // the session context's `__aexit__` raised
    | CloseFailed            // `websocket.close` raised
    | StreamBroken(reason: string)

  datatype Warning =
    | MissingCallConnectionId
    | UnknownDataType(tag: Option<Json>)
    | EventDataUnprintable

  datatype TranscriptSide = ModelOutput | UserInput

  datatype Effect =
    | Accept                                   // websocket.accept()
    | RunSession                               // runner.run(...) returned a session context
    | EnterSession                             // session_context.__aenter__()
    | CreateTask                               // asyncio.create_task(dispatcher)
    | SendAudio(audio: seq<byte>, commit: bool)
    | SendRawAudio(payload: Json, commit: bool)  // legacy: the payload is passed on undecoded
    | SendText(frame: Json)                    // websocket.send_text(json.dumps(frame))
    | Close(code: int, reason: string)         // websocket.close(code, reason)
    | ExitSession                              // session_context.__aexit__(None, None, None)
    | CancelTask                               // receive_task.cancel()
    | Warn(warning: Warning)                   // logger.warning
    | ErrorEvent(detail: string)               // logger.error for a model `error` event
    | BreakingError(failure: Failure)          // logger.error before the dispatcher re-raises
    | UnexpectedException(failure: Failure)    // logger.error in the endpoint's except block
    | Transcript(side: TranscriptSide, text: Option<string>)

  /** How a pump or an operation ends: it returns, or it raises. */
  datatype Ending = Returned | Raised(failure: Failure)

  /** What a pump does: the calls it makes and how it ends. */
  datatype Run = Run(effects: seq<Effect>, ending: Ending)

  /** Effects that happened before a run. */
  function Then(before: seq<Effect>, r: Run): Run {
    Run(before + r.effects, r.ending)
  }

  // ---------------------------------------------------------------------
  // Inbound pump (receive_audio)
  // ---------------------------------------------------------------------

  /** What the inbound loop does with one received frame. */
  datatype FrameAction =
    | Forward(audio: seq<byte>)
    | Skip
    | WarnUnknown(tag: Option<Json>)
    | Fail(failure: Failure)

  /** The `AudioData` branch: read `audioData.data`, base64-decode it, forward it when non-empty. */
  function AudioPayloadAction(fields: map<string, Json>): (a: FrameAction)
    ensures a.Forward? ==> a.audio != []
    ensures a.Forward? || a.Skip? || a.Fail?
  {
    var container := if "audioData" in fields then fields["audioData"] else JObj(map[]);
    match container
    case JObj(inner) =>
      (match Get(inner, "data")
       case None => Fail(PayloadMissing)
       case Some(JNull) => Fail(PayloadMissing)
       case Some(JStr(text)) =>
         (match Base64.Decode(text)
          case None => Fail(PayloadMalformed)
          case Some(bytes) => if bytes == [] then Skip else Forward(bytes))
       case Some(_) => Fail(PayloadNotText))
    case _ => Fail(AudioDataNotAnObject)
  }

  /** The `match` on the frame's `type`: only "AudioData" is acted on, every other tag is warned about. */
  function ClassifyFrame(frame: Json): (a: FrameAction)
    ensures a.Forward? ==> a.audio != []
    ensures a.WarnUnknown? <==> frame.JObj? && Get(frame.fields, "type") != Some(JStr("AudioData"))
  {
    match frame
    case JObj(fields) =>
      var tag := Get(fields, "type");
      if tag == Some(JStr("AudioData")) then AudioPayloadAction(fields) else WarnUnknown(tag)
    case _ => Fail(FrameNotAnObject)
  }

  /**
   * The inbound loop over the client's script. The end of the script counts
   * as the socket no longer being CONNECTED.
   */
  function Pump(steps: seq<ClientStep>, hasSession: bool): Run
    decreases |steps|
  {
    if steps == [] || steps[0].NotConnected? then Run([], Returned)
    else if steps[0].ReceiveFails? then Run([], Raised(ReceiveFailed))
    else match ClassifyFrame(steps[0].frame)
      case Forward(audio) =>
        if hasSession then Then([SendAudio(audio, false)], Pump(steps[1..], hasSession))
        else Run([], Raised(NoSession))
      case Skip => Pump(steps[1..], hasSession)
      case WarnUnknown(tag) => Then([Warn(UnknownDataType(tag))], Pump(steps[1..], hasSession))
      case Fail(f) => Run([], Raised(f))
  }

  // ---------------------------------------------------------------------
  // Outbound dispatcher (process_realtime_messages)
  // ---------------------------------------------------------------------

  const OutputTranscriptDone := "response.output_audio_transcript.done"
  const InputTranscriptCompleted := "conversation.item.input_audio_transcription.completed"

  /** The frame `return_audio` sends: capitalised keys, the audio base64-encoded. */
  function AudioFrame(audio: seq<byte>): (f: Json)
    ensures f.JObj? && Get(f.fields, "Kind") == Some(JStr("AudioData"))
    ensures "AudioData" in f.fields && f.fields["AudioData"].JObj?
    ensures Get(f.fields["AudioData"].fields, "Data").Some?
    ensures var data := f.fields["AudioData"].fields["Data"];
      data.JStr? && Base64.Decode(data.s) == Some(audio)
  {
    Base64.DecodeEncode(audio);
    JObj(map["Kind" := JStr("AudioData"), "AudioData" := JObj(map["Data" := JStr(Base64.Encode(audio))])])
  }

  /** The fixed frame `interrupt_audio` sends. */
  const StopAudioFrame: Json :=
    JObj(map["Kind" := JStr("StopAudio"), "AudioData" := JNull, "StopAudio" := JObj(map[])])

  /** The transcript log lines written for a raw server event. */
  function TranscriptEffects(raw: RawPayload): (r: seq<Effect>)
    ensures |r| <= 1 && forall x <- r :: x.Transcript?
  {
    match raw
    case ServerEvent(eventType, transcript) =>
      if eventType == Some(OutputTranscriptDone) then [Transcript(ModelOutput, transcript)]
      else if eventType == Some(InputTranscriptCompleted) then [Transcript(UserInput, transcript)]
      else []
    case NotServerEvent => []
  }

  /** The `if/elif` chain of the dispatcher, for one event. */
  function EventEffects(e: ModelEvent): (r: seq<Effect>)
    ensures |r| <= 1
    ensures forall x <- r :: x.SendText? || x.Transcript? || x.ErrorEvent?
  {
    match e
    case Audio(audio) =>
      if audio.Some? && audio.value != [] then [SendText(AudioFrame(audio.value))] else []
    case AudioInterrupted => [SendText(StopAudioFrame)]
    case RawModelEvent(raw) => TranscriptEffects(raw)
    case Error(detail) => [ErrorEvent(detail)]
    case _ => []
  }

  /** The log lines and frames one stream item produces. */
  function ItemEffects(item: StreamItem): seq<Effect> {
    match item
    case Breaks(reason) => [BreakingError(StreamBroken(reason))]
    case Next(e, unprintable) => (if unprintable then [Warn(EventDataUnprintable)] else []) + EventEffects(e)
  }

  /** The dispatcher over the model's event stream: it stops at the first break and re-raises it. */
  function Dispatch(items: seq<StreamItem>): Run
    decreases |items|
  {
    if items == [] then Run([], Returned)
    else if items[0].Breaks? then Run(ItemEffects(items[0]), Raised(StreamBroken(items[0].reason)))
    else Then(ItemEffects(items[0]), Dispatch(items[1..]))
  }

  /** Dispatch on a suffix, unfolded once. */
  lemma DispatchAt(items: seq<StreamItem>, i: nat)
    requires i < |items|
    ensures Dispatch(items[i..]) ==
      if items[i].Breaks? then Run(ItemEffects(items[i]), Raised(StreamBroken(items[i].reason)))
      else Then(ItemEffects(items[i]), Dispatch(items[i + 1..]))
  {
    assert items[i..][1..] == items[i + 1..];
  }

  /** The dispatcher on an event followed by more items, unfolded once. */
  lemma DispatchCons(item: StreamItem, rest: seq<StreamItem>, effects: seq<Effect>)
    requires item.Next? && effects == ItemEffects(item)
    ensures Dispatch([item] + rest) == Then(effects, Dispatch(rest))
  {
    assert ([item] + rest)[1..] == rest;
  }

  /** Effects before effects. */
  lemma ThenThen(a: seq<Effect>, b: seq<Effect>, r: Run)
    ensures Then(a, Then(b, r)) == Then(a + b, r)
  {
  }

  /** What the dispatcher does when the handler has no session to iterate. */
  const DispatchWithoutSession := Run([BreakingError(NoSession)], Raised(NoSession))

  // ---------------------------------------------------------------------
  // Collaborators and the handler
  // ---------------------------------------------------------------------

  /** The record of every call made on the collaborators of one connection. */
  class CallLog {
    var effects: seq<Effect>

    constructor()
      ensures effects == []
    {
      effects := [];
    }

    method Record(e: Effect)
      modifies this
      ensures effects == old(effects) + [e]
    {
      effects := effects + [e];
    }
  }

  /** The client socket, reduced to what the client will still deliver. */
  class WebSocket {
    var pending: seq<ClientStep>

    constructor(script: seq<ClientStep>)
      ensures pending == script
    {
      pending := script;
    }

    /** `client_state == WebSocketState.CONNECTED`. */
    predicate Connected()
      reads this
    {
      pending != [] && !pending[0].NotConnected?
    }

    /** `receive_json()`: the next frame, or None when the read raises. */
    method ReceiveJson() returns (frame: Option<Json>)
      requires Connected()
      modifies this
      ensures pending == old(pending)[1..]
      ensures frame == if old(pending)[0].Receive? then Some(old(pending)[0].frame) else None
    {
      frame := if pending[0].Receive? then Some(pending[0].frame) else None;
      pending := pending[1..];
    }
  }

  /** `CommunicationHandler` of the backend's realtime package. */
  class CommunicationHandler {
    const websocket: WebSocket
    const log: CallLog
    var session: Option<nat>
    var sessionContext: Option<nat>
    var receiveTask: Option<nat>

    /** The three session fields are only ever assigned together. */
    predicate Valid()
      reads this
    {
      (session.Some? <==> sessionContext.Some?) && (sessionContext.Some? <==> receiveTask.Some?)
    }

    constructor(websocket: WebSocket, log: CallLog)
      ensures this.websocket == websocket && this.log == log
      ensures session.None? && sessionContext.None? && receiveTask.None?
      ensures Valid()
    {
      this.websocket := websocket;
      this.log := log;
      session, sessionContext, receiveTask := None, None, None;
    }

    /** The calls `init_model_realtime_session` makes, by how opening goes. */
    static function InitEffects(open: OpenOutcome): seq<Effect> {
      match open
      case Opens(_, _, _) => [RunSession, EnterSession, CreateTask]
      case EnterFails => [RunSession]
      case RunFails => []
    }

    /**
     * Opens the session, then creates exactly one dispatcher task, then
     * stores the three handles. A failure to open leaves before the receive task is
     * created and before any field is set.
     */
    method InitModelRealtimeSession(open: OpenOutcome) returns (ending: Ending)
      requires Valid()
      modifies this, log
      ensures Valid()
      ensures log.effects == old(log.effects) + InitEffects(open)
      ensures ending == if open.Opens? then Returned else Raised(OpenFailed)
      ensures open.Opens? ==>
        session == Some(open.session) && sessionContext == Some(open.context) && receiveTask == Some(open.task)
      ensures !open.Opens? ==>
        session == old(session) && sessionContext == old(sessionContext) && receiveTask == old(receiveTask)
    {
      if open.RunFails? {
        return Raised(OpenFailed);
      }
      log.Record(RunSession);
      if open.EnterFails? {
        return Raised(OpenFailed);
      }
      log.Record(EnterSession);
      log.Record(CreateTask);
      session, sessionContext, receiveTask := Some(open.session), Some(open.context), Some(open.task);
      ending := Returned;
    }

    /**
     * `__aexit__` on the session context, then `cancel` on the receive task;
     * there is no closed flag. `exitFails` is whether `__aexit__` raises: the
     * exception then escapes and the task is never cancelled.
     */
    method EndSession(exitFails: bool) returns (ending: Ending)
      requires Valid()
      modifies log
      ensures sessionContext.Some? && !exitFails ==> log.effects == old(log.effects) + [ExitSession, CancelTask] && ending == Returned
      ensures sessionContext.Some? && exitFails ==> log.effects == old(log.effects) + [ExitSession] && ending == Raised(ExitFailed)
      ensures sessionContext.None? ==> log.effects == old(log.effects) && ending == Raised(NoSessionContext)
    {
      if sessionContext.None? {
        return Raised(NoSessionContext);
      }
      log.Record(ExitSession);
      if exitFails {
        return Raised(ExitFailed);
      }
      log.Record(CancelTask);
      ending := Returned;
    }

    /** `send_audio`: forwards the bytes unchanged, never committing the turn. */
    method SendAudio(audio: seq<byte>) returns (ending: Ending)
      modifies log
      ensures session.Some? ==> log.effects == old(log.effects) + [Effect.SendAudio(audio, false)] && ending == Returned
      ensures session.None? ==> log.effects == old(log.effects) && ending == Raised(NoSession)
    {
      if session.None? {
        return Raised(NoSession);
      }
      log.Record(Effect.SendAudio(audio, false));
      ending := Returned;
    }

    /** `receive_audio`: the inbound loop, which runs while the socket is CONNECTED. */
    method ReceiveAudio() returns (ending: Ending)
      requires Valid()
      modifies websocket, log
      ensures Run(log.effects, ending) == Then(old(log.effects), Pump(old(websocket.pending), session.Some?))
      ensures |websocket.pending| <= |old(websocket.pending)|
      ensures websocket.pending == old(websocket.pending)[|old(websocket.pending)| - |websocket.pending|..]
    {
      ghost var script, hasSession := websocket.pending, session.Some?;
      ghost var run := Then(old(log.effects), Pump(script, hasSession));
      ghost var k := 0;
      ending := Returned;
      while websocket.Connected()
        invariant k <= |script| && websocket.pending == script[k..]
        invariant Then(log.effects, Pump(websocket.pending, hasSession)) == run
        decreases |script| - k
      {
        var stopped := ReceiveOnce();
        k := k + 1;
        if stopped.Some? {
          return stopped.value;
        }
      }
      assert Pump(websocket.pending, hasSession) == Run([], Returned);
      assert log.effects + [] == log.effects;
    }

    /** One turn of `receive_audio`'s loop; the ending when the turn leaves the loop by raising. */
    method ReceiveOnce() returns (stopped: Option<Ending>)
      requires websocket.Connected()
      modifies websocket, log
      ensures websocket.pending == old(websocket.pending)[1..]
      ensures stopped.Some? ==> Run(log.effects, stopped.value) == Then(old(log.effects), Pump(old(websocket.pending), session.Some?))
      ensures stopped.None? ==>
        Then(log.effects, Pump(websocket.pending, session.Some?)) == Then(old(log.effects), Pump(old(websocket.pending), session.Some?))
    {
      ghost var before := log.effects;
      ghost var rest := websocket.pending;
      var frame := websocket.ReceiveJson();
      assert before + [] == before;
      if frame.None? {
        return Some(Raised(ReceiveFailed));
      }
      var action := ClassifyFrame(frame.value);
      assert Pump(rest, session.Some?) == match action
        case Forward(audio) =>
          if session.Some? then Then([Effect.SendAudio(audio, false)], Pump(rest[1..], session.Some?))
          else Run([], Raised(NoSession))
        case Skip => Pump(rest[1..], session.Some?)
        case WarnUnknown(tag) => Then([Warn(UnknownDataType(tag))], Pump(rest[1..], session.Some?))
        case Fail(f) => Run([], Raised(f));
      match action {
        case Forward(audio) =>
          var sent := SendAudio(audio);
          if sent.Raised? {
            return Some(sent);
          }
          ThenThen(before, [Effect.SendAudio(audio, false)], Pump(rest[1..], session.Some?));
        case Skip =>
        case WarnUnknown(tag) =>
          log.Record(Warn(UnknownDataType(tag)));
          ThenThen(before, [Warn(UnknownDataType(tag))], Pump(rest[1..], session.Some?));
        case Fail(f) =>
          return Some(Raised(f));
      }
      stopped := None;
    }

    /** `return_audio`: one `AudioData` frame carrying the base64 of the audio. */
    method ReturnAudio(audio: seq<byte>)
      modifies log
      ensures log.effects == old(log.effects) + [SendText(AudioFrame(audio))]
    {
      log.Record(SendText(AudioFrame(audio)));
    }

    /** `interrupt_audio`: the fixed `StopAudio` frame. */
    method InterruptAudio()
      modifies log
      ensures log.effects == old(log.effects) + [SendText(StopAudioFrame)]
    {
      log.Record(SendText(StopAudioFrame));
    }

    /** The body of the dispatcher's `if/elif` chain for one event. */
    method HandleEvent(event: ModelEvent)
      modifies log
      ensures log.effects == old(log.effects) + EventEffects(event)
    {
      match event {
        case Audio(audio) =>
          if audio.Some? && audio.value != [] {
            ReturnAudio(audio.value);
          }
        case AudioInterrupted =>
          InterruptAudio();
        case RawModelEvent(raw) =>
          if raw.ServerEvent? && raw.eventType == Some(OutputTranscriptDone) {
            log.Record(Transcript(ModelOutput, raw.transcript));
          } else if raw.ServerEvent? && raw.eventType == Some(InputTranscriptCompleted) {
            log.Record(Transcript(UserInput, raw.transcript));
          }
        case Error(detail) =>
          log.Record(ErrorEvent(detail));
        case _ =>
      }
    }

    /** One turn of the dispatcher; the reason when the stream broke instead of yielding an event. */
    method HandleItem(item: StreamItem) returns (broken: Option<string>)
      modifies log
      ensures log.effects == old(log.effects) + ItemEffects(item)
      ensures broken.Some? <==> item.Breaks?
      ensures item.Breaks? ==> broken == Some(item.reason)
    {
      match item {
        case Breaks(reason) =>
          log.Record(BreakingError(StreamBroken(reason)));
          return Some(reason);
        case Next(event, unprintable) =>
          if unprintable {
            log.Record(Warn(EventDataUnprintable));
          }
          HandleEvent(event);
          return None;
      }
    }

    /** `process_realtime_messages`: the dispatcher loop run by the background task. */
    method ProcessRealtimeMessages(items: seq<StreamItem>) returns (ending: Ending)
      modifies log
      ensures Run(log.effects, ending) ==
        Then(old(log.effects), if session.Some? then Dispatch(items) else DispatchWithoutSession)
    {
      if session.None? {
        log.Record(BreakingError(NoSession));
        return Raised(NoSession);
      }
      var i := 0;
      while i < |items|
        invariant 0 <= i <= |items|
        invariant Then(log.effects, Dispatch(items[i..])) == Then(old(log.effects), Dispatch(items))
      {
        ghost var before := log.effects;
        DispatchAt(items, i);
        var broken := HandleItem(items[i]);
        if broken.Some? {
          return Raised(StreamBroken(broken.value));
        }
        ThenThen(before, ItemEffects(items[i]), Dispatch(items[i + 1..]));
        i := i + 1;
      }
      assert items[i..] == [];
      ending := Returned;
    }
  }

  // ---------------------------------------------------------------------
  // Properties of the inbound pump
  // ---------------------------------------------------------------------

  /** An inbound `AudioData` frame as the client sends it: lower-case keys, base64 text under `audioData.data`. */
  function InboundAudio(text: string): (f: Json)
    ensures f.JObj? && Get(f.fields, "type") == Some(JStr("AudioData"))
  {
    JObj(map["type" := JStr("AudioData"), "audioData" := JObj(map["data" := JStr(text)])])
  }

  /** A frame whose only key is its tag. */
  function TagOnly(tag: string): (f: Json)
    ensures f.JObj? && Get(f.fields, "type") == Some(JStr(tag))
  {
    JObj(map["type" := JStr(tag)])
  }

  /** Whether every step of a script delivers a frame. */
  predicate AllReceived(steps: seq<ClientStep>) {
    forall i :: 0 <= i < |steps| ==> steps[i].Receive?
  }

  /**
   * The pump makes no call other than forwarding audio with `commit=False`
   * and warning about tags: it never writes to the client and never commits.
   */
  lemma {:induction false} PumpOnlyForwardsOrWarns(steps: seq<ClientStep>, hasSession: bool)
    ensures forall e <- Pump(steps, hasSession).effects ::
      (e.SendAudio? && !e.commit && e.audio != []) || (e.Warn? && e.warning.UnknownDataType?)
    decreases |steps|
  {
    if steps == [] || steps[0].NotConnected? || steps[0].ReceiveFails? {
    } else {
      PumpOnlyForwardsOrWarns(steps[1..], hasSession);
    }
  }

  /**
   * The pump consumes frames in order: when a prefix of delivered frames
   * returns, the pump over a longer script does that prefix's calls and then
   * carries on with the rest.
   */
  lemma {:induction false} PumpAppend(a: seq<ClientStep>, b: seq<ClientStep>, hasSession: bool)
    requires AllReceived(a) && Pump(a, hasSession).ending.Returned?
    ensures Pump(a + b, hasSession) == Then(Pump(a, hasSession).effects, Pump(b, hasSession))
    decreases |a|
  {
    if a == [] {
      assert a + b == b;
    } else {
      assert (a + b)[0] == a[0] && (a + b)[1..] == a[1..] + b;
      assert AllReceived(a[1..]) by {
        forall i | 0 <= i < |a[1..]| ensures a[1..][i].Receive? { assert a[1..][i] == a[i + 1]; }
      }
      var first := PumpStep(a[0].frame);
      assert Pump(a, hasSession) == Then(first, Pump(a[1..], hasSession));
      assert Pump(a + b, hasSession) == Then(first, Pump(a[1..] + b, hasSession));
      PumpAppend(a[1..], b, hasSession);
      ThenThen(first, Pump(a[1..], hasSession).effects, Pump(b, hasSession));
    }
  }

  /** The calls the pump makes for one frame it goes on from. */
  function PumpStep(frame: Json): seq<Effect> {
    match ClassifyFrame(frame)
    case Forward(audio) => [SendAudio(audio, false)]
    case WarnUnknown(tag) => [Warn(UnknownDataType(tag))]
    case _ => []
  }

  /** A well-formed audio frame is decoded and forwarded once, with `commit=False`, before the rest is read. */
  lemma PumpForwardsDecodedAudio(text: string, rest: seq<ClientStep>)
    requires Base64.Decode(text).Some? && Base64.Decode(text).value != []
    ensures Pump([Receive(InboundAudio(text))] + rest, true) ==
      Then([SendAudio(Base64.Decode(text).value, false)], Pump(rest, true))
  {
    assert ([Receive(InboundAudio(text))] + rest)[1..] == rest;
  }

  /** Round trip through the client's encoding: the bytes the client encoded are the bytes the model receives. */
  lemma PumpForwardsEncodedAudio(audio: seq<byte>, rest: seq<ClientStep>)
    requires audio != []
    ensures Pump([Receive(InboundAudio(Base64.Encode(audio)))] + rest, true) ==
      Then([SendAudio(audio, false)], Pump(rest, true))
  {
    Base64.DecodeEncode(audio);
    PumpForwardsDecodedAudio(Base64.Encode(audio), rest);
  }

  /** An empty payload decodes to no bytes: nothing is forwarded and the loop goes on. */
  lemma PumpSkipsEmptyPayload(rest: seq<ClientStep>, hasSession: bool)
    ensures Pump([Receive(InboundAudio(""))] + rest, hasSession) == Pump(rest, hasSession)
  {
    assert ([Receive(InboundAudio(""))] + rest)[1..] == rest;
  }

  /**
   * A missing payload is not a skip: it reaches the decoder as `None` and
   * ends the pump with an error, whether `audioData` or only `data` is absent.
   */
  lemma PumpMissingPayloadRaises(rest: seq<ClientStep>, hasSession: bool)
    ensures Pump([Receive(TagOnly("AudioData"))] + rest, hasSession) == Run([], Raised(PayloadMissing))
    ensures Pump([Receive(JObj(map["type" := JStr("AudioData"), "audioData" := JObj(map[])]))] + rest, hasSession)
      == Run([], Raised(PayloadMissing))
    ensures Pump([Receive(JObj(map["type" := JStr("AudioData"), "audioData" := JObj(map["data" := JNull])]))] + rest, hasSession)
      == Run([], Raised(PayloadMissing))
  {
  }

  /** Any other tag, `StopAudio` and a missing tag included, is warned about and the loop goes on. */
  lemma PumpWarnsOnOtherTags(fields: map<string, Json>, rest: seq<ClientStep>, hasSession: bool)
    requires Get(fields, "type") != Some(JStr("AudioData"))
    ensures Pump([Receive(JObj(fields))] + rest, hasSession) ==
      Then([Warn(UnknownDataType(Get(fields, "type")))], Pump(rest, hasSession))
  {
    assert ([Receive(JObj(fields))] + rest)[1..] == rest;
  }

  /** Three frames: well-encoded audio, a `StopAudio` and an unknown tag. */
  lemma PumpScenarioAudioStopBogus(audio: seq<byte>)
    requires audio != []
    ensures Pump([Receive(InboundAudio(Base64.Encode(audio))), Receive(TagOnly("StopAudio")), Receive(TagOnly("Bogus"))], true)
      == Run([SendAudio(audio, false),
              Warn(UnknownDataType(Some(JStr("StopAudio")))),
              Warn(UnknownDataType(Some(JStr("Bogus"))))], Returned)
  {
    var first, stop, bogus := Receive(InboundAudio(Base64.Encode(audio))), Receive(TagOnly("StopAudio")), Receive(TagOnly("Bogus"));
    calc {
      Pump([first, stop, bogus], true);
      { assert [first, stop, bogus] == [first] + ([stop] + [bogus]); }
      Pump([first] + ([stop] + [bogus]), true);
      { PumpForwardsEncodedAudio(audio, [stop] + [bogus]); }
      Then([SendAudio(audio, false)], Pump([stop] + [bogus], true));
      { PumpWarnsOnOtherTags(TagOnly("StopAudio").fields, [bogus], true); }
      Then([SendAudio(audio, false)], Then([Warn(UnknownDataType(Some(JStr("StopAudio"))))], Pump([bogus], true)));
      { PumpWarnsOnOtherTags(TagOnly("Bogus").fields, [], true);
        assert [bogus] + [] == [bogus]; }
      Then([SendAudio(audio, false)], Then([Warn(UnknownDataType(Some(JStr("StopAudio"))))],
        Then([Warn(UnknownDataType(Some(JStr("Bogus"))))], Pump([], true))));
    }
  }

  // ---------------------------------------------------------------------
  // Properties of the outbound dispatcher
  // ---------------------------------------------------------------------

  /** Whether an event makes the dispatcher write to the client. */
  predicate WritesToClient(e: ModelEvent) {
    (e.Audio? && e.audio.Some? && e.audio.value != []) || e.AudioInterrupted?
  }

  /** The number of events before the first break that write to the client. */
  function WritingEvents(items: seq<StreamItem>): nat
    decreases |items|
  {
    if items == [] || items[0].Breaks? then 0
    else (if WritesToClient(items[0].event) then 1 else 0) + WritingEvents(items[1..])
  }

  /** The number of socket writes in a sequence of calls. */
  function SocketWrites(effects: seq<Effect>): nat
    decreases |effects|
  {
    if effects == [] then 0 else (if effects[0].SendText? then 1 else 0) + SocketWrites(effects[1..])
  }

  lemma {:induction false} SocketWritesAppend(a: seq<Effect>, b: seq<Effect>)
    ensures SocketWrites(a + b) == SocketWrites(a) + SocketWrites(b)
    decreases |a|
  {
    if a == [] {
      assert a + b == b;
    } else {
      assert (a + b)[1..] == a[1..] + b;
      SocketWritesAppend(a[1..], b);
    }
  }

  /**
   * Each event writes at most one frame: an audio event with data writes its
   * `AudioData` frame, an interruption the fixed `StopAudio` frame, and every
   * other event writes nothing.
   */
  lemma EventWrites(e: ModelEvent)
    ensures SocketWrites(EventEffects(e)) == if WritesToClient(e) then 1 else 0
    ensures e.Audio? && WritesToClient(e) ==> SendText(AudioFrame(e.audio.value)) in EventEffects(e)
    ensures e.AudioInterrupted? ==> EventEffects(e) == [SendText(StopAudioFrame)]
    ensures forall x <- EventEffects(e) :: x.SendText? ==> x.frame == StopAudioFrame || Get(x.frame.fields, "Kind") == Some(JStr("AudioData"))
  {
    match e
    case RawModelEvent(raw) =>
      assert SocketWrites(TranscriptEffects(raw)) == 0;
    case _ =>
  }

  /** The dispatcher writes exactly one frame per writing event before the first break. */
  lemma {:induction false} DispatchWriteCount(items: seq<StreamItem>)
    ensures SocketWrites(Dispatch(items).effects) == WritingEvents(items)
    decreases |items|
  {
    if items == [] {
    } else if items[0].Breaks? {
      assert SocketWrites(ItemEffects(items[0])) == 0;
    } else {
      var warn := if items[0].dataUnprintable then [Warn(EventDataUnprintable)] else [];
      EventWrites(items[0].event);
      SocketWritesAppend(warn, EventEffects(items[0].event));
      SocketWritesAppend(ItemEffects(items[0]), Dispatch(items[1..]).effects);
      DispatchWriteCount(items[1..]);
    }
  }

  /** Events are handled in stream order: the dispatcher over a break-free prefix returns, and the rest follows. */
  lemma {:induction false} DispatchAppend(a: seq<StreamItem>, b: seq<StreamItem>)
    requires forall i :: 0 <= i < |a| ==> a[i].Next?
    ensures Dispatch(a).ending == Returned
    ensures Dispatch(a + b) == Then(Dispatch(a).effects, Dispatch(b))
    decreases |a|
  {
    if a == [] {
      assert a + b == b;
    } else {
      assert (a + b)[0] == a[0] && (a + b)[1..] == a[1..] + b;
      assert Dispatch(a) == Then(ItemEffects(a[0]), Dispatch(a[1..]));
      assert Dispatch(a + b) == Then(ItemEffects(a[0]), Dispatch(a[1..] + b));
      DispatchAppend(a[1..], b);
      ThenThen(ItemEffects(a[0]), Dispatch(a[1..]).effects, Dispatch(b));
    }
  }

  /** A break re-raises the stream's error after logging it, and nothing after it is handled. */
  lemma DispatchBreakEndsStream(a: seq<StreamItem>, reason: string, b: seq<StreamItem>)
    requires forall i :: 0 <= i < |a| ==> a[i].Next?
    ensures Dispatch(a + [Breaks(reason)] + b) ==
      Run(Dispatch(a).effects + [BreakingError(StreamBroken(reason))], Raised(StreamBroken(reason)))
  {
    DispatchAppend(a, [Breaks(reason)] + b);
    assert a + [Breaks(reason)] + b == a + ([Breaks(reason)] + b);
  }

  /** An event whose data cannot be formatted only adds a warning; the event is still handled and the loop goes on. */
  lemma DispatchUnprintableContinues(e: ModelEvent, rest: seq<StreamItem>)
    ensures Dispatch([Next(e, true)] + rest).effects == [Warn(EventDataUnprintable)] + Dispatch([Next(e, false)] + rest).effects
    ensures Dispatch([Next(e, true)] + rest).ending == Dispatch([Next(e, false)] + rest).ending
  {
    var warn, handled := [Warn(EventDataUnprintable)], EventEffects(e);
    calc {
      Dispatch([Next(e, true)] + rest);
      { DispatchCons(Next(e, true), rest, warn + handled); }
      Then(warn + handled, Dispatch(rest));
      { ThenThen(warn, handled, Dispatch(rest)); }
      Then(warn, Then(handled, Dispatch(rest)));
      { assert [] + handled == handled;
        DispatchCons(Next(e, false), rest, handled); }
      Then(warn, Dispatch([Next(e, false)] + rest));
    }
  }

  /** An audio event with data, an interruption, then the stream raising. */
  lemma DispatchScenarioAudioInterruptBreak(audio: seq<byte>, reason: string)
    requires audio != []
    ensures Dispatch([Next(Audio(Some(audio)), false), Next(AudioInterrupted, false), Breaks(reason)]) ==
      Run([SendText(AudioFrame(audio)), SendText(StopAudioFrame), BreakingError(StreamBroken(reason))],
          Raised(StreamBroken(reason)))
  {
    var first, second := Next(Audio(Some(audio)), false), Next(AudioInterrupted, false);
    var broken := Run([BreakingError(StreamBroken(reason))], Raised(StreamBroken(reason)));
    calc {
      Dispatch([first, second, Breaks(reason)]);
      { assert [first, second, Breaks(reason)] == [first] + ([second] + [Breaks(reason)]); }
      Dispatch([first] + ([second] + [Breaks(reason)]));
      { DispatchCons(first, [second] + [Breaks(reason)], [SendText(AudioFrame(audio))]); }
      Then([SendText(AudioFrame(audio))], Dispatch([second] + [Breaks(reason)]));
      { DispatchCons(second, [Breaks(reason)], [SendText(StopAudioFrame)]); }
      Then([SendText(AudioFrame(audio))], Then([SendText(StopAudioFrame)], Dispatch([Breaks(reason)])));
      { assert Dispatch([Breaks(reason)]) == broken; }
      Then([SendText(AudioFrame(audio))], Then([SendText(StopAudioFrame)], broken));
    }
  }
}

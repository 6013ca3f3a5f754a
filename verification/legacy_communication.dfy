/**
 * The earlier variant of the call backend's communication handler. It runs
 * the same two loops as the current handler, with different semantics: the
 * inbound loop never checks the socket state and forwards the base64 text
 * undecoded from a top-level `data` key, and the outbound dispatcher sends
 * no `StopAudio`, ignores `error` events and builds its audio frame with
 * lower-case keys.
 */
module LegacyCommunication {
  import opened Wrappers
  import opened Json
  import Base64
  import opened Communication

  /** One `receive_text` call: the parsed text (None when `json.loads` raises), or the socket raising. */
  datatype LegacyStep =
    | Text(parsed: Option<Json>)
    | Disconnected

  // ---------------------------------------------------------------------
  // Inbound loop (recive_audio)
  // ---------------------------------------------------------------------

  /** What `recive_audio` does with one parsed frame. */
  datatype LegacyAction =
    | ForwardRaw(payload: Json)
    | Ignore
    | WarnTag(tag: Option<Json>)
    | Reject(failure: Failure)

  /** The `match` on the frame's `type`; the payload is the top-level `data`, forwarded only when truthy. */
  function ClassifyLegacyFrame(frame: Json): (a: LegacyAction)
    ensures a.ForwardRaw? ==> Truthy(a.payload)
    ensures a.WarnTag? <==> frame.JObj? && Get(frame.fields, "type") != Some(JStr("AudioData"))
  {
    match frame
    case JObj(fields) =>
      var tag := Get(fields, "type");
      if tag != Some(JStr("AudioData")) then WarnTag(tag)
      else if "data" in fields && Truthy(fields["data"]) then ForwardRaw(fields["data"])
      else Ignore
    case _ => Reject(FrameNotAnObject)
  }

  /** The calls made for a frame the loop goes on from. */
  function LegacyStepEffects(a: LegacyAction): seq<Effect> {
    match a
    case ForwardRaw(payload) => [SendRawAudio(payload, false)]
    case WarnTag(tag) => [Warn(UnknownDataType(tag))]
    case _ => []
  }

  /** `while True`: the loop ends only when receiving, parsing or reading the frame raises. */
  function LegacyPump(steps: seq<LegacyStep>, hasSession: bool): Run
    decreases |steps|
  {
    if steps == [] || steps[0].Disconnected? then Run([], Raised(ReceiveFailed))
    else if steps[0].parsed.None? then Run([], Raised(InvalidJson))
    else match ClassifyLegacyFrame(steps[0].parsed.value)
      case Reject(f) => Run([], Raised(f))
      case ForwardRaw(_) =>
        if hasSession then Then(LegacyStepEffects(ClassifyLegacyFrame(steps[0].parsed.value)), LegacyPump(steps[1..], hasSession))
        else Run([], Raised(NoSession))
      case _ => Then(LegacyStepEffects(ClassifyLegacyFrame(steps[0].parsed.value)), LegacyPump(steps[1..], hasSession))
  }

  /** The loop has no normal exit: every run ends with an exception. */
  lemma {:induction false} LegacyPumpNeverReturns(steps: seq<LegacyStep>, hasSession: bool)
    ensures LegacyPump(steps, hasSession).ending.Raised?
    ensures forall e <- LegacyPump(steps, hasSession).effects ::
      (e.SendRawAudio? && !e.commit && Truthy(e.payload)) || (e.Warn? && e.warning.UnknownDataType?)
    decreases |steps|
  {
    if steps != [] && steps[0].Text? && steps[0].parsed.Some? {
      LegacyPumpNeverReturns(steps[1..], hasSession);
    }
  }

  /** A truthy top-level `data` is forwarded as it arrived, undecoded, with `commit=False`. */
  lemma LegacyForwardsRawPayload(text: string, rest: seq<LegacyStep>)
    requires text != ""
    ensures LegacyPump([Text(Some(JObj(map["type" := JStr("AudioData"), "data" := JStr(text)])))] + rest, true) ==
      Then([SendRawAudio(JStr(text), false)], LegacyPump(rest, true))
  {
    assert ([Text(Some(JObj(map["type" := JStr("AudioData"), "data" := JStr(text)])))] + rest)[1..] == rest;
  }

  /**
   * The two inbound formats do not agree: a frame in the current format,
   * with its payload under `audioData.data`, has no top-level `data`, so the
   * legacy loop forwards nothing for it, while the current pump forwards the
   * decoded bytes.
   */
  lemma LegacyIgnoresNestedPayload(audio: seq<Base64.byte>, rest: seq<LegacyStep>)
    requires audio != []
    ensures LegacyPump([Text(Some(InboundAudio(Base64.Encode(audio))))] + rest, true) == LegacyPump(rest, true)
    ensures Pump([Receive(InboundAudio(Base64.Encode(audio)))], true) == Run([SendAudio(audio, false)], Returned)
  {
    assert ([Text(Some(InboundAudio(Base64.Encode(audio))))] + rest)[1..] == rest;
    PumpForwardsEncodedAudio(audio, []);
    assert [Receive(InboundAudio(Base64.Encode(audio)))] + [] == [Receive(InboundAudio(Base64.Encode(audio)))];
  }

  // ---------------------------------------------------------------------
  // Outbound dispatcher (handle_realtime_messages)
  // ---------------------------------------------------------------------

  /** The frame the inner `return_audio` was meant to send: lower-case keys, base64 text. */
  function LegacyAudioFrame(audio: seq<Base64.byte>): (f: Json)
    ensures f.JObj? && Get(f.fields, "kind") == Some(JStr("AudioData"))
    ensures "audioData" in f.fields && f.fields["audioData"].JObj?
    ensures Get(f.fields["audioData"].fields, "data").Some?
    ensures var data := f.fields["audioData"].fields["data"];
      data.JStr? && Base64.Decode(data.s) == Some(audio)
  {
    Base64.DecodeEncode(audio);
    JObj(map["kind" := JStr("AudioData"), "audioData" := JObj(map["data" := JStr(Base64.Encode(audio))])])
  }

  /** The legacy `if/elif` chain: only audio and transcripts have an effect. */
  function LegacyEventEffects(e: ModelEvent): (r: seq<Effect>)
    ensures |r| <= 1
    ensures forall x <- r :: x.SendText? || x.Transcript?
    ensures (r != [] && r[0].SendText?) <==> e.Audio? && e.audio.Some? && e.audio.value != []
  {
    match e
    case Audio(audio) =>
      if audio.Some? && audio.value != [] then [SendText(LegacyAudioFrame(audio.value))] else []
    case RawModelEvent(raw) => TranscriptEffects(raw)
    case _ => []
  }

  /** The legacy dispatcher, with `return_audio` sending the base64 text of the audio. */
  function LegacyDispatch(items: seq<StreamItem>): Run
    decreases |items|
  {
    if items == [] then Run([], Returned)
    else match items[0]
      case Breaks(reason) => Run([BreakingError(StreamBroken(reason))], Raised(StreamBroken(reason)))
      case Next(e, unprintable) =>
        Then((if unprintable then [Warn(EventDataUnprintable)] else []) + LegacyEventEffects(e), LegacyDispatch(items[1..]))
  }

  /**
   * The legacy dispatcher as written: `return_audio` hands the raw audio bytes
   * to `json.dumps`, which cannot serialise bytes, so the first audio event
   * with data raises before anything is sent, and the outer handler logs it
   * and re-raises.
   */
  function LegacyDispatchAsWritten(items: seq<StreamItem>): (r: Run)
    ensures forall x <- r.effects :: !x.SendText?
    ensures r.ending.Raised? ==> r.ending.failure == NotSerializable || r.ending.failure.StreamBroken?
    decreases |items|
  {
    if items == [] then Run([], Returned)
    else match items[0]
      case Breaks(reason) => Run([BreakingError(StreamBroken(reason))], Raised(StreamBroken(reason)))
      case Next(e, unprintable) =>
        var warn := if unprintable then [Warn(EventDataUnprintable)] else [];
        if e.Audio? && e.audio.Some? && e.audio.value != [] then
          Run(warn + [BreakingError(NotSerializable)], Raised(NotSerializable))
        else Then(warn + LegacyEventEffects(e), LegacyDispatchAsWritten(items[1..]))
  }

  /** As written, the first audio event with data ends the dispatcher: no frame is sent and nothing after it is handled. */
  lemma AsWrittenAudioEndsDispatcher(audio: seq<Base64.byte>, rest: seq<StreamItem>)
    requires audio != []
    ensures LegacyDispatchAsWritten([Next(Audio(Some(audio)), false)] + rest) ==
      Run([BreakingError(NotSerializable)], Raised(NotSerializable))
    ensures forall e <- LegacyDispatchAsWritten([Next(Audio(Some(audio)), false)] + rest).effects :: !e.SendText?
  {
  }

  /** The corrected dispatcher sends the audio frame, whose `data` decodes back to the audio, and goes on. */
  lemma CorrectedAudioIsSentAndDecodes(audio: seq<Base64.byte>, rest: seq<StreamItem>)
    requires audio != []
    ensures LegacyDispatch([Next(Audio(Some(audio)), false)] + rest) ==
      Then([SendText(LegacyAudioFrame(audio))], LegacyDispatch(rest))
    ensures Base64.Decode(LegacyAudioFrame(audio).fields["audioData"].fields["data"].s) == Some(audio)
  {
    var items := [Next(Audio(Some(audio)), false)] + rest;
    assert items[0] == Next(Audio(Some(audio)), false) && items[1..] == rest;
    assert LegacyEventEffects(Audio(Some(audio))) == [SendText(LegacyAudioFrame(audio))];
  }

  /** Both versions agree on every stream without audio data. */
  lemma {:induction false} AsWrittenAgreesWithoutAudio(items: seq<StreamItem>)
    requires forall i :: 0 <= i < |items| && items[i].Next? && items[i].event.Audio? ==>
      items[i].event.audio.None? || items[i].event.audio.value == []
    ensures LegacyDispatchAsWritten(items) == LegacyDispatch(items)
    decreases |items|
  {
    if items != [] && items[0].Next? {
      assert forall i :: 0 <= i < |items[1..]| ==> items[1..][i] == items[i + 1];
      AsWrittenAgreesWithoutAudio(items[1..]);
    }
  }

  /**
   * Against the current dispatcher, the legacy one never interrupts the
   * client's playback and never logs model errors: an interruption or an
   * error event has no effect at all.
   */
  lemma LegacyIgnoresInterruptAndError(detail: string, rest: seq<StreamItem>)
    ensures LegacyDispatch([Next(AudioInterrupted, false), Next(Error(detail), false)] + rest) == LegacyDispatch(rest)
    ensures Dispatch([Next(AudioInterrupted, false), Next(Error(detail), false)] + rest) ==
      Then([SendText(StopAudioFrame), ErrorEvent(detail)], Dispatch(rest))
  {
    var items := [Next(AudioInterrupted, false), Next(Error(detail), false)] + rest;
    assert items[1..] == [Next(Error(detail), false)] + rest;
    assert items[1..][1..] == rest;
    LegacySkipsOne(AudioInterrupted, items[1..]);
    LegacySkipsOne(Error(detail), rest);
    DispatchInterruptThenError(detail, rest);
  }

  /** An event the legacy chain has no branch for is passed over. */
  lemma LegacySkipsOne(e: ModelEvent, rest: seq<StreamItem>)
    requires e.AudioInterrupted? || e.Error?
    ensures LegacyDispatch([Next(e, false)] + rest) == LegacyDispatch(rest)
  {
    var items := [Next(e, false)] + rest;
    assert items[0] == Next(e, false) && items[1..] == rest;
  }

  /** The current dispatcher on the same two events. */
  lemma DispatchInterruptThenError(detail: string, rest: seq<StreamItem>)
    ensures Dispatch([Next(AudioInterrupted, false), Next(Error(detail), false)] + rest) ==
      Then([SendText(StopAudioFrame), ErrorEvent(detail)], Dispatch(rest))
  {
    var stop, error := [SendText(StopAudioFrame)], [ErrorEvent(detail)];
    var tail := [Next(Error(detail), false)] + rest;
    calc {
      Dispatch([Next(AudioInterrupted, false), Next(Error(detail), false)] + rest);
      { assert [Next(AudioInterrupted, false), Next(Error(detail), false)] + rest == [Next(AudioInterrupted, false)] + tail; }
      Dispatch([Next(AudioInterrupted, false)] + tail);
      { DispatchCons(Next(AudioInterrupted, false), tail, stop); }
      Then(stop, Dispatch(tail));
      { DispatchCons(Next(Error(detail), false), rest, error); }
      Then(stop, Then(error, Dispatch(rest)));
      { ThenThen(stop, error, Dispatch(rest)); }
      Then(stop + error, Dispatch(rest));
    }
    assert stop + error == [SendText(StopAudioFrame), ErrorEvent(detail)];
  }

  // ---------------------------------------------------------------------
  // The handler
  // ---------------------------------------------------------------------

  /** The client socket of the legacy handler, reduced to the text frames it will still deliver. */
  class LegacySocket {
    var pending: seq<LegacyStep>

    constructor(script: seq<LegacyStep>)
      ensures pending == script
    {
      pending := script;
    }

    /** `receive_text()` followed by `json.loads`: None when either raises. */
    method ReceiveParsed() returns (r: Option<Option<Json>>)
      modifies this
      ensures old(pending) == [] ==> r.None? && pending == []
      ensures old(pending) != [] ==>
        pending == old(pending)[1..] && r == (if old(pending)[0].Disconnected? then None else Some(old(pending)[0].parsed))
    {
      if pending == [] {
        return None;
      }
      r := if pending[0].Disconnected? then None else Some(pending[0].parsed);
      pending := pending[1..];
    }
  }

  /** The legacy `CommunicationHandler`, which keeps only the session and the receive task. */
  class LegacyCommunicationHandler {
    const websocket: LegacySocket
    const log: CallLog
    var session: Option<nat>
    var receiveTask: Option<nat>

    constructor(websocket: LegacySocket, log: CallLog)
      ensures this.websocket == websocket && this.log == log
      ensures session.None? && receiveTask.None?
    {
      this.websocket := websocket;
      this.log := log;
      session, receiveTask := None, None;
    }

    /** Opens the session and creates the dispatcher task; the session context itself is not kept. */
    method InitModelRealtimeSession(open: OpenOutcome) returns (ending: Ending)
      modifies this, log
      ensures log.effects == old(log.effects) + CommunicationHandler.InitEffects(open)
      ensures ending == if open.Opens? then Returned else Raised(OpenFailed)
      ensures open.Opens? ==> session == Some(open.session) && receiveTask == Some(open.task)
      ensures !open.Opens? ==> session == old(session) && receiveTask == old(receiveTask)
    {
      if open.RunFails? {
        return Raised(OpenFailed);
      }
      log.Record(RunSession);
      if open.EnterFails? {
        return Raised(OpenFailed);
      }
      log.Record(EnterSession);
      log.Record(CreateTask);
      session, receiveTask := Some(open.session), Some(open.task);
      ending := Returned;
    }

    /** `recive_audio`: the unconditional receive loop. */
    method ReciveAudio() returns (ending: Ending)
      modifies websocket, log
      ensures Run(log.effects, ending) == Then(old(log.effects), LegacyPump(old(websocket.pending), session.Some?))
    {
      ghost var hasSession := session.Some?;
      while true
        invariant Then(log.effects, LegacyPump(websocket.pending, hasSession)) ==
          Then(old(log.effects), LegacyPump(old(websocket.pending), hasSession))
        decreases |websocket.pending|
      {
        ghost var rest := websocket.pending;
        ghost var before := log.effects;
        var received := websocket.ReceiveParsed();
        if received.None? {
          return Raised(ReceiveFailed);
        }
        if received.value.None? {
          return Raised(InvalidJson);
        }
        var action := ClassifyLegacyFrame(received.value.value);
        if action.Reject? {
          return Raised(action.failure);
        }
        if action.ForwardRaw? && session.None? {
          return Raised(NoSession);
        }
        var effects := LegacyStepEffects(action);
        match action {
          case ForwardRaw(payload) =>
            log.Record(SendRawAudio(payload, false));
          case WarnTag(tag) =>
            log.Record(Warn(UnknownDataType(tag)));
          case Ignore =>
        }
        assert LegacyPump(rest, hasSession) == Then(effects, LegacyPump(websocket.pending, hasSession));
        ThenThen(before, effects, LegacyPump(websocket.pending, hasSession));
      }
    }
  }

  /** `handle_realtime_messages`, with the corrected `return_audio`. */
  method HandleRealtimeMessages(items: seq<StreamItem>, log: CallLog) returns (ending: Ending)
    modifies log
    ensures Run(log.effects, ending) == Then(old(log.effects), LegacyDispatch(items))
  {
    var i := 0;
    while i < |items|
      invariant 0 <= i <= |items|
      invariant Then(log.effects, LegacyDispatch(items[i..])) == Then(old(log.effects), LegacyDispatch(items))
    {
      assert items[i..][1..] == items[i + 1..];
      ghost var before := log.effects;
      match items[i] {
        case Breaks(reason) =>
          log.Record(BreakingError(StreamBroken(reason)));
          return Raised(StreamBroken(reason));
        case Next(event, unprintable) =>
          ghost var step := (if unprintable then [Warn(EventDataUnprintable)] else []) + LegacyEventEffects(event);
          if unprintable {
            log.Record(Warn(EventDataUnprintable));
          }
          if event.Audio? && event.audio.Some? && event.audio.value != [] {
            log.Record(SendText(LegacyAudioFrame(event.audio.value)));
          } else if event.RawModelEvent? {
            var transcripts := TranscriptEffects(event.raw);
            if transcripts != [] {
              log.Record(transcripts[0]);
            }
            assert transcripts == [] || transcripts == [transcripts[0]];
          }
          assert log.effects == before + step;
          ThenThen(before, step, LegacyDispatch(items[i + 1..]));
      }
      i := i + 1;
    }
    assert items[i..] == [];
    ending := Returned;
  }
}

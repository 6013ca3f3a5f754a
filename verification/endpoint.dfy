/**
 * The `/realtime` websocket endpoint of the call backend: it accepts the
 * connection, opens the model session through a CommunicationHandler, runs
 * the inbound pump, and then tears down according to its `error_occurred`
 * flag.
 */
module RealtimeEndpoint {
  import opened Wrappers
  import opened Json
  import opened Communication

  const InternalError := Close(1011, "Internal server error")
  const NormalClosure := Close(1000, "Ending connection normally")

  /** The `x-ms-call-connection-id` header is missing or empty. */
  predicate HeaderMissing(callConnectionId: Option<string>) {
    callConnectionId.None? || callConnectionId.value == ""
  }

  /** The calls made before the handler is built. */
  function Preamble(callConnectionId: Option<string>): (pre: seq<Effect>)
    ensures |pre| >= 1 && pre[0] == Accept
  {
    [Accept] + (if HeaderMissing(callConnectionId) then [Warn(MissingCallConnectionId)] else [])
  }

  /**
   * Whether the teardown's own calls raise: `__aexit__` on the session
   * context (inside `end_session`), and `websocket.close`.
   */
  datatype TeardownFaults = TeardownFaults(exitFails: bool, closeFails: bool)

  /**
   * The teardown that follows the pump, chosen by how the pump ended. After
   * a pump error the `except` branch logs it and closes with 1011; the
   * `finally` branch then ends the session and, only when no error was
   * caught, closes with 1000. An exception from `__aexit__` escapes at once,
   * replacing one from the 1011 close; otherwise an exception from a close
   * escapes once the `finally` branch is done.
   */
  function Teardown(pump: Ending, faults: TeardownFaults): (t: Run)
    ensures t.ending.Raised? <==> faults.exitFails || faults.closeFails
    ensures faults.exitFails ==> t.ending == Raised(ExitFailed)
  {
    var ended := if faults.exitFails then [ExitSession] else [ExitSession, CancelTask];
    match pump
    case Raised(f) =>
      Run([UnexpectedException(f), InternalError] + ended,
          if faults.exitFails then Raised(ExitFailed) else if faults.closeFails then Raised(CloseFailed) else Returned)
    case Returned =>
      if faults.exitFails then Run(ended, Raised(ExitFailed))
      else Run(ended + [NormalClosure], if faults.closeFails then Raised(CloseFailed) else Returned)
  }

  /**
   * The whole connection: the preamble, opening the session, and, once it
   * is open, the pump followed by the teardown. An exception from the pump
   * is caught; an open failure escapes, and so does one from the teardown.
   */
  function EndpointRun(callConnectionId: Option<string>, script: seq<ClientStep>, open: OpenOutcome, faults: TeardownFaults): Run {
    var pre := Preamble(callConnectionId) + CommunicationHandler.InitEffects(open);
    if !open.Opens? then Run(pre, Raised(OpenFailed))
    else
      AfterOpen(pre, Pump(script, true), faults)
  }

  /** The calls made once the session is open: those before it, the pump's, then the teardown's. */
  function AfterOpen(pre: seq<Effect>, pump: Run, faults: TeardownFaults): (r: Run)
    ensures r.ending == Teardown(pump.ending, faults).ending
  {
    Then(pre + pump.effects, Teardown(pump.ending, faults))
  }

  /** `websocket.close(code, reason)`: the call is made, and raises when `fails`. */
  method CloseSocket(log: CallLog, frame: Effect, fails: bool) returns (ending: Ending)
    requires frame.Close?
    modifies log
    ensures log.effects == old(log.effects) + [frame]
    ensures ending == if fails then Raised(CloseFailed) else Returned
  {
    log.Record(frame);
    ending := if fails then Raised(CloseFailed) else Returned;
  }

  /** `realtime(websocket, call_connection_id)`, over a fresh socket and call log. */
  method Realtime(callConnectionId: Option<string>, script: seq<ClientStep>, open: OpenOutcome, faults: TeardownFaults)
    returns (effects: seq<Effect>, ending: Ending)
    ensures Run(effects, ending) == EndpointRun(callConnectionId, script, open, faults)
  {
    var websocket := new WebSocket(script);
    var log := new CallLog();
    log.Record(Accept);
    if HeaderMissing(callConnectionId) {
      log.Record(Warn(MissingCallConnectionId));
    }
    ghost var pre := Preamble(callConnectionId) + CommunicationHandler.InitEffects(open);
    assert log.effects == Preamble(callConnectionId);
    var handler := new CommunicationHandler(websocket, log);
    var openEnding := handler.InitModelRealtimeSession(open);
    assert log.effects == pre;
    if openEnding.Raised? {
      return log.effects, openEnding;
    }
    var received := handler.ReceiveAudio();
    ghost var pump := Pump(script, true);
    assert log.effects == pre + pump.effects && received == pump.ending;
    ending := ExceptAndFinally(handler, log, received, faults);
    effects := log.effects;
  }

  /**
   * The `except` and `finally` branches of `realtime`, after the pump ended
   * with `received`: the calls they make and how the handler then ends are
   * `Teardown` of that ending.
   */
  method ExceptAndFinally(handler: CommunicationHandler, log: CallLog, received: Ending, faults: TeardownFaults)
    returns (ending: Ending)
    requires handler.Valid() && handler.sessionContext.Some? && handler.log == log
    modifies log
    ensures Run(log.effects, ending) == Then(old(log.effects), Teardown(received, faults))
  {
    var errorOccurred := false;
    var inFlight := Returned;
    if received.Raised? {
      log.Record(UnexpectedException(received.failure));
      errorOccurred := true;
      inFlight := CloseSocket(log, InternalError, faults.closeFails);
    }
    // the `finally` branch runs whether or not an exception is in flight
    var ended := handler.EndSession(faults.exitFails);
    if ended.Raised? {
      return ended;
    }
    if !errorOccurred {
      inFlight := CloseSocket(log, NormalClosure, faults.closeFails);
    }
    ending := inFlight;
  }

  /** `accept` is the first call, and it is made exactly once. */
  lemma AcceptFirstAndOnce(callConnectionId: Option<string>, script: seq<ClientStep>, open: OpenOutcome, faults: TeardownFaults)
    ensures EndpointRun(callConnectionId, script, open, faults).effects[0] == Accept
    ensures multiset(EndpointRun(callConnectionId, script, open, faults).effects)[Accept] == 1
  {
    var pre := Preamble(callConnectionId) + CommunicationHandler.InitEffects(open);
    assert multiset(pre)[Accept] == 1;
    if open.Opens? {
      PumpOnlyForwardsOrWarns(script, true);
      AcceptOnceAfterOpen(pre, Pump(script, true), faults);
    } else {
      assert pre + [] == pre;
      OnceAtFront(Accept, pre, []);
    }
  }

  /** The opened part of AcceptFirstAndOnce, for any pump that only forwards audio and warns. */
  lemma AcceptOnceAfterOpen(pre: seq<Effect>, pump: Run, faults: TeardownFaults)
    requires |pre| >= 1 && pre[0] == Accept && multiset(pre)[Accept] == 1
    requires forall e <- pump.effects :: e.SendAudio? || e.Warn?
    ensures AfterOpen(pre, pump, faults).effects[0] == Accept
    ensures multiset(AfterOpen(pre, pump, faults).effects)[Accept] == 1
  {
    var tail := Teardown(pump.ending, faults).effects;
    TeardownFacts(pump.ending, faults);
    assert Accept !in pump.effects + tail;
    assert AfterOpen(pre, pump, faults).effects == pre + (pump.effects + tail);
    OnceAtFront(Accept, pre, pump.effects + tail);
  }

  /** An effect that opens a sequence once and never recurs after it. */
  lemma OnceAtFront(x: Effect, front: seq<Effect>, rest: seq<Effect>)
    requires |front| >= 1 && front[0] == x && multiset(front)[x] == 1 && x !in rest
    ensures (front + rest)[0] == x && multiset(front + rest)[x] == 1
  {
    assert multiset(front + rest) == multiset(front) + multiset(rest);
  }

  /** A missing header only adds a warning after `accept`; everything else is the same. */
  lemma MissingHeaderOnlyWarns(script: seq<ClientStep>, open: OpenOutcome, faults: TeardownFaults, id: string)
    requires id != ""
    ensures EndpointRun(None, script, open, faults).effects ==
      [Accept, Warn(MissingCallConnectionId)] + EndpointRun(Some(id), script, open, faults).effects[1..]
    ensures EndpointRun(None, script, open, faults).ending == EndpointRun(Some(id), script, open, faults).ending
  {
  }

  /**
   * When opening the session fails, the failure escapes before the `try`:
   * no dispatcher task is created, the session is not exited and the socket
   * is not closed.
   */
  lemma OpenFailureSkipsTeardown(callConnectionId: Option<string>, script: seq<ClientStep>, open: OpenOutcome, faults: TeardownFaults)
    requires !open.Opens?
    ensures EndpointRun(callConnectionId, script, open, faults).ending == Raised(OpenFailed)
    ensures CreateTask !in EndpointRun(callConnectionId, script, open, faults).effects
    ensures ExitSession !in EndpointRun(callConnectionId, script, open, faults).effects
    ensures forall e <- EndpointRun(callConnectionId, script, open, faults).effects :: !e.Close?
  {
  }

  /**
   * Once the session is open and `__aexit__` returns, the session is exited
   * exactly once, the receive task cancelled exactly once and the socket
   * closed exactly once, with 1011 or 1000 but never both. The handler
   * returns unless that close raises.
   */
  lemma TeardownExactlyOnce(callConnectionId: Option<string>, script: seq<ClientStep>, open: OpenOutcome, faults: TeardownFaults)
    requires open.Opens? && !faults.exitFails
    ensures EndpointRun(callConnectionId, script, open, faults).ending ==
      if faults.closeFails then Raised(CloseFailed) else Returned
    ensures multiset(EndpointRun(callConnectionId, script, open, faults).effects)[CreateTask] == 1
    ensures multiset(EndpointRun(callConnectionId, script, open, faults).effects)[ExitSession] == 1
    ensures multiset(EndpointRun(callConnectionId, script, open, faults).effects)[CancelTask] == 1
    ensures multiset(EndpointRun(callConnectionId, script, open, faults).effects)[InternalError] +
            multiset(EndpointRun(callConnectionId, script, open, faults).effects)[NormalClosure] == 1
    ensures forall e <- EndpointRun(callConnectionId, script, open, faults).effects :: e.Close? ==> e == InternalError || e == NormalClosure
  {
    PumpOnlyForwardsOrWarns(script, true);
    TeardownCounts(Preamble(callConnectionId), open, Pump(script, true), faults);
  }

  /** The counting argument behind TeardownExactlyOnce, for any pump that only forwards audio and warns. */
  lemma TeardownCounts(preamble: seq<Effect>, open: OpenOutcome, pump: Run, faults: TeardownFaults)
    requires open.Opens? && !faults.exitFails
    requires forall e <- preamble :: e == Accept || e == Warn(MissingCallConnectionId)
    requires forall e <- pump.effects :: e.SendAudio? || e.Warn?
    ensures var effects := preamble + CommunicationHandler.InitEffects(open) + pump.effects + Teardown(pump.ending, faults).effects;
      && multiset(effects)[CreateTask] == 1
      && multiset(effects)[ExitSession] == 1
      && multiset(effects)[CancelTask] == 1
      && multiset(effects)[InternalError] + multiset(effects)[NormalClosure] == 1
      && forall e <- effects :: e.Close? ==> e == InternalError || e == NormalClosure
  {
    var front := preamble + CommunicationHandler.InitEffects(open) + pump.effects;
    var tail := Teardown(pump.ending, faults).effects;
    assert multiset(front + tail) == multiset(front) + multiset(tail);
    FrontCounts(preamble, open, pump.effects);
    TailCounts(pump.ending, faults);
    forall e: Effect | e in front + tail && e.Close? ensures e == InternalError || e == NormalClosure {
      assert e in front || e in tail;
    }
  }

  /** Before the teardown: one task created, nothing exited, cancelled or closed. */
  lemma FrontCounts(preamble: seq<Effect>, open: OpenOutcome, pumped: seq<Effect>)
    requires open.Opens?
    requires forall e <- preamble :: e == Accept || e == Warn(MissingCallConnectionId)
    requires forall e <- pumped :: e.SendAudio? || e.Warn?
    ensures var front := preamble + CommunicationHandler.InitEffects(open) + pumped;
      && multiset(front)[CreateTask] == 1
      && multiset(front)[ExitSession] == 0 && multiset(front)[CancelTask] == 0
      && multiset(front)[InternalError] == 0 && multiset(front)[NormalClosure] == 0
      && forall e <- front :: !e.Close?
  {
    var init := CommunicationHandler.InitEffects(open);
    assert init == [RunSession, EnterSession, CreateTask];
    assert multiset(preamble + init + pumped) == multiset(preamble) + multiset(init) + multiset(pumped);
    assert CreateTask !in preamble && ExitSession !in preamble && CancelTask !in preamble;
    assert InternalError !in preamble && NormalClosure !in preamble;
    assert CreateTask !in pumped && ExitSession !in pumped && CancelTask !in pumped;
    assert InternalError !in pumped && NormalClosure !in pumped;
  }

  /** A teardown whose `__aexit__` returns exits and cancels once and closes once, with one of the two codes. */
  lemma TailCounts(ending: Ending, faults: TeardownFaults)
    requires !faults.exitFails
    ensures var tail := Teardown(ending, faults).effects;
      && multiset(tail)[CreateTask] == 0 && multiset(tail)[ExitSession] == 1 && multiset(tail)[CancelTask] == 1
      && multiset(tail)[InternalError] + multiset(tail)[NormalClosure] == 1
      && forall e <- tail :: e.Close? ==> e == InternalError || e == NormalClosure
  {
  }

  /** What the teardown may call, and which calls an `__aexit__` failure cuts off. */
  lemma TeardownFacts(pump: Ending, faults: TeardownFaults)
    ensures var tail := Teardown(pump, faults).effects;
      && (forall e <- tail :: e.UnexpectedException? || e == InternalError || e == ExitSession || e == CancelTask || e == NormalClosure)
      && multiset(tail)[ExitSession] == 1
      && (CancelTask in tail <==> !faults.exitFails)
      && (NormalClosure in tail <==> pump.Returned? && !faults.exitFails)
  {
  }

  /**
   * When `__aexit__` raises, its exception escapes the handler: the receive
   * task is never cancelled and the socket is never closed normally.
   */
  lemma ExitFailureEscapes(callConnectionId: Option<string>, script: seq<ClientStep>, open: OpenOutcome, faults: TeardownFaults)
    requires open.Opens? && faults.exitFails
    ensures EndpointRun(callConnectionId, script, open, faults).ending == Raised(ExitFailed)
    ensures multiset(EndpointRun(callConnectionId, script, open, faults).effects)[ExitSession] == 1
    ensures CancelTask !in EndpointRun(callConnectionId, script, open, faults).effects
    ensures NormalClosure !in EndpointRun(callConnectionId, script, open, faults).effects
  {
    PumpOnlyForwardsOrWarns(script, true);
    FrontCounts(Preamble(callConnectionId), open, Pump(script, true).effects);
    ExitFailureAfterOpen(Preamble(callConnectionId) + CommunicationHandler.InitEffects(open), Pump(script, true), faults);
  }

  /** The counting argument behind ExitFailureEscapes, for any calls made before the teardown. */
  lemma ExitFailureAfterOpen(front: seq<Effect>, pump: Run, faults: TeardownFaults)
    requires faults.exitFails
    requires multiset(front + pump.effects)[ExitSession] == 0
    requires CancelTask !in front + pump.effects && NormalClosure !in front + pump.effects
    ensures multiset(AfterOpen(front, pump, faults).effects)[ExitSession] == 1
    ensures CancelTask !in AfterOpen(front, pump, faults).effects
    ensures NormalClosure !in AfterOpen(front, pump, faults).effects
  {
    var tail := Teardown(pump.ending, faults).effects;
    TeardownFacts(pump.ending, faults);
    assert multiset(front + pump.effects + tail) == multiset(front + pump.effects) + multiset(tail);
  }

  /**
   * When the pump raises, the error is logged, the socket is closed with
   * 1011, and only then is the session ended; no normal closure follows.
   * The handler raises exactly when `__aexit__` or that close does.
   */
  lemma PumpErrorClosesWithInternalError(callConnectionId: Option<string>, script: seq<ClientStep>, open: OpenOutcome, faults: TeardownFaults)
    requires open.Opens? && Pump(script, true).ending.Raised?
    ensures var effects := EndpointRun(callConnectionId, script, open, faults).effects;
      var last := [UnexpectedException(Pump(script, true).ending.failure), InternalError, ExitSession] +
        (if faults.exitFails then [] else [CancelTask]);
      |effects| >= |last| && effects[|effects| - |last|..] == last
    ensures NormalClosure !in EndpointRun(callConnectionId, script, open, faults).effects
    ensures EndpointRun(callConnectionId, script, open, faults).ending.Raised? <==> faults.exitFails || faults.closeFails
  {
    PumpOnlyForwardsOrWarns(script, true);
    FrontCounts(Preamble(callConnectionId), open, Pump(script, true).effects);
    PumpErrorAfterOpen(Preamble(callConnectionId) + CommunicationHandler.InitEffects(open), Pump(script, true), faults);
  }

  /** PumpErrorClosesWithInternalError for any calls made before the teardown. */
  lemma PumpErrorAfterOpen(front: seq<Effect>, pump: Run, faults: TeardownFaults)
    requires pump.ending.Raised? && NormalClosure !in front + pump.effects
    ensures var effects := AfterOpen(front, pump, faults).effects;
      var last := [UnexpectedException(pump.ending.failure), InternalError, ExitSession] +
        (if faults.exitFails then [] else [CancelTask]);
      |effects| >= |last| && effects[|effects| - |last|..] == last
    ensures NormalClosure !in AfterOpen(front, pump, faults).effects
  {
    var tail := Teardown(pump.ending, faults).effects;
    TeardownFacts(pump.ending, faults);
    assert AfterOpen(front, pump, faults).effects == (front + pump.effects) + tail;
  }

  /**
   * When the pump returns and `__aexit__` returns, the session is exited
   * first and the socket is then closed with 1000.
   */
  lemma PumpReturnClosesNormally(callConnectionId: Option<string>, script: seq<ClientStep>, open: OpenOutcome, faults: TeardownFaults)
    requires open.Opens? && Pump(script, true).ending.Returned? && !faults.exitFails
    ensures var effects := EndpointRun(callConnectionId, script, open, faults).effects;
      |effects| >= 3 && effects[|effects| - 3..] == [ExitSession, CancelTask, NormalClosure]
    ensures InternalError !in EndpointRun(callConnectionId, script, open, faults).effects
    ensures forall e <- EndpointRun(callConnectionId, script, open, faults).effects :: !e.UnexpectedException?
  {
    PumpOnlyForwardsOrWarns(script, true);
  }

  /**
   * A call whose socket is no longer connected at the loop test: the session
   * is exited once and the socket closed normally. (A client that disconnects
   * while the handler awaits a frame makes the receive raise instead, which
   * is the internal-error path.)
   */
  lemma ScenarioNormalCallEnd(id: string, context: nat, session: nat, task: nat)
    requires id != ""
    ensures EndpointRun(Some(id), [NotConnected], Opens(context, session, task), TeardownFaults(false, false)) ==
      Run([Accept, RunSession, EnterSession, CreateTask, ExitSession, CancelTask, NormalClosure], Returned)
  {
  }

  /** The same call when `__aexit__` raises: the handler stops right after the exit attempt. */
  lemma ScenarioExitRaises(id: string, context: nat, session: nat, task: nat, closeFails: bool)
    requires id != ""
    ensures EndpointRun(Some(id), [NotConnected], Opens(context, session, task), TeardownFaults(true, closeFails)) ==
      Run([Accept, RunSession, EnterSession, CreateTask, ExitSession], Raised(ExitFailed))
  {
  }
}

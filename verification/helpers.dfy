/**
 * The library's utilities: token estimation, message validation, the
 * Markdown and JSON conversation exporters, and the attempt counting of
 * the async retry wrapper.
 */
module Helpers {
  import opened Wrappers
  import opened Json
  import opened Interfaces
  import opened Text

  // ---------------------------------------------------------------- tokens

  /** `estimate_tokens(text)`: about four characters per token, rounded down. */
  function EstimateTokens(text: string): (r: nat)
    ensures 4 * r <= |text| < 4 * r + 4
  {
    |text| / 4
  }

  /** The estimate for a conversation: each message's content plus ten tokens of overhead. */
  function ConversationTokens(messages: seq<Message>): nat {
    if messages == [] then 0
    else ConversationTokens(messages[..|messages| - 1]) + EstimateTokens(messages[|messages| - 1].content) + 10
  }

  /** The total length of the messages' contents. */
  function ContentLength(messages: seq<Message>): nat {
    if messages == [] then 0
    else ContentLength(messages[..|messages| - 1]) + |messages[|messages| - 1].content|
  }

  /** `estimate_conversation_tokens(messages)`. */
  method EstimateConversationTokens(messages: seq<Message>) returns (total: nat)
    ensures total == ConversationTokens(messages)
  {
    total := 0;
    var i := 0;
    while i < |messages|
      invariant 0 <= i <= |messages|
      invariant total == ConversationTokens(messages[..i])
    {
      assert messages[..i + 1][..i] == messages[..i];
      total := total + EstimateTokens(messages[i].content);
      total := total + 10;
      i := i + 1;
    }
    assert messages[..i] == messages;
  }

  /** The conversation estimate is at least ten per message and at most a quarter of the content beyond that. */
  lemma {:induction false} ConversationTokensBounds(messages: seq<Message>)
    ensures 10 * |messages| <= ConversationTokens(messages)
    ensures 4 * (ConversationTokens(messages) - 10 * |messages|) <= ContentLength(messages)
  {
    if messages != [] {
      ConversationTokensBounds(messages[..|messages| - 1]);
    }
  }

  /** The conversation estimate adds up over concatenated conversations. */
  lemma {:induction false} ConversationTokensAppend(a: seq<Message>, b: seq<Message>)
    ensures ConversationTokens(a + b) == ConversationTokens(a) + ConversationTokens(b)
  {
    if b == [] {
      assert a + b == a;
    } else {
      assert (a + b)[..|a + b| - 1] == a + b[..|b| - 1];
      ConversationTokensAppend(a, b[..|b| - 1]);
    }
  }

  // ------------------------------------------------------------ validation

  const IdRequired := "Message ID is required"
  const ContentRequired := "Message content is required"
  const TimestampRequired := "Message timestamp is required"

  /** The position of an error in the fixed reporting order. */
  function ErrorRank(e: string): nat {
    if e == IdRequired then 0 else if e == ContentRequired then 1 else 2
  }

  /**
   * `validate_message(message)`: one error per missing id, content and
   * timestamp, in that order; the message's type is always a MessageType
   * here, so the type check never reports.
   */
  function MessageErrors(m: Message): (r: seq<string>)
    ensures IdRequired in r <==> m.id == ""
    ensures ContentRequired in r <==> m.content == ""
    ensures TimestampRequired in r <==> m.timestamp.None?
    ensures forall e <- r :: e in {IdRequired, ContentRequired, TimestampRequired}
    ensures forall i, j :: 0 <= i < j < |r| ==> ErrorRank(r[i]) < ErrorRank(r[j])
    ensures r == [] <==> m.id != "" && m.content != "" && m.timestamp.Some?
  {
    (if m.id == "" then [IdRequired] else []) +
    (if m.content == "" then [ContentRequired] else []) +
    (if m.timestamp.None? then [TimestampRequired] else [])
  }

  /** The conversation-level form of one message's errors. */
  function Numbered(i: nat, errors: seq<string>): (r: seq<string>)
    ensures |r| == |errors|
    ensures forall k :: 0 <= k < |r| ==> r[k] == "Message " + NatToString(i) + ": " + errors[k]
  {
    if errors == [] then [] else Numbered(i, errors[..|errors| - 1]) + ["Message " + NatToString(i) + ": " + errors[|errors| - 1]]
  }

  /** Every message's errors, numbered by position and in order. */
  function ConversationErrors(messages: seq<Message>): seq<string> {
    if messages == [] then []
    else ConversationErrors(messages[..|messages| - 1]) + Numbered(|messages| - 1, MessageErrors(messages[|messages| - 1]))
  }

  /** `validate_conversation(messages)`. */
  method ValidateConversation(messages: seq<Message>) returns (errors: seq<string>)
    ensures errors == ConversationErrors(messages)
  {
    errors := [];
    var i := 0;
    while i < |messages|
      invariant 0 <= i <= |messages|
      invariant errors == ConversationErrors(messages[..i])
    {
      ConversationErrorsStep(messages, i);
      errors := AppendNumbered(errors, i, MessageErrors(messages[i]));
      i := i + 1;
    }
    assert messages[..i] == messages;
  }

  /** The inner loop of `validate_conversation`: one message's errors, numbered, appended in order. */
  method AppendNumbered(errors: seq<string>, i: nat, messageErrors: seq<string>) returns (r: seq<string>)
    ensures r == errors + Numbered(i, messageErrors)
  {
    r := errors;
    var j := 0;
    while j < |messageErrors|
      invariant 0 <= j <= |messageErrors|
      invariant r == errors + Numbered(i, messageErrors[..j])
    {
      assert messageErrors[..j + 1][..j] == messageErrors[..j];
      r := r + ["Message " + NatToString(i) + ": " + messageErrors[j]];
      j := j + 1;
    }
    assert messageErrors[..j] == messageErrors;
  }

  /** A conversation has no errors exactly when every one of its messages has none. */
  lemma {:induction false} ConversationValidIff(messages: seq<Message>)
    ensures ConversationErrors(messages) == [] <==> forall i :: 0 <= i < |messages| ==> MessageErrors(messages[i]) == []
  {
    if messages != [] {
      var init := messages[..|messages| - 1];
      var last := messages[|messages| - 1];
      ConversationValidIff(init);
      var tail := Numbered(|messages| - 1, MessageErrors(last));
      assert ConversationErrors(messages) == ConversationErrors(init) + tail;
      assert tail == [] <==> MessageErrors(last) == [];
      if forall i :: 0 <= i < |messages| ==> MessageErrors(messages[i]) == [] {
        forall i | 0 <= i < |init| ensures MessageErrors(init[i]) == [] { assert init[i] == messages[i]; }
      }
      if ConversationErrors(messages) == [] {
        assert |ConversationErrors(init)| + |tail| == 0;
        assert ConversationErrors(init) == [] && MessageErrors(last) == [];
        forall i | 0 <= i < |messages| ensures MessageErrors(messages[i]) == [] {
          if i < |init| {
            assert MessageErrors(init[i]) == [];
            assert messages[i] == init[i];
          } else {
            assert messages[i] == last;
          }
        }
      }
    }
  }

  /** Validating one more message appends exactly that message's numbered errors. */
  lemma ConversationErrorsStep(messages: seq<Message>, i: nat)
    requires i < |messages|
    ensures ConversationErrors(messages[..i + 1]) == ConversationErrors(messages[..i]) + Numbered(i, MessageErrors(messages[i]))
  {
    assert messages[..i + 1][..i] == messages[..i];
  }

  // -------------------------------------------------------------- Markdown

  /** The six header lines. */
  function MarkdownHeader(count: nat, exportedOn: string): seq<string> {
    ["# Conversation Export", "Exported on: " + exportedOn, "Total messages: " + NatToString(count), "", "---", ""]
  }

  /** The lines one message contributes: a heading, its content, a blank line; none for ERROR and STATUS. */
  function MessageLines(m: Message, clock: string): (r: seq<string>)
    ensures |r| == (if Conversational(m.msgType) then 3 else 0)
    ensures |r| == 3 ==> r[2] == ""
    ensures m.msgType == System ==> r[1] == "_" + m.content + "_"
    ensures (m.msgType == User || m.msgType == Assistant) ==> r[1] == m.content
  {
    match m.msgType
    case User => ["## User (" + clock + ")", m.content, ""]
    case Assistant => ["## Assistant (" + clock + ")", m.content, ""]
    case System => ["## System (" + clock + ")", "_" + m.content + "_", ""]
    case _ => []
  }

  /** The body of the export; `None` when a message has no timestamp, where `strftime` raises. */
  function MarkdownBody(messages: seq<Message>): Option<seq<string>> {
    if messages == [] then Some([])
    else
      var last := messages[|messages| - 1];
      match MarkdownBody(messages[..|messages| - 1])
      case None => None
      case Some(lines) =>
        if last.timestamp.None? then None else Some(lines + MessageLines(last, last.timestamp.value.clock))
  }

  /** `"\n".join(lines)`. */
  function JoinLines(lines: seq<string>): string {
    if lines == [] then ""
    else if |lines| == 1 then lines[0]
    else JoinLines(lines[..|lines| - 1]) + "\n" + lines[|lines| - 1]
  }

  /** `to_markdown(messages)`, with the export time's rendering passed in. */
  method ToMarkdown(messages: seq<Message>, exportedOn: string) returns (r: Option<string>)
    ensures r.Some? <==> MarkdownBody(messages).Some?
    ensures r.Some? ==> r.value == JoinLines(MarkdownHeader(|messages|, exportedOn) + MarkdownBody(messages).value)
  {
    var lines := MarkdownHeader(|messages|, exportedOn);
    var i := 0;
    while i < |messages|
      invariant 0 <= i <= |messages|
      invariant MarkdownBody(messages[..i]).Some?
      invariant lines == MarkdownHeader(|messages|, exportedOn) + MarkdownBody(messages[..i]).value
    {
      MarkdownBodyStep(messages, i);
      var m := messages[i];
      if m.timestamp.None? {
        MarkdownBodyNonePersists(messages, i + 1);
        return None;
      }
      ghost var body := MarkdownBody(messages[..i]).value;
      lines := lines + MessageLines(m, m.timestamp.value.clock);
      assert lines == MarkdownHeader(|messages|, exportedOn) + (body + MessageLines(m, m.timestamp.value.clock));
      i := i + 1;
    }
    assert messages[..i] == messages;
    r := Some(JoinLines(lines));
  }

  /** The body over one more message, unfolded once. */
  lemma MarkdownBodyStep(messages: seq<Message>, i: nat)
    requires i < |messages| && MarkdownBody(messages[..i]).Some?
    ensures MarkdownBody(messages[..i + 1]) ==
      if messages[i].timestamp.None? then None
      else Some(MarkdownBody(messages[..i]).value + MessageLines(messages[i], messages[i].timestamp.value.clock))
  {
    assert messages[..i + 1][..i] == messages[..i];
  }

  /** Once a message without a timestamp is reached, the export fails however the list continues. */
  lemma {:induction false} MarkdownBodyNonePersists(messages: seq<Message>, k: nat)
    requires k <= |messages| && MarkdownBody(messages[..k]).None?
    ensures MarkdownBody(messages).None?
  {
    if k < |messages| {
      var init := messages[..|messages| - 1];
      assert init[..k] == messages[..k];
      MarkdownBodyNonePersists(init, k);
    } else {
      assert messages[..k] == messages;
    }
  }

  /** The export exists exactly when every message has a timestamp, and has six header lines plus three per exported message. */
  lemma {:induction false} MarkdownShape(messages: seq<Message>)
    ensures MarkdownBody(messages).Some? <==> forall i :: 0 <= i < |messages| ==> messages[i].timestamp.Some?
    ensures MarkdownBody(messages).Some? ==> |MarkdownBody(messages).value| == 3 * ConversationalCount(messages)
  {
    if messages != [] {
      var init := messages[..|messages| - 1];
      MarkdownShape(init);
      if forall i :: 0 <= i < |messages| ==> messages[i].timestamp.Some? {
        forall i | 0 <= i < |init| ensures init[i].timestamp.Some? { assert init[i] == messages[i]; }
      }
      if MarkdownBody(messages).Some? {
        forall i | 0 <= i < |messages| ensures messages[i].timestamp.Some? {
          if i < |init| { assert messages[i] == init[i]; }
        }
      }
    }
  }

  // ------------------------------------------------------------------ JSON

  /** The messages' dictionaries, in order; `None` when one of them cannot be serialised. */
  function MessageDicts(messages: seq<Message>): (r: Option<seq<Json>>)
    ensures r.Some? ==> |r.value| == |messages|
    ensures r.Some? ==> forall i :: 0 <= i < |messages| ==> ToDict(messages[i]).Some? && r.value[i] == JObj(ToDict(messages[i]).value)
    ensures r.None? ==> exists i :: 0 <= i < |messages| && messages[i].timestamp.None?
  {
    if messages == [] then Some([])
    else
      var last := messages[|messages| - 1];
      var init := messages[..|messages| - 1];
      match MessageDicts(init)
      case None =>
        assert exists i :: 0 <= i < |init| && init[i].timestamp.None?;
        var i :| 0 <= i < |init| && init[i].timestamp.None?;
        assert messages[i] == init[i];
        None
      case Some(items) =>
        match ToDict(last)
        case None =>
          assert messages[|messages| - 1].timestamp.None?;
          None
        case Some(d) =>
          assert messages == init + [last];
          DictsSnoc(init, last, items, d);
          Some(items + [JObj(d)])
  }

  /** One more message whose dictionary exists extends the dictionaries index by index. */
  lemma DictsSnoc(init: seq<Message>, last: Message, items: seq<Json>, d: map<string, Json>)
    requires |items| == |init|
    requires forall i :: 0 <= i < |init| ==> ToDict(init[i]).Some? && items[i] == JObj(ToDict(init[i]).value)
    requires ToDict(last) == Some(d)
    ensures forall i :: 0 <= i < |init| + 1 ==>
      ToDict((init + [last])[i]).Some? && (items + [JObj(d)])[i] == JObj(ToDict((init + [last])[i]).value)
  {
    forall i | 0 <= i < |init| + 1
      ensures ToDict((init + [last])[i]).Some? && (items + [JObj(d)])[i] == JObj(ToDict((init + [last])[i]).value)
    {
      if i < |init| {
        assert (init + [last])[i] == init[i] && (items + [JObj(d)])[i] == items[i];
      } else {
        assert (init + [last])[i] == last && (items + [JObj(d)])[i] == JObj(d);
      }
    }
  }

  /** `to_json(messages)` as the structure it serialises, with the export time passed in. */
  function ToJson(messages: seq<Message>, exportedAt: Timestamp): (r: Option<Json>)
    ensures r.Some? <==> MessageDicts(messages).Some?
    ensures r.Some? ==> r.value.JObj? && r.value.fields.Keys == {"conversation", "exported_at", "message_count"}
    ensures r.Some? ==> r.value.fields["message_count"] == JInt(|messages|)
    ensures r.Some? ==> r.value.fields["conversation"] == JArr(MessageDicts(messages).value)
  {
    match MessageDicts(messages)
    case None => None
    case Some(items) =>
      Some(JObj(map[
        "conversation" := JArr(items),
        "exported_at" := JStr(exportedAt.iso),
        "message_count" := JInt(|messages|)]))
  }

  /** Two conversations with the same export agree message by message on id, type and content. */
  lemma ToJsonDeterminesMessages(a: seq<Message>, b: seq<Message>, t: Timestamp)
    requires ToJson(a, t).Some? && ToJson(a, t) == ToJson(b, t)
    ensures |a| == |b|
    ensures forall i :: 0 <= i < |a| ==> a[i].id == b[i].id && a[i].msgType == b[i].msgType && a[i].content == b[i].content
  {
    var items := MessageDicts(a).value;
    assert JArr(items) == JArr(MessageDicts(b).value);
    forall i | 0 <= i < |a| ensures a[i].id == b[i].id && a[i].msgType == b[i].msgType && a[i].content == b[i].content {
      assert items[i] == JObj(ToDict(a[i]).value) == JObj(ToDict(b[i]).value);
      ToDictInjective(a[i], b[i]);
    }
  }

  // ----------------------------------------------------------------- retry

  /** How one call of the wrapped function ends. */
  datatype Attempt =
    | Succeeds(value: int)
    | FailsRetryable(error: nat)   // an exception of one of the configured types
    | FailsOther(error: nat)       // any other exception, which is not caught

  datatype RetryResult = Returned(value: int) | Raised(error: nat) | RaisedNone

  /** What the wrapper does: its result, how many calls it made and how many times it slept. */
  datatype RetryRun = RetryRun(result: RetryResult, calls: nat, sleeps: nat)

  /** The attempts from `attempt` on, with `last` the exception the previous attempt caught. */
  function Retry(outcomes: nat -> Attempt, maxAttempts: int, attempt: nat, last: Option<nat>): RetryRun
    decreases if maxAttempts > attempt then maxAttempts - attempt else 0
  {
    if attempt >= maxAttempts then RetryRun(if last.None? then RaisedNone else Raised(last.value), 0, 0)
    else
      match outcomes(attempt)
      case Succeeds(v) => RetryRun(Returned(v), 1, 0)
      case FailsOther(e) => RetryRun(Raised(e), 1, 0)
      case FailsRetryable(e) =>
        if attempt < maxAttempts - 1 then
          var rest := Retry(outcomes, maxAttempts, attempt + 1, Some(e));
          RetryRun(rest.result, rest.calls + 1, rest.sleeps + 1)
        else RetryRun(Raised(e), 1, 0)
  }

  class AsyncRetry {
    const maxAttempts: int

    constructor(maxAttempts: int)
      ensures this.maxAttempts == maxAttempts
    {
      this.maxAttempts := maxAttempts;
    }

    /** `__call__(func)`: the delays themselves are left out; only the calls and sleeps are counted. */
    method Call(outcomes: nat -> Attempt) returns (result: RetryResult, calls: nat, sleeps: nat)
      ensures RetryRun(result, calls, sleeps) == Retry(outcomes, maxAttempts, 0, None)
    {
      var last: Option<nat> := None;
      calls, sleeps := 0, 0;
      var attempt: nat := 0;
      while attempt < maxAttempts
        invariant attempt == calls
        invariant sleeps == attempt && (last.Some? <==> attempt > 0)
        invariant var rest := Retry(outcomes, maxAttempts, attempt, last);
          Retry(outcomes, maxAttempts, 0, None) == RetryRun(rest.result, rest.calls + calls, rest.sleeps + sleeps)
        decreases maxAttempts - attempt
      {
        calls := calls + 1;
        match outcomes(attempt) {
          case Succeeds(v) =>
            return Returned(v), calls, sleeps;
          case FailsOther(e) =>
            return Raised(e), calls, sleeps;
          case FailsRetryable(e) =>
            last := Some(e);
            if attempt < maxAttempts - 1 {
              sleeps := sleeps + 1;
            } else {
              return Raised(e), calls, sleeps;
            }
        }
        attempt := attempt + 1;
      }
      result := if last.None? then RaisedNone else Raised(last.value);
    }
  }

  /**
   * The wrapper calls the function at most `max_attempts` times, and sleeps
   * only between calls; with no attempts at all it raises `None`, which
   * Python turns into a TypeError.
   */
  lemma {:induction false} RetryCounts(outcomes: nat -> Attempt, maxAttempts: int, attempt: nat, last: Option<nat>)
    ensures var run := Retry(outcomes, maxAttempts, attempt, last);
      && run.calls <= (if maxAttempts > attempt then maxAttempts - attempt else 0)
      && (run.calls == 0 <==> attempt >= maxAttempts)
      && (run.calls > 0 ==> run.sleeps == run.calls - 1)
      && (run.calls == 0 && last.None? ==> run.result == RaisedNone)
    decreases if maxAttempts > attempt then maxAttempts - attempt else 0
  {
    if attempt < maxAttempts && outcomes(attempt).FailsRetryable? && attempt < maxAttempts - 1 {
      RetryCounts(outcomes, maxAttempts, attempt + 1, Some(outcomes(attempt).error));
    }
  }

  /** The first attempt that does not fail retryably decides the result, after that many calls. */
  lemma {:induction false} RetryFirstDecisive(outcomes: nat -> Attempt, maxAttempts: int, attempt: nat, last: Option<nat>, k: nat)
    requires attempt <= k < maxAttempts && !outcomes(k).FailsRetryable?
    requires forall j :: attempt <= j < k ==> outcomes(j).FailsRetryable?
    ensures var run := Retry(outcomes, maxAttempts, attempt, last);
      && run.calls == k - attempt + 1 && run.sleeps == k - attempt
      && run.result == (if outcomes(k).Succeeds? then Returned(outcomes(k).value) else Raised(outcomes(k).error))
    decreases k - attempt
  {
    if attempt < k {
      RetryFirstDecisive(outcomes, maxAttempts, attempt + 1, Some(outcomes(attempt).error), k);
    }
  }

  /** When every attempt fails retryably, the last exception is re-raised after `max_attempts` calls. */
  lemma {:induction false} RetryAllFail(outcomes: nat -> Attempt, maxAttempts: int, attempt: nat, last: Option<nat>)
    requires attempt < maxAttempts
    requires forall j :: attempt <= j < maxAttempts ==> outcomes(j).FailsRetryable?
    ensures var run := Retry(outcomes, maxAttempts, attempt, last);
      && run.calls == maxAttempts - attempt && run.sleeps == maxAttempts - attempt - 1
      && run.result == Raised(outcomes(maxAttempts - 1).error)
    decreases maxAttempts - attempt
  {
    if attempt < maxAttempts - 1 {
      RetryAllFail(outcomes, maxAttempts, attempt + 1, Some(outcomes(attempt).error));
    }
  }
}

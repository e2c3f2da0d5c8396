/**
 * The LM Studio backend of the task runner (task_runner_app/llm.py), without
 * its HTTP plumbing: the protocol check it applies to replies, the one-shot
 * retry with a protocol reminder, the message payload, and the handling of
 * server-sent-event lines when streaming, with the final-chunk rule.
 */
module LmStudio {
  import opened Wrappers
  import opened Json
  import opened Messages
  import opened PyText
  import Outputs

  const ProtocolReminder: string :=
    "Your response did not follow the required JSON protocol. " +
    "Respond ONLY with a JSON object of the form " +
    "{\"type\":\"tool_call\",\"tool_name\":\"...\",\"args\":{...}} " +
    "or {\"type\":\"final\",\"content\":\"...\"}."

  // ---------------------------------------------------------------------------
  // The protocol check

  /**
   * `_is_protocol_compliant`: a JSON object tagged `tool_call` whose
   * `tool_name` is a string and whose `args` (an object when absent) is an
   * object, or tagged `final` with a `content` key.
   */
  predicate IsProtocolCompliant(c: Codec, raw: string)
  {
    match c.decode(raw)
    case None => false
    case Some(data) =>
      data.JObj? &&
      var f := data.fields;
      var kind := Get(f, "type", JNull);
      if kind == JStr("tool_call") then Get(f, "tool_name", JNull).JStr? && Get(f, "args", JObj(map[])).JObj?
      else if kind == JStr("final") then "content" in f
      else false
  }

  /**
   * The protocol check is looser than the parser on names and stricter on `args`: a
   * reply the parser reads as a tool call is compliant exactly when its `args`
   * are not an explicit null.
   */
  lemma ParsedToolCallCompliance(c: Codec, raw: string)
    requires Outputs.ParseOutput(c, raw).ToolCall?
    ensures c.decode(raw).Some? && c.decode(raw).value.JObj?
    ensures IsProtocolCompliant(c, raw) <==> Get(c.decode(raw).value.fields, "args", JObj(map[])) != JNull
  {
  }

  /** A tool call with a string name that is blank is compliant, yet the parser falls back to `Final(raw)`. */
  lemma BlankNameCompliant(c: Codec, raw: string, f: map<string, Json>, name: string)
    requires c.decode(raw) == Some(JObj(f))
    requires Get(f, "type", JNull) == JStr("tool_call") && Get(f, "tool_name", JNull) == JStr(name)
    requires Get(f, "args", JObj(map[])).JObj?
    requires IsBlank(name)
    ensures IsProtocolCompliant(c, raw)
    ensures Outputs.ParseOutput(c, raw) == Outputs.Final(raw)
  {
    StripEmptyIffBlank(name);
  }

  /**
   * A reply the protocol check rejects is one the parser also gives up on, answering
   * `Final(raw)`, except for a tool call with explicit null `args`, which the
   * parser accepts with empty arguments.
   */
  lemma NonCompliantFallsBack(c: Codec, raw: string)
    requires !IsProtocolCompliant(c, raw)
    ensures Outputs.ParseOutput(c, raw) == Outputs.Final(raw) ||
      (Outputs.ParseOutput(c, raw).ToolCall? && Outputs.ParseOutput(c, raw).args == map[] &&
       Get(c.decode(raw).value.fields, "args", JObj(map[])) == JNull)
  {
  }

  /** A compliant `final` reply is read by the parser from its `content`, never as the whole text. */
  lemma CompliantFinalContent(c: Codec, raw: string, f: map<string, Json>)
    requires c.decode(raw) == Some(JObj(f)) && Get(f, "type", JNull) == JStr("final")
    ensures IsProtocolCompliant(c, raw) <==> "content" in f
    ensures IsProtocolCompliant(c, raw) ==> Outputs.ParseOutput(c, raw) == Outputs.Final(Outputs.ContentText(c, f["content"]))
  {
  }

  /** Whatever the agent's structured outputs serialise to passes the protocol check. */
  lemma EncodedOutputCompliant(c: Codec, o: Outputs.Output)
    requires RoundTrips(c, Outputs.EncodeOutput(o))
    ensures IsProtocolCompliant(c, c.encode(Outputs.EncodeOutput(o)))
  {
    assert c.decode(c.encode(Outputs.EncodeOutput(o))) == Some(Outputs.EncodeOutput(o));
  }

  // ---------------------------------------------------------------------------
  // Request payloads

  /** `_message_to_dict`: role and content always, `name` only when it is a non-empty string. */
  function MessageToDict(m: Message): (d: map<string, string>)
    ensures "role" in d && d["role"] == RoleName(m.role)
    ensures "content" in d && d["content"] == m.content
    ensures "name" in d <==> m.name.Some? && m.name.value != ""
    ensures "name" in d ==> d["name"] == m.name.value
    ensures d.Keys <= {"role", "content", "name"}
  {
    var payload := map["role" := RoleName(m.role), "content" := m.content];
    if m.name.Some? && m.name.value != "" then payload["name" := m.name.value] else payload
  }

  /** The `messages` of a request body: one dictionary per message, in order. */
  function Dicts(conversation: seq<Message>): (ds: seq<map<string, string>>)
    ensures |ds| == |conversation|
    ensures forall i :: 0 <= i < |ds| ==> ds[i] == MessageToDict(conversation[i])
  {
    seq(|conversation|, i requires 0 <= i < |conversation| => MessageToDict(conversation[i]))
  }

  /** A request body: its messages and whether it asks for a stream (the model name is not modelled). */
  datatype Payload = Payload(messages: seq<map<string, string>>, stream: bool)

  /** What can go wrong, as the exceptions the backend raises. */
  datatype BackendError =
    | RequestFailed              // HTTP failure or a response without message content (RuntimeError)
    | InvalidEventJson(data: string)   // "LM Studio stream event was not valid JSON: " + data
    | MissingDelta               // "LM Studio stream event was missing delta content"
    | NoGetMethod                // AttributeError: `.get` on something that is not an object
    | JoinTypeError              // TypeError: a streamed delta that is not text, met by "".join

  // ---------------------------------------------------------------------------
  // The retry rule

  /** The conversation the retry sends: the original one with the reminder appended last. */
  function WithReminder(conversation: seq<Message>): (r: seq<Message>)
    ensures |r| == |conversation| + 1 && r[..|conversation|] == conversation
    ensures r[|conversation|] == Message(System, ProtocolReminder, None)
  {
    conversation + [Message(System, ProtocolReminder, None)]
  }

  /** The reply a call produced and the conversations it sent, in order. */
  datatype Exchange = Exchange(result: Result<string, BackendError>, sent: seq<seq<Message>>)

  /**
   * `_ensure_protocol_with_retry`: compliant text is kept and nothing is sent;
   * otherwise exactly one more request goes out, with the reminder, and its
   * reply is taken as it is.
   */
  function Retry(c: Codec, reply: seq<Message> -> Result<string, BackendError>, raw: string, conversation: seq<Message>): Exchange
  {
    if IsProtocolCompliant(c, raw) then Exchange(Success(raw), [])
    else Exchange(reply(WithReminder(conversation)), [WithReminder(conversation)])
  }

  /** `generate`: one request, then the retry rule on its reply. */
  function GenerateSpec(c: Codec, reply: seq<Message> -> Result<string, BackendError>, conversation: seq<Message>): Exchange
  {
    match reply(conversation)
    case Failure(e) => Exchange(Failure(e), [conversation])
    case Success(raw) =>
      var retry := Retry(c, reply, raw, conversation);
      Exchange(retry.result, [conversation] + retry.sent)
  }

  /**
   * A generation sends the conversation, and at most once more the same
   * conversation with the reminder last; a compliant first reply is returned
   * unchanged, anything else comes from the second request, unchecked.
   */
  lemma GenerateAtMostOneRetry(c: Codec, reply: seq<Message> -> Result<string, BackendError>, conversation: seq<Message>)
    ensures var x := GenerateSpec(c, reply, conversation);
      && 1 <= |x.sent| <= 2 && x.sent[0] == conversation
      && (|x.sent| == 2 <==> reply(conversation).Success? && !IsProtocolCompliant(c, reply(conversation).value))
      && (|x.sent| == 2 ==> x.sent[1] == WithReminder(conversation) && x.result == reply(WithReminder(conversation)))
      && (|x.sent| == 1 ==> x.result == reply(conversation))
  {
  }

  /** In the retry's body the last message is a `system` message carrying the reminder. */
  lemma RetryPayloadEndsWithReminder(conversation: seq<Message>)
    ensures var ds := Dicts(WithReminder(conversation));
      |ds| > 0 && ds[|ds| - 1]["role"] == "system" && ds[|ds| - 1]["content"] == ProtocolReminder
      && "name" !in ds[|ds| - 1]
  {
    var ds := Dicts(WithReminder(conversation));
    assert ds[|ds| - 1] == MessageToDict(Message(System, ProtocolReminder, None));
  }

  /**
   * The retry test: a first reply that is not JSON, then a compliant one; the
   * second is returned and two requests were sent.
   */
  lemma RetryScenario(c: Codec, reply: seq<Message> -> Result<string, BackendError>, conversation: seq<Message>, second: string)
    requires reply(conversation) == Success("not json") && c.decode("not json") == None
    requires reply(WithReminder(conversation)) == Success(second)
    ensures GenerateSpec(c, reply, conversation) == Exchange(Success(second), [conversation, WithReminder(conversation)])
  {
  }

  // ---------------------------------------------------------------------------
  // Streaming

  /**
   * `event["choices"][0]` evaluates: the event is an object with `choices`,
   * and that is a non-empty list or a non-empty string.
   */
  predicate HasFirstChoice(event: Json)
  {
    event.JObj? && "choices" in event.fields &&
    match event.fields["choices"]
    case JArr(items) => items != []
    case JStr(s) => s != ""
    case _ => false
  }

  /** The first choice is an object, and so is its `delta` (`{}` when absent). */
  predicate DeltaReadable(event: Json)
  {
    HasFirstChoice(event) && event.fields["choices"].JArr? && event.fields["choices"].items[0].JObj? &&
    Get(event.fields["choices"].items[0].fields, "delta", JObj(map[])).JObj?
  }

  /** The fields of the first choice's delta. */
  function DeltaFields(event: Json): map<string, Json>
    requires DeltaReadable(event)
  {
    Get(event.fields["choices"].items[0].fields, "delta", JObj(map[])).fields
  }

  /** `event["choices"][0].get("delta", {}).get("content")`, with the exceptions it can raise. */
  function DeltaContent(event: Json): (r: Result<Option<Json>, BackendError>)
    ensures r == Failure(MissingDelta) <==> !HasFirstChoice(event)
    ensures r == Failure(NoGetMethod) <==> HasFirstChoice(event) && !DeltaReadable(event)
    ensures r.Success? <==> DeltaReadable(event)
    ensures DeltaReadable(event) ==>
      r.value == (if "content" in DeltaFields(event) && DeltaFields(event)["content"] != JNull
                  then Some(DeltaFields(event)["content"]) else None)
    ensures DeltaReadable(event) && "delta" !in event.fields["choices"].items[0].fields ==> r == Success(None)
  {
    if !event.JObj? || "choices" !in event.fields then Failure(MissingDelta)    // TypeError, KeyError
    else
      var choices := event.fields["choices"];
      var first: Result<Json, BackendError> :=
        match choices
        case JArr(items) => if items == [] then Failure(MissingDelta) else Success(items[0])   // IndexError
        case JStr(s) => if s == "" then Failure(MissingDelta) else Failure(NoGetMethod)     // a one-character string has no `.get`
        case _ => Failure(MissingDelta);                                                   // KeyError on an object, TypeError otherwise
      match first
      case Failure(e) => Failure(e)
      case Success(choice) =>
        if !choice.JObj? then Failure(NoGetMethod)
        else
          var delta := Get(choice.fields, "delta", JObj(map[]));
          if !delta.JObj? then Failure(NoGetMethod)
          else
            var content := Get(delta.fields, "content", JNull);
            if content == JNull then Success(None) else Success(Some(content))
  }

  /** What one line of the event stream amounts to. */
  datatype LineKind = Skip | Done | Delta(content: Json) | Bad(error: BackendError)

  /** The text after `data:`, stripped, for a line that has that prefix. */
  function DataOf(line: string): (r: Option<string>)
    ensures r.Some? <==> StartsWith(line, "data:")
    ensures r.Some? ==> r.value == Strip(line[5..])
  {
    if line == [] || !StartsWith(line, "data:") then None else Some(Strip(line[5..]))
  }

  /** What one line of the event stream amounts to. */
  function ClassifyLine(c: Codec, line: string): LineKind
  {
    match DataOf(line)
    case None => Skip
    case Some(data) => ClassifyData(c, data)
  }

  /** What the stripped text after `data:` amounts to. */
  function ClassifyData(c: Codec, data: string): LineKind
  {
      if data == [] then Skip
      else if data == "[DONE]" then Done
      else
        match c.decode(data)
        case None => Bad(InvalidEventJson(data))
        case Some(event) =>
          match DeltaContent(event)
          case Failure(e) => Bad(e)
          case Success(None) => Skip
          case Success(Some(content)) => Delta(content)
  }

  /** Empty lines, lines without the `data:` prefix and blank payloads are skipped. */
  lemma SkippedLines(c: Codec, line: string)
    ensures line == [] ==> ClassifyLine(c, line) == Skip
    ensures !StartsWith(line, "data:") ==> ClassifyLine(c, line) == Skip
    ensures StartsWith(line, "data:") && IsBlank(line[5..]) ==> ClassifyLine(c, line) == Skip
  {
    if StartsWith(line, "data:") {
      StripEmptyIffBlank(line[5..]);
    }
  }

  datatype ScanEnd = Exhausted | DoneSeen | Failed(error: BackendError)

  /** The deltas a stream yields, in order, and how the reading ended. */
  datatype Scan = Scan(deltas: seq<Json>, end: ScanEnd)

  /** Reading a stream line by line, from what each line amounts to. */
  function ScanKinds(kinds: seq<LineKind>): (s: Scan)
    decreases |kinds|
  {
    if kinds == [] then Scan([], Exhausted)
    else
      match kinds[0]
      case Skip => ScanKinds(kinds[1..])
      case Done => Scan([], DoneSeen)
      case Bad(e) => Scan([], Failed(e))
      case Delta(content) =>
        var rest := ScanKinds(kinds[1..]);
        Scan([content] + rest.deltas, rest.end)
  }

  /** What each line amounts to under a given classification. */
  function Kinds(classify: string -> LineKind, lines: seq<string>): (ks: seq<LineKind>)
    ensures |ks| == |lines|
    ensures forall i :: 0 <= i < |lines| ==> ks[i] == classify(lines[i])
  {
    seq(|lines|, i requires 0 <= i < |lines| => classify(lines[i]))
  }

  /** The classification `stream` applies to each line. */
  function Classifier(c: Codec): string -> LineKind
  {
    line => ClassifyLine(c, line)
  }

  /** The deltas a stream of lines yields, in order, and how the reading ended. */
  function ScanLines(c: Codec, lines: seq<string>): Scan
  {
    ScanKinds(Kinds(Classifier(c), lines))
  }

  /** Classifying a concatenation classifies its parts. */
  lemma KindsAppend(classify: string -> LineKind, a: seq<string>, b: seq<string>)
    ensures Kinds(classify, a + b) == Kinds(classify, a) + Kinds(classify, b)
  {
    assert forall i :: 0 <= i < |a + b| ==> Kinds(classify, a + b)[i] == (Kinds(classify, a) + Kinds(classify, b))[i];
  }

  /**
   * Reading a stream in two parts: the second part is read only when the
   * first ran out without `[DONE]` or an error, and its deltas follow the
   * first part's.
   */
  lemma {:induction false} ScanAppend(a: seq<LineKind>, b: seq<LineKind>)
    ensures ScanKinds(a + b) ==
      var sa := ScanKinds(a);
      if sa.end.Exhausted? then Scan(sa.deltas + ScanKinds(b).deltas, ScanKinds(b).end) else sa
    decreases |a|
  {
    if a == [] {
      assert a + b == b;
    } else {
      assert (a + b)[0] == a[0];
      assert (a + b)[1..] == a[1..] + b;
      ScanAppend(a[1..], b);
      if a[0].Delta? {
        assert [a[0].content] + (ScanKinds(a[1..]).deltas + ScanKinds(b).deltas) ==
               ([a[0].content] + ScanKinds(a[1..]).deltas) + ScanKinds(b).deltas;
      }
    }
  }

  /** A skipped line can be dropped from anywhere in the stream. */
  lemma SkipInvisible(classify: string -> LineKind, a: seq<string>, line: string, b: seq<string>)
    requires classify(line) == Skip
    ensures ScanKinds(Kinds(classify, a + [line] + b)) == ScanKinds(Kinds(classify, a + b))
  {
    KindsAppend(classify, a + [line], b);
    KindsAppend(classify, a, [line]);
    KindsAppend(classify, a, b);
    var ka, kb := Kinds(classify, a), Kinds(classify, b);
    assert Kinds(classify, [line]) == [Skip];
    ScanAppend(ka, [Skip] + kb);
    ScanAppend(ka, kb);
    assert ka + [Skip] + kb == ka + ([Skip] + kb);
    assert ([Skip] + kb)[1..] == kb;
  }

  /** Nothing after a `[DONE]` line is read. */
  lemma DoneEndsStream(classify: string -> LineKind, a: seq<string>, line: string, b: seq<string>)
    requires classify(line) == Done
    ensures ScanKinds(Kinds(classify, a + [line] + b)) == ScanKinds(Kinds(classify, a + [line]))
  {
    KindsAppend(classify, a + [line], b);
    KindsAppend(classify, a, [line]);
    var ka, kb := Kinds(classify, a), Kinds(classify, b);
    assert Kinds(classify, [line]) == [Done];
    ScanAppend(ka, [Done] + kb);
    ScanAppend(ka, [Done]);
    assert ka + [Done] + kb == ka + ([Done] + kb);
  }

  /** `"".join(buffer_parts)`: the text of the deltas, or a TypeError on a delta that is not a string. */
  function Join(deltas: seq<Json>): (r: Option<string>)
    ensures r.None? <==> exists i :: 0 <= i < |deltas| && !deltas[i].JStr?
    decreases |deltas|
  {
    if deltas == [] then Some("")
    else if !deltas[0].JStr? then None
    else
      match Join(deltas[1..])
      case None => None
      case Some(rest) => Some(deltas[0].s + rest)
  }

  /** A single text delta joins to its text. */
  lemma JoinOne(s: string)
    ensures Join([JStr(s)]) == Some(s)
  {
    assert [JStr(s)][1..] == [];
    assert s + "" == s;
  }

  /** Joining a concatenation concatenates the joined texts. */
  lemma {:induction false} JoinAppend(a: seq<Json>, b: seq<Json>, x: string, y: string)
    requires Join(a) == Some(x) && Join(b) == Some(y)
    ensures Join(a + b) == Some(x + y)
    decreases |a|
  {
    if a == [] {
      assert a + b == b && x == "";
      assert x + y == y;
    } else {
      var head, tail := a[0], a[1..];
      var rest := Join(tail).value;
      assert head.JStr? && x == head.s + rest;
      JoinAppend(tail, b, rest, y);
      assert a == [head] + tail;
      assert a + b == [head] + (tail + b);
      JoinCons(head.s, tail + b);
      assert head.s + (rest + y) == x + y;
    }
  }

  lemma JoinCons(head: string, tail: seq<Json>)
    ensures Join([JStr(head)] + tail) == if Join(tail).Some? then Some(head + Join(tail).value) else None
  {
    assert ([JStr(head)] + tail)[1..] == tail;
  }

  /** Two text deltas join to their concatenation. */
  lemma JoinPair(first: string, second: string)
    ensures Join([JStr(first), JStr(second)]) == Some(first + second)
  {
    JoinOne(first);
    JoinOne(second);
    JoinAppend([JStr(first)], [JStr(second)], first, second);
    assert [JStr(first)] + [JStr(second)] == [JStr(first), JStr(second)];
  }

  /**
   * What a consumer of `stream` sees: one chunk per delta, in order, then
   * either the final-flagged chunk's text or the error the stream raised.
   */
  datatype StreamOutcome = StreamOutcome(deltas: seq<Json>, ending: Result<string, BackendError>)

  /**
   * The final-chunk rule: after a clean end, an empty final chunk if the
   * buffered text is compliant; otherwise the retry's reply when it differs
   * from the buffered text, else an empty final chunk. `retried` tells whether
   * the retry request was sent.
   */
  function FinalChunk(c: Codec, reply: seq<Message> -> Result<string, BackendError>, conversation: seq<Message>, scan: Scan): (r: (Result<string, BackendError>, bool))
    ensures scan.end.Failed? ==> r == (Failure(scan.end.error), false)
    ensures !scan.end.Failed? && Join(scan.deltas).None? ==> r == (Failure(JoinTypeError), false)
    ensures !scan.end.Failed? && Join(scan.deltas).Some? && IsProtocolCompliant(c, Join(scan.deltas).value) ==>
      r == (Success(""), false)
    ensures !scan.end.Failed? && Join(scan.deltas).Some? && !IsProtocolCompliant(c, Join(scan.deltas).value) ==>
      r.1 &&
      match reply(WithReminder(conversation))
      case Failure(e) => r.0 == Failure(e)
      case Success(corrected) => r.0 == Success(if corrected != Join(scan.deltas).value then corrected else "")
    ensures r.1 ==> !scan.end.Failed? && Join(scan.deltas).Some? && !IsProtocolCompliant(c, Join(scan.deltas).value)
    ensures r.0.Success? && r.0.value != "" ==> r.1 && r.0 == reply(WithReminder(conversation)) && r.0.value != Join(scan.deltas).value
  {
    if scan.end.Failed? then (Failure(scan.end.error), false)
    else
      match Join(scan.deltas)
      case None => (Failure(JoinTypeError), false)
      case Some(buffer) =>
        if IsProtocolCompliant(c, buffer) then (Success(""), false)
        else
          var retry := Retry(c, reply, buffer, conversation);
          match retry.result
          case Failure(e) => (Failure(e), true)
          case Success(corrected) => (Success(if corrected != buffer then corrected else ""), true)
  }

  /** `stream`, as the consumer sees it, and whether the retry request went out. */
  function StreamSpec(c: Codec, reply: seq<Message> -> Result<string, BackendError>, lines: seq<string>, conversation: seq<Message>): (StreamOutcome, bool)
  {
    var scan := ScanLines(c, lines);
    var (ending, retried) := FinalChunk(c, reply, conversation, scan);
    (StreamOutcome(scan.deltas, ending), retried)
  }

  /**
   * After a clean end with a non-compliant buffer, a compliant retry reply is
   * always the final chunk: it cannot equal the buffer.
   */
  lemma CompliantRetryIsFinal(c: Codec, reply: seq<Message> -> Result<string, BackendError>, conversation: seq<Message>, scan: Scan, corrected: string)
    requires !scan.end.Failed? && Join(scan.deltas).Some? && !IsProtocolCompliant(c, Join(scan.deltas).value)
    requires reply(WithReminder(conversation)) == Success(corrected) && IsProtocolCompliant(c, corrected)
    ensures FinalChunk(c, reply, conversation, scan) == (Success(corrected), true)
  {
    assert corrected != Join(scan.deltas).value;
  }

  /**
   * The final chunk is empty after a retry only when the retry's reply repeats
   * the buffered text or is itself empty.
   */
  lemma EmptyFinalAfterRetry(c: Codec, reply: seq<Message> -> Result<string, BackendError>, conversation: seq<Message>, scan: Scan)
    requires FinalChunk(c, reply, conversation, scan).1
    ensures FinalChunk(c, reply, conversation, scan).0 == Success("") <==>
      reply(WithReminder(conversation)) in {Success(Join(scan.deltas).value), Success("")}
  {
  }

  /**
   * The stream-retry test: one text delta that is not protocol JSON, the
   * retry answered with a compliant reply. The consumer sees the delta, then
   * that reply as the final chunk, and a retry was sent.
   */
  lemma StreamRetryScenario(c: Codec, reply: seq<Message> -> Result<string, BackendError>, lines: seq<string>, conversation: seq<Message>, text: string, corrected: string)
    requires ScanLines(c, lines) == Scan([JStr(text)], DoneSeen)
    requires !IsProtocolCompliant(c, text)
    requires reply(WithReminder(conversation)) == Success(corrected) && IsProtocolCompliant(c, corrected)
    ensures StreamSpec(c, reply, lines, conversation) == (StreamOutcome([JStr(text)], Success(corrected)), true)
  {
    assert Join([JStr(text)]) == Some(text) by { JoinOne(text); }
    CompliantRetryIsFinal(c, reply, conversation, ScanLines(c, lines), corrected);
  }

  /**
   * The plain-text streaming test as written: its two deltas join to text that
   * is not JSON, so the stream sends the retry; the test's server answers it
   * with the event stream, which is not a JSON response, so the stream ends
   * with that error and not with the empty final chunk the test expects.
   */
  lemma PlainStreamAsWritten(c: Codec, reply: seq<Message> -> Result<string, BackendError>, lines: seq<string>, conversation: seq<Message>, first: string, second: string)
    requires ScanLines(c, lines) == Scan([JStr(first), JStr(second)], DoneSeen)
    requires c.decode(first + second) == None
    requires reply(WithReminder(conversation)).Failure?
    ensures StreamSpec(c, reply, lines, conversation) ==
      (StreamOutcome([JStr(first), JStr(second)], Failure(reply(WithReminder(conversation)).error)), true)
    ensures StreamSpec(c, reply, lines, conversation).0.ending != Success("")
  {
    JoinPair(first, second);
  }

  /**
   * The plain-text streaming test with its retry answered by a reply whose
   * message content is the streamed text again: the two deltas, then the
   * empty final chunk the test expects, after one retry.
   */
  lemma PlainStreamCorrected(c: Codec, reply: seq<Message> -> Result<string, BackendError>, lines: seq<string>, conversation: seq<Message>, first: string, second: string)
    requires ScanLines(c, lines) == Scan([JStr(first), JStr(second)], DoneSeen)
    requires c.decode(first + second) == None
    requires reply(WithReminder(conversation)) == Success(first + second)
    ensures StreamSpec(c, reply, lines, conversation) == (StreamOutcome([JStr(first), JStr(second)], Success("")), true)
  {
    JoinPair(first, second);
  }

  /** Compact JSON text: not blank at either end, and not the end marker `[DONE]`. */
  predicate TightText(e: string)
  {
    e != [] && !IsSpace(e[0]) && !IsSpace(e[|e| - 1]) && e != "[DONE]"
  }

  /** A stream event carrying one piece of text, `{"choices":[{"delta":{"content":text}}]}`. */
  function TextEvent(text: string): Json
  {
    JObj(map["choices" := JArr([JObj(map["delta" := JObj(map["content" := JStr(text)])])])])
  }

  lemma StripSpacePrefix(e: string)
    requires e != [] && !IsSpace(e[0]) && !IsSpace(e[|e| - 1])
    ensures Strip(" " + e) == e
  {
    assert (" " + e)[1..] == e;
    assert TrimLeft(" " + e) == TrimLeft(e);
    StripOfNonSpace(e);
  }

  lemma TextEventDelta(text: string)
    ensures DeltaContent(TextEvent(text)) == Success(Some(JStr(text)))
  {
    var choice := JObj(map["delta" := JObj(map["content" := JStr(text)])]);
    assert TextEvent(text).fields["choices"] == JArr([choice]);
  }

  lemma DataOfSpaced(e: string)
    requires e != [] && !IsSpace(e[0]) && !IsSpace(e[|e| - 1])
    ensures DataOf("data: " + e) == Some(e)
  {
    var line := "data: " + e;
    assert line[..5] == "data:";
    assert line[5..] == " " + e;
    StripSpacePrefix(e);
  }

  /** An event line the way the server writes it parses back to its text. */
  lemma TextLine(c: Codec, text: string)
    requires RoundTrips(c, TextEvent(text)) && TightText(c.encode(TextEvent(text)))
    ensures ClassifyLine(c, "data: " + c.encode(TextEvent(text))) == Delta(JStr(text))
  {
    var e := c.encode(TextEvent(text));
    DataOfSpaced(e);
    assert c.decode(e) == Some(TextEvent(text));
    TextEventDelta(text);
  }

  /** Two deltas, a skipped line, `[DONE]`: the shape of the streaming test, under any classification. */
  lemma TwoDeltasThenDone(classify: string -> LineKind, l0: string, l1: string, l2: string, l3: string, l4: string, l5: string,
                           first: Json, second: Json)
    requires classify(l0) == Delta(first) && classify(l2) == Delta(second)
    requires classify(l1) == Skip && classify(l3) == Skip && classify(l4) == Done
    ensures ScanKinds(Kinds(classify, [l0, l1, l2, l3, l4, l5])) == Scan([first, second], DoneSeen)
  {
    var ks := Kinds(classify, [l0, l1, l2, l3, l4, l5]);
    assert ScanKinds(ks[4..]) == Scan([], DoneSeen);
    assert ks[3..][1..] == ks[4..];
    assert ScanKinds(ks[3..]) == Scan([], DoneSeen);
    assert ks[2..][1..] == ks[3..];
    assert ScanKinds(ks[2..]) == Scan([second], DoneSeen);
    assert ks[1..][1..] == ks[2..];
    assert ks[1..] == ks[1..];
    assert ScanKinds(ks[1..]) == Scan([second], DoneSeen);
  }

  /** Any line whose stripped data is `[DONE]` ends the stream, e.g. `data: [DONE]` or `data:[DONE]`. */
  lemma DoneLine(c: Codec, line: string)
    requires DataOf(line) == Some("[DONE]")
    ensures ClassifyLine(c, line) == Done
  {
  }

  /** The server's end-of-stream line, `data: [DONE]`, carries `[DONE]`. */
  lemma ServerDoneLine(done: string)
    requires done == "[DONE]"
    ensures DataOf("data: " + done) == Some("[DONE]")
  {
    assert done[0] == '[' && done[|done| - 1] == ']';
    DataOfSpaced(done);
  }

  /** Two delta lines, blank lines between them, a `[DONE]` line: the deltas in order. */
  lemma DeltasThenDone(c: Codec, l0: string, l2: string, doneLine: string, blank: string, first: Json, second: Json)
    requires ClassifyLine(c, l0) == Delta(first) && ClassifyLine(c, l2) == Delta(second)
    requires ClassifyLine(c, doneLine) == Done && ClassifyLine(c, blank) == Skip
    ensures ScanLines(c, [l0, blank, l2, blank, doneLine, blank]) == Scan([first, second], DoneSeen)
  {
    ClassifierAt(c, l0, Delta(first));
    ClassifierAt(c, l2, Delta(second));
    ClassifierAt(c, doneLine, Done);
    ClassifierAt(c, blank, Skip);
    TwoDeltasThenDone(Classifier(c), l0, blank, l2, blank, doneLine, blank, first, second);
  }

  lemma ClassifierAt(c: Codec, line: string, k: LineKind)
    requires ClassifyLine(c, line) == k
    ensures Classifier(c)(line) == k
  {
  }

  /**
   * The streaming test: two text events with blank lines between them, then
   * the end-of-stream line; the chunks are the two texts in order.
   */
  lemma StreamScenario(c: Codec, first: string, second: string, doneLine: string)
    requires RoundTrips(c, TextEvent(first)) && TightText(c.encode(TextEvent(first)))
    requires RoundTrips(c, TextEvent(second)) && TightText(c.encode(TextEvent(second)))
    requires DataOf(doneLine) == Some("[DONE]")
    ensures ScanLines(c, ["data: " + c.encode(TextEvent(first)), "",
                          "data: " + c.encode(TextEvent(second)), "", doneLine, ""])
            == Scan([JStr(first), JStr(second)], DoneSeen)
  {
    TextLine(c, first);
    TextLine(c, second);
    DoneLine(c, doneLine);
    SkippedLines(c, "");
    DeltasThenDone(c, "data: " + c.encode(TextEvent(first)), "data: " + c.encode(TextEvent(second)),
                   doneLine, "", JStr(first), JStr(second));
  }

  // ---------------------------------------------------------------------------
  // The client

  class Client {
    /** `_request`: the server's reply to a non-streaming request for a conversation. */
    const reply: seq<Message> -> Result<string, BackendError>
    /** The lines of the server's streaming response for a conversation. */
    const streamLines: seq<Message> -> seq<string>
    const codec: Codec
    /** Every request body sent so far. */
    var requests: seq<Payload>

    constructor(reply: seq<Message> -> Result<string, BackendError>, streamLines: seq<Message> -> seq<string>, codec: Codec)
      ensures this.reply == reply && this.streamLines == streamLines && this.codec == codec
      ensures requests == []
    {
      this.reply := reply;
      this.streamLines := streamLines;
      this.codec := codec;
      requests := [];
    }

    /** `_request`. */
    method Request(conversation: seq<Message>) returns (r: Result<string, BackendError>)
      modifies this
      ensures requests == old(requests) + [Payload(Dicts(conversation), false)]
      ensures r == reply(conversation)
    {
      requests := requests + [Payload(Dicts(conversation), false)];
      r := reply(conversation);
    }

    /** `_ensure_protocol_with_retry`. */
    method EnsureProtocolWithRetry(raw: string, conversation: seq<Message>) returns (r: Result<string, BackendError>)
      modifies this
      ensures r == Retry(codec, reply, raw, conversation).result
      ensures requests == old(requests) + seq(|Retry(codec, reply, raw, conversation).sent|,
        i requires 0 <= i < |Retry(codec, reply, raw, conversation).sent| =>
          Payload(Dicts(Retry(codec, reply, raw, conversation).sent[i]), false))
    {
      if IsProtocolCompliant(codec, raw) {
        return Success(raw);
      }
      var corrected := conversation + [Message(System, ProtocolReminder, None)];
      r := Request(corrected);
    }

    /** `generate`. */
    method Generate(conversation: seq<Message>) returns (r: Result<string, BackendError>)
      modifies this
      ensures r == GenerateSpec(codec, reply, conversation).result
      ensures var sent := GenerateSpec(codec, reply, conversation).sent;
        requests == old(requests) + seq(|sent|, i requires 0 <= i < |sent| => Payload(Dicts(sent[i]), false))
    {
      var raw := Request(conversation);
      if raw.Failure? {
        return raw;
      }
      r := EnsureProtocolWithRetry(raw.value, conversation);
    }

    /**
     * The reading loop of `stream`: the delta of each line in order, stopping
     * at `[DONE]` or at the first line that raises.
     */
    method ReadEvents(lines: seq<string>) returns (scan: Scan)
      ensures scan == ScanLines(codec, lines)
    {
      var buffer: seq<Json> := [];
      var i := 0;
      ghost var kinds := Kinds(Classifier(codec), lines);
      ghost var whole := ScanKinds(kinds);
      while i < |lines|
        invariant 0 <= i <= |lines|
        invariant buffer + ScanKinds(kinds[i..]).deltas == whole.deltas
        invariant ScanKinds(kinds[i..]).end == whole.end
      {
        assert kinds[i..][1..] == kinds[i + 1..];
        match ClassifyLine(codec, lines[i]) {
          case Skip =>
          case Done =>
            assert ScanKinds(kinds[i..]) == Scan([], DoneSeen);
            return Scan(buffer, DoneSeen);
          case Bad(e) =>
            assert ScanKinds(kinds[i..]) == Scan([], Failed(e));
            return Scan(buffer, Failed(e));
          case Delta(content) =>
            assert buffer + [content] + ScanKinds(kinds[i + 1..]).deltas == whole.deltas;
            buffer := buffer + [content];
        }
        i := i + 1;
      }
      return Scan(buffer, Exhausted);
    }

    /** The final chunk `stream` yields once the lines are read, with the retry it may send. */
    method Finish(conversation: seq<Message>, scan: Scan) returns (ending: Result<string, BackendError>)
      modifies this
      ensures ending == FinalChunk(codec, reply, conversation, scan).0
      ensures requests == old(requests) +
        (if FinalChunk(codec, reply, conversation, scan).1 then [Payload(Dicts(WithReminder(conversation)), false)] else [])
    {
      if scan.end.Failed? {
        return Failure(scan.end.error);
      }
      var text := Join(scan.deltas);
      if text.None? {
        return Failure(JoinTypeError);
      }
      if IsProtocolCompliant(codec, text.value) {
        return Success("");
      }
      var corrected := EnsureProtocolWithRetry(text.value, conversation);
      if corrected.Failure? {
        return Failure(corrected.error);
      }
      if corrected.value != text.value {
        return Success(corrected.value);
      }
      return Success("");
    }

    /**
     * `stream`: send the streaming request, read the event lines, then apply
     * the final-chunk rule.
     */
    method Stream(conversation: seq<Message>) returns (out: StreamOutcome)
      modifies this
      ensures out == StreamSpec(codec, reply, streamLines(conversation), conversation).0
      ensures requests == old(requests) + [Payload(Dicts(conversation), true)] +
        (if StreamSpec(codec, reply, streamLines(conversation), conversation).1
         then [Payload(Dicts(WithReminder(conversation)), false)] else [])
    {
      requests := requests + [Payload(Dicts(conversation), true)];
      var scan := ReadEvents(streamLines(conversation));
      var ending := Finish(conversation, scan);
      return StreamOutcome(scan.deltas, ending);
    }
  }
}

/**
 * The structured-output protocol (protocol/outputs.py): raw model text is read
 * as a tool call or a final answer, and anything malformed becomes a final
 * answer whose content is the raw text itself.
 */
module Outputs {
  import opened Wrappers
  import opened Json
  import opened PyText

  /** `ToolCallOutput | FinalOutput`. */
  datatype Output =
    | ToolCall(toolName: string, args: map<string, Json>)
    | Final(content: string)

  /** The `args` of a tool call: absent or null is `{}`, an object is kept, anything else is refused. */
  function ArgsOf(fields: map<string, Json>): (a: Option<map<string, Json>>)
  {
    match Get(fields, "args", JObj(map[]))
    case JNull => Some(map[])
    case JObj(m) => Some(m)
    case _ => None
  }

  /** The text of a final answer's `content`: strings as they are, scalars through `str`, containers serialised. */
  function ContentText(c: Codec, content: Json): string
  {
    match content
    case JStr(s) => s
    case JBool(_) => c.stringify(content)
    case JNum(_) => c.stringify(content)
    case JNull => c.stringify(content)
    case JArr(_) => c.serialize(content)
    case JObj(_) => c.serialize(content)
  }

  /** `parse_output`: total over all raw strings. */
  function ParseOutput(c: Codec, raw: string): (r: Output)
    ensures r.ToolCall? ==> !IsBlank(r.toolName)
  {
    match c.decode(raw)
    case None => Final(raw)
    case Some(data) =>
      if !data.JObj? || "type" !in data.fields then Final(raw)
      else
        var f := data.fields;
        if f["type"] == JStr("tool_call") then
          var name := Get(f, "tool_name", JNull);
          if !name.JStr? || Strip(name.s) == [] then Final(raw)
          else
            match ArgsOf(f)
            case None => Final(raw)
            case Some(args) =>
              StripEmptyIffBlank(name.s);
              ToolCall(name.s, args)
        else if f["type"] == JStr("final") then
          if "content" !in f then Final(raw)
          else Final(ContentText(c, f["content"]))
        else Final(raw)
  }

  /** The JSON object pydantic's `model_dump_json` writes for an output. */
  function EncodeOutput(o: Output): Json
  {
    match o
    case ToolCall(name, args) =>
      JObj(map["type" := JStr("tool_call"), "tool_name" := JStr(name), "args" := JObj(args)])
    case Final(content) =>
      JObj(map["type" := JStr("final"), "content" := JStr(content)])
  }

  /**
   * What a well-formed tool call looks like, independently of the parser's
   * order of checks: a `tool_call` object whose `tool_name` is a string with a
   * non-whitespace character, and whose `args` are absent, null or an object.
   */
  ghost predicate IsToolCallText(c: Codec, raw: string, name: string, args: map<string, Json>)
  {
    && c.decode(raw).Some?
    && c.decode(raw).value.JObj?
    && var f := c.decode(raw).value.fields;
    && "type" in f && f["type"] == JStr("tool_call")
    && "tool_name" in f && f["tool_name"] == JStr(name)
    && !IsBlank(name)
    && (if "args" in f && f["args"] != JNull then f["args"] == JObj(args) else args == map[])
  }

  /** A final answer is either the raw text itself or the `content` of a `final` object. */
  ghost predicate IsFinalText(c: Codec, raw: string, content: string)
  {
    && c.decode(raw).Some?
    && c.decode(raw).value.JObj?
    && var f := c.decode(raw).value.fields;
    && "type" in f && f["type"] == JStr("final")
    && "content" in f && content == ContentText(c, f["content"])
  }

  /** Text that is not JSON is its own final answer. */
  lemma ParseNotJson(c: Codec, raw: string)
    requires c.decode(raw) == None
    ensures ParseOutput(c, raw) == Final(raw)
  {
  }

  /** A JSON value that is not an object, or an object without `type`, is the raw text. */
  lemma ParseUntagged(c: Codec, raw: string)
    requires c.decode(raw).Some?
    requires !c.decode(raw).value.JObj? || "type" !in c.decode(raw).value.fields
    ensures ParseOutput(c, raw) == Final(raw)
  {
  }

  /** The parser yields exactly the well-formed tool calls, name untrimmed and args unchanged. */
  lemma {:induction false} ParseToolCallIff(c: Codec, raw: string, name: string, args: map<string, Json>)
    ensures ParseOutput(c, raw) == ToolCall(name, args) <==> IsToolCallText(c, raw, name, args)
  {
    StripEmptyIffBlank(name);
    var d := c.decode(raw);
    if d.Some? && d.value.JObj? && "type" in d.value.fields && d.value.fields["type"] == JStr("tool_call") {
      var f := d.value.fields;
      if "tool_name" in f && f["tool_name"] == JStr(name) {
        assert ArgsOf(f) == Some(args) <==> (if "args" in f && f["args"] != JNull then f["args"] == JObj(args) else args == map[]);
      }
    }
  }

  /** Every final answer is the raw text or the extracted content of a `final` object. */
  lemma ParseFinalSource(c: Codec, raw: string)
    requires ParseOutput(c, raw).Final?
    ensures var content := ParseOutput(c, raw).content;
      content == raw || IsFinalText(c, raw, content)
  {
  }

  /** A `final` object's content is extracted; without `content` the whole raw text is the answer. */
  lemma ParseFinalObject(c: Codec, raw: string, f: map<string, Json>)
    requires c.decode(raw) == Some(JObj(f))
    requires "type" in f && f["type"] == JStr("final")
    ensures "content" !in f ==> ParseOutput(c, raw) == Final(raw)
    ensures "content" in f && f["content"].JStr? ==> ParseOutput(c, raw) == Final(f["content"].s)
    ensures "content" in f && (f["content"].JBool? || f["content"].JNum? || f["content"].JNull?) ==>
      ParseOutput(c, raw) == Final(c.stringify(f["content"]))
    ensures "content" in f && (f["content"].JArr? || f["content"].JObj?) ==>
      ParseOutput(c, raw) == Final(c.serialize(f["content"]))
  {
  }

  /** A `tool_call` whose name is missing, not a string or blank, or whose args are not an object, is the raw text. */
  lemma ParseToolCallRejected(c: Codec, raw: string, f: map<string, Json>)
    requires c.decode(raw) == Some(JObj(f))
    requires "type" in f && f["type"] == JStr("tool_call")
    requires || "tool_name" !in f || !f["tool_name"].JStr? || IsBlank(f["tool_name"].s)
             || ("args" in f && !f["args"].JNull? && !f["args"].JObj?)
    ensures ParseOutput(c, raw) == Final(raw)
  {
    if "tool_name" in f && f["tool_name"].JStr? {
      StripEmptyIffBlank(f["tool_name"].s);
    }
  }

  /** Any `type` other than the two protocol values is the raw text. */
  lemma ParseOtherType(c: Codec, raw: string, f: map<string, Json>)
    requires c.decode(raw) == Some(JObj(f))
    requires "type" in f && f["type"] != JStr("tool_call") && f["type"] != JStr("final")
    ensures ParseOutput(c, raw) == Final(raw)
  {
  }

  /** Round trip: an encoded tool call with a non-blank name parses back to itself. */
  lemma {:induction false} ParseEncodedToolCall(c: Codec, name: string, args: map<string, Json>)
    requires RoundTrips(c, EncodeOutput(ToolCall(name, args)))
    requires !IsBlank(name)
    ensures ParseOutput(c, c.encode(EncodeOutput(ToolCall(name, args)))) == ToolCall(name, args)
  {
    var raw := c.encode(EncodeOutput(ToolCall(name, args)));
    assert c.decode(raw) == Some(EncodeOutput(ToolCall(name, args)));
    ParseToolCallIff(c, raw, name, args);
  }

  /** Round trip: an encoded final answer parses back to itself. */
  lemma ParseEncodedFinal(c: Codec, content: string)
    requires RoundTrips(c, EncodeOutput(Final(content)))
    ensures ParseOutput(c, c.encode(EncodeOutput(Final(content)))) == Final(content)
  {
    assert c.decode(c.encode(EncodeOutput(Final(content)))) == Some(EncodeOutput(Final(content)));
  }
}

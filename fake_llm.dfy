/**
 * The deterministic model client (llm.py): a FIFO queue of canned replies
 * and, once it is empty, a final answer echoing the last user message.
 */
module FakeLlm {
  import opened Wrappers
  import opened Json
  import opened Messages
  import Outputs

  /** The content of the last `user` message, or "" when there is none. */
  function LastUserContent(conversation: seq<Message>): (r: string)
    ensures (forall i :: 0 <= i < |conversation| ==> conversation[i].role != User) ==> r == ""
    ensures (exists i :: 0 <= i < |conversation| && conversation[i].role == User) ==>
      exists i :: 0 <= i < |conversation| && conversation[i].role == User && r == conversation[i].content
        && forall j :: i < j < |conversation| ==> conversation[j].role != User
  {
    if conversation == [] then ""
    else
      var last := conversation[|conversation| - 1];
      if last.role == User then last.content
      else
        var r := LastUserContent(conversation[..|conversation| - 1]);
        assert forall i :: 0 <= i < |conversation| - 1 ==> conversation[..|conversation| - 1][i] == conversation[i];
        r
  }

  /** The messages with role `user`, in order. */
  function UserMessages(conversation: seq<Message>): seq<Message>
  {
    if conversation == [] then []
    else
      var last := conversation[|conversation| - 1];
      UserMessages(conversation[..|conversation| - 1]) + (if last.role == User then [last] else [])
  }

  /** The echo fallback does not depend on any message that is not a user message. */
  lemma {:induction false} LastUserContentIgnoresOthers(conversation: seq<Message>)
    ensures LastUserContent(conversation) == LastUserContent(UserMessages(conversation))
  {
    if conversation != [] {
      var init := conversation[..|conversation| - 1];
      var last := conversation[|conversation| - 1];
      if last.role == User {
        assert UserMessages(conversation) == UserMessages(init) + [last];
      } else {
        assert UserMessages(conversation) == UserMessages(init);
        LastUserContentIgnoresOthers(init);
      }
    }
  }

  /** The reply with an empty queue: the serialised final answer "Echo: " + last user content. */
  function EchoReply(encode: Json -> string, conversation: seq<Message>): string
  {
    encode(Outputs.EncodeOutput(Outputs.Final("Echo: " + LastUserContent(conversation))))
  }

  /** `generate` on a queue: the reply and the queue left behind. */
  function Reply(encode: Json -> string, queue: seq<string>, conversation: seq<Message>): (string, seq<string>)
  {
    if queue != [] then (queue[0], queue[1..]) else (EchoReply(encode, conversation), [])
  }

  /** Replies taken one after another from a queue, for the given conversations. */
  function Replies(encode: Json -> string, queue: seq<string>, conversations: seq<seq<Message>>): seq<string>
    decreases |conversations|
  {
    if conversations == [] then []
    else
      var (raw, rest) := Reply(encode, queue, conversations[0]);
      [raw] + Replies(encode, rest, conversations[1..])
  }

  /** FIFO: as many calls as queued replies return exactly the queued replies, in order. */
  lemma {:induction false} RepliesInOrder(encode: Json -> string, queue: seq<string>, conversations: seq<seq<Message>>)
    requires |conversations| == |queue|
    ensures Replies(encode, queue, conversations) == queue
  {
    if queue != [] {
      RepliesInOrder(encode, queue[1..], conversations[1..]);
    }
  }

  /** The echo reply reads back as the final answer "Echo: " + last user content. */
  lemma EchoParsesAsFinal(c: Codec, conversation: seq<Message>)
    requires RoundTrips(c, Outputs.EncodeOutput(Outputs.Final("Echo: " + LastUserContent(conversation))))
    ensures Outputs.ParseOutput(c, EchoReply(c.encode, conversation)) ==
      Outputs.Final("Echo: " + LastUserContent(conversation))
  {
    Outputs.ParseEncodedFinal(c, "Echo: " + LastUserContent(conversation));
  }

  class FakeModel {
    /** The queued replies, front first. */
    var responses: seq<string>
    /** pydantic's `model_dump_json` for the echo reply. */
    const encode: Json -> string

    /** `FakeLLM(responses)`: the given replies, or none when None or empty. */
    constructor(responses: Option<seq<string>>, encode: Json -> string)
      ensures this.responses == (if responses.Some? then responses.value else [])
      ensures this.encode == encode
    {
      this.responses := if responses.Some? then responses.value else [];
      this.encode := encode;
    }

    /** `push`: enqueue at the back. */
    method Push(response: string)
      modifies this
      ensures responses == old(responses) + [response]
    {
      responses := responses + [response];
    }

    /** `generate`: pop the front reply, or echo the last user message when none is queued. */
    method Generate(conversation: seq<Message>) returns (raw: string)
      modifies this
      ensures (raw, responses) == Reply(encode, old(responses), conversation)
      ensures old(responses) != [] ==> raw == old(responses)[0] && responses == old(responses)[1..]
      ensures old(responses) == [] ==> raw == EchoReply(encode, conversation) && responses == []
    {
      if responses != [] {
        raw := responses[0];
        responses := responses[1..];
        return;
      }
      raw := EchoReply(encode, conversation);
    }
  }
}

/**
 * The chat stream of the renderer's WebSocket hook: the text carried by a
 * chat event's message, the per-run buffer of streamed text, the message
 * handed to the UI for each chat state, and the guard on sending.
 *
 * The clock and the random ids are inputs (`now`, `freshId`).
 */
module ChatStream {
  import opened Wrappers
  import opened Json
  import Text

  datatype Status = Streaming | Done | Failed

  /** A chat message as the UI receives it; the role is always the assistant's here. */
  datatype ChatMessage = ChatMessage(id: string, role: string, content: string, timestamp: int, status: Status)

  const ErrorFallback := "发生错误"
  const AbortedFallback := "（已中断）"
  const SendFailedPrefix := "发送失败: "

  /** One content block: a string is itself, an object with `text` is that text, anything else is empty. */
  function BlockText(block: Json): string
  {
    if block.JStr? then block.s
    else if block.JObj? && "text" in block.fields then Rendered(block.fields["text"])
    else ""
  }

  /** The blocks' texts joined with no separator, in order. */
  function BlocksText(blocks: seq<Json>): (r: string)
    ensures |blocks| == 1 ==> r == BlockText(blocks[0])
    ensures (forall i :: 0 <= i < |blocks| ==> BlockText(blocks[i]) == "") ==> r == ""
  {
    if |blocks| == 0 then "" else BlocksText(blocks[..|blocks| - 1]) + BlockText(blocks[|blocks| - 1])
  }

  /** Joining distributes over concatenation of block lists. */
  lemma {:induction false} BlocksTextAppend(a: seq<Json>, b: seq<Json>)
    ensures BlocksText(a + b) == BlocksText(a) + BlocksText(b)
  {
    if |b| > 0 {
      var front := b[..|b| - 1];
      assert (a + b)[..|a + b| - 1] == a + front;
      BlocksTextAppend(a, front);
    } else {
      assert a + b == a;
    }
  }

  /** The string blocks holding the given strings. */
  function StringBlocks(parts: seq<string>): (blocks: seq<Json>)
    ensures |blocks| == |parts| && forall i :: 0 <= i < |parts| ==> blocks[i] == JStr(parts[i])
  {
    seq(|parts|, i requires 0 <= i < |parts| => JStr(parts[i]))
  }

  /** A list of string blocks yields exactly those strings, concatenated in order. */
  lemma {:induction false} StringBlocksConcatenate(parts: seq<string>)
    ensures BlocksText(StringBlocks(parts)) == Text.Join(parts, "")
  {
    if |parts| > 0 {
      var rest := parts[1..];
      assert StringBlocks(parts) == [JStr(parts[0])] + StringBlocks(rest);
      BlocksTextAppend([JStr(parts[0])], StringBlocks(rest));
      assert BlocksText([JStr(parts[0])]) == parts[0] by {
        assert [JStr(parts[0])][..0] == [];
      }
      StringBlocksConcatenate(rest);
      if |parts| == 1 {
        assert StringBlocks(rest) == [];
      }
    }
  }

  /**
   * `extractText`: a string `content` as it is, an array `content` as its
   * blocks' texts concatenated, and the empty string for anything else.
   */
  function ExtractText(message: Json): (r: string)
    ensures !message.JObj? ==> r == ""
    ensures Get(message, "content").Some? && Get(message, "content").value.JStr? ==> r == Get(message, "content").value.s
    ensures Get(message, "content").None? ==> r == ""
  {
    var content := Get(message, "content");
    if content.Some? && content.value.JStr? then content.value.s
    else if content.Some? && content.value.JArr? then BlocksText(content.value.items)
    else ""
  }

  /** A block that renders as nothing (a number, `null`, an object without `text`) leaves the joined text unchanged. */
  lemma BlankBlockIgnored(before: seq<Json>, b: Json, after: seq<Json>)
    requires BlockText(b) == ""
    ensures BlocksText(before + [b] + after) == BlocksText(before) + BlocksText(after)
  {
    var mid := before + [b];
    BlocksTextAppend(mid, after);
    assert mid[..|mid| - 1] == before;
    assert BlocksText(mid) == BlocksText(before) + BlockText(b) == BlocksText(before);
  }

  /** The run a chat event belongs to: its non-empty string `runId`, else a generated id. */
  function RunId(payload: Json, freshId: string): (id: string)
    ensures Get(payload, "runId") == Some(JStr(id)) || id == freshId
    ensures Get(payload, "runId").Some? && Get(payload, "runId").value.JStr? && Get(payload, "runId").value.s != "" ==>
      id == Get(payload, "runId").value.s
  {
    var r := Get(payload, "runId");
    if r.Some? && r.value.JStr? && r.value.s != "" then r.value.s else freshId
  }

  /** `payload.state === s`. */
  predicate StateIs(payload: Json, s: string)
  {
    Get(payload, "state") == Some(JStr(s))
  }

  /** The message of a chat event, `JNull` when it has none. */
  function MessageOf(payload: Json): Json
  {
    Get(payload, "message").GetOr(JNull)
  }

  /** `errorMessage` when it is a non-empty string, else the fallback. */
  function ErrorText(payload: Json): (t: string)
    ensures t != ""
  {
    var e := Get(payload, "errorMessage");
    if e.Some? && e.value.JStr? && e.value.s != "" then e.value.s else ErrorFallback
  }

  /** The hook's stream state: the text buffered for each run, and the messages handed to the UI. */
  class ChatStream {
    var buffers: map<string, string>
    var delivered: seq<ChatMessage>

    constructor()
      ensures buffers == map[] && delivered == []
    {
      buffers := map[];
      delivered := [];
    }

    /**
     * `handleEvent`. Events other than `chat`, and payloads that are not
     * objects, do nothing. `delta` with text buffers it and streams it;
     * `final` delivers the message's text, else the buffered text;
     * `error` delivers the error text; `aborted` delivers the buffered
     * text or the interrupted marker. The last three drop the run's buffer.
     */
    method HandleEvent(event: string, payload: Json, freshId: string, now: int)
      modifies this
      ensures (forall run :: run in old(buffers) ==> old(buffers)[run] != "") ==>
        forall run :: run in buffers ==> buffers[run] != ""
      ensures event != "chat" || !payload.JObj? ==> buffers == old(buffers) && delivered == old(delivered)
      ensures event == "chat" && payload.JObj? ==>
        var id := RunId(payload, freshId);
        var text := ExtractText(MessageOf(payload));
        if StateIs(payload, "delta") then
          if text != "" then
            buffers == old(buffers)[id := text] &&
            delivered == old(delivered) + [ChatMessage(id, "assistant", text, now, Streaming)]
          else
            buffers == old(buffers) && delivered == old(delivered)
        else if StateIs(payload, "final") then
          buffers == old(buffers) - {id} &&
          delivered == old(delivered) +
            [ChatMessage(id, "assistant", if text != "" then text else if id in old(buffers) then old(buffers)[id] else "", now, Done)]
        else if StateIs(payload, "error") then
          buffers == old(buffers) - {id} &&
          delivered == old(delivered) + [ChatMessage(id, "assistant", ErrorText(payload), now, Failed)]
        else if StateIs(payload, "aborted") then
          buffers == old(buffers) - {id} &&
          delivered == old(delivered) +
            [ChatMessage(id, "assistant", if id in old(buffers) && old(buffers)[id] != "" then old(buffers)[id] else AbortedFallback, now, Done)]
        else
          buffers == old(buffers) && delivered == old(delivered)
    {
      if event != "chat" || !payload.JObj? {
        return;
      }
      var id := RunId(payload, freshId);
      if StateIs(payload, "delta") {
        var text := ExtractText(MessageOf(payload));
        if text != "" {
          buffers := buffers[id := text];
          delivered := delivered + [ChatMessage(id, "assistant", text, now, Streaming)];
        }
      } else if StateIs(payload, "final") {
        var extracted := ExtractText(MessageOf(payload));
        var text := if extracted != "" then extracted else if id in buffers then buffers[id] else "";
        buffers := buffers - {id};
        delivered := delivered + [ChatMessage(id, "assistant", text, now, Done)];
      } else if StateIs(payload, "error") {
        buffers := buffers - {id};
        delivered := delivered + [ChatMessage(id, "assistant", ErrorText(payload), now, Failed)];
      } else if StateIs(payload, "aborted") {
        var text := if id in buffers && buffers[id] != "" then buffers[id] else AbortedFallback;
        buffers := buffers - {id};
        delivered := delivered + [ChatMessage(id, "assistant", text, now, Done)];
      }
    }

    /**
     * `sendMessage`: with no connected client nothing is requested;
     * otherwise `chat.send` is requested under a fresh idempotency key, and
     * when that request fails an error message with that key as its id is
     * delivered.
     */
    method SendMessage(connected: bool, sessionKey: string, content: string, key: string,
                       failure: Option<string>, now: int) returns (request: Option<Json>)
      modifies this`delivered
      ensures !connected ==> request.None? && delivered == old(delivered)
      ensures connected ==> request == Some(ChatSendParams(sessionKey, content, key))
      ensures connected && failure.Some? ==>
        delivered == old(delivered) + [ChatMessage(key, "assistant", SendFailedPrefix + failure.value, now, Failed)]
      ensures connected && failure.None? ==> delivered == old(delivered)
    {
      if !connected {
        return None;
      }
      request := Some(ChatSendParams(sessionKey, content, key));
      if failure.Some? {
        delivered := delivered + [ChatMessage(key, "assistant", SendFailedPrefix + failure.value, now, Failed)];
      }
    }
  }

  /** The `chat.send` parameters: session, message, no delivery, and the idempotency key. */
  function ChatSendParams(sessionKey: string, content: string, key: string): (p: Json)
    ensures Get(p, "sessionKey") == Some(JStr(sessionKey)) && Get(p, "message") == Some(JStr(content))
    ensures Get(p, "deliver") == Some(JBool(false)) && Get(p, "idempotencyKey") == Some(JStr(key))
  {
    JObj(map["sessionKey" := JStr(sessionKey), "message" := JStr(content),
             "deliver" := JBool(false), "idempotencyKey" := JStr(key)])
  }

  /** A chat event with the given state, run and message. */
  function ChatPayload(state: string, runId: string, message: Json): Json
  {
    JObj(map["state" := JStr(state), "runId" := JStr(runId), "message" := message])
  }

  /**
   * A streamed run: the last non-empty delta is what a `final` without text
   * delivers, and after it the run has no buffer left.
   */
  method DeltaThenEmptyFinal(runId: string, text: string, now: int) returns (stream: ChatStream)
    requires runId != "" && text != ""
    ensures stream.buffers == map[]
    ensures stream.delivered == [
      ChatMessage(runId, "assistant", text, now, Streaming),
      ChatMessage(runId, "assistant", text, now, Done)]
  {
    stream := new ChatStream();
    var delta := ChatPayload("delta", runId, JObj(map["content" := JStr(text)]));
    assert Get(delta, "runId") == Some(JStr(runId)) && StateIs(delta, "delta");
    assert ExtractText(MessageOf(delta)) == text;
    stream.HandleEvent("chat", delta, "", now);
    var final := ChatPayload("final", runId, JNull);
    assert Get(final, "runId") == Some(JStr(runId)) && StateIs(final, "final") && !StateIs(final, "delta");
    stream.HandleEvent("chat", final, "", now);
  }
}

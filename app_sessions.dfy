/**
 * The renderer's chat sessions: the list of sessions (newest first), the
 * active session, and the updates the main view applies to them when a
 * reply streams in, when the user sends, creates or deletes a session, and
 * when the waiting timer fires; and the marks of the setup progress bar.
 *
 * Ids and the clock are inputs (`id`, `msgId`, `now`).
 */
module AppSessions {
  import opened Wrappers
  import opened ChatStream
  import Text
  import Seqs

  datatype Session = Session(id: string, title: string, messages: seq<ChatMessage>, createdAt: int, updatedAt: int)

  /** The sessions, newest first, and the id of the active one. */
  datatype Chats = Chats(sessions: seq<Session>, active: Option<string>)

  /** What sending produces: the new chats and the session key the message is sent under. */
  datatype Sent = Sent(chats: Chats, sessionKey: string)

  const UntitledTitle := "新对话"
  const TitleLength := 30
  const TimeoutText := "AI 响应超时，请检查：\n1. API Key 是否有效\n2. 网络是否正常\n3. 所选模型服务是否可用"

  /** `activeSessionId` is truthy: present and not the empty string. */
  predicate HasActive(active: Option<string>)
  {
    active.Some? && active.value != ""
  }

  /** The active id is absent or names a session in the list. */
  predicate ActiveValid(c: Chats)
  {
    c.active.None? || exists i :: 0 <= i < |c.sessions| && c.sessions[i].id == c.active.value
  }

  /** `messages.findIndex(m => m.id === id)`. */
  function FindMessage(msgs: seq<ChatMessage>, id: string): (k: int)
    ensures -1 <= k < |msgs|
    ensures k == -1 <==> forall i :: 0 <= i < |msgs| ==> msgs[i].id != id
    ensures k >= 0 ==> msgs[k].id == id && forall i :: 0 <= i < k ==> msgs[i].id != id
  {
    if |msgs| == 0 then -1
    else if msgs[0].id == id then 0
    else
      var k := FindMessage(msgs[1..], id);
      if k == -1 then -1 else k + 1
  }

  /** A streamed message replaces the first message with its id, in place, or is appended when none has it. */
  function Upsert(msgs: seq<ChatMessage>, msg: ChatMessage): (r: seq<ChatMessage>)
    ensures (forall i :: 0 <= i < |msgs| ==> msgs[i].id != msg.id) ==> r == msgs + [msg]
    ensures forall i :: 0 <= i < |msgs| && msgs[i].id == msg.id && (forall j :: 0 <= j < i ==> msgs[j].id != msg.id) ==>
      |r| == |msgs| && r[i] == msg && forall j :: 0 <= j < |msgs| && j != i ==> r[j] == msgs[j]
  {
    var k := FindMessage(msgs, msg.id);
    if k >= 0 then msgs[k := msg] else msgs + [msg]
  }

  /** Ids of the messages are pairwise distinct. */
  predicate DistinctIds(msgs: seq<ChatMessage>)
  {
    forall i, j :: 0 <= i < j < |msgs| ==> msgs[i].id != msgs[j].id
  }

  /** Streaming keeps one message per id, and a later chunk of a run overwrites the earlier one. */
  lemma UpsertLastWins(msgs: seq<ChatMessage>, a: ChatMessage, b: ChatMessage)
    requires a.id == b.id
    ensures Upsert(Upsert(msgs, a), b) == Upsert(msgs, b)
    ensures DistinctIds(msgs) ==> DistinctIds(Upsert(msgs, b))
  {
    var k := FindMessage(msgs, a.id);
    if k == -1 {
      var m := msgs + [a];
      assert m[|msgs|].id == a.id;
      assert FindMessage(m, b.id) == |msgs|;
      assert m[|msgs| := b] == msgs + [b];
    } else {
      var m := msgs[k := a];
      assert FindMessage(m, b.id) == k by {
        assert forall i :: 0 <= i < k ==> m[i] == msgs[i];
        assert m[k].id == b.id;
      }
      assert m[k := b] == msgs[k := b];
    }
  }

  /** The reply to `msg` arriving in session `s` at time `now`. */
  function StreamInto(s: Session, msg: ChatMessage, now: int): Session
  {
    s.(messages := Upsert(s.messages, msg), updatedAt := now)
  }

  /**
   * A streamed message: dropped when no session is active; otherwise it
   * goes into the active session only, and the list keeps its order.
   */
  function OnStream(c: Chats, msg: ChatMessage, now: int): (r: Chats)
    ensures !HasActive(c.active) ==> r == c
    ensures r.active == c.active && |r.sessions| == |c.sessions|
    ensures forall i :: 0 <= i < |c.sessions| ==> r.sessions[i].id == c.sessions[i].id
    ensures forall i :: 0 <= i < |c.sessions| && Some(c.sessions[i].id) != c.active ==> r.sessions[i] == c.sessions[i]
    ensures HasActive(c.active) ==> forall i :: 0 <= i < |c.sessions| && c.sessions[i].id == c.active.value ==>
      r.sessions[i].title == c.sessions[i].title && r.sessions[i].createdAt == c.sessions[i].createdAt &&
      msg in r.sessions[i].messages && r.sessions[i].updatedAt == now &&
      r.sessions[i].messages == Upsert(c.sessions[i].messages, msg)
  {
    if !HasActive(c.active) then c
    else
      var ss := c.sessions;
      c.(sessions := seq(|ss|, i requires 0 <= i < |ss| =>
        if ss[i].id == c.active.value then StreamInto(ss[i], msg, now) else ss[i]))
  }

  /**
   * The waiting timer firing for the session that was active when it was
   * armed: that session gets the timeout error message; nothing happens
   * when none was active.
   */
  function OnTimeout(c: Chats, armedFor: Option<string>, errId: string, now: int): (r: Chats)
    ensures !HasActive(armedFor) ==> r == c
    ensures r.active == c.active && |r.sessions| == |c.sessions|
    ensures forall i :: 0 <= i < |c.sessions| ==> r.sessions[i].id == c.sessions[i].id
    ensures forall i :: 0 <= i < |c.sessions| && Some(c.sessions[i].id) != armedFor ==> r.sessions[i] == c.sessions[i]
    ensures HasActive(armedFor) ==> forall i :: 0 <= i < |c.sessions| && c.sessions[i].id == armedFor.value ==>
      r.sessions[i].messages == c.sessions[i].messages + [ChatMessage(errId, "assistant", TimeoutText, now, Failed)]
  {
    if !HasActive(armedFor) then c
    else
      var ss := c.sessions;
      var err := ChatMessage(errId, "assistant", TimeoutText, now, Failed);
      c.(sessions := seq(|ss|, i requires 0 <= i < |ss| =>
        if ss[i].id == armedFor.value then ss[i].(messages := ss[i].messages + [err], updatedAt := now) else ss[i]))
  }

  /** `content.slice(0, 30)`. */
  function TitlePrefix(content: string): (t: string)
    ensures |t| <= TitleLength && Text.StartsWith(content, t)
    ensures |content| <= TitleLength ==> t == content
    ensures |content| > TitleLength ==> |t| == TitleLength
  {
    if |content| <= TitleLength then content else content[..TitleLength]
  }

  /** The title of a session created by sending: the first 30 characters, or the untitled title when that is empty. */
  function NewTitle(content: string): (t: string)
    ensures t != ""
    ensures content != "" ==> t == TitlePrefix(content)
  {
    if TitlePrefix(content) == "" then UntitledTitle else TitlePrefix(content)
  }

  /** The user's own message as sent. */
  function UserMessage(msgId: string, content: string, now: int): ChatMessage
  {
    ChatMessage(msgId, "user", content, now, Done)
  }

  /**
   * `handleSend`. With no active session a new session holding exactly the
   * user message is put first and made active, and the message is sent
   * under its id; otherwise the message is appended to the active session,
   * which is retitled only when it had no messages, and sent under the
   * active id.
   */
  function HandleSend(c: Chats, content: string, sessionId: string, msgId: string, now: int): (r: Sent)
    ensures !HasActive(c.active) ==>
      r.chats.active == Some(sessionId) && r.sessionKey == sessionId &&
      r.chats.sessions == [Session(sessionId, NewTitle(content), [UserMessage(msgId, content, now)], now, now)] + c.sessions
    ensures HasActive(c.active) ==>
      r.chats.active == c.active && r.sessionKey == c.active.value && |r.chats.sessions| == |c.sessions| &&
      (forall i :: 0 <= i < |c.sessions| && c.sessions[i].id != c.active.value ==> r.chats.sessions[i] == c.sessions[i]) &&
      forall i :: 0 <= i < |c.sessions| && c.sessions[i].id == c.active.value ==>
        var s, t := c.sessions[i], r.chats.sessions[i];
        t.id == s.id && t.createdAt == s.createdAt && t.updatedAt == now &&
        t.messages == s.messages + [UserMessage(msgId, content, now)] &&
        t.title == (if |s.messages| == 0 then TitlePrefix(content) else s.title)
  {
    var userMsg := UserMessage(msgId, content, now);
    if !HasActive(c.active) then
      var session := Session(sessionId, NewTitle(content), [userMsg], now, now);
      Sent(Chats([session] + c.sessions, Some(sessionId)), sessionId)
    else
      var ss := c.sessions;
      var sessions := seq(|ss|, i requires 0 <= i < |ss| =>
        if ss[i].id != c.active.value then ss[i]
        else ss[i].(title := if |ss[i].messages| == 0 then TitlePrefix(content) else ss[i].title,
                    messages := ss[i].messages + [userMsg], updatedAt := now));
      Sent(c.(sessions := sessions), c.active.value)
  }

  /** `createSession`: an empty untitled session is put first and made active. */
  function CreateSession(c: Chats, id: string, now: int): (r: Chats)
    ensures r.active == Some(id) && ActiveValid(r)
    ensures |r.sessions| == |c.sessions| + 1 && r.sessions[1..] == c.sessions
    ensures r.sessions[0].id == id && r.sessions[0].title == UntitledTitle && r.sessions[0].messages == []
  {
    var r := Chats([Session(id, UntitledTitle, [], now, now)] + c.sessions, Some(id));
    assert r.sessions[0].id == id;
    r
  }

  /** `prev.filter(s => s.id !== id)`. */
  function Without(ss: seq<Session>, id: string): (r: seq<Session>)
    ensures |r| <= |ss|
    ensures forall i :: 0 <= i < |r| ==> r[i].id != id
    ensures forall s :: s in r ==> s in ss
    ensures forall s :: s in ss && s.id != id ==> s in r
    ensures (forall i :: 0 <= i < |ss| ==> ss[i].id != id) ==> r == ss
  {
    if |ss| == 0 then []
    else if ss[0].id == id then Without(ss[1..], id)
    else [ss[0]] + Without(ss[1..], id)
  }

  /** `Without` is the filter itself: the other sessions, in their order. */
  lemma {:induction false} WithoutIsFilter(ss: seq<Session>, id: string)
    ensures Without(ss, id) == Seqs.Filter(ss, (s: Session) => s.id != id)
  {
    var other := (s: Session) => s.id != id;
    if |ss| > 0 {
      var x, rest := ss[0], ss[1..];
      WithoutIsFilter(rest, id);
      Seqs.FilterAppend([x], rest, other);
      assert ss == [x] + rest;
      assert Seqs.Filter([x], other) == (if x.id != id then [x] else []) by {
        assert [x][..0] == [];
      }
      assert Without(ss, id) == (if x.id != id then [x] else []) + Without(rest, id);
    }
  }

  /** `sessions.find(s => s.id !== id)?.id`: the first remaining session's id. */
  function FirstOther(ss: seq<Session>, id: string): (r: Option<string>)
    ensures r.None? <==> Without(ss, id) == []
    ensures r.Some? ==> r.value == Without(ss, id)[0].id
  {
    if |ss| == 0 then None
    else if ss[0].id != id then Some(ss[0].id)
    else FirstOther(ss[1..], id)
  }

  /**
   * `deleteSession`: every session with the id is removed; when it was
   * active, the first other session becomes active (none when the list had
   * at most one session).
   */
  function DeleteSession(c: Chats, id: string): (r: Chats)
    ensures r.sessions == Without(c.sessions, id)
    ensures c.active != Some(id) ==> r.active == c.active
    ensures c.active == Some(id) ==> r.active.None? || (|r.sessions| > 0 && r.active == Some(r.sessions[0].id))
    ensures c.active == Some(id) && |c.sessions| > 1 && |r.sessions| > 0 ==> r.active == Some(r.sessions[0].id)
  {
    var active := if c.active == Some(id) then (if |c.sessions| > 1 then FirstOther(c.sessions, id) else None) else c.active;
    Chats(Without(c.sessions, id), active)
  }

  /** Every update keeps the active id pointing at a session in the list, or at none. */
  lemma UpdatesKeepActiveValid(c: Chats, msg: ChatMessage, content: string, id: string, msgId: string, now: int)
    requires ActiveValid(c)
    ensures ActiveValid(OnStream(c, msg, now))
    ensures ActiveValid(OnTimeout(c, c.active, msgId, now))
    ensures ActiveValid(HandleSend(c, content, id, msgId, now).chats)
    ensures ActiveValid(DeleteSession(c, id))
  {
    var d := DeleteSession(c, id);
    if c.active.Some? && c.active != Some(id) {
      var i :| 0 <= i < |c.sessions| && c.sessions[i].id == c.active.value;
      assert c.sessions[i] in d.sessions;
      var j :| 0 <= j < |d.sessions| && d.sessions[j] == c.sessions[i];
    } else if d.active.Some? {
      assert d.sessions[0].id == d.active.value;
    }
    var sent := HandleSend(c, content, id, msgId, now).chats;
    if !HasActive(c.active) {
      assert sent.sessions[0].id == id;
    }
  }

  /** A new session deleted straight away leaves the list as it was, with its first session active. */
  lemma CreateThenDelete(c: Chats, id: string, now: int)
    requires forall i :: 0 <= i < |c.sessions| ==> c.sessions[i].id != id
    ensures DeleteSession(CreateSession(c, id, now), id).sessions == c.sessions
    ensures DeleteSession(CreateSession(c, id, now), id).active == if |c.sessions| > 0 then Some(c.sessions[0].id) else None
  {
    var created := CreateSession(c, id, now);
    assert created.sessions[1..] == c.sessions;
    assert Without(created.sessions, id) == Without(c.sessions, id);
  }

  /**
   * Sending into a fresh view and then streaming the reply leaves one
   * active session holding the user message followed by the reply.
   */
  lemma SendThenReply(content: string, sessionId: string, msgId: string, reply: ChatMessage, t0: int, t1: int)
    requires sessionId != "" && reply.id != msgId
    ensures var c := OnStream(HandleSend(Chats([], None), content, sessionId, msgId, t0).chats, reply, t1);
      c.active == Some(sessionId) && |c.sessions| == 1 &&
      c.sessions[0].messages == [UserMessage(msgId, content, t0), reply] && c.sessions[0].title == NewTitle(content)
  {
    var sent := HandleSend(Chats([], None), content, sessionId, msgId, t0).chats;
    assert sent.sessions == [Session(sessionId, NewTitle(content), [UserMessage(msgId, content, t0)], t0, t0)];
    var c := OnStream(sent, reply, t1);
    assert c.sessions[0] == StreamInto(sent.sessions[0], reply, t1);
  }

  /**
   * The waiting timer of a send that creates its session is armed with the
   * active id the send started from, which is none: when it fires, the new
   * session is left without the timeout message.
   */
  lemma AutoCreatedSendMissesTimeout(content: string, sessionId: string, msgId: string, errId: string, t0: int, t1: int)
    requires sessionId != ""
    ensures var start := Chats([], None);
      var sent := HandleSend(start, content, sessionId, msgId, t0);
      var r := OnTimeout(sent.chats, start.active, errId, t1);
      |r.sessions| == 1 && r.sessions[0].id == sent.sessionKey && r.sessions[0].messages == [UserMessage(msgId, content, t0)]
  {
    var sent := HandleSend(Chats([], None), content, sessionId, msgId, t0);
    assert sent.chats.sessions[0].messages == [UserMessage(msgId, content, t0)];
  }

  /**
   * Arming the timer for the session the message went to: when it fires,
   * that session ends with the user message and then the timeout message.
   * For a send into an active session this is the session the program
   * arms it for.
   */
  lemma TimeoutReachesSentSession(c: Chats, content: string, sessionId: string, msgId: string, errId: string, t0: int, t1: int)
    requires sessionId != ""
    requires !HasActive(c.active) ==> forall i :: 0 <= i < |c.sessions| ==> c.sessions[i].id != sessionId
    ensures var sent := HandleSend(c, content, sessionId, msgId, t0);
      HasActive(c.active) ==> c.active == Some(sent.sessionKey)
    ensures var sent := HandleSend(c, content, sessionId, msgId, t0);
      var r := OnTimeout(sent.chats, Some(sent.sessionKey), errId, t1);
      forall i :: 0 <= i < |r.sessions| && r.sessions[i].id == sent.sessionKey ==>
        var m := r.sessions[i].messages;
        |m| >= 2 && m[|m| - 2..] == [UserMessage(msgId, content, t0), ChatMessage(errId, "assistant", TimeoutText, t1, Failed)]
  {
    var sent := HandleSend(c, content, sessionId, msgId, t0);
    var r := OnTimeout(sent.chats, Some(sent.sessionKey), errId, t1);
    var err := ChatMessage(errId, "assistant", TimeoutText, t1, Failed);
    forall i | 0 <= i < |r.sessions| && r.sessions[i].id == sent.sessionKey
      ensures |r.sessions[i].messages| >= 2
      ensures r.sessions[i].messages[|r.sessions[i].messages| - 2..] == [UserMessage(msgId, content, t0), err]
    {
      var m := r.sessions[i].messages;
      var before := sent.chats.sessions[i].messages;
      assert m == before + [err];
      if HasActive(c.active) {
        assert before == c.sessions[i].messages + [UserMessage(msgId, content, t0)];
      } else if i == 0 {
        assert before == [UserMessage(msgId, content, t0)];
      } else {
        assert false;
      }
      assert m[|m| - 2..] == [UserMessage(msgId, content, t0), err];
    }
  }

  /** The setup wizard's steps as the progress bar lists them. */
  const SetupSteps: seq<string> := ["welcome", "model", "apikey", "workspace", "gateway", "channels", "complete"]

  /** `SETUP_STEPS.indexOf(step)`. */
  function StepIndex(step: string): (k: int)
    ensures -1 <= k < |SetupSteps|
    ensures k == -1 <==> step !in SetupSteps
    ensures k >= 0 ==> SetupSteps[k] == step
  {
    if step == "welcome" then 0 else if step == "model" then 1 else if step == "apikey" then 2
    else if step == "workspace" then 3 else if step == "gateway" then 4 else if step == "channels" then 5
    else if step == "complete" then 6 else -1
  }

  /** The class of the `i`-th dot of the progress bar while the wizard is on `step`. */
  function ProgressClass(step: string, i: nat): string
    requires i < |SetupSteps|
  {
    if step == SetupSteps[i] then "active" else if i < StepIndex(step) then "done" else ""
  }

  /**
   * The dots before the current step are done, the current one is active,
   * the later ones are unmarked; a step the bar does not list marks no dot.
   */
  lemma ProgressMarks(step: string, i: nat)
    requires i < |SetupSteps|
    ensures step in SetupSteps ==>
      (ProgressClass(step, i) == "done" <==> i < StepIndex(step)) &&
      (ProgressClass(step, i) == "active" <==> i == StepIndex(step)) &&
      (ProgressClass(step, i) == "" <==> i > StepIndex(step))
    ensures step !in SetupSteps ==> ProgressClass(step, i) == ""
  {
    assert forall a, b :: 0 <= a < b < |SetupSteps| ==> SetupSteps[a] != SetupSteps[b];
  }
}

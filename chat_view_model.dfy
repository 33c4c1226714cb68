/**
 * The chat conversation state of ViewModels/ChatViewModel.swift: the message
 * list a conversation screen shows, the streaming of an AI reply into a
 * placeholder message, and the clear/load fallbacks.
 *
 * Fresh UUIDs and Date() readings are parameters. The chunk stream that
 * sendMessage consumes is the NetworkManager.StreamResult the streaming call
 * delivers: the payloads in order, then a normal end or an error. The
 * history load takes the outcome of NetworkManager.Fetch.
 */
module ChatViewModel {
  import opened Wrappers
  import opened Models
  import NetworkManager

  const WelcomeText :=
    "Hi! I'm your financial coach. I'm here to help you understand your spending, stay on budget, and reach your financial goals. What would you like to know?"

  const ApologyText := "I'm having trouble connecting right now. Please try again."

  // ---------------------------------------------------------------------
  // Sender strings: conversation_history roles and the Codable conformance
  // ---------------------------------------------------------------------

  /** The string a sender is written as, both as a history role and on the wire. */
  function SenderString(s: MessageSender): (r: string)
    ensures r == "user" <==> s == User
    ensures s == Ai ==> r == "assistant"
  {
    if s == User then "user" else "assistant"
  }

  /** The sender a wire string is read as: only "user" is the user. */
  function SenderFromString(raw: string): (s: MessageSender)
    ensures s == User <==> raw == "user"
  {
    if raw == "user" then User else Ai
  }

  lemma SenderRoundTrip(s: MessageSender, raw: string)
    ensures SenderFromString(SenderString(s)) == s
    ensures raw in {"user", "assistant"} ==> SenderString(SenderFromString(raw)) == raw
  {
  }

  /** The keyed container a ChatMessage is encoded to. */
  datatype WireMessage = WireMessage(id: string, content: string, sender: string, timestamp: Date)

  function Encode(m: ChatMessage): (w: WireMessage)
    ensures w.id == m.id && w.content == m.content && w.timestamp == m.timestamp
    ensures w.sender == (if m.sender == User then "user" else "assistant")
  {
    WireMessage(m.id, m.content, SenderString(m.sender), m.timestamp)
  }

  function Decode(w: WireMessage): (m: ChatMessage)
    ensures m.id == w.id && m.content == w.content && m.timestamp == w.timestamp
    ensures m.sender == User <==> w.sender == "user"
    ensures !m.isStreaming
  {
    ChatMessage(w.id, w.content, SenderFromString(w.sender), w.timestamp, false)
  }

  /** Decoding an encoded message gives it back, except that it is no longer
      streaming; encoding a decoded container gives it back when its sender
      string is one the encoder writes. */
  lemma CodableRoundTrip(m: ChatMessage, w: WireMessage)
    ensures Decode(Encode(m)) == m.(isStreaming := false)
    ensures w.sender in {"user", "assistant"} ==> Encode(Decode(w)) == w
  {
    SenderRoundTrip(m.sender, w.sender);
  }

  // ---------------------------------------------------------------------
  // The stream request
  // ---------------------------------------------------------------------

  datatype HistoryEntry = HistoryEntry(role: string, content: string)

  /** The body of the streaming request. */
  datatype StreamRequest = StreamRequest(message: string, tone: string, history: seq<HistoryEntry>)

  /** The conversation_history entries for a list of messages, in order. */
  function History(ms: seq<ChatMessage>): (h: seq<HistoryEntry>)
    ensures |h| == |ms|
    ensures forall i :: 0 <= i < |ms| ==> h[i].content == ms[i].content
    ensures forall i :: 0 <= i < |ms| ==> (h[i].role == "user" <==> ms[i].sender == User)
    ensures forall i :: 0 <= i < |ms| ==> (h[i].role == "assistant" <==> ms[i].sender == Ai)
  {
    if ms == [] then []
    else [HistoryEntry(SenderString(ms[0].sender), ms[0].content)] + History(ms[1..])
  }

  // ---------------------------------------------------------------------
  // The message list operations
  // ---------------------------------------------------------------------

  /** No message of `ms` has this id. */
  predicate NoMessageWithId(ms: seq<ChatMessage>, id: string) {
    forall j :: 0 <= j < |ms| ==> ms[j].id != id
  }

  /** firstIndex(where: { $0.id == id }). */
  function FirstIndexOf(ms: seq<ChatMessage>, id: string): (r: Option<nat>)
    ensures r.Some? ==> r.value < |ms| && ms[r.value].id == id && NoMessageWithId(ms[..r.value], id)
    ensures r.None? <==> NoMessageWithId(ms, id)
  {
    if ms == [] then None
    else if ms[0].id == id then Some(0)
    else
      match FirstIndexOf(ms[1..], id)
      case None => None
      case Some(i) =>
        assert ms[..i + 1] == [ms[0]] + ms[1..][..i];
        Some(i + 1)
  }

  /** The list after the first message with this id is replaced by an AI
      message with the same id and timestamp and the given content and
      streaming flag; the list is unchanged when no message has the id. */
  function Rewritten(ms: seq<ChatMessage>, id: string, content: string, streaming: bool): seq<ChatMessage> {
    if ms == [] then []
    else if ms[0].id == id then [ChatMessage(id, content, Ai, ms[0].timestamp, streaming)] + ms[1..]
    else [ms[0]] + Rewritten(ms[1..], id, content, streaming)
  }

  /** removeAll { $0.id == id }: the messages without this id, in order. */
  function WithoutId(ms: seq<ChatMessage>, id: string): seq<ChatMessage> {
    if ms == [] then []
    else (if ms[0].id == id then [] else [ms[0]]) + WithoutId(ms[1..], id)
  }

  /** Removal keeps exactly the messages with another id, and none is left
      with the removed id. */
  lemma {:induction false} WithoutIdMembers(ms: seq<ChatMessage>, id: string)
    ensures NoMessageWithId(WithoutId(ms, id), id)
    ensures forall m :: m in WithoutId(ms, id) <==> m in ms && m.id != id
  {
    if ms != [] {
      WithoutIdMembers(ms[1..], id);
      assert ms == [ms[0]] + ms[1..];
    }
  }

  /** Replacing the message at firstIndex is the rewrite Rewritten describes. */
  lemma {:induction false} RewriteAtFirstIndex(ms: seq<ChatMessage>, id: string, content: string, streaming: bool)
    ensures FirstIndexOf(ms, id).None? ==> Rewritten(ms, id, content, streaming) == ms
    ensures FirstIndexOf(ms, id).Some? ==>
      var i := FirstIndexOf(ms, id).value;
      Rewritten(ms, id, content, streaming) == ms[i := ChatMessage(id, content, Ai, ms[i].timestamp, streaming)]
  {
    if ms != [] && ms[0].id != id {
      RewriteAtFirstIndex(ms[1..], id, content, streaming);
    }
  }

  /** A rewrite keeps the length, the ids and the timestamps, so a second
      rewrite of the same id replaces the first. */
  lemma {:induction false} RewrittenTwice(ms: seq<ChatMessage>, id: string, c1: string, s1: bool, c2: string, s2: bool)
    ensures |Rewritten(ms, id, c1, s1)| == |ms|
    ensures Rewritten(Rewritten(ms, id, c1, s1), id, c2, s2) == Rewritten(ms, id, c2, s2)
  {
    if ms != [] && ms[0].id != id {
      RewrittenTwice(ms[1..], id, c1, s1, c2, s2);
    }
  }

  /** Removing an id after rewriting it is removing it from the original list. */
  lemma {:induction false} WithoutRewritten(ms: seq<ChatMessage>, id: string, content: string, streaming: bool)
    ensures WithoutId(Rewritten(ms, id, content, streaming), id) == WithoutId(ms, id)
  {
    if ms != [] {
      WithoutRewritten(ms[1..], id, content, streaming);
      if ms[0].id == id {
        assert ([ChatMessage(id, content, Ai, ms[0].timestamp, streaming)] + ms[1..])[1..] == ms[1..];
      } else {
        assert ([ms[0]] + Rewritten(ms[1..], id, content, streaming))[1..] == Rewritten(ms[1..], id, content, streaming);
      }
    }
  }

  /** A rewrite skips a prefix without the id. */
  lemma {:induction false} RewrittenAfter(a: seq<ChatMessage>, b: seq<ChatMessage>, id: string, content: string, streaming: bool)
    requires NoMessageWithId(a, id)
    ensures Rewritten(a + b, id, content, streaming) == a + Rewritten(b, id, content, streaming)
  {
    if a == [] {
      assert a + b == b;
    } else {
      assert (a + b)[0] == a[0] && (a + b)[1..] == a[1..] + b;
      assert a[0].id != id;
      assert NoMessageWithId(a[1..], id);
      RewrittenAfter(a[1..], b, id, content, streaming);
      assert a + Rewritten(b, id, content, streaming) == [a[0]] + (a[1..] + Rewritten(b, id, content, streaming));
    }
  }

  /** Removal leaves a prefix without the id untouched. */
  lemma {:induction false} WithoutAfter(a: seq<ChatMessage>, b: seq<ChatMessage>, id: string)
    requires NoMessageWithId(a, id)
    ensures WithoutId(a + b, id) == a + WithoutId(b, id)
  {
    if a == [] {
      assert a + b == b;
    } else {
      assert (a + b)[0] == a[0] && (a + b)[1..] == a[1..] + b;
      assert a[0].id != id;
      assert NoMessageWithId(a[1..], id);
      WithoutAfter(a[1..], b, id);
      assert a + WithoutId(b, id) == [a[0]] + (a[1..] + WithoutId(b, id));
    }
  }

  /** The text accumulated by `fullResponse += chunk` over the chunks, in order. */
  function Joined(chunks: seq<string>): string {
    if chunks == [] then "" else Joined(chunks[..|chunks| - 1]) + chunks[|chunks| - 1]
  }

  /** The text shown while streaming only grows: after any number of chunks
      it is a prefix of the final text. */
  lemma {:induction false} JoinedPrefix(chunks: seq<string>, i: nat)
    requires i <= |chunks|
    ensures Joined(chunks[..i]) <= Joined(chunks)
    decreases |chunks|
  {
    if i < |chunks| {
      var init := chunks[..|chunks| - 1];
      assert chunks[..i] == init[..i];
      JoinedPrefix(init, i);
    } else {
      assert chunks[..i] == chunks;
    }
  }

  function WelcomeMessage(id: string, now: Date): (m: ChatMessage)
    ensures m.sender == Ai && m.content == WelcomeText && !m.isStreaming
  {
    NewChatMessage(id, WelcomeText, Ai, now)
  }

  function ApologyMessage(id: string, now: Date): (m: ChatMessage)
    ensures m.sender == Ai && m.content == ApologyText && !m.isStreaming
  {
    NewChatMessage(id, ApologyText, Ai, now)
  }

  /** The user message and the streaming placeholder sendMessage appends. */
  function Sent(text: string, userId: string, userTime: Date, aiId: string, aiTime: Date): (p: seq<ChatMessage>)
    ensures |p| == 2 && p[0].sender == User && p[0].content == text && !p[0].isStreaming
    ensures p[1].id == aiId && p[1].sender == Ai && p[1].content == "" && p[1].isStreaming
  {
    [NewChatMessage(userId, text, User, userTime), NewChatMessage(aiId, "", Ai, aiTime, true)]
  }

  /** With ids that do not collide, a finished reply leaves the old messages,
      the user message and the finalised reply: two messages more. */
  lemma SendFinishedShape(ms: seq<ChatMessage>, text: string, userId: string, userTime: Date,
                          aiId: string, aiTime: Date, reply: string)
    requires NoMessageWithId(ms, aiId) && userId != aiId
    ensures Rewritten(ms + Sent(text, userId, userTime, aiId, aiTime), aiId, reply, false)
      == ms + [NewChatMessage(userId, text, User, userTime), ChatMessage(aiId, reply, Ai, aiTime, false)]
    ensures |Rewritten(ms + Sent(text, userId, userTime, aiId, aiTime), aiId, reply, false)| == |ms| + 2
  {
    var p := Sent(text, userId, userTime, aiId, aiTime);
    RewrittenAfter(ms, p, aiId, reply, false);
    assert p[1..] == [p[1]];
  }

  /** With ids that do not collide, a failed reply leaves the old messages,
      the user message and the apology: two messages more. */
  lemma SendFailedShape(ms: seq<ChatMessage>, text: string, userId: string, userTime: Date,
                        aiId: string, aiTime: Date, apology: ChatMessage)
    requires NoMessageWithId(ms, aiId) && userId != aiId
    ensures WithoutId(ms + Sent(text, userId, userTime, aiId, aiTime), aiId) + [apology]
      == ms + [NewChatMessage(userId, text, User, userTime), apology]
    ensures |WithoutId(ms + Sent(text, userId, userTime, aiId, aiTime), aiId) + [apology]| == |ms| + 2
  {
    var p := Sent(text, userId, userTime, aiId, aiTime);
    WithoutAfter(ms, p, aiId);
    assert p[1..][1..] == [];
    assert WithoutId(p[1..], aiId) == [];
    assert WithoutId(p, aiId) == [p[0]];
    assert ms + [p[0]] + [apology] == ms + [p[0], apology];
  }

  // ---------------------------------------------------------------------
  // The view model
  // ---------------------------------------------------------------------

  class ChatViewModel {
    var messages: seq<ChatMessage>
    var isLoading: bool
    var currentTone: ChatTone
    var error: Option<NetworkManager.Thrown>
    var streamingMessageId: Option<string>

    constructor ()
      ensures messages == [] && !isLoading && currentTone == Supportive
      ensures error == None && streamingMessageId == None
    {
      messages := [];
      isLoading := false;
      currentTone := Supportive;
      error := None;
      streamingMessageId := None;
    }

    /** Replaces the first message with this id, as the chunk loop and the
        finalisation do. */
    method RewriteMessage(id: string, content: string, streaming: bool)
      modifies this
      ensures messages == Rewritten(old(messages), id, content, streaming)
      ensures isLoading == old(isLoading) && currentTone == old(currentTone)
      ensures error == old(error) && streamingMessageId == old(streamingMessageId)
    {
      var index := FirstIndexOf(messages, id);
      RewriteAtFirstIndex(messages, id, content, streaming);
      if index.Some? {
        var i := index.value;
        messages := messages[i := ChatMessage(id, content, Ai, messages[i].timestamp, streaming)];
      }
    }

    /** The chunk loop: each chunk is added to the accumulated text and the
        message with the id is rewritten to show it, still streaming. */
    method ApplyChunks(id: string, chunks: seq<string>) returns (fullResponse: string)
      modifies this
      ensures fullResponse == Joined(chunks)
      ensures messages == if chunks == [] then old(messages) else Rewritten(old(messages), id, fullResponse, true)
      ensures isLoading == old(isLoading) && currentTone == old(currentTone)
      ensures error == old(error) && streamingMessageId == old(streamingMessageId)
    {
      fullResponse := "";
      var i := 0;
      while i < |chunks|
        invariant 0 <= i <= |chunks|
        invariant fullResponse == Joined(chunks[..i])
        invariant messages == if i == 0 then old(messages) else Rewritten(old(messages), id, fullResponse, true)
        invariant isLoading == old(isLoading) && currentTone == old(currentTone)
        invariant error == old(error) && streamingMessageId == old(streamingMessageId)
      {
        assert chunks[..i + 1][..i] == chunks[..i];
        fullResponse := fullResponse + chunks[i];
        RewrittenTwice(old(messages), id, Joined(chunks[..i]), true, fullResponse, true);
        RewriteMessage(id, fullResponse, true);
        i := i + 1;
      }
      assert chunks[..i] == chunks;
    }

    /** Sends `text` and streams the reply into a placeholder message.
        Returns the body of the streaming request. `stream` is what the
        streaming call delivers. */
    method SendMessage(text: string, userId: string, userTime: Date, aiId: string, aiTime: Date,
                       apologyId: string, apologyTime: Date, stream: NetworkManager.StreamResult)
      returns (request: StreamRequest)
      modifies this
      ensures request == StreamRequest(text, old(currentTone).RawValue(),
                                       History(old(messages) + [NewChatMessage(userId, text, User, userTime)]))
      ensures stream.end.Finished? ==>
        messages == Rewritten(old(messages) + Sent(text, userId, userTime, aiId, aiTime), aiId, Joined(stream.yielded), false)
        && error == old(error)
      ensures stream.end.FailedWith? ==>
        messages == WithoutId(old(messages) + Sent(text, userId, userTime, aiId, aiTime), aiId) + [ApologyMessage(apologyId, apologyTime)]
        && error == Some(stream.end.error)
      ensures NoMessageWithId(old(messages), aiId) && userId != aiId && stream.end.Finished? ==>
        messages == old(messages) + [NewChatMessage(userId, text, User, userTime),
                                     ChatMessage(aiId, Joined(stream.yielded), Ai, aiTime, false)]
      ensures NoMessageWithId(old(messages), aiId) && userId != aiId && stream.end.FailedWith? ==>
        messages == old(messages) + [NewChatMessage(userId, text, User, userTime), ApologyMessage(apologyId, apologyTime)]
      ensures !isLoading && streamingMessageId == None && currentTone == old(currentTone)
    {
      var userMessage := NewChatMessage(userId, text, User, userTime);
      messages := messages + [userMessage];
      isLoading := true;
      streamingMessageId := Some(aiId);

      var aiMessage := NewChatMessage(aiId, "", Ai, aiTime, true);
      messages := messages + [aiMessage];
      ghost var start := messages;
      assert start == old(messages) + Sent(text, userId, userTime, aiId, aiTime);
      request := StreamRequest(text, currentTone.RawValue(), History(messages[..|messages| - 1]));
      assert messages[..|messages| - 1] == old(messages) + [userMessage];

      var fullResponse := ApplyChunks(aiId, stream.yielded);
      RewrittenTwice(start, aiId, fullResponse, true, fullResponse, false);
      WithoutRewritten(start, aiId, fullResponse, true);

      if stream.end.Finished? {
        RewriteMessage(aiId, fullResponse, false);
      } else {
        error := Some(stream.end.error);
        messages := WithoutId(messages, streamingMessageId.value) + [ApologyMessage(apologyId, apologyTime)];
      }

      if NoMessageWithId(old(messages), aiId) && userId != aiId {
        SendFinishedShape(old(messages), text, userId, userTime, aiId, aiTime, fullResponse);
        SendFailedShape(old(messages), text, userId, userTime, aiId, aiTime, ApologyMessage(apologyId, apologyTime));
      }
      isLoading := false;
      streamingMessageId := None;
    }

    method UpdateTone(tone: ChatTone)
      modifies this
      ensures currentTone == tone
      ensures messages == old(messages) && isLoading == old(isLoading)
      ensures error == old(error) && streamingMessageId == old(streamingMessageId)
    {
      currentTone := tone;
    }

    method AddWelcomeMessage(id: string, now: Date)
      modifies this
      ensures messages == old(messages) + [WelcomeMessage(id, now)]
      ensures isLoading == old(isLoading) && currentTone == old(currentTone)
      ensures error == old(error) && streamingMessageId == old(streamingMessageId)
    {
      messages := messages + [WelcomeMessage(id, now)];
    }

    /** Leaves exactly the welcome message. */
    method ClearConversation(welcomeId: string, now: Date)
      modifies this
      ensures messages == [WelcomeMessage(welcomeId, now)]
      ensures isLoading == old(isLoading) && currentTone == old(currentTone)
      ensures error == old(error) && streamingMessageId == old(streamingMessageId)
    {
      messages := [];
      AddWelcomeMessage(welcomeId, now);
    }

    /** Applies the outcome of fetching the history: the fetched messages
        replace the list; on failure the welcome message is added only to an
        empty list. */
    method LoadConversationHistory(outcome: Result<NetworkManager.APIResponse<seq<ChatMessage>>, NetworkManager.Thrown>,
                                   welcomeId: string, now: Date)
      modifies this
      ensures outcome.Success? ==> messages == outcome.value.data
      ensures outcome.Failure? && old(messages) == [] ==> messages == [WelcomeMessage(welcomeId, now)]
      ensures outcome.Failure? && old(messages) != [] ==> messages == old(messages)
      ensures isLoading == old(isLoading) && currentTone == old(currentTone)
      ensures error == old(error) && streamingMessageId == old(streamingMessageId)
    {
      if outcome.Success? {
        messages := outcome.value.data;
      } else if messages == [] {
        AddWelcomeMessage(welcomeId, now);
      }
    }
  }
}

/** The chat page's session state (app/page.tsx): the collection of sessions and the
    id of the active one, and the handlers that take the current collection to the
    next. Each handler is a method of SessionStore; the next collection each computes
    is a function below, stated in terms of what happens to the target session and
    to the others. */
module ChatPage {
  import opened NumberText
  import opened ChatService

  /** Some session of the collection has this id. */
  predicate HasId(s: seq<ChatSession>, id: string) {
    exists i :: 0 <= i < |s| && s[i].id == id
  }

  /** The position of the first session with this id (`find`). */
  function FindIndex(s: seq<ChatSession>, id: string): (r: Option<nat>)
    ensures r.None? <==> !HasId(s, id)
    ensures r.Some? ==> r.value < |s| && s[r.value].id == id
    ensures r.Some? ==> forall j :: 0 <= j < r.value ==> s[j].id != id
    decreases |s|
  {
    if s == [] then None
    else if s[0].id == id then Some(0)
    else
      match FindIndex(s[1..], id)
      case None =>
        assert forall i :: 1 <= i < |s| ==> s[i] == s[1..][i - 1];
        None
      case Some(k) => Some(k + 1)
  }

  // ---------------------------------------------------------------------------
  // Backend outcomes and the messages they produce

  /** The body `sendMessage` posts. */
  datatype ChatRequest = ChatRequest(sessionId: string, query: string)

  /** What `sendMessage` resolves to: an answer, or a thrown error (a transport
      failure or a non-2xx status). */
  datatype SendOutcome = Answered(answer: string) | SendFailed

  /** What `resetChatSession` resolves to: a parsed reply, or a thrown error. */
  datatype ResetOutcome = ResetReply(success: bool) | ResetFailed

  /** What reading the stored active id yields: an id, nothing, or an exception
      from the browser store. */
  datatype IdLookup = StoredId(id: string) | NoStoredId | StorageError

  const ErrorReply := "Sorry, I encountered an error. Please try again."

  /** The optimistic user message; its id is the clock reading in decimal. */
  function UserMessage(content: string, now: nat): (m: Message)
    ensures m.isUser && m.content == content && m.timestamp == now
  {
    Message(ToRadix(now, 10), content, true, now)
  }

  /** The message that answers a send: the backend's answer, or the fixed error text;
      its id is the clock reading plus one, in decimal. */
  function ReplyMessage(outcome: SendOutcome, now: nat): (m: Message)
    ensures !m.isUser && m.timestamp == now
    ensures outcome.Answered? ==> m.content == outcome.answer
    ensures outcome.SendFailed? ==> m.content == ErrorReply
  {
    var content := match outcome
      case Answered(answer) => answer
      case SendFailed => ErrorReply;
    Message(ToRadix(now + 1, 10), content, false, now)
  }

  /** A user message and the reply to it, whose clock is read no earlier, have
      different ids. */
  lemma SendIdsDistinct(content: string, outcome: SendOutcome, sentAt: nat, repliedAt: nat)
    requires sentAt <= repliedAt
    ensures UserMessage(content, sentAt).id != ReplyMessage(outcome, repliedAt).id
  {
    ToRadixInjective(sentAt, repliedAt + 1, 10);
  }

  /** The title after a send: a sentinel title becomes the content, cut to 30
      characters with "..." only when the content is longer; any other title stays. */
  function SendTitle(title: string, content: string): (t: string)
    ensures title != NewChatTitle ==> t == title
    ensures title == NewChatTitle && |content| <= TitleLength ==> t == content
    ensures title == NewChatTitle && |content| > TitleLength ==>
      |t| == TitleLength + 3 && t[..TitleLength] == content[..TitleLength] && t[TitleLength..] == "..."
  {
    if title == NewChatTitle then
      TitlePrefix(content) + (if |content| > TitleLength then "..." else "")
    else title
  }

  // ---------------------------------------------------------------------------
  // Next collections

  /** `prev.map((chat) => chat.id === id ? f(chat) : chat)`. */
  function UpdateWhere(s: seq<ChatSession>, id: string, f: ChatSession -> ChatSession): (r: seq<ChatSession>)
    ensures |r| == |s|
    ensures forall i :: 0 <= i < |s| ==> r[i] == if s[i].id == id then f(s[i]) else s[i]
    decreases |s|
  {
    if s == [] then []
    else [if s[0].id == id then f(s[0]) else s[0]] + UpdateWhere(s[1..], id, f)
  }

  /** The optimistic update of a send: every session with the target id gains
      exactly the user message at its end, its `lastMessage` becomes that message's
      time and its title follows SendTitle; every other session is unchanged. */
  function ApplySend(s: seq<ChatSession>, target: string, content: string, m: Message): (r: seq<ChatSession>)
    ensures |r| == |s|
    ensures forall i :: 0 <= i < |s| && s[i].id != target ==> r[i] == s[i]
    ensures forall i :: 0 <= i < |s| && s[i].id == target ==>
      && r[i].id == s[i].id && r[i].sessionId == s[i].sessionId
      && r[i].messages == s[i].messages + [m]
      && r[i].title == SendTitle(s[i].title, content)
      && r[i].lastMessage == m.timestamp
      && TracksLastMessage(r[i])
  {
    UpdateWhere(s, target, (c: ChatSession) => c.(messages := c.messages + [m],
                                   title := SendTitle(c.title, content),
                                   lastMessage := m.timestamp))
  }

  /** The completion of a send: every session with the target id gains exactly the
      reply at its end and its `lastMessage` becomes the reply's time; titles and all
      other sessions are unchanged. */
  function ApplyReply(s: seq<ChatSession>, target: string, m: Message): (r: seq<ChatSession>)
    ensures |r| == |s|
    ensures forall i :: 0 <= i < |s| && s[i].id != target ==> r[i] == s[i]
    ensures forall i :: 0 <= i < |s| && s[i].id == target ==>
      && r[i].id == s[i].id && r[i].sessionId == s[i].sessionId && r[i].title == s[i].title
      && r[i].messages == s[i].messages + [m]
      && r[i].lastMessage == m.timestamp
      && TracksLastMessage(r[i])
  {
    UpdateWhere(s, target, (c: ChatSession) => c.(messages := c.messages + [m], lastMessage := m.timestamp))
  }

  /** A successful reset: every session with the target id keeps its ids but has
      the single greeting as its messages and the sentinel title again; every other
      session is unchanged. The greeting is stamped `greetingAt` and `lastMessage`
      is the later reading `now`. */
  function ApplyReset(s: seq<ChatSession>, target: string, greetingAt: Date, now: Date): (r: seq<ChatSession>)
    ensures |r| == |s|
    ensures forall i :: 0 <= i < |s| && s[i].id != target ==> r[i] == s[i]
    ensures forall i :: 0 <= i < |s| && s[i].id == target ==>
      && r[i].id == s[i].id && r[i].sessionId == s[i].sessionId
      && |r[i].messages| == 1
      && r[i].messages[0].id == "1" && !r[i].messages[0].isUser && r[i].messages[0].content == Greeting
      && r[i].title == NewChatTitle
      && r[i].messages[0].timestamp == greetingAt && r[i].lastMessage == now
      && (TracksLastMessage(r[i]) <==> greetingAt == now)
  {
    UpdateWhere(s, target, (c: ChatSession) => c.(messages := [GreetingMessage(greetingAt)], title := NewChatTitle, lastMessage := now))
  }

  /** A reset session has the messages and title of a session the factory makes at
      the same instant, and keeps its own identity. */
  lemma ResetMatchesFactory(s: seq<ChatSession>, target: string, seed: Seed, i: nat)
    requires i < |s| && s[i].id == target
    ensures ApplyReset(s, target, seed.greetingAt, seed.createdAt)[i].messages == NewChatSession(seed).messages
    ensures ApplyReset(s, target, seed.greetingAt, seed.createdAt)[i].title == NewChatSession(seed).title
    ensures ApplyReset(s, target, seed.greetingAt, seed.createdAt)[i].lastMessage == NewChatSession(seed).lastMessage
    ensures ApplyReset(s, target, seed.greetingAt, seed.createdAt)[i].id == s[i].id
  {
  }

  /** A whole send on the target session: two messages appended, the user's then
      the reply, the title as after the user message, `lastMessage` the reply's time. */
  lemma {:induction false} SendThenReply(s: seq<ChatSession>, target: string, content: string, u: Message, m: Message, i: nat)
    requires i < |s| && s[i].id == target
    ensures var r := ApplyReply(ApplySend(s, target, content, u), target, m);
      && |r| == |s|
      && r[i].messages == s[i].messages + [u, m]
      && r[i].title == SendTitle(s[i].title, content)
      && r[i].lastMessage == m.timestamp
  {
  }

  /** A greeting-only session titled "New Chat" that is sent "Hi" and answered
      "Hello back" ends with the greeting, "Hi" from the user and "Hello back" from
      the bot, and is titled "Hi". */
  lemma SendScenario(seed: Seed, sentAt: nat, repliedAt: nat)
    ensures var c := NewChatSession(seed);
      var r := ApplyReply(ApplySend([c], c.id, "Hi", UserMessage("Hi", sentAt)), c.id,
                          ReplyMessage(Answered("Hello back"), repliedAt));
      && |r| == 1 && r[0].title == "Hi" && |r[0].messages| == 3
      && r[0].messages[1].isUser && r[0].messages[1].content == "Hi"
      && !r[0].messages[2].isUser && r[0].messages[2].content == "Hello back"
  {
  }

  /** `prev.filter((chat) => chat.id !== id)`. */
  function Without(s: seq<ChatSession>, id: string): (r: seq<ChatSession>)
    ensures forall i :: 0 <= i < |r| ==> r[i].id != id
    ensures forall c :: c in r <==> c in s && c.id != id
    ensures !HasId(s, id) ==> r == s
    ensures HasId(s, id) ==> |r| < |s|
    decreases |s|
  {
    if s == [] then []
    else
      var rest := Without(s[1..], id);
      assert !HasId(s[1..], id) ==> forall i :: 1 <= i < |s| ==> s[i].id != id by {
        forall i | 1 <= i < |s| ensures s[i] == s[1..][i - 1] { }
      }
      assert HasId(s[1..], id) ==> HasId(s, id) by {
        if HasId(s[1..], id) {
          var i :| 0 <= i < |s| - 1 && s[1..][i].id == id;
          assert s[i + 1].id == id;
        }
      }
      if s[0].id == id then rest else [s[0]] + rest
  }

  /** Filtering distributes over concatenation, so it keeps the survivors' order. */
  lemma {:induction false} WithoutAppend(a: seq<ChatSession>, b: seq<ChatSession>, id: string)
    ensures Without(a + b, id) == Without(a, id) + Without(b, id)
    decreases |a|
  {
    if a == [] {
      assert a + b == b;
    } else {
      assert (a + b)[0] == a[0];
      assert (a + b)[1..] == a[1..] + b;
      WithoutAppend(a[1..], b, id);
    }
  }

  /** A delete removes a list whose sessions all carry the id entirely. */
  lemma {:induction false} WithoutAllMatching(s: seq<ChatSession>, id: string)
    requires forall i :: 0 <= i < |s| ==> s[i].id == id
    ensures Without(s, id) == []
    decreases |s|
  {
    if s != [] {
      WithoutAllMatching(s[1..], id);
    }
  }

  /** The first survivor of a delete is the first session whose id differs. */
  lemma FirstSurvivor(s: seq<ChatSession>, id: string, k: nat)
    requires k < |s| && s[k].id != id
    requires forall j :: 0 <= j < k ==> s[j].id == id
    ensures |Without(s, id)| > 0 && Without(s, id)[0] == s[k]
  {
    assert s == s[..k] + s[k..];
    WithoutAppend(s[..k], s[k..], id);
    WithoutAllMatching(s[..k], id);
    assert s[k..] == [s[k]] + s[k + 1..];
  }

  /** The reconciliation pass of initialisation: a session with at most one message
      is replaced by the reconciler's result for it, any other passes through; the
      order and the local ids stay as they were. */
  function ReconcileAll(s: seq<ChatSession>, history: string -> HistoryOutcome, now: Date): (r: seq<ChatSession>)
    ensures |r| == |s|
    ensures forall i :: 0 <= i < |s| && |s[i].messages| > 1 ==> r[i] == s[i]
    ensures forall i :: 0 <= i < |s| && |s[i].messages| <= 1 ==>
      r[i] == ReconcileSession(s[i], history(s[i].sessionId), now)
    ensures forall i :: 0 <= i < |s| ==> r[i].id == s[i].id
    decreases |s|
  {
    if s == [] then []
    else
      var head := if |s[0].messages| <= 1 then ReconcileSession(s[0], history(s[0].sessionId), now) else s[0];
      [head] + ReconcileAll(s[1..], history, now)
  }

  /** The active id after initialisation: the stored id when it is non-empty and
      names a session, otherwise the first session's id (absent only for an empty
      collection). */
  function ResolveActiveId(s: seq<ChatSession>, stored: IdLookup): (r: Option<string>)
    ensures r.Some? ==> HasId(s, r.value)
    ensures r.None? <==> |s| == 0
    ensures stored.StoredId? && stored.id != "" && HasId(s, stored.id) ==> r == Some(stored.id)
    ensures !(stored.StoredId? && stored.id != "" && HasId(s, stored.id)) && |s| > 0 ==> r == Some(s[0].id)
  {
    if stored.StoredId? && stored.id != "" && FindIndex(s, stored.id).Some? then Some(stored.id)
    else if |s| > 0 then Some(s[0].id)
    else None
  }

  // ---------------------------------------------------------------------------
  // The page's state

  /** The chat page's state: the sessions and the id of the active one. */
  class SessionStore {
    var chatSessions: seq<ChatSession>
    var currentChatId: string

    /** The active id names a session of the collection. This is not an invariant of
        the page: before initialisation and after selecting an unknown id it fails. */
    ghost predicate HasActiveChat()
      reads this
    {
      HasId(chatSessions, currentChatId)
    }

    /** The state before initialisation: no sessions, an empty active id. */
    constructor ()
      ensures chatSessions == [] && currentChatId == ""
    {
      chatSessions := [];
      currentChatId := "";
    }

    /** `currentChat`: the first session whose id is the active id, if any. */
    function CurrentChat(): (r: Option<ChatSession>)
      reads this
      ensures r.Some? <==> HasActiveChat()
      ensures r.Some? ==> r.value in chatSessions && r.value.id == currentChatId
      ensures r.Some? ==> exists k :: (0 <= k < |chatSessions| && chatSessions[k] == r.value
                                       && forall j :: 0 <= j < k ==> chatSessions[j].id != currentChatId)
    {
      match FindIndex(chatSessions, currentChatId)
      case Some(k) => Some(chatSessions[k])
      case None => None
    }

    /** `initializeChatSessions`: load the stored collection (one fresh session if it
        is empty), reconcile every session with at most one message against its
        history, then take the stored active id if it names a session and the first
        session's otherwise. An exception from the store's active-id entry drops all
        of that for a single fresh session. */
    method Initialize(stored: StoredValue, parseDate: string -> Date, storedId: IdLookup,
                      seed: Seed, fallback: Seed, history: string -> HistoryOutcome, now: Date)
      modifies this
      ensures storedId.StorageError? ==>
        chatSessions == [NewChatSession(fallback)] && currentChatId == NewChatSession(fallback).id
      ensures !storedId.StorageError? ==>
        var loaded := LoadSessions(stored, parseDate);
        var start := if |loaded| == 0 then [NewChatSession(seed)] else loaded;
        chatSessions == ReconcileAll(start, history, now)
      ensures !storedId.StorageError? ==>
        var active := ResolveActiveId(chatSessions, storedId);
        currentChatId == if active.Some? && active.value != "" then active.value else old(currentChatId)
      ensures |chatSessions| > 0
      ensures old(currentChatId) == "" ==> HasActiveChat()
    {
      if storedId.StorageError? {
        var newSession := NewChatSession(fallback);
        chatSessions := [newSession];
        currentChatId := newSession.id;
        assert chatSessions[0].id == currentChatId;
        return;
      }
      var sessions := LoadSessions(stored, parseDate);
      if |sessions| == 0 {
        sessions := [NewChatSession(seed)];
      }
      var validSessions := ReconcileAll(sessions, history, now);
      chatSessions := validSessions;
      var active := ResolveActiveId(validSessions, storedId);
      if active.Some? && active.value != "" {
        currentChatId := active.value;
      }
    }

    /** The optimistic half of `handleSendMessage`: with no active session nothing
        happens; otherwise the user message is appended to the active session and
        the request for the backend is returned. */
    method SendOptimistic(content: string, now: nat) returns (request: Option<ChatRequest>)
      modifies this
      ensures currentChatId == old(currentChatId)
      ensures request.Some? <==> old(HasActiveChat())
      ensures request.None? ==> chatSessions == old(chatSessions)
      ensures request.Some? ==>
        && request.value == ChatRequest(old(CurrentChat()).value.sessionId, content)
        && chatSessions == ApplySend(old(chatSessions), currentChatId, content, UserMessage(content, now))
      ensures HasActiveChat() <==> old(HasActiveChat())
    {
      var current := CurrentChat();
      if current.None? {
        return None;
      }
      var before := chatSessions;
      chatSessions := ApplySend(chatSessions, currentChatId, content, UserMessage(content, now));
      assert HasId(before, currentChatId) ==> HasId(chatSessions, currentChatId) by {
        if HasId(before, currentChatId) {
          var i :| 0 <= i < |before| && before[i].id == currentChatId;
          assert chatSessions[i].id == currentChatId;
        }
      }
      request := Some(ChatRequest(current.value.sessionId, content));
    }

    /** The completion of `handleSendMessage`: the reply (the answer, or the error
        text when the send threw) is appended to the session the send started on,
        `target`, which need not be the active one any more. */
    method CompleteSend(target: string, outcome: SendOutcome, now: nat)
      modifies this
      ensures currentChatId == old(currentChatId)
      ensures chatSessions == ApplyReply(old(chatSessions), target, ReplyMessage(outcome, now))
      ensures HasActiveChat() <==> old(HasActiveChat())
    {
      var before := chatSessions;
      chatSessions := ApplyReply(chatSessions, target, ReplyMessage(outcome, now));
      assert HasId(before, currentChatId) ==> HasId(chatSessions, currentChatId) by {
        if HasId(before, currentChatId) {
          var i :| 0 <= i < |before| && before[i].id == currentChatId;
          assert chatSessions[i].id == currentChatId;
        }
      }
    }

    /** `handleSendMessage` run to its end with no other handler in between: the
        backend is asked with the active session's backend id, and the active session
        gains the user message and then the reply. */
    method HandleSendMessage(content: string, sentAt: nat, backend: ChatRequest -> SendOutcome, repliedAt: nat)
      modifies this
      ensures currentChatId == old(currentChatId)
      ensures !old(HasActiveChat()) ==> chatSessions == old(chatSessions)
      ensures old(HasActiveChat()) ==>
        var outcome := backend(ChatRequest(old(CurrentChat()).value.sessionId, content));
        chatSessions == ApplyReply(ApplySend(old(chatSessions), currentChatId, content, UserMessage(content, sentAt)),
                                   currentChatId, ReplyMessage(outcome, repliedAt))
      ensures HasActiveChat() <==> old(HasActiveChat())
    {
      var target := currentChatId;
      var request := SendOptimistic(content, sentAt);
      if request.Some? {
        CompleteSend(target, backend(request.value), repliedAt);
      }
    }

    /** `handleResetChat`: with no active session nothing happens; otherwise the
        backend is asked to reset the active session's backend id, and only a reply
        with success resets that session to a lone greeting and the sentinel title. */
    method HandleResetChat(backend: string -> ResetOutcome, greetingAt: Date, now: Date)
      modifies this
      ensures currentChatId == old(currentChatId)
      ensures old(HasActiveChat()) && backend(old(CurrentChat()).value.sessionId) == ResetReply(true) ==>
        chatSessions == ApplyReset(old(chatSessions), currentChatId, greetingAt, now)
      ensures !(old(HasActiveChat()) && backend(old(CurrentChat()).value.sessionId) == ResetReply(true)) ==>
        chatSessions == old(chatSessions)
      ensures HasActiveChat() <==> old(HasActiveChat())
    {
      var current := CurrentChat();
      if current.None? {
        return;
      }
      var response := backend(current.value.sessionId);
      if response == ResetReply(true) {
        var before := chatSessions;
        chatSessions := ApplyReset(chatSessions, currentChatId, greetingAt, now);
        assert HasId(before, currentChatId) ==> HasId(chatSessions, currentChatId) by {
          if HasId(before, currentChatId) {
            var i :| 0 <= i < |before| && before[i].id == currentChatId;
            assert chatSessions[i].id == currentChatId;
          }
        }
      }
    }

    /** `handleNewChat`: a fresh session is put in front and becomes active. */
    method HandleNewChat(seed: Seed)
      modifies this
      ensures chatSessions == [NewChatSession(seed)] + old(chatSessions)
      ensures |chatSessions| == |old(chatSessions)| + 1 && chatSessions[1..] == old(chatSessions)
      ensures currentChatId == chatSessions[0].id
      ensures HasActiveChat()
    {
      var newSession := NewChatSession(seed);
      chatSessions := [newSession] + chatSessions;
      currentChatId := newSession.id;
      assert chatSessions[0].id == currentChatId;
    }

    /** `handleSelectChat`: the active id becomes the given id, checked or not. */
    method HandleSelectChat(chatId: string)
      modifies this
      ensures chatSessions == old(chatSessions)
      ensures currentChatId == chatId
      ensures HasActiveChat() <==> HasId(chatSessions, chatId)
    {
      currentChatId := chatId;
    }

    /** `handleDeleteChat`: every session with the id is removed. When it was the
        active id, the first remaining session becomes active, or, if none remains,
        a fresh session is added and made active. */
    method HandleDeleteChat(chatId: string, seed: Seed)
      modifies this
      ensures chatId != old(currentChatId) ==>
        chatSessions == Without(old(chatSessions), chatId) && currentChatId == old(currentChatId)
      ensures chatId == old(currentChatId) && |Without(old(chatSessions), chatId)| > 0 ==>
        chatSessions == Without(old(chatSessions), chatId) && currentChatId == chatSessions[0].id
      ensures chatId == old(currentChatId) && |Without(old(chatSessions), chatId)| == 0 ==>
        chatSessions == [NewChatSession(seed)] && currentChatId == chatSessions[0].id
      ensures chatId == old(currentChatId) ==> |chatSessions| > 0 && HasActiveChat()
      ensures old(HasActiveChat()) ==> HasActiveChat()
    {
      var filtered := Without(chatSessions, chatId);
      if chatId == currentChatId {
        var nextChat := if |filtered| > 0 then filtered[0] else NewChatSession(seed);
        if |filtered| == 0 {
          filtered := filtered + [nextChat];
        }
        currentChatId := nextChat.id;
        assert filtered[0].id == currentChatId;
      } else if HasId(chatSessions, currentChatId) {
        var i :| 0 <= i < |chatSessions| && chatSessions[i].id == currentChatId;
        assert chatSessions[i] in filtered;
      }
      chatSessions := filtered;
    }
  }
}

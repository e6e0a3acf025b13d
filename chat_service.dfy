/** The chat service helpers of lib/services/chat-service.ts: the message and session
    records, the id generators, the session factory, the history reconciler and the
    conversion of the stored session collection back into sessions.

    Clocks, randomness, the backend and the browser store are not called here: a
    clock reading, the random digits, the backend's reply and the stored value are
    parameters. */
module ChatService {
  import opened NumberText

  datatype Option<T> = None | Some(value: T)

  /** A point in time, in milliseconds since the epoch. */
  type Date = int

  datatype Message = Message(id: string, content: string, isUser: bool, timestamp: Date)

  /** One conversation thread: a local id, the backend's session id, a title, the
      messages in order, and the time of the last message. */
  datatype ChatSession = ChatSession(
    id: string,
    sessionId: string,
    title: string,
    messages: seq<Message>,
    lastMessage: Date)

  /** The title a session carries until a user message names it. */
  const NewChatTitle := "New Chat"
  const Greeting := "Hello! How can I help you today?"
  /** The title the reconciler gives a history without a user message. */
  const HistoryFallbackTitle := "Chat History"
  const TitleLength := 30

  /** A session's `lastMessage` is the timestamp of its last message. */
  predicate TracksLastMessage(c: ChatSession) {
    |c.messages| > 0 && c.lastMessage == c.messages[|c.messages| - 1].timestamp
  }

  /** The first `TitleLength` characters of a text (`slice(0, 30)`). */
  function TitlePrefix(text: string): (p: string)
    ensures |text| <= TitleLength ==> p == text
    ensures |text| > TitleLength ==> |p| == TitleLength && p == text[..TitleLength]
  {
    if |text| <= TitleLength then text else text[..TitleLength]
  }

  // ---------------------------------------------------------------------------
  // Identifiers

  /** `generateSessionId`: the base-36 digits of a random fraction followed by the
      clock reading in base 36. */
  function GenerateSessionId(random: seq<Digit>, now: nat): (id: string)
    ensures |id| > 0
    ensures forall i :: 0 <= i < |id| ==> IsBase36Char(id[i])
  {
    DigitsText(random) + ToRadix(now, 36)
  }

  /** `generateChatId`: the prefix "chat_", then the same shape as a session id. */
  function GenerateChatId(random: seq<Digit>, now: nat): (id: string)
    ensures |id| > 5 && id[..5] == "chat_"
  {
    "chat_" + DigitsText(random) + ToRadix(now, 36)
  }

  /** A chat id never equals a session id, whatever the random digits and clocks:
      the chat id holds '_' and a session id holds base-36 characters only. */
  lemma ChatIdIsNotSessionId(chatRandom: seq<Digit>, chatNow: nat, sessionRandom: seq<Digit>, sessionNow: nat)
    ensures GenerateChatId(chatRandom, chatNow) != GenerateSessionId(sessionRandom, sessionNow)
  {
    var c := GenerateChatId(chatRandom, chatNow);
    var s := GenerateSessionId(sessionRandom, sessionNow);
    assert c[4] == '_';
    if |s| > 4 {
      assert IsBase36Char(s[4]);
    }
  }

  // ---------------------------------------------------------------------------
  // Session factory

  /** What the clock and the random generator supply to one session creation: the
      random digits and clock reading of each id generator, the reading stamped on the
      greeting, and the later reading stored as `lastMessage`. */
  datatype Seed = Seed(
    chatRandom: seq<Digit>,
    chatClock: nat,
    sessionRandom: seq<Digit>,
    sessionClock: nat,
    greetingAt: Date,
    createdAt: Date)

  /** The greeting every new or reset session starts with. */
  function GreetingMessage(now: Date): (m: Message)
    ensures m.id == "1" && m.content == Greeting && !m.isUser && m.timestamp == now
  {
    Message("1", Greeting, false, now)
  }

  /** `createNewChatSession`. */
  function NewChatSession(seed: Seed): (c: ChatSession)
    ensures c.title == NewChatTitle
    ensures |c.messages| == 1
    ensures c.messages[0].id == "1" && c.messages[0].content == Greeting && !c.messages[0].isUser
    ensures c.messages[0].timestamp == seed.greetingAt && c.lastMessage == seed.createdAt
    ensures TracksLastMessage(c) <==> seed.greetingAt == seed.createdAt
    ensures |c.id| > 5 && c.id[..5] == "chat_"
    ensures c.id != c.sessionId
  {
    ChatIdIsNotSessionId(seed.chatRandom, seed.chatClock, seed.sessionRandom, seed.sessionClock);
    ChatSession(
      GenerateChatId(seed.chatRandom, seed.chatClock),
      GenerateSessionId(seed.sessionRandom, seed.sessionClock),
      NewChatTitle,
      [GreetingMessage(seed.greetingAt)],
      seed.createdAt)
  }

  // ---------------------------------------------------------------------------
  // History reconciler

  /** One entry of the backend's history: who sent it and its text. */
  datatype HistoryEntry = HistoryEntry(sender: string, text: string)

  /** What `getChatHistory` gives the reconciler: a parsed reply, or a thrown error. */
  datatype HistoryOutcome =
    | HistoryReply(success: bool, data: Option<seq<HistoryEntry>>)
    | HistoryFailed

  /** The reconciler's condition for replacing the messages. */
  predicate HasHistory(h: HistoryOutcome) {
    h.HistoryReply? && h.success && h.data.Some? && |h.data.value| > 0
  }

  /** The id of the history message at a position: "history_" and the position in decimal. */
  function HistoryMessageId(index: nat): (id: string)
    ensures |id| > 8 && id[..8] == "history_"
  {
    "history_" + ToRadix(index, 10)
  }

  /** The history entries from position `start` on, mapped to messages stamped `now`. */
  function HistoryMessagesFrom(data: seq<HistoryEntry>, start: nat, now: Date): (ms: seq<Message>)
    ensures |ms| == |data|
    ensures forall i :: 0 <= i < |data| ==>
      && ms[i].id == HistoryMessageId(start + i)
      && ms[i].content == data[i].text
      && ms[i].isUser == (data[i].sender == "user")
      && ms[i].timestamp == now
    decreases |data|
  {
    if data == [] then
      []
    else
      [Message(HistoryMessageId(start), data[0].text, data[0].sender == "user", now)]
        + HistoryMessagesFrom(data[1..], start + 1, now)
  }

  /** The messages the reconciler builds from the backend's history. */
  function HistoryMessages(data: seq<HistoryEntry>, now: Date): seq<Message> {
    HistoryMessagesFrom(data, 0, now)
  }

  /** Positional history ids are pairwise distinct. */
  lemma HistoryIdsDistinct(data: seq<HistoryEntry>, now: Date, i: nat, j: nat)
    requires i < j < |data|
    ensures HistoryMessages(data, now)[i].id != HistoryMessages(data, now)[j].id
  {
    var ms := HistoryMessages(data, now);
    ToRadixInjective(i, j, 10);
    assert ms[i].id[8..] == ToRadix(i, 10);
    assert ms[j].id[8..] == ToRadix(j, 10);
  }

  /** The content of the first user message (`messages.find((m) => m.isUser)?.content`). */
  function FirstUserContent(ms: seq<Message>): (r: Option<string>)
    ensures r.None? <==> forall i :: 0 <= i < |ms| ==> !ms[i].isUser
    ensures r.Some? ==> exists k :: (0 <= k < |ms| && ms[k].isUser && ms[k].content == r.value
                                     && forall j :: 0 <= j < k ==> !ms[j].isUser)
  {
    if ms == [] then None
    else if ms[0].isUser then Some(ms[0].content)
    else
      var r := FirstUserContent(ms[1..]);
      assert r.Some? ==> exists k :: (0 < k < |ms| && ms[k].isUser && ms[k].content == r.value
                                      && forall j :: 0 <= j < k ==> !ms[j].isUser) by {
        if r.Some? {
          var k :| 0 <= k < |ms| - 1 && ms[1..][k].isUser && ms[1..][k].content == r.value
            && forall j :: 0 <= j < k ==> !ms[1..][j].isUser;
          assert ms[k + 1].isUser && ms[k + 1].content == r.value;
          assert forall j :: 0 <= j < k + 1 ==> !ms[j].isUser by {
            forall j | 0 <= j < k + 1 ensures !ms[j].isUser {
              if j > 0 { assert ms[j] == ms[1..][j - 1]; }
            }
          }
        }
      }
      r
  }

  /** The title the reconciler computes, as the code is written: a sentinel title
      becomes the first user message cut to 30 characters plus "...", and with no
      user message `undefined + '...'` yields "undefined...", so the
      "Chat History" alternative is never reached. */
  function HistoryTitleAsWritten(title: string, ms: seq<Message>): (t: string)
    ensures title != NewChatTitle ==> t == title
    ensures title == NewChatTitle ==> |t| >= 3 && t[|t| - 3..] == "..."
    ensures title == NewChatTitle && FirstUserContent(ms).Some? ==>
      t == TitlePrefix(FirstUserContent(ms).value) + "..."
  {
    if title != NewChatTitle then title
    else
      match FirstUserContent(ms)
      case Some(content) => TitlePrefix(content) + "..."
      case None => "undefined" + "..."
  }

  /** The reconciler's title as evidently intended: the fallback is "Chat History". */
  function HistoryTitle(title: string, ms: seq<Message>): (t: string)
    ensures title != NewChatTitle ==> t == title
    ensures title == NewChatTitle && FirstUserContent(ms).None? ==> t == HistoryFallbackTitle
    ensures title == NewChatTitle && FirstUserContent(ms).Some? ==>
      t == TitlePrefix(FirstUserContent(ms).value) + "..."
  {
    if title != NewChatTitle then title
    else
      match FirstUserContent(ms)
      case Some(content) => TitlePrefix(content) + "..."
      case None => HistoryFallbackTitle
  }

  /** With a sentinel title and no user message in the history, the code as written
      names the session "undefined..." instead of "Chat History". */
  lemma AsWrittenTitleWithoutUserMessage(ms: seq<Message>)
    requires forall i :: 0 <= i < |ms| ==> !ms[i].isUser
    ensures HistoryTitleAsWritten(NewChatTitle, ms) == "undefined..."
    ensures HistoryTitle(NewChatTitle, ms) == HistoryFallbackTitle
    ensures HistoryTitleAsWritten(NewChatTitle, ms) != HistoryTitle(NewChatTitle, ms)
  {
  }

  /** The two title functions agree everywhere except on that case. */
  lemma TitlesAgreeWithUserMessage(title: string, ms: seq<Message>)
    requires title != NewChatTitle || exists i :: 0 <= i < |ms| && ms[i].isUser
    ensures HistoryTitleAsWritten(title, ms) == HistoryTitle(title, ms)
  {
  }

  /** `loadChatHistoryForSession`, given what the history fetch produced and the clock. */
  function ReconcileSession(chat: ChatSession, h: HistoryOutcome, now: Date): (r: ChatSession)
    ensures r.id == chat.id && r.sessionId == chat.sessionId && r.lastMessage == chat.lastMessage
    ensures !HasHistory(h) ==> r == chat
    ensures HasHistory(h) ==> r.messages == HistoryMessages(h.data.value, now)
    ensures HasHistory(h) ==> r.title == HistoryTitleAsWritten(chat.title, r.messages)
    ensures chat.title != NewChatTitle ==> r.title == chat.title
  {
    if HasHistory(h) then
      var messages := HistoryMessages(h.data.value, now);
      chat.(messages := messages, title := HistoryTitleAsWritten(chat.title, messages))
    else chat
  }

  /** A reconciled session has exactly the backend's entries, in order, as messages. */
  lemma ReconciledMessagesMirrorHistory(chat: ChatSession, h: HistoryOutcome, now: Date, i: nat)
    requires HasHistory(h) && i < |h.data.value|
    ensures |ReconcileSession(chat, h, now).messages| == |h.data.value|
    ensures ReconcileSession(chat, h, now).messages[i].content == h.data.value[i].text
    ensures ReconcileSession(chat, h, now).messages[i].isUser <==> h.data.value[i].sender == "user"
    ensures ReconcileSession(chat, h, now).messages[i].id == HistoryMessageId(i)
  {
  }

  /** A sentinel-titled session reconciled from a history whose first user message is
      at position k takes its title from that message. */
  lemma ReconciledTitleFromFirstUserMessage(chat: ChatSession, h: HistoryOutcome, now: Date, k: nat)
    requires HasHistory(h) && chat.title == NewChatTitle
    requires k < |h.data.value| && h.data.value[k].sender == "user"
    requires forall j :: 0 <= j < k ==> h.data.value[j].sender != "user"
    ensures ReconcileSession(chat, h, now).title == TitlePrefix(h.data.value[k].text) + "..."
  {
  }

  /** A sentinel-titled session reconciled from a history without a user entry is
      named "undefined...", not "Chat History" (see `AsWrittenTitleWithoutUserMessage`). */
  lemma ReconciledTitleWithoutUserEntry(chat: ChatSession, h: HistoryOutcome, now: Date)
    requires HasHistory(h) && chat.title == NewChatTitle
    requires forall j :: 0 <= j < |h.data.value| ==> h.data.value[j].sender != "user"
    ensures ReconcileSession(chat, h, now).title == "undefined..."
  {
  }

  /** The reconciler keeps `lastMessage` but stamps the history messages with the
      current time, so after it `lastMessage` need not be the last message's time. */
  lemma ReconcileMayLeaveLastMessageStale(seed: Seed, h: HistoryOutcome, now: Date)
    requires seed.greetingAt == seed.createdAt && HasHistory(h) && now != seed.createdAt
    ensures TracksLastMessage(NewChatSession(seed))
    ensures !TracksLastMessage(ReconcileSession(NewChatSession(seed), h, now))
  {
  }

  // ---------------------------------------------------------------------------
  // Stored collection

  /** A message as the store holds it: the timestamp is text. */
  datatype StoredMessage = StoredMessage(id: string, content: string, isUser: bool, timestamp: string)

  /** A session as the store holds it. */
  datatype StoredSession = StoredSession(
    id: string,
    sessionId: string,
    title: string,
    messages: seq<StoredMessage>,
    lastMessage: string)

  /** What reading the collection's key yields: no store at all (no window), no entry,
      an entry that does not parse into sessions, or the parsed entries. */
  datatype StoredValue = NoStore | NothingStored | Unparsable | Parsed(entries: seq<StoredSession>)

  function RestoreMessages(ms: seq<StoredMessage>, parseDate: string -> Date): (r: seq<Message>)
    ensures |r| == |ms|
    ensures forall j :: 0 <= j < |ms| ==>
      r[j] == Message(ms[j].id, ms[j].content, ms[j].isUser, parseDate(ms[j].timestamp))
    decreases |ms|
  {
    if ms == [] then
      []
    else
      [Message(ms[0].id, ms[0].content, ms[0].isUser, parseDate(ms[0].timestamp))]
        + RestoreMessages(ms[1..], parseDate)
  }

  function RestoreSession(e: StoredSession, parseDate: string -> Date): ChatSession {
    ChatSession(e.id, e.sessionId, e.title, RestoreMessages(e.messages, parseDate), parseDate(e.lastMessage))
  }

  function RestoreSessions(es: seq<StoredSession>, parseDate: string -> Date): (r: seq<ChatSession>)
    ensures |r| == |es|
    ensures forall i :: 0 <= i < |es| ==> r[i] == RestoreSession(es[i], parseDate)
    decreases |es|
  {
    if es == [] then [] else [RestoreSession(es[0], parseDate)] + RestoreSessions(es[1..], parseDate)
  }

  /** `getStoredChatSessions`: nothing stored or a failure gives no sessions;
      otherwise one session per stored entry, in order, with the same fields and
      messages and the timestamps parsed back into dates. */
  function LoadSessions(v: StoredValue, parseDate: string -> Date): (r: seq<ChatSession>)
    ensures !v.Parsed? ==> r == []
    ensures v.Parsed? ==> |r| == |v.entries|
    ensures v.Parsed? ==> forall i :: 0 <= i < |r| ==>
      && r[i].id == v.entries[i].id
      && r[i].sessionId == v.entries[i].sessionId
      && r[i].title == v.entries[i].title
      && r[i].lastMessage == parseDate(v.entries[i].lastMessage)
      && |r[i].messages| == |v.entries[i].messages|
      && forall j :: 0 <= j < |r[i].messages| ==>
        && r[i].messages[j].id == v.entries[i].messages[j].id
        && r[i].messages[j].content == v.entries[i].messages[j].content
        && r[i].messages[j].isUser == v.entries[i].messages[j].isUser
        && r[i].messages[j].timestamp == parseDate(v.entries[i].messages[j].timestamp)
  {
    match v
    case Parsed(entries) => RestoreSessions(entries, parseDate)
    case _ => []
  }

  function StoreMessages(ms: seq<Message>, formatDate: Date -> string): (r: seq<StoredMessage>)
    ensures |r| == |ms|
    decreases |ms|
  {
    if ms == [] then
      []
    else
      [StoredMessage(ms[0].id, ms[0].content, ms[0].isUser, formatDate(ms[0].timestamp))]
        + StoreMessages(ms[1..], formatDate)
  }

  /** `storeChatSessions`'s serialisation: every date written as text. */
  function StoreSessions(cs: seq<ChatSession>, formatDate: Date -> string): (r: seq<StoredSession>)
    ensures |r| == |cs|
    decreases |cs|
  {
    if cs == [] then []
    else
      var c := cs[0];
      [StoredSession(c.id, c.sessionId, c.title, StoreMessages(c.messages, formatDate), formatDate(c.lastMessage))]
        + StoreSessions(cs[1..], formatDate)
  }

  lemma {:induction false} RestoreAfterStoreMessages(ms: seq<Message>, parseDate: string -> Date, formatDate: Date -> string)
    requires forall t :: parseDate(formatDate(t)) == t
    ensures RestoreMessages(StoreMessages(ms, formatDate), parseDate) == ms
    decreases |ms|
  {
    if ms != [] {
      RestoreAfterStoreMessages(ms[1..], parseDate, formatDate);
      assert StoreMessages(ms, formatDate)[1..] == StoreMessages(ms[1..], formatDate);
    }
  }

  /** Storing a collection and loading it back gives the same collection, provided
      the date text format reads back exactly. */
  lemma {:induction false} LoadAfterStore(cs: seq<ChatSession>, parseDate: string -> Date, formatDate: Date -> string)
    requires forall t :: parseDate(formatDate(t)) == t
    ensures LoadSessions(Parsed(StoreSessions(cs, formatDate)), parseDate) == cs
    decreases |cs|
  {
    if cs != [] {
      LoadAfterStore(cs[1..], parseDate, formatDate);
      RestoreAfterStoreMessages(cs[0].messages, parseDate, formatDate);
      assert StoreSessions(cs, formatDate)[1..] == StoreSessions(cs[1..], formatDate);
    }
  }
}

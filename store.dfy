/**
 * The chat session store of src/stores/chat.ts: its state, the two derived
 * getters and the three actions. StoreState is the state as a value and the
 * class ChatStore holds the same fields, updated in place by the actions; it
 * reaches the connection manager through the service object it is given.
 */
module Store {
  import opened ChatTypes
  import opened Connection

  /** The chat ids map to their ordered messages. */
  type MessageMap = map<int, seq<Message>>

  datatype StoreState = StoreState(
    currentUser: Option<User>,
    messages: MessageMap,
    currentChatId: Option<int>,
    contacts: seq<User>,
    onlineUsers: set<string>,
    typingUsers: set<string>)

  /** The state a new store starts in and logout returns to. */
  const Initial: StoreState := StoreState(None, map[], None, [], {}, {})

  /** isAuthenticated: a current user is set. */
  predicate Authenticated(s: StoreState)
    ensures Authenticated(s) <==> s.currentUser != None
  {
    s.currentUser.Some?
  }

  /** The messages of a chat; an unknown chat has none. */
  function MessagesFor(messages: MessageMap, chatId: int): seq<Message>
  {
    if chatId in messages then messages[chatId] else []
  }

  /**
   * currentMessages: the current chat's messages when its id is truthy (set
   * and not 0), otherwise none.
   */
  function CurrentMessagesOf(s: StoreState): (r: seq<Message>)
    ensures s.currentChatId.Some? && s.currentChatId.value != 0 && s.currentChatId.value in s.messages ==>
      r == s.messages[s.currentChatId.value]
    ensures s.currentChatId.None? || s.currentChatId == Some(0) ==> r == []
    ensures s.currentChatId.Some? && s.currentChatId.value !in s.messages ==> r == []
  {
    if s.currentChatId.Some? && s.currentChatId.value != 0 then MessagesFor(s.messages, s.currentChatId.value)
    else []
  }

  /** setCurrentUser's argument: a bare name or a whole user. */
  datatype UserArg = Name(name: string) | Given(user: User)

  /**
   * The user setCurrentUser installs: the given one unchanged, or for a bare
   * name an online guest with no avatar whose id is the clock reading in decimal.
   */
  function InstalledUser(arg: UserArg, now: nat): (u: User)
    ensures arg.Given? ==> u == arg.user
    ensures arg.Name? ==> u.name == arg.name && u.avatar == "" && u.status == Online && u.lastActive == now
    ensures arg.Name? ==> u.id == DecimalString(now) && AllDigits(u.id) && DecimalValue(u.id) == now
  {
    match arg
    case Given(user) => user
    case Name(name) =>
      DecimalRoundTrip(now);
      User(DecimalString(now), name, "", Online, now)
  }

  /** The message addMessage stores: the draft with an id, a timestamp and an empty ledger. */
  function NewMessage(d: Draft, now: nat): (m: Message)
    ensures DraftOf(m) == d
    ensures m.id == now && m.timestamp == now && m.reactions == NoReactions
  {
    Message(now, d.content, d.sender, now, d.kind, d.replyTo, NoReactions)
  }

  /**
   * Append one message to a chat, creating the chat's list if it is absent;
   * every other chat keeps its list.
   */
  function AppendMessage(messages: MessageMap, chatId: int, m: Message): (r: MessageMap)
    ensures r.Keys == messages.Keys + {chatId}
    ensures |r[chatId]| == |MessagesFor(messages, chatId)| + 1
    ensures r[chatId][..|r[chatId]| - 1] == MessagesFor(messages, chatId) && r[chatId][|r[chatId]| - 1] == m
    ensures forall k :: k in messages && k != chatId ==> r[k] == messages[k]
  {
    messages[chatId := MessagesFor(messages, chatId) + [m]]
  }

  function AfterAddMessage(s: StoreState, chatId: int, d: Draft, now: nat): StoreState
  {
    s.(messages := AppendMessage(s.messages, chatId, NewMessage(d, now)))
  }

  /** The frame addMessage forwards: only for a message whose sender is the current user. */
  function Forwarded(s: StoreState, d: Draft): (r: Option<OutFrame>)
    ensures r.Some? <==> s.currentUser.Some? && d.sender == s.currentUser.value.id
    ensures r.Some? ==> r.value == ChatFrame(d.content, TypeName(d.kind), d.replyTo)
  {
    if s.currentUser.Some? && d.sender == s.currentUser.value.id then
      Some(ChatFrame(d.content, TypeName(d.kind), d.replyTo))
    else
      None
  }

  class ChatStore {
    const ws: WebSocketService
    var currentUser: Option<User>
    var messages: MessageMap
    var currentChatId: Option<int>
    var contacts: seq<User>
    var onlineUsers: set<string>
    var typingUsers: set<string>

    function State(): StoreState
      reads this
    {
      StoreState(currentUser, messages, currentChatId, contacts, onlineUsers, typingUsers)
    }

    predicate IsAuthenticated()
      reads this
      ensures IsAuthenticated() <==> currentUser.Some?
    {
      Authenticated(State())
    }

    function CurrentMessages(): (r: seq<Message>)
      reads this
      ensures currentChatId.Some? && currentChatId.value != 0 && currentChatId.value in messages ==>
        r == messages[currentChatId.value]
      ensures currentChatId.None? || currentChatId == Some(0) || (currentChatId.Some? && currentChatId.value !in messages) ==>
        r == []
    {
      CurrentMessagesOf(State())
    }

    constructor (ws: WebSocketService)
      ensures this.ws == ws && State() == Initial
    {
      this.ws := ws;
      currentUser := None;
      messages := map[];
      currentChatId := None;
      contacts := [];
      onlineUsers := {};
      typingUsers := {};
    }

    /** Install the user, then connect with the installed user's id. */
    method SetCurrentUser(user: UserArg, now: nat, constructed: bool)
      modifies this, ws
      ensures State() == old(State()).(currentUser := Some(InstalledUser(user, now)))
      ensures ws.State() == AfterConnect(old(ws.State()), InstalledUser(user, now).id, constructed)
    {
      match user {
        case Name(name) =>
          currentUser := Some(User(DecimalString(now), name, "", Online, now));
        case Given(u) =>
          currentUser := Some(u);
      }
      ws.Connect(currentUser.value.id, constructed);
    }

    /**
     * Append the message to its chat (creating the chat's list if needed) and,
     * when the current user sent it, hand it to the connection manager.
     */
    method AddMessage(chatId: int, message: Draft, now: nat)
      modifies this, ws
      ensures State() == AfterAddMessage(old(State()), chatId, message, now)
      ensures Forwarded(old(State()), message).None? ==> ws.State() == old(ws.State())
      ensures Forwarded(old(State()), message).Some? ==>
        ws.State() == AfterSend(old(ws.State()), Forwarded(old(State()), message).value)
    {
      if chatId !in messages {
        messages := messages[chatId := []];
      }
      var newMessage := Message(now, message.content, message.sender, now, message.kind, message.replyTo, NoReactions);
      messages := messages[chatId := messages[chatId] + [newMessage]];
      if currentUser.Some? && message.sender == currentUser.value.id {
        ws.SendChatMessage(message.content, Some(TypeName(message.kind)), message.replyTo);
      }
    }

    /** Disconnect, then reset every field to the initial state. */
    method Logout()
      modifies this, ws
      ensures State() == Initial
      ensures ws.State() == AfterDisconnect(old(ws.State()))
    {
      ws.Disconnect();
      currentUser := None;
      messages := map[];
      currentChatId := None;
      contacts := [];
      onlineUsers := {};
      typingUsers := {};
    }
  }

  // ---------------------------------------------------------------------------
  // Properties

  /** After logout nobody is authenticated and there is nothing to show. */
  lemma LogoutResets()
    ensures !Authenticated(Initial) && CurrentMessagesOf(Initial) == []
    ensures forall chatId :: MessagesFor(Initial.messages, chatId) == []
  {
  }

  /**
   * A forwarded frame reaches the peer with the message's content, reply
   * reference and a kind name that reads back to the message's kind.
   */
  lemma ForwardedIffOwnMessage(s: StoreState, d: Draft)
    ensures Forwarded(s, d).Some? ==>
      ReadOutbound(Encode(Forwarded(s, d).value)) == Some(ChatFrame(d.content, TypeName(d.kind), d.replyTo)) &&
      ParseType(Forwarded(s, d).value.messageType) == Some(d.kind)
  {
  }

  /**
   * Optimistic apply: a message added to the current chat shows up at the end
   * of currentMessages at once; a message added to another chat does not
   * change currentMessages.
   */
  lemma OptimisticApply(s: StoreState, chatId: int, d: Draft, now: nat)
    ensures s.currentChatId == Some(chatId) && chatId != 0 ==>
      CurrentMessagesOf(AfterAddMessage(s, chatId, d, now)) == CurrentMessagesOf(s) + [NewMessage(d, now)]
    ensures s.currentChatId != Some(chatId) ==>
      CurrentMessagesOf(AfterAddMessage(s, chatId, d, now)) == CurrentMessagesOf(s)
  {
  }

  /** Chat id 0 is falsy: its messages are stored but never shown. */
  lemma ChatZeroNeverShown(s: StoreState, d: Draft, now: nat)
    requires s.currentChatId == Some(0)
    ensures CurrentMessagesOf(AfterAddMessage(s, 0, d, now)) == []
    ensures |MessagesFor(AfterAddMessage(s, 0, d, now).messages, 0)| == |MessagesFor(s.messages, 0)| + 1
  {
  }

  /**
   * The logged-in user sends a message while the socket is not open: it
   * appears in currentMessages at once, and no frame is written.
   */
  lemma LocalSendWhileOffline(s: StoreState, c: ConnState, chatId: int, d: Draft, now: nat)
    requires s.currentUser.Some? && d.sender == s.currentUser.value.id
    requires s.currentChatId == Some(chatId) && chatId != 0
    requires !IsOpen(c)
    ensures CurrentMessagesOf(AfterAddMessage(s, chatId, d, now)) == CurrentMessagesOf(s) + [NewMessage(d, now)]
    ensures Forwarded(s, d).Some? && AfterSend(c, Forwarded(s, d).value) == c
  {
    OptimisticApply(s, chatId, d, now);
  }

  /** The same while the socket is open: exactly one frame is written, the message's. */
  lemma LocalSendWhileOnline(s: StoreState, c: ConnState, d: Draft)
    requires s.currentUser.Some? && d.sender == s.currentUser.value.id
    requires IsOpen(c)
    ensures Forwarded(s, d).Some?
    ensures AfterSend(c, Forwarded(s, d).value).written == c.written + [Encode(ChatFrame(d.content, TypeName(d.kind), d.replyTo))]
  {
  }

  /** One addMessage call, as a value. */
  datatype AddCall = AddCall(chatId: int, draft: Draft, now: nat)

  function ApplyAdds(messages: MessageMap, calls: seq<AddCall>): MessageMap
    decreases |calls|
  {
    if calls == [] then messages
    else ApplyAdds(AppendMessage(messages, calls[0].chatId, NewMessage(calls[0].draft, calls[0].now)), calls[1..])
  }

  /** How many of the calls add to a given chat. */
  function CountFor(calls: seq<AddCall>, chatId: int): nat
    decreases |calls|
  {
    if calls == [] then 0
    else (if calls[0].chatId == chatId then 1 else 0) + CountFor(calls[1..], chatId)
  }

  /**
   * Messages are append-only: over any series of addMessage calls, every
   * chat's earlier list is a prefix of its later one, which is longer by the
   * number of calls made to that chat.
   */
  lemma {:induction false} AddsOnlyExtend(messages: MessageMap, calls: seq<AddCall>)
    ensures forall k :: k in messages ==> k in ApplyAdds(messages, calls)
    ensures forall k :: MessagesFor(messages, k) <= MessagesFor(ApplyAdds(messages, calls), k)
    ensures forall k :: |MessagesFor(ApplyAdds(messages, calls), k)| == |MessagesFor(messages, k)| + CountFor(calls, k)
    decreases |calls|
  {
    if calls != [] {
      var c := calls[0];
      var next := AppendMessage(messages, c.chatId, NewMessage(c.draft, c.now));
      AddsOnlyExtend(next, calls[1..]);
      forall k
        ensures MessagesFor(messages, k) <= MessagesFor(next, k)
        ensures |MessagesFor(next, k)| == |MessagesFor(messages, k)| + (if c.chatId == k then 1 else 0)
      {
      }
    }
  }
}

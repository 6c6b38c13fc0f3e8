/**
 * The connection manager of src/services/websocket.ts.
 *
 * The browser socket is reduced to its URL and ready state, the event loop's
 * timers to explicit events, and JSON text to JSON objects (WireObject).
 * ConnState is the whole state of the service as a value; each After*
 * function is one handler or public operation on that value, and the class
 * WebSocketService performs the same steps on its fields and is proved to
 * agree with them.
 */
module Connection {
  import opened ChatTypes

  /** maxReconnectAttempts: no retry is scheduled once the counter reaches it. */
  const MaxReconnectAttempts: nat := 5

  /** The socket address for a user: the base URL with a userId query parameter. */
  function SocketUrl(base: string, userId: string): string
  {
    base + "?userId=" + userId
  }

  datatype ReadyState = Connecting | Open | Closed

  datatype Socket = Socket(url: string, readyState: ReadyState)

  // ---------------------------------------------------------------------------
  // Frames

  /** The frames this client builds: the three send* builders and the heartbeat. */
  datatype OutFrame =
    | ChatFrame(content: string, messageType: string, replyTo: Option<ReplyRef>)
    | TypingFrame(isTyping: bool)
    | ReactionFrame(messageId: int, reaction: string)
    | PingFrame

  /**
   * A frame as the JSON object on the wire: the `type` tag and whichever of
   * the other keys are present (None is an absent key or undefined).
   */
  datatype WireObject = WireObject(
    tag: string,
    content: Option<string>,
    sender: Option<string>,
    messageType: Option<string>,
    replyTo: Option<ReplyRef>,
    userId: Option<string>,
    status: Option<string>,
    isTyping: Option<bool>,
    messageId: Option<int>,
    reaction: Option<string>,
    users: Option<seq<string>>)

  /** A JSON object carrying only the `type` tag. */
  function Tagged(tag: string): WireObject
  {
    WireObject(tag, None, None, None, None, None, None, None, None, None, None)
  }

  /** What the peer reads back from an object this client sent. */
  function ReadOutbound(w: WireObject): Option<OutFrame>
  {
    if w.tag == "message" && w.content.Some? && w.messageType.Some? then
      Some(ChatFrame(w.content.value, w.messageType.value, w.replyTo))
    else if w.tag == "typing" && w.isTyping.Some? then
      Some(TypingFrame(w.isTyping.value))
    else if w.tag == "reaction" && w.messageId.Some? && w.reaction.Some? then
      Some(ReactionFrame(w.messageId.value, w.reaction.value))
    else if w.tag == "ping" then
      Some(PingFrame)
    else
      None
  }

  /** The object sendMessage serialises for a frame; nothing of the frame is lost. */
  function Encode(f: OutFrame): (w: WireObject)
    ensures ReadOutbound(w) == Some(f)
  {
    match f
    case ChatFrame(c, t, r) => Tagged("message").(content := Some(c), messageType := Some(t), replyTo := r)
    case TypingFrame(b) => Tagged("typing").(isTyping := Some(b))
    case ReactionFrame(id, rc) => Tagged("reaction").(messageId := Some(id), reaction := Some(rc))
    case PingFrame => Tagged("ping")
  }

  /** The default of sendChatMessage's `type` parameter: 'text' when it is not passed. */
  function TypeParam(t: Option<string>): (r: string)
    ensures t.Some? ==> r == t.value
    ensures t.None? ==> r == "text"
  {
    match t
    case Some(s) => s
    case None => "text"
  }

  /** `data.messageType || 'text'`: an absent or empty message type reads as 'text'. */
  function OrText(t: Option<string>): (r: string)
    ensures r != ""
    ensures t.Some? && t.value != "" ==> r == t.value
    ensures r != "text" ==> t == Some(r)
  {
    if t.Some? && t.value != "" then t.value else "text"
  }

  // ---------------------------------------------------------------------------
  // Inbound dispatch

  /** The raw payload of a socket message event: JSON text that parses or not. */
  datatype RawMessage = Unparsable | Parsed(obj: WireObject)

  /**
   * The store entry points handleMessage calls, with the arguments it passes.
   * Their effect on the store is not part of this model.
   */
  datatype StoreCall =
    | AddMessageCall(content: Option<string>, sender: Option<string>, messageType: string, replyTo: Option<ReplyRef>)
    | UpdateUserStatusCall(userId: Option<string>, status: Option<string>)
    | SetUserTypingCall(userId: Option<string>, isTyping: Option<bool>)
    | UpdateMessageReactionCall(messageId: Option<int>, reaction: Option<string>, userId: Option<string>)
    | UpdateOnlineUsersCall(users: Option<seq<string>>)

  /** The tags handleMessage dispatches; every other tag ('pong' included) is ignored. */
  const DispatchedTags: set<string> := {"message", "user_status", "typing", "reaction", "online_users"}

  /** The tag whose frames reach a given entry point. */
  function TagOf(c: StoreCall): string
  {
    match c
    case AddMessageCall(_, _, _, _) => "message"
    case UpdateUserStatusCall(_, _) => "user_status"
    case SetUserTypingCall(_, _) => "typing"
    case UpdateMessageReactionCall(_, _, _) => "reaction"
    case UpdateOnlineUsersCall(_) => "online_users"
  }

  /** handleMessage: the one store call a parsed inbound frame leads to, if any. */
  function HandleMessage(w: WireObject): (r: Option<StoreCall>)
    ensures r.Some? <==> w.tag in DispatchedTags
    ensures r.Some? ==> TagOf(r.value) == w.tag
    ensures w.tag == "pong" ==> r.None?
    ensures w.tag == "message" ==> r == Some(AddMessageCall(w.content, w.sender, OrText(w.messageType), w.replyTo))
    ensures w.tag == "user_status" ==> r == Some(UpdateUserStatusCall(w.userId, w.status))
    ensures w.tag == "typing" ==> r == Some(SetUserTypingCall(w.userId, w.isTyping))
    ensures w.tag == "reaction" ==> r == Some(UpdateMessageReactionCall(w.messageId, w.reaction, w.userId))
    ensures w.tag == "online_users" ==> r == Some(UpdateOnlineUsersCall(w.users))
  {
    if w.tag == "message" then
      Some(AddMessageCall(w.content, w.sender, OrText(w.messageType), w.replyTo))
    else if w.tag == "user_status" then
      Some(UpdateUserStatusCall(w.userId, w.status))
    else if w.tag == "typing" then
      Some(SetUserTypingCall(w.userId, w.isTyping))
    else if w.tag == "reaction" then
      Some(UpdateMessageReactionCall(w.messageId, w.reaction, w.userId))
    else if w.tag == "online_users" then
      Some(UpdateOnlineUsersCall(w.users))
    else
      None
  }

  // ---------------------------------------------------------------------------
  // Service state as a value, and one function per handler

  /**
   * url: the base address; ws: the socket held, if any; heartbeatInterval:
   * the handle of the last interval started; liveIntervals: the host's
   * interval timers not yet cleared; nextTimerId: the handle the host hands
   * out next (handles start at 1, so every handle is truthy);
   * pendingRetries: reconnect timeouts scheduled and not yet fired;
   * written: the frames written to a socket so far.
   */
  datatype ConnState = ConnState(
    url: string,
    ws: Option<Socket>,
    reconnectAttempts: nat,
    heartbeatInterval: Option<nat>,
    liveIntervals: set<nat>,
    nextTimerId: nat,
    pendingRetries: nat,
    written: seq<WireObject>)

  /** A freshly constructed service. */
  function Fresh(url: string): ConnState
  {
    ConnState(url, None, 0, None, {}, 1, 0, [])
  }

  predicate IsOpen(s: ConnState)
  {
    s.ws.Some? && s.ws.value.readyState == Open
  }

  /** handleReconnect: schedule one retry unless the counter reached the maximum. */
  function AfterHandleReconnect(s: ConnState): ConnState
  {
    if s.reconnectAttempts >= MaxReconnectAttempts then s
    else s.(pendingRetries := s.pendingRetries + 1)
  }

  /** startHeartbeat: a new interval timer, whose handle replaces the stored one. */
  function AfterStartHeartbeat(s: ConnState): ConnState
  {
    s.(heartbeatInterval := Some(s.nextTimerId),
       liveIntervals := s.liveIntervals + {s.nextTimerId},
       nextTimerId := s.nextTimerId + 1)
  }

  /**
   * connect: open a new socket for the user and start a heartbeat; when the
   * socket constructor throws (constructed is false) nothing is assigned and
   * handleReconnect runs instead.
   */
  function AfterConnect(s: ConnState, userId: string, constructed: bool): ConnState
  {
    if constructed then
      AfterStartHeartbeat(s.(ws := Some(Socket(SocketUrl(s.url, userId), Connecting))))
    else
      AfterHandleReconnect(s)
  }

  /** The open event: the socket is open and the counter is reset. */
  function AfterOpen(s: ConnState): ConnState
    requires s.ws.Some?
  {
    s.(ws := Some(s.ws.value.(readyState := Open)), reconnectAttempts := 0)
  }

  /** The close event: the socket held (if any) is closed, then handleReconnect. */
  function AfterClose(s: ConnState): ConnState
  {
    var closed := if s.ws.Some? then Some(s.ws.value.(readyState := Closed)) else None;
    AfterHandleReconnect(s.(ws := closed))
  }

  /** A scheduled retry fires: the counter rises by one and connect runs again. */
  function AfterRetry(s: ConnState, target: string, constructed: bool): ConnState
    requires s.pendingRetries > 0
  {
    AfterConnect(s.(pendingRetries := s.pendingRetries - 1, reconnectAttempts := s.reconnectAttempts + 1),
                 target, constructed)
  }

  /** sendMessage: the frame is written only when the socket held is open. */
  function AfterSend(s: ConnState, f: OutFrame): ConnState
  {
    if IsOpen(s) then s.(written := s.written + [Encode(f)]) else s
  }

  /**
   * disconnect: clear the stored heartbeat interval if there is one (the
   * handle itself stays stored) and drop the socket; the counter and any
   * pending retry are left as they are.
   */
  function AfterDisconnect(s: ConnState): ConnState
  {
    var cleared := if s.heartbeatInterval.Some? then s.liveIntervals - {s.heartbeatInterval.value} else s.liveIntervals;
    s.(liveIntervals := cleared, ws := None)
  }

  // ---------------------------------------------------------------------------
  // The service object

  class WebSocketService {
    const url: string
    var ws: Option<Socket>
    var reconnectAttempts: nat
    var heartbeatInterval: Option<nat>
    var liveIntervals: set<nat>
    var nextTimerId: nat
    var pendingRetries: nat
    var written: seq<WireObject>

    /** The service's fields as one value. */
    function State(): ConnState
      reads this
    {
      ConnState(url, ws, reconnectAttempts, heartbeatInterval, liveIntervals, nextTimerId, pendingRetries, written)
    }

    constructor (url: string)
      ensures State() == Fresh(url)
    {
      this.url := url;
      ws := None;
      reconnectAttempts := 0;
      heartbeatInterval := None;
      liveIntervals := {};
      nextTimerId := 1;
      pendingRetries := 0;
      written := [];
    }

    method Connect(userId: string, constructed: bool)
      modifies this
      ensures State() == AfterConnect(old(State()), userId, constructed)
    {
      if constructed {
        ws := Some(Socket(SocketUrl(url, userId), Connecting));
        StartHeartbeat();
      } else {
        HandleReconnect();
      }
    }

    method StartHeartbeat()
      modifies this
      ensures State() == AfterStartHeartbeat(old(State()))
    {
      var handle := nextTimerId;
      nextTimerId := nextTimerId + 1;
      liveIntervals := liveIntervals + {handle};
      heartbeatInterval := Some(handle);
    }

    method HandleReconnect()
      modifies this
      ensures State() == AfterHandleReconnect(old(State()))
    {
      if reconnectAttempts >= MaxReconnectAttempts {
        return;
      }
      pendingRetries := pendingRetries + 1;
    }

    /** The socket reports that it opened (a socket opens only while connecting). */
    method OnOpen()
      requires ws.Some? && ws.value.readyState == Connecting
      modifies this
      ensures State() == AfterOpen(old(State()))
    {
      ws := Some(ws.value.(readyState := Open));
      reconnectAttempts := 0;
    }

    method OnClose()
      modifies this
      ensures State() == AfterClose(old(State()))
    {
      if ws.Some? {
        ws := Some(ws.value.(readyState := Closed));
      }
      HandleReconnect();
    }

    /** The error event only logs. */
    method OnError()
      ensures State() == old(State())
    {
    }

    /**
     * A message event: a payload that does not parse is dropped, a parsed one
     * goes through handleMessage; neither touches the socket or the counter.
     */
    method OnMessage(raw: RawMessage) returns (call: Option<StoreCall>)
      ensures raw.Unparsable? ==> call.None?
      ensures raw.Parsed? ==> call == HandleMessage(raw.obj)
      ensures call.Some? ==> raw.Parsed? && raw.obj.tag in DispatchedTags
    {
      match raw
      case Unparsable =>
        call := None;
      case Parsed(obj) =>
        call := HandleMessage(obj);
    }

    /** A scheduled reconnect timeout fires; target is what the store supplies then. */
    method RetryTimerFires(target: string, constructed: bool)
      requires pendingRetries > 0
      modifies this
      ensures State() == AfterRetry(old(State()), target, constructed)
    {
      pendingRetries := pendingRetries - 1;
      reconnectAttempts := reconnectAttempts + 1;
      Connect(target, constructed);
    }

    /** A live heartbeat interval ticks and sends a ping. */
    method HeartbeatFires(handle: nat)
      requires handle in liveIntervals
      modifies this
      ensures State() == AfterSend(old(State()), PingFrame)
    {
      SendMessage(PingFrame);
    }

    method SendMessage(f: OutFrame)
      modifies this
      ensures State() == AfterSend(old(State()), f)
    {
      if ws.Some? && ws.value.readyState == Open {
        written := written + [Encode(f)];
      }
    }

    method SendChatMessage(content: string, messageType: Option<string>, replyTo: Option<ReplyRef>)
      modifies this
      ensures State() == AfterSend(old(State()), ChatFrame(content, TypeParam(messageType), replyTo))
    {
      SendMessage(ChatFrame(content, TypeParam(messageType), replyTo));
    }

    method SendTypingStatus(isTyping: bool)
      modifies this
      ensures State() == AfterSend(old(State()), TypingFrame(isTyping))
    {
      SendMessage(TypingFrame(isTyping));
    }

    method SendReaction(messageId: int, reaction: string)
      modifies this
      ensures State() == AfterSend(old(State()), ReactionFrame(messageId, reaction))
    {
      SendMessage(ReactionFrame(messageId, reaction));
    }

    method Disconnect()
      modifies this
      ensures State() == AfterDisconnect(old(State()))
    {
      if heartbeatInterval.Some? {
        liveIntervals := liveIntervals - {heartbeatInterval.value};
      }
      if ws.Some? {
        ws := None;
      }
    }
  }
}

# Chat client core in Dafny

A model of the real-time core of a browser chat client. It has three parts:

- **The chat session store** (`store.dfy`, module `Store`). The store holds the current user, a map from chat id to that chat's ordered messages, the current chat id, and the contacts, online-user and typing-user sets. Its actions are `setCurrentUser`, `addMessage` and `logout`. Its getters are `isAuthenticated` and `currentMessages`. The class `ChatStore` keeps these fields and updates them in place. It reaches the connection manager through the `WebSocketService` object it holds. `StoreState` is the same state as a value, and the lemmas are stated about it.
- **The connection manager** (`connection.dfy`, module `Connection`; trace properties in `connection_props.dfy`, module `ConnectionProps`). The socket is reduced to its URL and ready state. Socket callbacks and timers become explicit events: the open, close, error and message callbacks, a retry timeout firing, and a heartbeat tick. JSON becomes a `WireObject` record with optional keys. `ConnState` is the whole service state as a value, with one `After*` function per handler. Each method of the class `WebSocketService` is proved to move its fields exactly as that function says.
- **The navigation guard** (`router.dfy`, module `Router`). This covers the two-entry route table, the `beforeEach` decision, and where a navigation ends up.

`chat_types.dfy` (module `ChatTypes`) holds the store's value types: message, draft, reply reference, user and reaction ledger. It also holds the decimal rendering that turns a clock reading into a guest user id.

Points of the code worth knowing before reading the model:

- `disconnect` does not reset the reconnect counter.
- `disconnect` does not cancel a pending retry. The close event that follows it still schedules one (`CloseAfterDisconnectRetries`).
- There is no terminal `failed` state. The counter simply stops scheduling retries once it reaches 5.
- Message kinds are `text`, `image` and `file`. There is no `voice` kind.
- `addMessage` gives no id-uniqueness guarantee. The id is the clock reading.

The reconnect counter stays at or below 5 only while at most one retry is pending. A fresh service can reach 6: the user connects, four rounds fail, `connect` is called again while the old socket is held, both sockets close and both scheduled retries fire (`OverlappingRetriesPassBound`). `ReconnectBounded` proves the bound under the one-at-a-time discipline.

## Model

| member | source | states |
|---|---|---|
| `ChatTypes.TypeName` | src/stores/chat.ts:9 | each message kind has a wire name that reads back to the same kind |
| `ChatTypes.DecimalString` | src/stores/chat.ts:61 | the rendering of a clock reading is a non-empty string of digits that starts with 0 only when it is "0" |
| `ChatTypes.DecimalRoundTrip` | src/stores/chat.ts:61 | reading the rendered id back gives the clock reading it came from |
| `Store.ChatStore.constructor` | src/stores/chat.ts:40-47 | a new store has no user, no messages, no current chat, and empty contacts, online and typing sets |
| `Store.InstalledUser` | src/stores/chat.ts:58-69 | a given user is installed unchanged; a bare name yields an online user with that name, an empty avatar, and an id that is the decimal rendering of the clock and a lastActive equal to the clock |
| `Store.ChatStore.SetCurrentUser` | src/stores/chat.ts:58-71 | installs that user, leaves every other field alone, and connects with the installed user's id |
| `Store.Authenticated` | src/stores/chat.ts:50 | isAuthenticated holds iff a current user is set |
| `Store.ChatStore.IsAuthenticated` | src/stores/chat.ts:50 | the store's getter holds iff its currentUser field is set |
| `Store.CurrentMessagesOf` | src/stores/chat.ts:52-54 | with a non-zero current chat id that has a list, currentMessages is that list; with no current chat, chat 0, or a chat without a list, it is empty |
| `Store.ChatStore.CurrentMessages` | src/stores/chat.ts:52-54 | the store's getter is the current chat's list under the same conditions, and empty otherwise |
| `Store.Forwarded` | src/stores/chat.ts:90-92 | a frame is forwarded iff a user is set and is the draft's sender, and it is the message frame with the draft's content, kind name and reply reference |
| `Store.NewMessage` | src/stores/chat.ts:78-86 | the stored message carries the draft's content, sender, kind and reply reference, the clock as id and timestamp, and empty likes and dislikes |
| `Store.AppendMessage` | src/stores/chat.ts:74-88 | the chat's list is created if absent and becomes exactly one longer; its old contents are a prefix and the new message is last; every other chat's list is unchanged |
| `Store.ChatStore.AddMessage` | src/stores/chat.ts:73-93 | the store changes only by that append; the connection receives the message frame if the current user sent the message, and nothing otherwise |
| `Store.ForwardedIffOwnMessage` | src/stores/chat.ts:90-92 | the forwarded frame reads back on the wire as a message frame with the content, kind name and reply reference, and its kind name reads back to the message's kind |
| `Store.OptimisticApply` | src/stores/chat.ts:52-54 | a message added to the current (non-zero) chat appears at the end of currentMessages at once; one added to another chat leaves currentMessages as it was |
| `Store.ChatZeroNeverShown` | src/stores/chat.ts:53 | with current chat id 0 (falsy), currentMessages stays empty although chat 0's list grows |
| `Store.LocalSendWhileOffline` | src/stores/chat.ts:88-92 | the user's own message sent while the socket is not open appears in currentMessages, and no frame is written |
| `Store.LocalSendWhileOnline` | src/stores/chat.ts:90-92 | the user's own message sent while the socket is open writes exactly one frame, the encoded message frame |
| `Store.AddsOnlyExtend` | src/stores/chat.ts:73-88 | over any series of addMessage calls, each chat's earlier list is a prefix of its later one, longer by the number of calls made to that chat |
| `Store.ChatStore.Logout` | src/stores/chat.ts:95-98 | disconnects the service, then returns every field to the initial state |
| `Store.LogoutResets` | src/stores/chat.ts:40-50 | in the initial state isAuthenticated is false, currentMessages is empty and no chat has messages |
| `Connection.WebSocketService.constructor` | src/services/websocket.ts:4-10 | a new service has no socket, a zero counter, no heartbeat, no pending retry and nothing written |
| `Connection.WebSocketService.Connect` | src/services/websocket.ts:12-21 | opens a connecting socket at the base URL with the userId parameter and starts a heartbeat; if the socket cannot be built, it runs handleReconnect instead |
| `Connection.WebSocketService.StartHeartbeat` | src/services/websocket.ts:101-107 | a new live interval is started and its handle replaces the stored one; earlier intervals stay live |
| `Connection.WebSocketService.HandleReconnect` | src/services/websocket.ts:88-99 | schedules one retry unless the counter has reached the maximum |
| `Connection.WebSocketService.OnOpen` | src/services/websocket.ts:26-29 | the socket is open and the counter is zero |
| `Connection.WebSocketService.OnClose` | src/services/websocket.ts:40-43 | the socket is closed and handleReconnect runs |
| `Connection.WebSocketService.OnError` | src/services/websocket.ts:45-47 | changes no state |
| `Connection.WebSocketService.OnMessage` | src/services/websocket.ts:31-38 | an unparsable payload leads to no store call; a parsed one leads to handleMessage's call; the handler itself changes no service state (the store call is not applied, see Left out) |
| `Connection.WebSocketService.RetryTimerFires` | src/services/websocket.ts:94-98 | the pending retry is consumed, the counter rises by one, and connect runs with the target |
| `Connection.WebSocketService.HeartbeatFires` | src/services/websocket.ts:102-106 | a live interval's tick sends a ping |
| `Connection.WebSocketService.SendMessage` | src/services/websocket.ts:109-115 | the encoded frame is written iff the socket held is open |
| `Connection.WebSocketService.SendChatMessage` | src/services/websocket.ts:117-124 | sends a message frame with the content, the type (default 'text') and the reply reference |
| `Connection.WebSocketService.SendTypingStatus` | src/services/websocket.ts:126-131 | sends a typing frame with the flag |
| `Connection.WebSocketService.SendReaction` | src/services/websocket.ts:133-139 | sends a reaction frame with the message id and reaction |
| `Connection.WebSocketService.Disconnect` | src/services/websocket.ts:141-150 | clears the stored heartbeat interval and drops the socket |
| `Connection.Encode` | src/services/websocket.ts:117-139 | the object written for each outbound frame reads back to that frame, tag and fields included |
| `Connection.TypeParam` | src/services/websocket.ts:117 | an absent type argument becomes 'text'; a given one is kept |
| `Connection.OrText` | src/services/websocket.ts:58 | an absent or empty inbound message type becomes 'text'; any other is kept |
| `Connection.HandleMessage` | src/services/websocket.ts:50-86 | a store call happens iff the tag is one of the five dispatched tags, and then it is the one entry point for that tag, with exactly the frame fields that tag's handler passes as arguments; 'pong' and unknown tags lead to none; a message frame's type defaults to 'text' |
| `ConnectionProps.EchoDispatch` | src/services/websocket.ts:50-139 | an outbound frame echoed back is dispatched to its tag's entry point with no sender or user id; an echoed ping is ignored |
| `ConnectionProps.StepWithinBound` | src/services/websocket.ts:88-98 | each event keeps "at most one pending retry and counter plus pending at most 5" if it schedules no second retry |
| `ConnectionProps.FreshWithinBound` | src/services/websocket.ts:4-8 | a new service starts within the bound |
| `ConnectionProps.ReconnectBounded` | src/services/websocket.ts:88-98 | over any feasible event sequence with one retry pending at a time, the counter never exceeds 5 |
| `ConnectionProps.RunAppend` | src/services/websocket.ts:4-150 | running one event sequence and then another is running their concatenation |
| `ConnectionProps.OverlappingRetriesPassBound` | src/services/websocket.ts:12-98 | a feasible run from a fresh service (connect, four failed rounds, a second connect, two closes, two retries, whatever string the retries pass) leaves the counter at 6, one past the maximum |
| `ConnectionProps.FailedRoundsCount` | src/services/websocket.ts:40-43 | each round of "close, then the retry fires" raises the counter by exactly one, leaves no retry pending, and the socket it builds targets the retry's `target` argument |
| `ConnectionProps.GivesUpAfterFiveFailures` | src/services/websocket.ts:88-92 | from zero, five failed rounds bring the counter to 5, and the next close schedules no retry |
| `ConnectionProps.OpenResetsCounter` | src/services/websocket.ts:26-29 | an open event zeroes the counter and opens the socket, and changes nothing else |
| `ConnectionProps.RetryRaisesCounterByOne` | src/services/websocket.ts:94-98 | a firing retry raises the counter by exactly one, and the socket it builds targets the retry's `target` argument |
| `ConnectionProps.ReconnectSchedulesBelowMax` | src/services/websocket.ts:88-92 | at 5 or more, handleReconnect leaves the state unchanged; below 5, it adds exactly one pending retry |
| `ConnectionProps.SendGatedOnOpen` | src/services/websocket.ts:109-115 | on an open socket, sending appends exactly the encoded frame; otherwise nothing changes |
| `ConnectionProps.HeartbeatHandleFresh` | src/services/websocket.ts:101-107 | while every live interval's handle is below the next one, startHeartbeat stores a handle no live interval has, adds exactly it, and keeps that invariant |
| `ConnectionProps.HandlesStayIssued` | src/services/websocket.ts:12-150 | over any feasible event sequence, every live interval's handle stays below the next handle the host hands out |
| `ConnectionProps.DisconnectKeepsCounter` | src/services/websocket.ts:141-150 | after disconnect: no socket, the stored heartbeat is no longer live, and the counter, pending retries and written frames are unchanged; nothing can be sent |
| `ConnectionProps.HeartbeatSurvivesReconnect` | src/services/websocket.ts:12-16 | after two connects and a disconnect, the first heartbeat interval is still live |
| `ConnectionProps.CloseAfterDisconnectRetries` | src/services/websocket.ts:40-43 | the close that follows disconnect schedules a retry below the maximum, and that retry opens a new socket |
| `Router.Guard` | src/router/index.ts:25-38 | redirect to Login iff the route requires auth and no user is set; redirect to Chat iff the route requires a guest and a user is set; proceed in every other case; exactly one of the three applies |
| `Router.RouteNamed` | src/router/index.ts:4-17 | each route name has a declared route of that name |
| `Router.RouteAt` | src/router/index.ts:4-17 | a found route is declared at that path; no declared route has a path that is not found |
| `Router.Navigate` | src/router/index.ts:25-38 | a route the guard lets through is where the navigation ends; a redirected navigation that settles ends on a route the guard lets through; with no hops left it settles iff the guard proceeds |
| `Router.NoSelfRedirect` | src/router/index.ts:29-34 | the guard never redirects a declared route to itself |
| `Router.NavigationSettles` | src/router/index.ts:4-37 | with the declared table, every navigation settles within one redirect: on Chat when a user is set, on Login when not |
| `Router.StoreDecidesDestination` | src/router/index.ts:25-27 | after logout, a visit to /chat ends on Login; after setCurrentUser, a visit to / ends on Chat |

## Left out

- Real sockets, `JSON.parse`/`JSON.stringify`, and the timers with their 3000 ms and 30000 ms delays. The socket is a URL and a ready state. JSON text is a `WireObject`. A payload that does not parse is `Unparsable`. Each timer is an explicit event.
- Timing and event-loop interleaving. Events are sequential steps. A socket event is taken to come from the socket the service currently holds, or, when it holds none, from the one `disconnect` just closed. Events from sockets replaced by a later `connect` are not told apart.
- `Date.now()` and `new Date()`. These are one `now` parameter. The guest id, its `lastActive`, a message's id and its timestamp all read the same clock value.
- Whether `new WebSocket` throws. This is the `constructed` parameter of `Connect` and `RetryTimerFires`.
- What the retry passes to `connect`. The TypeScript code passes `useChatStore().currentUser || ''`, a user object or an empty string, not an id. The model takes it as the `target` parameter and does not fix it.
- The store entry points that `handleMessage` calls but the store module does not define: `updateUserStatus`, `setUserTyping`, `updateMessageReaction` and `updateOnlineUsers`. They appear only as `StoreCall` values with the arguments passed. Reaction mutual exclusion and snapshot replacement have no source, so they are not modelled.
- The `message` dispatch calls `addMessage(content, sender, type, replyTo)`, which does not match the signature `addMessage(chatId, message)`. The model records the call and its arguments and does not apply it to the store. Run as written, that call reads the sender string as the message, so `message.sender` is undefined. When no user is set, `currentUser?.id` is undefined too, the sender test passes, and an inbound `message` frame makes the client send an empty `message` frame (type only, `messageType` "text") if the socket is open. Such a socket can exist after logout, because the close event still schedules a retry. `WebSocketService.OnMessage` leaves the service state untouched only because the call is not applied, so the model does not capture that echo.
- Persisting `currentUser` to local storage. This is configuration, not logic.
- `src/services/mock.ts`, `src/main.ts`, `src/i18n/index.ts` and `src/locales/en.ts` are not part of this model. They are demo data, bootstrap code and string tables.
- Console logging.
- Selecting the current chat. No store action sets `currentChatId`. The lemmas take it as part of the state.

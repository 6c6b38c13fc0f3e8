/**
 * Properties of the connection manager over sequences of events: the
 * reconnect counter's bound, giving up after repeated failures, and what
 * disconnect does and does not stop.
 */
module ConnectionProps {
  import opened ChatTypes
  import opened Connection

  /** Everything that can happen to the service, one step at a time. */
  datatype Event =
    | ConnectCall(userId: string, constructed: bool)
    | OpenEvent
    | CloseEvent
    | ErrorEvent
    | MessageEvent(raw: RawMessage)
    | RetryTimer(target: string, constructed: bool)
    | HeartbeatTick(handle: nat)
    | SendCall(frame: OutFrame)
    | DisconnectCall

  /** When an event can occur: a socket opens while connecting, timers fire only when set. */
  predicate Enabled(s: ConnState, e: Event)
  {
    match e
    case OpenEvent => s.ws.Some? && s.ws.value.readyState == Connecting
    case RetryTimer(_, _) => s.pendingRetries > 0
    case HeartbeatTick(h) => h in s.liveIntervals
    case _ => true
  }

  function Step(s: ConnState, e: Event): ConnState
    requires Enabled(s, e)
  {
    match e
    case ConnectCall(u, ok) => AfterConnect(s, u, ok)
    case OpenEvent => AfterOpen(s)
    case CloseEvent => AfterClose(s)
    case ErrorEvent => s
    case MessageEvent(_) => s
    case RetryTimer(t, ok) => AfterRetry(s, t, ok)
    case HeartbeatTick(_) => AfterSend(s, PingFrame)
    case SendCall(f) => AfterSend(s, f)
    case DisconnectCall => AfterDisconnect(s)
  }

  predicate Feasible(s: ConnState, es: seq<Event>)
    decreases |es|
  {
    es == [] || (Enabled(s, es[0]) && Feasible(Step(s, es[0]), es[1..]))
  }

  function Run(s: ConnState, es: seq<Event>): ConnState
    requires Feasible(s, es)
    decreases |es|
  {
    if es == [] then s else Run(Step(s, es[0]), es[1..])
  }

  /** The events that call handleReconnect while no timer is being consumed. */
  predicate StartsRetry(e: Event)
  {
    e.CloseEvent? || (e.ConnectCall? && !e.constructed)
  }

  /** No retry is scheduled while another one is still pending. */
  predicate OneRetryAtATime(s: ConnState, es: seq<Event>)
    requires Feasible(s, es)
    decreases |es|
  {
    es == [] || ((StartsRetry(es[0]) ==> s.pendingRetries == 0) && OneRetryAtATime(Step(s, es[0]), es[1..]))
  }

  /** The counter plus the retries still to fire stays within the maximum. */
  predicate WithinBound(s: ConnState)
  {
    s.pendingRetries <= 1 && s.reconnectAttempts + s.pendingRetries <= MaxReconnectAttempts
  }

  lemma StepWithinBound(s: ConnState, e: Event)
    requires WithinBound(s) && Enabled(s, e)
    requires StartsRetry(e) ==> s.pendingRetries == 0
    ensures WithinBound(Step(s, e))
  {
  }

  /**
   * With at most one retry pending at a time, the reconnect counter never
   * exceeds maxReconnectAttempts, whatever the events.
   */
  lemma {:induction false} ReconnectBounded(s: ConnState, es: seq<Event>)
    requires WithinBound(s) && Feasible(s, es) && OneRetryAtATime(s, es)
    ensures WithinBound(Run(s, es))
    ensures Run(s, es).reconnectAttempts <= MaxReconnectAttempts
    decreases |es|
  {
    if es != [] {
      StepWithinBound(s, es[0]);
      ReconnectBounded(Step(s, es[0]), es[1..]);
    }
  }

  /** A fresh service satisfies the bound. */
  lemma FreshWithinBound(url: string)
    ensures WithinBound(Fresh(url))
  {
  }

  /** n rounds of "the socket closes, the retry fires and a new socket is built for target". */
  function FailedRounds(target: string, n: nat): seq<Event>
  {
    if n == 0 then [] else [CloseEvent, RetryTimer(target, true)] + FailedRounds(target, n - 1)
  }

  /** Each failed round raises the counter by exactly one and reconnects the same target. */
  lemma {:induction false} FailedRoundsCount(s: ConnState, target: string, n: nat)
    requires s.pendingRetries == 0 && s.reconnectAttempts + n <= MaxReconnectAttempts
    ensures Feasible(s, FailedRounds(target, n))
    ensures Run(s, FailedRounds(target, n)).reconnectAttempts == s.reconnectAttempts + n
    ensures Run(s, FailedRounds(target, n)).pendingRetries == 0
    ensures n > 0 ==> Run(s, FailedRounds(target, n)).ws == Some(Socket(SocketUrl(s.url, target), Connecting))
    decreases n
  {
    if n > 0 {
      var es := FailedRounds(target, n);
      var rest := FailedRounds(target, n - 1);
      var s1 := Step(s, CloseEvent);
      var s2 := Step(s1, RetryTimer(target, true));
      assert s2.pendingRetries == 0 && s2.reconnectAttempts == s.reconnectAttempts + 1;
      FailedRoundsCount(s2, target, n - 1);
      assert es[1..] == [RetryTimer(target, true)] + rest;
      assert es[1..][1..] == rest;
      assert Run(s, es) == Run(s2, rest);
    }
  }

  /** Running two traces one after the other is running their concatenation. */
  lemma {:induction false} RunAppend(s: ConnState, xs: seq<Event>, ys: seq<Event>)
    requires Feasible(s, xs) && Feasible(Run(s, xs), ys)
    ensures Feasible(s, xs + ys) && Run(s, xs + ys) == Run(Run(s, xs), ys)
    decreases |xs|
  {
    if xs != [] {
      RunAppend(Step(s, xs[0]), xs[1..], ys);
      assert (xs + ys)[0] == xs[0] && (xs + ys)[1..] == xs[1..] + ys;
    } else {
      assert xs + ys == ys;
    }
  }

  /**
   * A run from a fresh service in which two retries are pending at once takes
   * the counter past the maximum: the target connects, four rounds fail, connect
   * is called again while the old socket is still held, both sockets close and
   * both retries fire. The bound needs one retry at a time.
   */
  lemma OverlappingRetriesPassBound(url: string, user: string, target: string)
    ensures var es := [ConnectCall(user, true)] + FailedRounds(target, 4) +
                      [ConnectCall(user, true), CloseEvent, CloseEvent, RetryTimer(target, true), RetryTimer(target, true)];
            Feasible(Fresh(url), es) && Run(Fresh(url), es).reconnectAttempts == MaxReconnectAttempts + 1
  {
    var c := ConnectCall(user, true);
    var r := RetryTimer(target, true);
    var s0 := Step(Fresh(url), c);
    assert Feasible(s0, []) && Run(s0, []) == s0;
    assert Feasible(Fresh(url), [c]) && Run(Fresh(url), [c]) == s0;
    FailedRoundsCount(s0, target, 4);
    var s1 := Run(s0, FailedRounds(target, 4));
    RunAppend(Fresh(url), [c], FailedRounds(target, 4));
    var tail := [c, CloseEvent, CloseEvent, r, r];
    var t1 := Step(s1, c);
    var t2 := Step(t1, CloseEvent);
    var t3 := Step(t2, CloseEvent);
    assert t3.pendingRetries == 2;
    var t4 := Step(t3, r);
    var t5 := Step(t4, r);
    assert tail[1..] == [CloseEvent, CloseEvent, r, r];
    assert tail[1..][1..] == [CloseEvent, r, r] && tail[1..][1..][1..] == [r, r] && tail[1..][1..][1..][1..] == [r];
    assert Feasible(t5, []) && Run(t5, []) == t5;
    assert Feasible(t4, [r]) && Run(t4, [r]) == t5;
    assert Feasible(t3, [r, r]) && Run(t3, [r, r]) == t5;
    assert Feasible(t2, [CloseEvent, r, r]) && Run(t2, [CloseEvent, r, r]) == t5;
    assert Feasible(t1, [CloseEvent, CloseEvent, r, r]) && Run(t1, [CloseEvent, CloseEvent, r, r]) == t5;
    assert Feasible(s1, tail) && Run(s1, tail) == t5;
    RunAppend(Fresh(url), [c] + FailedRounds(target, 4), tail);
    assert t5.reconnectAttempts == 6;
  }

  /**
   * From a reset counter, five failed rounds bring it to the maximum, and the
   * next close schedules no retry.
   */
  lemma GivesUpAfterFiveFailures(s: ConnState, target: string)
    requires s.pendingRetries == 0 && s.reconnectAttempts == 0
    ensures Feasible(s, FailedRounds(target, 5))
    ensures var r := Run(s, FailedRounds(target, 5));
            r.reconnectAttempts == MaxReconnectAttempts && AfterClose(r).pendingRetries == 0
  {
    FailedRoundsCount(s, target, 5);
  }

  /** The open event resets the counter; apart from the socket's ready state nothing else changes. */
  lemma OpenResetsCounter(s: ConnState)
    requires s.ws.Some? && s.ws.value.readyState == Connecting
    ensures AfterOpen(s).reconnectAttempts == 0 && IsOpen(AfterOpen(s))
    ensures AfterOpen(s).(reconnectAttempts := s.reconnectAttempts, ws := s.ws) == s
  {
  }

  /** A retry raises the counter by exactly one, whether or not the new socket is built. */
  lemma RetryRaisesCounterByOne(s: ConnState, target: string, constructed: bool)
    requires s.pendingRetries > 0
    ensures AfterRetry(s, target, constructed).reconnectAttempts == s.reconnectAttempts + 1
    ensures constructed ==> AfterRetry(s, target, constructed).ws == Some(Socket(SocketUrl(s.url, target), Connecting))
  {
  }

  /** At the maximum handleReconnect does nothing; below it, it schedules exactly one retry. */
  lemma ReconnectSchedulesBelowMax(s: ConnState)
    ensures s.reconnectAttempts >= MaxReconnectAttempts ==> AfterHandleReconnect(s) == s
    ensures s.reconnectAttempts < MaxReconnectAttempts ==>
      AfterHandleReconnect(s) == s.(pendingRetries := s.pendingRetries + 1)
  {
  }

  /** A frame is written iff the socket held is open, and then it is the only change. */
  lemma SendGatedOnOpen(s: ConnState, f: OutFrame)
    ensures IsOpen(s) ==> AfterSend(s, f) == s.(written := s.written + [Encode(f)])
    ensures !IsOpen(s) ==> AfterSend(s, f) == s
  {
  }

  /** Every interval still live was handed out before the next handle. */
  predicate HandlesIssued(s: ConnState)
  {
    forall h :: h in s.liveIntervals ==> h < s.nextTimerId
  }

  /**
   * startHeartbeat stores a handle no live interval has, and keeps every
   * live handle below the next one.
   */
  lemma HeartbeatHandleFresh(s: ConnState)
    requires HandlesIssued(s)
    ensures s.nextTimerId !in s.liveIntervals
    ensures var t := AfterStartHeartbeat(s);
            t.heartbeatInterval == Some(s.nextTimerId) && t.liveIntervals == s.liveIntervals + {s.nextTimerId} &&
            HandlesIssued(t)
  {
  }

  /** Every event keeps the live handles below the next one. */
  lemma {:induction false} HandlesStayIssued(s: ConnState, es: seq<Event>)
    requires HandlesIssued(s) && Feasible(s, es)
    ensures HandlesIssued(Run(s, es))
    decreases |es|
  {
    if es != [] {
      var t := Step(s, es[0]);
      assert HandlesIssued(t) by {
        match es[0]
        case ConnectCall(u, ok) =>
          if ok { HeartbeatHandleFresh(s.(ws := Some(Socket(SocketUrl(s.url, u), Connecting)))); }
        case RetryTimer(u, ok) =>
          if ok {
            HeartbeatHandleFresh(s.(pendingRetries := s.pendingRetries - 1, reconnectAttempts := s.reconnectAttempts + 1,
                                    ws := Some(Socket(SocketUrl(s.url, u), Connecting))));
          }
        case _ =>
      }
      HandlesStayIssued(t, es[1..]);
    }
  }

  /**
   * disconnect drops the socket and clears the stored heartbeat, but keeps the
   * counter and any pending retry; afterwards nothing can be sent.
   */
  lemma DisconnectKeepsCounter(s: ConnState, f: OutFrame)
    ensures var d := AfterDisconnect(s);
            d.ws.None? && d.reconnectAttempts == s.reconnectAttempts &&
            d.pendingRetries == s.pendingRetries && d.written == s.written &&
            (s.heartbeatInterval.Some? ==> s.heartbeatInterval.value !in d.liveIntervals) &&
            AfterSend(d, f) == d
  {
  }

  /**
   * connect starts a heartbeat without clearing the previous one, so after two
   * connects and a disconnect the first interval is still live.
   */
  lemma HeartbeatSurvivesReconnect(s: ConnState, a: string, b: string)
    ensures var r := AfterDisconnect(AfterConnect(AfterConnect(s, a, true), b, true));
            s.nextTimerId in r.liveIntervals && r.ws.None?
  {
  }

  /**
   * The close event that follows disconnect still schedules a retry while the
   * counter is below the maximum, and that retry opens a new socket.
   */
  lemma CloseAfterDisconnectRetries(s: ConnState, target: string)
    requires s.reconnectAttempts < MaxReconnectAttempts
    ensures var d := AfterClose(AfterDisconnect(s));
            d.pendingRetries == s.pendingRetries + 1 &&
            AfterRetry(d, target, true).ws == Some(Socket(SocketUrl(s.url, target), Connecting))
  {
  }

  /**
   * A frame this client sends, if echoed back unchanged, is dispatched by
   * handleMessage to the entry point of its tag, without the sender or user
   * id the dispatcher reads (outbound frames carry neither); a ping is ignored.
   */
  lemma EchoDispatch(f: OutFrame)
    ensures f.ChatFrame? ==>
      HandleMessage(Encode(f)) == Some(AddMessageCall(Some(f.content), None, OrText(Some(f.messageType)), f.replyTo))
    ensures f.TypingFrame? ==> HandleMessage(Encode(f)) == Some(SetUserTypingCall(None, Some(f.isTyping)))
    ensures f.ReactionFrame? ==>
      HandleMessage(Encode(f)) == Some(UpdateMessageReactionCall(Some(f.messageId), Some(f.reaction), None))
    ensures f.PingFrame? ==> HandleMessage(Encode(f)).None?
  {
    match f
    case ChatFrame(_, _, _) =>
    case TypingFrame(_) =>
      assert Encode(f).tag == "typing";
    case ReactionFrame(_, _) =>
      assert Encode(f).tag == "reaction";
    case PingFrame =>
      assert Encode(f).tag == "ping" && "ping" !in DispatchedTags;
  }
}

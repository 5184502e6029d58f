/** The browser-side connection of public/modules/websocketClient.js: connection flag,
    bounded reconnection with exponential back-off, and dispatch of pushed messages to
    handlers registered by type.

    The browser `WebSocket` is identified by a number (`SocketId`), a registered handler
    function by a `HandlerId`; waiting out the back-off delay is the split between
    `HandleReconnect` and `ReconnectDelayElapsed`. */
module ReconnectingClient {

  import opened Wrappers
  import opened Protocol

  type SocketId = nat
  type HandlerId = nat

  const MAX_RECONNECT_ATTEMPTS: nat := 5
  const RECONNECT_DELAY: nat := 3000
  const GIVE_UP_NOTICE: string := "Unable to reconnect to server"

  function Pow2(n: nat): nat {
    if n == 0 then 1 else 2 * Pow2(n - 1)
  }

  /** The wait before reconnection attempt number `attempt` (counting from 1). */
  function BackoffDelay(attempt: nat): nat
    requires attempt >= 1
  {
    RECONNECT_DELAY * Pow2(attempt - 1)
  }

  /** The five delays are 3, 6, 12, 24 and 48 seconds. */
  lemma BackoffSchedule()
    ensures [BackoffDelay(1), BackoffDelay(2), BackoffDelay(3), BackoffDelay(4), BackoffDelay(5)]
         == [3000, 6000, 12000, 24000, 48000]
  {
  }

  /** Every further attempt waits twice as long as the one before, and longer than the first. */
  lemma {:induction false} BackoffGrows(attempt: nat)
    requires attempt >= 1
    ensures BackoffDelay(attempt + 1) == 2 * BackoffDelay(attempt)
    ensures BackoffDelay(attempt) >= RECONNECT_DELAY
  {
    if attempt > 1 {
      BackoffGrows(attempt - 1);
    }
  }

  /** What `handleReconnect` decides: wait and retry, or give up with an error notification. */
  datatype ReconnectPlan = RetryAfter(attempt: nat, delay: nat) | GiveUp(notification: string)

  /** The attempt counter after `handleReconnect`, and its plan. */
  function ReconnectStep(attempts: nat): (r: (nat, ReconnectPlan))
    requires attempts <= MAX_RECONNECT_ATTEMPTS
    ensures r.0 <= MAX_RECONNECT_ATTEMPTS
    ensures r.1.RetryAfter? <==> attempts < MAX_RECONNECT_ATTEMPTS
    ensures r.1.RetryAfter? ==> r.0 == attempts + 1 && r.1.attempt == r.0 && r.1.delay == BackoffDelay(r.0)
    ensures r.1.GiveUp? ==> r.0 == attempts && r.1.notification == GIVE_UP_NOTICE
  {
    if attempts < MAX_RECONNECT_ATTEMPTS then
      var next := attempts + 1;
      (next, RetryAfter(next, BackoffDelay(next)))
    else
      (attempts, GiveUp(GIVE_UP_NOTICE))
  }

  /** The plans of `n` disconnections in a row, from `attempts`, with no successful open between. */
  function ConsecutiveFailures(attempts: nat, n: nat): (plans: seq<ReconnectPlan>)
    requires attempts <= MAX_RECONNECT_ATTEMPTS
    ensures |plans| == n
    ensures forall k :: 0 <= k < n ==>
      if attempts + k < MAX_RECONNECT_ATTEMPTS
      then plans[k] == RetryAfter(attempts + k + 1, BackoffDelay(attempts + k + 1))
      else plans[k] == GiveUp(GIVE_UP_NOTICE)
    decreases n
  {
    if n == 0 then []
    else
      var (next, plan) := ReconnectStep(attempts);
      var rest := ConsecutiveFailures(next, n - 1);
      assert forall k :: 1 <= k < n ==> ([plan] + rest)[k] == rest[k - 1];
      [plan] + rest
  }

  /** A client left to fail retries at most five times, then gives up for good. */
  lemma RetriesAreCapped(n: nat)
    ensures var plans := ConsecutiveFailures(0, n);
      forall k :: 0 <= k < n ==> (plans[k].RetryAfter? <==> k < MAX_RECONNECT_ATTEMPTS)
  {
  }

  /** Which handler `handleMessage` calls, with which message. */
  datatype Invocation = Invocation(handler: HandlerId, data: Message)

  class WebSocketClient {
    var ws: Option<SocketId>
    var isConnected: bool
    var reconnectAttempts: nat
    const maxReconnectAttempts: nat := MAX_RECONNECT_ATTEMPTS
    const reconnectDelay: nat := RECONNECT_DELAY
    var messageHandlers: map<string, HandlerId>
    /** What `send` has passed to the socket. */
    ghost var sent: seq<(SocketId, Message)>

    ghost predicate Valid()
      reads this
    {
      reconnectAttempts <= maxReconnectAttempts
    }

    /** A new client: no socket, disconnected, no attempts made, no handlers. */
    constructor ()
      ensures Valid()
      ensures ws.None? && !isConnected && reconnectAttempts == 0 && messageHandlers == map[] && sent == []
      ensures maxReconnectAttempts == 5 && reconnectDelay == 3000
    {
      ws := None;
      isConnected := false;
      reconnectAttempts := 0;
      messageHandlers := map[];
      sent := [];
    }

    /** `connect`: `created` is the new socket, or `None` when the constructor threw
        (then the previous socket stays). */
    method Connect(created: Option<SocketId>)
      requires Valid()
      modifies this
      ensures Valid()
      ensures ws == if created.Some? then created else old(ws)
      ensures isConnected == old(isConnected) && reconnectAttempts == old(reconnectAttempts)
      ensures messageHandlers == old(messageHandlers) && sent == old(sent)
    {
      if created.Some? {
        ws := created;
      }
    }

    /** `onopen`: connected, and the attempt counter starts over. */
    method OnOpen()
      requires Valid()
      modifies this
      ensures Valid()
      ensures isConnected && reconnectAttempts == 0
      ensures ws == old(ws) && messageHandlers == old(messageHandlers) && sent == old(sent)
    {
      isConnected := true;
      reconnectAttempts := 0;
    }

    /** `onerror`: disconnected, nothing else. */
    method OnError()
      requires Valid()
      modifies this
      ensures Valid()
      ensures !isConnected
      ensures ws == old(ws) && reconnectAttempts == old(reconnectAttempts)
      ensures messageHandlers == old(messageHandlers) && sent == old(sent)
    {
      isConnected := false;
    }

    /** `onclose`: disconnected, then `handleReconnect`. */
    method OnClose() returns (plan: ReconnectPlan)
      requires Valid()
      modifies this
      ensures Valid()
      ensures !isConnected
      ensures (reconnectAttempts, plan) == ReconnectStep(old(reconnectAttempts))
      ensures ws == old(ws) && messageHandlers == old(messageHandlers) && sent == old(sent)
    {
      isConnected := false;
      plan := HandleReconnect();
    }

    /** `handleReconnect` up to its wait: counts the attempt and computes its delay, or gives up
        once the maximum has been reached. */
    method HandleReconnect() returns (plan: ReconnectPlan)
      requires Valid()
      modifies this
      ensures Valid()
      ensures (reconnectAttempts, plan) == ReconnectStep(old(reconnectAttempts))
      ensures ws == old(ws) && isConnected == old(isConnected)
      ensures messageHandlers == old(messageHandlers) && sent == old(sent)
    {
      if reconnectAttempts < maxReconnectAttempts {
        reconnectAttempts := reconnectAttempts + 1;
        var delay := reconnectDelay * Pow2(reconnectAttempts - 1);
        plan := RetryAfter(reconnectAttempts, delay);
      } else {
        plan := GiveUp(GIVE_UP_NOTICE);
      }
    }

    /** `handleReconnect` after its wait: reconnects only if no connection opened meanwhile. */
    method ReconnectDelayElapsed(created: Option<SocketId>) returns (reconnected: bool)
      requires Valid()
      modifies this
      ensures Valid()
      ensures reconnected == !old(isConnected)
      ensures ws == if reconnected && created.Some? then created else old(ws)
      ensures isConnected == old(isConnected) && reconnectAttempts == old(reconnectAttempts)
      ensures messageHandlers == old(messageHandlers) && sent == old(sent)
    {
      reconnected := !isConnected;
      if reconnected {
        Connect(created);
      }
    }

    /** `on(messageType, handler)`: the newest registration for a type wins. */
    method On(messageType: string, handler: HandlerId)
      requires Valid()
      modifies this
      ensures Valid()
      ensures messageHandlers == old(messageHandlers)[messageType := handler]
      ensures ws == old(ws) && isConnected == old(isConnected) && reconnectAttempts == old(reconnectAttempts)
      ensures sent == old(sent)
    {
      messageHandlers := messageHandlers[messageType := handler];
    }

    /** `handleMessage`: `data` is the parsed event, or `None` when parsing failed. Only the
        handler registered for the message's type runs, and none if there is none. The handler
        is looked up at once rather than after the next animation frame. */
    method HandleMessage(data: Option<Message>) returns (invoked: Option<Invocation>)
      ensures invoked.Some? <==> data.Some? && data.value.msgType in messageHandlers
      ensures invoked.Some? ==> invoked.value == Invocation(messageHandlers[data.value.msgType], data.value)
    {
      invoked := None;
      if data.Some? && data.value.msgType in messageHandlers {
        invoked := Some(Invocation(messageHandlers[data.value.msgType], data.value));
      }
    }

    /** `send`: transmits only over an existing socket while connected. */
    method Send(data: Message) returns (transmitted: bool)
      requires Valid()
      modifies this
      ensures Valid()
      ensures transmitted <==> ws.Some? && isConnected
      ensures sent == old(sent) + if transmitted then [(ws.value, data)] else []
      ensures ws == old(ws) && isConnected == old(isConnected) && reconnectAttempts == old(reconnectAttempts)
      ensures messageHandlers == old(messageHandlers)
    {
      transmitted := ws.Some? && isConnected;
      if transmitted {
        sent := sent + [(ws.value, data)];
      }
    }

    function GetConnectionStatus(): bool
      reads this
    {
      isConnected
    }
  }
}

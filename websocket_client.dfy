/** The browser end of the telemetry channel, `SimulationWebSocket` in
    src/services/SimulationWebSocket.ts. The socket, the timer and the
    callbacks are abstract: the environment's events (open, message, close,
    a timer firing) are methods, and what a callback does is reduced to
    whether it throws. */
module WebSocketClient {
  import opened Wrappers
  import opened Seqs

  /** `WebSocket.readyState`. */
  datatype ReadyState = Connecting | Open | Closing | Closed

  /** One `WebSocket` object: an identity and its state. */
  datatype Socket = Socket(id: nat, readyState: ReadyState)

  /** A parsed `SimulationUpdate`: its `type` and the rest of its text. */
  datatype Update = Update(kind: string, payload: string)

  /** A callback is known by its identity, as a `Set` member is. */
  type CallbackId = nat

  const MaxReconnectAttempts := 5
  const ReconnectDelayMs := 2000
  const PingMessage := "{\"type\": \"ping\"}"

  /** One `attemptReconnect`: the new attempt count and whether a retry of
      `connect` was scheduled. */
  function ReconnectStep(attempts: nat): (r: (nat, bool))
    ensures attempts >= MaxReconnectAttempts ==> r == (attempts, false)
    ensures attempts < MaxReconnectAttempts ==> r == (attempts + 1, true)
  {
    if attempts >= MaxReconnectAttempts then (attempts, false) else (attempts + 1, true)
  }

  /** Retries scheduled by `n` reconnect attempts in a row, with no open
      in between, starting from `attempts`. */
  function RetriesScheduled(attempts: nat, n: nat): nat
    decreases n
  {
    if n == 0 then 0
    else
      var (next, scheduled) := ReconnectStep(attempts);
      (if scheduled then 1 else 0) + RetriesScheduled(next, n - 1)
  }

  /** However many closes or constructor failures arrive without an open in
      between, at most five retries are scheduled. */
  lemma {:induction false} RetriesBounded(attempts: nat, n: nat)
    requires attempts <= MaxReconnectAttempts
    ensures RetriesScheduled(attempts, n) == if n < MaxReconnectAttempts - attempts then n else MaxReconnectAttempts - attempts
    decreases n
  {
    if n > 0 {
      RetriesBounded(ReconnectStep(attempts).0, n - 1);
    }
  }

  /** Each callback invoked with the update, in subscription order. */
  function Deliveries(callbacks: seq<CallbackId>, u: Update): (r: seq<(CallbackId, Update)>)
    ensures |r| == |callbacks|
  {
    if callbacks == [] then [] else [(callbacks[0], u)] + Deliveries(callbacks[1..], u)
  }

  /** How many of the callbacks throw. */
  function Throwing(callbacks: seq<CallbackId>, throwing: set<CallbackId>): (n: nat)
    ensures n <= |callbacks|
  {
    if callbacks == [] then 0
    else (if callbacks[0] in throwing then 1 else 0) + Throwing(callbacks[1..], throwing)
  }

  /** The `k`-th delivery is the `k`-th callback invoked with the update. */
  lemma {:induction false} DeliveriesAt(callbacks: seq<CallbackId>, u: Update, k: nat)
    requires k < |callbacks|
    ensures Deliveries(callbacks, u)[k] == (callbacks[k], u)
    decreases k
  {
    if k > 0 {
      DeliveriesAt(callbacks[1..], u, k - 1);
    }
  }

  /** No error is logged exactly when no callback throws, and one per
      callback exactly when all of them throw. */
  lemma {:induction false} ThrowingBounds(callbacks: seq<CallbackId>, throwing: set<CallbackId>)
    ensures Throwing(callbacks, throwing) == 0 <==> forall i :: 0 <= i < |callbacks| ==> callbacks[i] !in throwing
    ensures Throwing(callbacks, throwing) == |callbacks| <==>
      forall i :: 0 <= i < |callbacks| ==> callbacks[i] in throwing
  {
    if callbacks != [] {
      ThrowingBounds(callbacks[1..], throwing);
      assert forall i :: 1 <= i < |callbacks| ==> callbacks[i] == callbacks[1..][i - 1];
    }
  }

  /** The `forEach` over the callbacks of a parsed update: every callback is
      invoked in order, and each one that throws adds one logged error. */
  method Dispatch(callbacks: seq<CallbackId>, u: Update, throwing: set<CallbackId>)
    returns (calls: seq<(CallbackId, Update)>, errors: nat)
    ensures calls == Deliveries(callbacks, u)
    ensures errors == Throwing(callbacks, throwing)
  {
    calls := [];
    errors := 0;
    var i := 0;
    while i < |callbacks|
      invariant 0 <= i <= |callbacks|
      invariant Deliveries(callbacks, u) == calls + Deliveries(callbacks[i..], u)
      invariant Throwing(callbacks, throwing) == errors + Throwing(callbacks[i..], throwing)
    {
      var c := callbacks[i];
      DispatchStep(callbacks, i, u, throwing);
      assert calls + ([(c, u)] + Deliveries(callbacks[i + 1..], u)) ==
        (calls + [(c, u)]) + Deliveries(callbacks[i + 1..], u);
      calls := calls + [(c, u)];
      if c in throwing {
        errors := errors + 1;
      }
      i := i + 1;
    }
  }

  /** One callback of the `forEach`: the deliveries and the throwing count of
      the rest of the list start with that callback's own. */
  lemma DispatchStep(callbacks: seq<CallbackId>, i: nat, u: Update, throwing: set<CallbackId>)
    requires i < |callbacks|
    ensures Deliveries(callbacks[i..], u) == [(callbacks[i], u)] + Deliveries(callbacks[i + 1..], u)
    ensures Throwing(callbacks[i..], throwing) ==
      (if callbacks[i] in throwing then 1 else 0) + Throwing(callbacks[i + 1..], throwing)
  {
    assert callbacks[i..][1..] == callbacks[i + 1..];
  }

  class SimulationWebSocket {
    /** `ws`: the current socket, or `null`. */
    var ws: Option<Socket>
    /** The `callbacks` set, in insertion order (a JavaScript `Set` iterates
        in that order). */
    var callbacks: seq<CallbackId>
    var reconnectAttempts: nat
    /** `connect` calls scheduled by `setTimeout` that have not fired yet. */
    var pendingRetries: nat
    /** Messages sent, with the socket they were sent on. */
    var sent: seq<(nat, string)>
    /** Every callback invocation, in order. */
    var delivered: seq<(CallbackId, Update)>
    /** Errors caught and logged: failed parses and throwing callbacks. */
    var errorsLogged: nat
    /** The identity the next socket gets. */
    var nextSocketId: nat

    ghost predicate Valid()
      reads this
    {
      && reconnectAttempts <= MaxReconnectAttempts
      && NoDup(callbacks)
      && (ws.Some? ==> ws.value.id < nextSocketId)
    }

    constructor ()
      ensures Valid()
      ensures ws == None && callbacks == [] && reconnectAttempts == 0
      ensures pendingRetries == 0 && sent == [] && delivered == [] && errorsLogged == 0
    {
      ws := None;
      callbacks := [];
      reconnectAttempts := 0;
      pendingRetries := 0;
      sent := [];
      delivered := [];
      errorsLogged := 0;
      nextSocketId := 0;
    }

    /** `attemptReconnect`: nothing once the limit is reached; otherwise one
        more attempt and one more scheduled `connect`. */
    method AttemptReconnect()
      requires Valid()
      modifies this
      ensures Valid()
      ensures reconnectAttempts == ReconnectStep(old(reconnectAttempts)).0
      ensures pendingRetries == old(pendingRetries) + (if ReconnectStep(old(reconnectAttempts)).1 then 1 else 0)
      ensures ws == old(ws) && callbacks == old(callbacks) && sent == old(sent)
      ensures delivered == old(delivered) && errorsLogged == old(errorsLogged)
      ensures nextSocketId == old(nextSocketId)
    {
      if reconnectAttempts >= MaxReconnectAttempts {
        return;
      }
      reconnectAttempts := reconnectAttempts + 1;
      pendingRetries := pendingRetries + 1;
    }

    /** `connect`: a new socket in state CONNECTING becomes `ws`; when the
        constructor throws, `ws` is left as it was and a reconnect is
        attempted instead. */
    method Connect(constructorThrows: bool)
      requires Valid()
      modifies this
      ensures Valid()
      ensures !constructorThrows ==> ws == Some(Socket(old(nextSocketId), Connecting))
      ensures !constructorThrows ==> nextSocketId == old(nextSocketId) + 1
      ensures !constructorThrows ==> reconnectAttempts == old(reconnectAttempts) && pendingRetries == old(pendingRetries)
      ensures constructorThrows ==> ws == old(ws) && nextSocketId == old(nextSocketId)
      ensures constructorThrows ==> reconnectAttempts == ReconnectStep(old(reconnectAttempts)).0
      ensures constructorThrows ==> (pendingRetries ==
        old(pendingRetries) + (if ReconnectStep(old(reconnectAttempts)).1 then 1 else 0))
      ensures callbacks == old(callbacks) && sent == old(sent)
      ensures delivered == old(delivered)
      ensures errorsLogged == old(errorsLogged) + (if constructorThrows then 1 else 0)
    {
      if constructorThrows {
        errorsLogged := errorsLogged + 1;
        AttemptReconnect();
      } else {
        ws := Some(Socket(nextSocketId, Connecting));
        nextSocketId := nextSocketId + 1;
      }
    }

    /** The `setTimeout` of a reconnect fires and calls `connect`. */
    method RetryTimerFires(constructorThrows: bool)
      requires Valid()
      requires pendingRetries > 0
      modifies this
      ensures Valid()
      ensures !constructorThrows ==> ws == Some(Socket(old(nextSocketId), Connecting))
      ensures !constructorThrows ==> pendingRetries == old(pendingRetries) - 1
      ensures constructorThrows ==> ws == old(ws) && reconnectAttempts == ReconnectStep(old(reconnectAttempts)).0
      ensures constructorThrows ==> (pendingRetries ==
        old(pendingRetries) - 1 + (if ReconnectStep(old(reconnectAttempts)).1 then 1 else 0))
      ensures callbacks == old(callbacks) && sent == old(sent) && delivered == old(delivered)
    {
      pendingRetries := pendingRetries - 1;
      Connect(constructorThrows);
    }

    /** `onopen` of socket `sid`: the attempt count goes back to zero and a
        ping is sent on whatever `ws` is now. When that is a newer socket
        still connecting, `send` throws `InvalidStateError` and nothing is
        sent. */
    method OnOpen(sid: nat)
      requires Valid()
      modifies this
      ensures Valid()
      ensures reconnectAttempts == 0
      ensures old(ws).Some? && old(ws).value.id == sid ==> ws == Some(Socket(sid, Open))
      ensures !(old(ws).Some? && old(ws).value.id == sid) ==> ws == old(ws)
      ensures sent == old(sent) + if ws.Some? && ws.value.readyState != Connecting then [(ws.value.id, PingMessage)] else []
      ensures callbacks == old(callbacks) && pendingRetries == old(pendingRetries)
      ensures delivered == old(delivered) && errorsLogged == old(errorsLogged)
    {
      if ws.Some? && ws.value.id == sid {
        ws := Some(Socket(sid, Open));
      }
      reconnectAttempts := 0;
      if ws.Some? && ws.value.readyState != Connecting {
        sent := sent + [(ws.value.id, PingMessage)];
      }
    }

    /** `onclose` of socket `sid`. The handler stays attached after
        `disconnect`, so a socket that is no longer `ws` still triggers a
        reconnect attempt. */
    method OnClose(sid: nat)
      requires Valid()
      modifies this
      ensures Valid()
      ensures old(ws).Some? && old(ws).value.id == sid ==> ws == Some(Socket(sid, Closed))
      ensures !(old(ws).Some? && old(ws).value.id == sid) ==> ws == old(ws)
      ensures reconnectAttempts == ReconnectStep(old(reconnectAttempts)).0
      ensures pendingRetries == old(pendingRetries) + (if ReconnectStep(old(reconnectAttempts)).1 then 1 else 0)
      ensures callbacks == old(callbacks) && sent == old(sent)
      ensures delivered == old(delivered) && errorsLogged == old(errorsLogged)
    {
      if ws.Some? && ws.value.id == sid {
        ws := Some(Socket(sid, Closed));
      }
      AttemptReconnect();
    }

    /** `onmessage`: `parsed` is the result of `JSON.parse`, `None` when it
        throws. A parsed update is passed to every callback in order; the
        callbacks in `throwing` throw, which is caught and logged without
        stopping the rest. */
    method OnMessage(parsed: Option<Update>, throwing: set<CallbackId>)
      requires Valid()
      modifies this
      ensures Valid()
      ensures parsed.None? ==> delivered == old(delivered) && errorsLogged == old(errorsLogged) + 1
      ensures parsed.Some? ==> delivered == old(delivered) + Deliveries(callbacks, parsed.value)
      ensures parsed.Some? ==>
        errorsLogged == old(errorsLogged) + Throwing(callbacks, throwing)
      ensures unchanged(`ws, `callbacks, `sent, `reconnectAttempts, `pendingRetries, `nextSocketId)
    {
      if parsed.None? {
        errorsLogged := errorsLogged + 1;
        return;
      }
      var calls, errors := Dispatch(callbacks, parsed.value, throwing);
      delivered := delivered + calls;
      errorsLogged := errorsLogged + errors;
    }

    /** `subscribe`: adding a callback already in the set changes nothing. */
    method Subscribe(c: CallbackId)
      requires Valid()
      modifies this
      ensures Valid()
      ensures callbacks == if c in old(callbacks) then old(callbacks) else old(callbacks) + [c]
      ensures ws == old(ws) && reconnectAttempts == old(reconnectAttempts) && sent == old(sent)
      ensures pendingRetries == old(pendingRetries) && delivered == old(delivered)
      ensures errorsLogged == old(errorsLogged) && nextSocketId == old(nextSocketId)
    {
      if c !in callbacks {
        callbacks := callbacks + [c];
      }
    }

    /** The function `subscribe` returns: it deletes exactly that callback. */
    method Unsubscribe(c: CallbackId)
      requires Valid()
      modifies this
      ensures Valid()
      ensures callbacks == RemoveAll(old(callbacks), c)
      ensures ws == old(ws) && reconnectAttempts == old(reconnectAttempts) && sent == old(sent)
      ensures pendingRetries == old(pendingRetries) && delivered == old(delivered)
      ensures errorsLogged == old(errorsLogged) && nextSocketId == old(nextSocketId)
    {
      RemoveAllKeepsNoDup(callbacks, c);
      callbacks := RemoveAll(callbacks, c);
    }

    /** `disconnect`: close and forget the socket, drop every callback. The
        closing socket's own `onclose` still arrives later (see `OnClose`). */
    method Disconnect()
      requires Valid()
      modifies this
      ensures Valid()
      ensures ws == None && callbacks == []
      ensures reconnectAttempts == old(reconnectAttempts) && pendingRetries == old(pendingRetries)
      ensures sent == old(sent) && delivered == old(delivered)
      ensures errorsLogged == old(errorsLogged) && nextSocketId == old(nextSocketId)
    {
      if ws.Some? {
        ws := None;
      }
      callbacks := [];
    }

    /** `isConnected`. */
    function IsConnected(): (r: bool)
      reads this
      ensures r <==> ws.Some? && ws.value.readyState == Open
    {
      match ws
      case None => false
      case Some(s) => s.readyState == Open
    }
  }

  lemma {:induction false} RemoveAllKeepsNoDup<T(!new)>(s: seq<T>, x: T)
    requires NoDup(s)
    ensures NoDup(RemoveAll(s, x))
  {
    if s != [] {
      RemoveAllKeepsNoDup(s[1..], x);
      if s[0] != x {
        assert s[0] !in s[1..];
      }
    }
  }
}

/** The server end of the telemetry channel, src/websocket_server.py. The
    transport is abstract: a client is an identity, a send either succeeds
    (and is recorded in `outbox`) or raises `ConnectionClosed`, which the
    caller names by passing the set of closed clients. Coroutines run one at
    a time to completion, so interleavings of handlers and broadcasts are not
    modelled. */
module WebSocketServer {
  import opened Wrappers

  type ClientId = nat

  /** `json.dumps({"type": "pong"})`. */
  const PongMessage := "{\"type\": \"pong\"}"

  /** The message `broadcast_update` builds: `{type, data, timestamp}`, the
      timestamp being the event loop's clock reading. */
  datatype Envelope<D> = Envelope(kind: string, data: D, timestamp: real)

  /** `broadcast_update`'s message: the three fields and nothing else. */
  function WrapUpdate<D>(kind: string, data: D, now: real): (e: Envelope<D>)
    ensures e.kind == kind && e.data == data && e.timestamp == now
  {
    Envelope(kind, data, now)
  }

  /** `sends` is exactly one send of `message` to each client of `to`. */
  ghost predicate OnceEach(sends: seq<(ClientId, string)>, to: set<ClientId>, message: string) {
    && |sends| == |to|
    && (forall k :: 0 <= k < |sends| ==> sends[k].1 == message && sends[k].0 in to)
    && (forall c :: c in to ==> (c, message) in sends)
  }

  /** `after` is `before` plus one send of `message` to each client of `to`. */
  ghost predicate SentToEach(before: seq<(ClientId, string)>, after: seq<(ClientId, string)>,
                             to: set<ClientId>, message: string)
  {
    |before| <= |after| && after[..|before|] == before && OnceEach(after[|before|..], to, message)
  }

  lemma OnceEachExtend(sends: seq<(ClientId, string)>, to: set<ClientId>, message: string, c: ClientId)
    requires OnceEach(sends, to, message)
    requires c !in to
    ensures OnceEach(sends + [(c, message)], to + {c}, message)
  {
    assert |to + {c}| == |to| + 1;
  }

  /** One pass over the clients: a send to each open client, and the closed
      ones collected as disconnected. */
  method Deliver(clients: set<ClientId>, closed: set<ClientId>, message: string)
    returns (sends: seq<(ClientId, string)>, disconnected: set<ClientId>)
    ensures disconnected == clients * closed
    ensures OnceEach(sends, clients - closed, message)
  {
    disconnected := {};
    sends := [];
    var remaining := clients;
    ghost var visited: set<ClientId> := {};
    while remaining != {}
      invariant remaining + visited == clients && remaining !! visited
      invariant disconnected == visited * closed
      invariant OnceEach(sends, visited - closed, message)
      decreases |remaining|
    {
      var c :| c in remaining;
      Take(remaining, visited, c);
      Visit(visited, closed, c);
      if c !in closed {
        OnceEachExtend(sends, visited - closed, message, c);
        sends := sends + [(c, message)];
      } else {
        disconnected := disconnected + {c};
      }
      visited := visited + {c};
      remaining := remaining - {c};
    }
  }

  /** Moving one client from the unvisited to the visited set keeps the
      partition of the clients. */
  lemma Take(remaining: set<ClientId>, visited: set<ClientId>, c: ClientId)
    requires c in remaining && remaining !! visited
    ensures (remaining - {c}) + (visited + {c}) == remaining + visited
    ensures (remaining - {c}) !! (visited + {c})
    ensures |remaining - {c}| < |remaining|
  {
    assert remaining == (remaining - {c}) + {c};
  }

  /** One more client visited, open or closed. */
  lemma Visit(visited: set<ClientId>, closed: set<ClientId>, c: ClientId)
    ensures c !in closed ==> (visited + {c}) - closed == (visited - closed) + {c}
    ensures c !in closed ==> (visited + {c}) * closed == visited * closed
    ensures c in closed ==> (visited + {c}) - closed == visited - closed
    ensures c in closed ==> (visited + {c}) * closed == visited * closed + {c}
  {
  }

  class SimulationWebSocketServer {
    var clients: set<ClientId>
    /** Every successful send, in order: the client and the text sent. */
    var outbox: seq<(ClientId, string)>
    /** How many times a message was serialised for sending. */
    var serialisations: nat

    constructor ()
      ensures clients == {} && outbox == [] && serialisations == 0
    {
      clients := {};
      outbox := [];
      serialisations := 0;
    }

    /** `register`. */
    method Register(c: ClientId)
      modifies this
      ensures clients == old(clients) + {c}
      ensures outbox == old(outbox) && serialisations == old(serialisations)
    {
      clients := clients + {c};
    }

    /** `unregister`: `discard`, so an absent client changes nothing. */
    method Unregister(c: ClientId)
      modifies this
      ensures clients == old(clients) - {c}
      ensures c !in old(clients) ==> clients == old(clients)
      ensures outbox == old(outbox) && serialisations == old(serialisations)
    {
      clients := clients - {c};
    }

    /** `broadcast`: with no clients, nothing happens at all. Otherwise the
        message is serialised once and sent to every client; the clients in
        `closed` raise `ConnectionClosed`, receive nothing and are removed
        once every client has been tried. */
    method Broadcast(messageJson: string, closed: set<ClientId>)
      modifies this
      ensures old(clients) == {} ==> clients == {} && outbox == old(outbox) && serialisations == old(serialisations)
      ensures old(clients) != {} ==> serialisations == old(serialisations) + 1
      ensures clients == old(clients) - closed
      ensures SentToEach(old(outbox), outbox, old(clients) - closed, messageJson)
    {
      if clients == {} {
        return;
      }
      serialisations := serialisations + 1;
      var disconnected := SendToAll(messageJson, closed);
      Prune(disconnected);
    }

    /** The `for client in self.clients` loop: try every client once. */
    method SendToAll(messageJson: string, closed: set<ClientId>) returns (disconnected: set<ClientId>)
      modifies this
      ensures disconnected == clients * closed
      ensures clients == old(clients) && serialisations == old(serialisations)
      ensures SentToEach(old(outbox), outbox, clients - closed, messageJson)
    {
      var sends;
      sends, disconnected := Deliver(clients, closed, messageJson);
      var before := outbox;
      outbox := outbox + sends;
      assert outbox[..|before|] == before && outbox[|before|..] == sends;
    }

    /** The `for client in disconnected` loop. */
    method Prune(disconnected: set<ClientId>)
      modifies this
      ensures clients == old(clients) - disconnected
      ensures outbox == old(outbox) && serialisations == old(serialisations)
    {
      var pruning := disconnected;
      while pruning != {}
        invariant pruning <= disconnected
        invariant clients == old(clients) - (disconnected - pruning)
        invariant outbox == old(outbox) && serialisations == old(serialisations)
        decreases |pruning|
      {
        var c :| c in pruning;
        Unregister(c);
        pruning := pruning - {c};
      }
    }

    /** `handler` over a connection's whole life: register, answer each of
        the `incoming` messages with a pong, and unregister on the way out,
        whether the connection ended normally or with `ConnectionClosed`. */
    method Handler(c: ClientId, incoming: seq<string>)
      modifies this
      ensures clients == old(clients) - {c}
      ensures outbox == old(outbox) + seq(|incoming|, _ => (c, PongMessage))
      ensures serialisations == old(serialisations)
    {
      Register(c);
      var i := 0;
      while i < |incoming|
        invariant 0 <= i <= |incoming|
        invariant clients == old(clients) + {c}
        invariant outbox == old(outbox) + seq(i, _ => (c, PongMessage))
        invariant serialisations == old(serialisations)
      {
        outbox := outbox + [(c, PongMessage)];
        i := i + 1;
      }
      Unregister(c);
    }
  }

  /** The module-level `_server_instance` and the functions that use it. */
  class ServerRegistry {
    var instance: Option<SimulationWebSocketServer>

    constructor ()
      ensures instance == None
    {
      instance := None;
    }

    /** `get_server`: create the instance on first use, afterwards always
        return the same one. */
    method GetServer() returns (s: SimulationWebSocketServer)
      modifies this
      ensures old(instance).Some? ==> s == old(instance).value
      ensures old(instance).None? ==> fresh(s) && s.clients == {} && s.outbox == []
      ensures instance == Some(s)
    {
      if instance.None? {
        var created := new SimulationWebSocketServer();
        instance := Some(created);
      }
      s := instance.value;
    }

    /** Two calls of `get_server` give the same server. */
    method GetServerTwice() returns (a: SimulationWebSocketServer, b: SimulationWebSocketServer)
      modifies this
      ensures a == b
    {
      a := GetServer();
      b := GetServer();
    }

    /** `broadcast_update`: wrap the data in an envelope with the clock
        reading `now` and broadcast its serialisation `dumps(envelope)` on
        the shared server. */
    method BroadcastUpdate<D>(kind: string, data: D, now: real,
                              dumps: Envelope<D> -> string, closed: set<ClientId>)
      returns (server: SimulationWebSocketServer)
      modifies this, if instance.Some? then {instance.value} else {}
      ensures instance == Some(server)
      ensures old(instance).Some? ==> server == old(instance).value
      ensures old(instance).None? ==> server.clients == {} && server.outbox == []
      ensures old(instance).Some? ==> server.clients == old(instance.value.clients) - closed
      ensures old(instance).Some? ==>
        SentToEach(old(instance.value.outbox), server.outbox, old(instance.value.clients) - closed,
                   dumps(WrapUpdate(kind, data, now)))
    {
      server := GetServer();
      server.Broadcast(dumps(WrapUpdate(kind, data, now)), closed);
    }
  }
}

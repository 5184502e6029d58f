/** The connection registry and broadcast of src/websocket/websocketManager.js.

    The registry is the `Set` of client sockets, kept as a duplicate-free sequence in
    insertion order (the order `forEach` visits). A send is recorded in the ghost `outbox`
    as a `Delivery`; whether the socket's send callback reports an error is an input
    (`failed`), and a failure is only logged. */
module WebSocketRegistry {

  import opened Wrappers
  import opened Constants
  import opened Protocol
  import opened Seqs

  /** `WebSocket.CONNECTING`, `OPEN`, `CLOSING`, `CLOSED` of the `ws` library. */
  datatype ReadyState = Connecting | Open | Closing | Closed

  datatype CloseFrame = CloseFrame(code: nat, reason: string)

  /** A client socket. Its state belongs to the `ws` library and the network; the model
      records the close requests the server makes and the move to CLOSING that each one
      causes. */
  class Socket {
    var readyState: ReadyState
    var closeRequest: Option<CloseFrame>

    constructor (state: ReadyState)
      ensures readyState == state && closeRequest == None
    {
      readyState := state;
      closeRequest := None;
    }

    /** `close(code, reason)`: a socket not yet closed starts its closing handshake. */
    method Close(code: nat, reason: string)
      modifies this
      ensures closeRequest == Some(CloseFrame(code, reason))
      ensures readyState == if old(readyState) == Closed then Closed else Closing
    {
      closeRequest := Some(CloseFrame(code, reason));
      if readyState != Closed {
        readyState := Closing;
      }
    }
  }

  /** One call of `client.send(message, callback)`; `ok` is false when the callback got an error. */
  datatype Delivery = Delivery(target: Socket, payload: Message, ok: bool)

  /** How the promise of `sendToClient` settles. */
  datatype SendResult = Resolved | Rejected

  /** `clients.add(ws)`. */
  function Added(clients: seq<Socket>, ws: Socket): (r: seq<Socket>)
    ensures Elems(r) == Elems(clients) + {ws}
    ensures Distinct(clients) ==> Distinct(r)
    ensures ws in clients ==> r == clients
  {
    if ws in clients then clients else clients + [ws]
  }

  /** `clients.delete(ws)`: the others keep their order. */
  function Removed(clients: seq<Socket>, ws: Socket): (r: seq<Socket>)
    ensures Elems(r) == Elems(clients) - {ws}
    ensures Distinct(clients) ==> Distinct(r)
    ensures ws !in clients ==> r == clients
    decreases |clients|
  {
    if clients == [] then []
    else
      var first, rest := clients[0], Removed(clients[1..], ws);
      assert clients == [first] + clients[1..];
      DistinctCons(first, clients[1..]);
      DistinctCons(first, rest);
      assert Elems(clients) == {first} + Elems(clients[1..]);
      assert Elems([first] + rest) == {first} + Elems(rest);
      if first == ws then rest else [first] + rest
  }

  /** The send a broadcast makes to one socket: none unless it is OPEN. */
  function OfferTo(c: Socket, payload: Message, failed: set<Socket>): seq<Delivery>
    reads c
  {
    if c.readyState == Open then [Delivery(c, payload, c !in failed)] else []
  }

  /** The sends one broadcast of `payload` makes, in visiting order. */
  function Offers(clients: seq<Socket>, payload: Message, failed: set<Socket>): (d: seq<Delivery>)
    reads clients
    ensures |d| <= |clients|
    decreases |clients|
  {
    if clients == [] then []
    else Offers(clients[..|clients| - 1], payload, failed) + OfferTo(clients[|clients| - 1], payload, failed)
  }

  /** Every send of a broadcast carries the one payload, goes to an OPEN member, and is
      reported failed exactly when that member's send fails. */
  lemma {:induction false} OffersSound(clients: seq<Socket>, payload: Message, failed: set<Socket>)
    ensures forall k :: 0 <= k < |Offers(clients, payload, failed)| ==>
      var send := Offers(clients, payload, failed)[k];
      && send.payload == payload
      && send.target in clients
      && send.target.readyState == Open
      && send.ok == (send.target !in failed)
    decreases |clients|
  {
    if clients != [] {
      var init, last := clients[..|clients| - 1], clients[|clients| - 1];
      OffersSound(init, payload, failed);
      var earlier := Offers(init, payload, failed);
      var d := Offers(clients, payload, failed);
      assert d == earlier + OfferTo(last, payload, failed);
      forall k | 0 <= k < |d|
        ensures d[k].payload == payload && d[k].target in clients && d[k].target.readyState == Open
        ensures d[k].ok == (d[k].target !in failed)
      {
        if k < |earlier| {
          assert d[k] == earlier[k] && earlier[k].target in init;
        }
      }
    }
  }

  /** Every OPEN member of the registry is offered the broadcast. */
  lemma {:induction false} OffersComplete(clients: seq<Socket>, payload: Message, failed: set<Socket>, c: Socket)
    requires c in clients && c.readyState == Open
    ensures exists k :: 0 <= k < |Offers(clients, payload, failed)| &&
                        Offers(clients, payload, failed)[k] == Delivery(c, payload, c !in failed)
    decreases |clients|
  {
    var init, last := clients[..|clients| - 1], clients[|clients| - 1];
    var earlier := Offers(init, payload, failed);
    var d := Offers(clients, payload, failed);
    assert d == earlier + OfferTo(last, payload, failed);
    if c == last {
      assert d[|earlier|] == Delivery(c, payload, c !in failed);
    } else {
      assert clients == init + [last];
      assert c in init;
      OffersComplete(init, payload, failed, c);
      var k :| 0 <= k < |earlier| && earlier[k] == Delivery(c, payload, c !in failed);
      assert d[k] == earlier[k];
    }
  }

  /** Offering to one more member appends at most that member's send. */
  lemma OffersSnoc(clients: seq<Socket>, i: nat, payload: Message, failed: set<Socket>)
    requires i < |clients|
    ensures Offers(clients[..i + 1], payload, failed) ==
      Offers(clients[..i], payload, failed) + OfferTo(clients[i], payload, failed)
  {
    assert clients[..i + 1][..i] == clients[..i];
  }

  ghost predicate DistinctTargets(d: seq<Delivery>) {
    forall j, k :: 0 <= j < k < |d| ==> d[j].target != d[k].target
  }

  /** No member of the registry is offered a broadcast twice. */
  lemma {:induction false} OffersOncePerMember(clients: seq<Socket>, payload: Message, failed: set<Socket>)
    requires Distinct(clients)
    ensures DistinctTargets(Offers(clients, payload, failed))
    decreases |clients|
  {
    if clients != [] {
      var init := clients[..|clients| - 1];
      var last := clients[|clients| - 1];
      assert Distinct(init);
      OffersOncePerMember(init, payload, failed);
      OffersSound(init, payload, failed);
      assert last !in init;
      var earlier := Offers(init, payload, failed);
      var d := Offers(clients, payload, failed);
      assert d == earlier + OfferTo(last, payload, failed);
      forall j, k | 0 <= j < k < |d| ensures d[j].target != d[k].target {
        assert d[j] == earlier[j] && earlier[j].target in init;
        if k < |earlier| {
          assert d[k] == earlier[k];
          assert DistinctTargets(earlier);
        } else {
          assert d[k].target == last;
          assert last != earlier[j].target;
        }
      }
    }
  }

  class WebSocketManager {
    var clients: seq<Socket>
    /** The `ws` server; attaching it to an HTTP server is not part of this model. */
    var wss: Option<nat>
    ghost var outbox: seq<Delivery>

    ghost function Members(): set<Socket>
      reads this
    {
      Elems(clients)
    }

    ghost predicate Valid()
      reads this
    {
      Distinct(clients)
    }

    /** A new manager has no clients and no server. */
    constructor ()
      ensures Valid() && clients == [] && wss == None && outbox == []
    {
      clients := [];
      wss := None;
      outbox := [];
    }

    /** A new connection joins the registry; adding a present socket changes nothing. */
    method HandleConnection(ws: Socket)
      requires Valid()
      modifies this
      ensures Valid()
      ensures clients == Added(old(clients), ws)
      ensures wss == old(wss) && outbox == old(outbox)
    {
      if ws !in clients {
        clients := clients + [ws];
      }
    }

    /** The `close` listener registered for `ws`. */
    method OnClose(ws: Socket)
      requires Valid()
      modifies this
      ensures Valid()
      ensures clients == Removed(old(clients), ws)
      ensures wss == old(wss) && outbox == old(outbox)
    {
      clients := Removed(clients, ws);
    }

    /** The `error` listener registered for `ws`: the same removal. */
    method OnError(ws: Socket)
      requires Valid()
      modifies this
      ensures Valid()
      ensures clients == Removed(old(clients), ws)
      ensures wss == old(wss) && outbox == old(outbox)
    {
      OnClose(ws);
    }

    /** Offers the one payload to every OPEN member, in order, and never fails as a whole:
        failed sends are only logged, and the registry is left as it was. */
    method Broadcast(data: Message, failed: set<Socket>)
      requires Valid()
      modifies this
      ensures Valid()
      ensures clients == old(clients) && wss == old(wss)
      ensures outbox == old(outbox) + Offers(clients, data, failed)
    {
      var message := data;
      var members := clients;
      ghost var sends: seq<Delivery> := [];
      var i := 0;
      while i < |members|
        invariant 0 <= i <= |members|
        invariant sends == Offers(members[..i], message, failed)
        invariant unchanged(this)
      {
        var client := members[i];
        OffersSnoc(members, i, message, failed);
        if client.readyState == Open {
          sends := sends + [Delivery(client, message, client !in failed)];
        }
        i := i + 1;
      }
      assert members[..i] == members;
      outbox := outbox + sends;
    }

    /** Sends only to an OPEN socket; the promise rejects only when that send failed. */
    method SendToClient(ws: Socket, data: Message, fails: bool) returns (r: SendResult)
      requires Valid()
      modifies this
      ensures Valid()
      ensures clients == old(clients) && wss == old(wss)
      ensures outbox == old(outbox) + if ws.readyState == Open then [Delivery(ws, data, !fails)] else []
      ensures r == Rejected <==> ws.readyState == Open && fails
    {
      r := Resolved;
      if ws.readyState == Open {
        outbox := outbox + [Delivery(ws, data, !fails)];
        if fails {
          r := Rejected;
        }
      }
    }

    /** `clients.size` */
    function GetConnectedClientsCount(): (n: nat)
      reads this
      requires Valid()
      ensures n == |Members()|
    {
      DistinctCard(clients);
      |clients|
    }

    /** Asks every member to close with the given code and reason (by default
        `WEBSOCKET_CLOSE_CODE` and `WEBSOCKET_CLOSE_REASON`); the members leave the
        registry only when their own `close` events arrive. */
    method CloseAllConnections(closeCode: nat := WEBSOCKET_CLOSE_CODE, closeReason: string := WEBSOCKET_CLOSE_REASON)
      requires Valid()
      modifies clients
      ensures forall c :: c in clients ==>
        && c.closeRequest == Some(CloseFrame(closeCode, closeReason))
        && c.readyState == if old(c.readyState) == Closed then Closed else Closing
    {
      if |clients| > 0 {
        var i := 0;
        while i < |clients|
          invariant 0 <= i <= |clients|
          invariant forall j :: 0 <= j < i ==>
            && clients[j].closeRequest == Some(CloseFrame(closeCode, closeReason))
            && clients[j].readyState == if old(clients[j].readyState) == Closed then Closed else Closing
          invariant forall j :: i <= j < |clients| ==>
            clients[j].readyState == old(clients[j].readyState)
        {
          clients[i].Close(closeCode, closeReason);
          i := i + 1;
        }
      }
    }

    /** The connection part of `cleanup()`: `closeAllConnections()` with its default
        arguments, so every member is asked to close with code 1000 and reason
        "Server shutting down". */
    method Cleanup()
      requires Valid()
      modifies clients
      ensures forall c :: c in clients ==>
        && c.closeRequest == Some(CloseFrame(1000, "Server shutting down"))
        && c.readyState == if old(c.readyState) == Closed then Closed else Closing
    {
      CloseAllConnections();
    }
  }
}

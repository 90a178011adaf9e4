/** The relay process of src/server/websocket-server.ts: a registry of live
    connections with their subscriptions and user, the inbound control
    messages that change it, and the three fan-out rules. Sockets are named
    by connection ids; every send is an append to that connection's outbox. */
module Relay {
  import opened Wire

  type ConnId = nat

  /** The subscription that stands for "every auction". */
  const Wildcard: string := "*"

  /** What the registry holds for one connection. */
  datatype ClientData = ClientData(userId: Option<string>, subscriptions: set<string>)

  /** A request body posted to the ingress endpoint. */
  datatype IngressBody = Unparseable | Json(msg: ServerMsg)

  const HttpOk: nat := 200
  const HttpBadRequest: nat := 400

  /** A connection receives an event for auction a when its socket is open
      and it is subscribed to a or to the wildcard. */
  function AuctionRecipients(clients: map<ConnId, ClientData>, open: set<ConnId>, a: string): set<ConnId>
  {
    set c | c in clients && c in open &&
      (a in clients[c].subscriptions || Wildcard in clients[c].subscriptions)
  }

  /** A connection receives a user-addressed message when its socket is open
      and it authenticated as that user. */
  function UserRecipients(clients: map<ConnId, ClientData>, open: set<ConnId>, u: string): set<ConnId>
  {
    set c | c in clients && c in open && clients[c].userId == Some(u)
  }

  /** Every outbox of a recipient grows by m; every other outbox is as it was. */
  function Deliver(outbox: map<ConnId, seq<ServerMsg>>, recipients: set<ConnId>, m: ServerMsg): map<ConnId, seq<ServerMsg>>
  {
    map c | c in outbox :: if c in recipients then outbox[c] + [m] else outbox[c]
  }

  /** What an inbound control message does to the sender's registry entry. */
  function ApplyControl(d: ClientData, m: ClientMsg): ClientData
  {
    match m
    case Auth(u) => d.(userId := u)
    case Subscribe(a) => if a != "" then d.(subscriptions := d.subscriptions + {a}) else d
    case Unsubscribe(a) => if a != "" then d.(subscriptions := d.subscriptions - {a}) else d
    case _ => d
  }

  /** Fan-out isolation: a connection subscribed only to auction b never
      receives an event for a different auction a. */
  lemma SubscribedElsewhereNeverReceives(clients: map<ConnId, ClientData>, open: set<ConnId>, a: string, b: string, c: ConnId)
    requires c in clients && clients[c].subscriptions == {b}
    requires b != a && b != Wildcard
    ensures c !in AuctionRecipients(clients, open, a)
  {
  }

  /** An open connection subscribed to the wildcard receives the events of
      every auction. */
  lemma WildcardReceivesEveryAuction(clients: map<ConnId, ClientData>, open: set<ConnId>, a: string, c: ConnId)
    requires c in clients && c in open && Wildcard in clients[c].subscriptions
    ensures c in AuctionRecipients(clients, open, a)
  {
  }

  /** Delivery appends exactly one copy of the message to each recipient and
      leaves every other connection's outbox untouched. */
  lemma DeliverAppendsOnce(outbox: map<ConnId, seq<ServerMsg>>, recipients: set<ConnId>, m: ServerMsg, c: ConnId)
    requires c in outbox
    ensures c in Deliver(outbox, recipients, m)
    ensures c in recipients ==> Deliver(outbox, recipients, m)[c] == outbox[c] + [m]
    ensures c !in recipients ==> Deliver(outbox, recipients, m)[c] == outbox[c]
  {
  }

  class Hub {
    /** The registry: one entry per connection that has not closed or erred. */
    var clients: map<ConnId, ClientData>
    /** The sockets the transport server tracks. */
    var sockets: set<ConnId>
    /** The tracked sockets whose state is OPEN. */
    var open: set<ConnId>
    /** Everything sent on each connection, oldest first. */
    var outbox: map<ConnId, seq<ServerMsg>>

    ghost predicate Valid()
      reads this
    {
      && clients.Keys <= sockets
      && open <= sockets
      && sockets <= outbox.Keys
    }

    constructor ()
      ensures Valid()
      ensures clients == map[] && sockets == {} && open == {} && outbox == map[]
    {
      clients, sockets, open, outbox := map[], {}, {}, map[];
    }

    /** A new socket connects: it is registered with no user and no
        subscriptions and is sent one CONNECTED message. */
    method Connect(c: ConnId)
      requires Valid()
      requires c !in outbox
      modifies this
      ensures Valid()
      ensures clients == old(clients)[c := ClientData(None, {})]
      ensures sockets == old(sockets) + {c} && open == old(open) + {c}
      ensures outbox == old(outbox)[c := [Connected]]
    {
      clients := clients[c := ClientData(None, {})];
      sockets := sockets + {c};
      open := open + {c};
      outbox := outbox[c := [Connected]];
    }

    /** The transport starts closing a socket: it is no longer OPEN, but its
        close event has not fired yet, so the registry still holds it. */
    method StartClosing(c: ConnId)
      requires Valid()
      modifies this`open
      ensures Valid()
      ensures open == old(open) - {c}
    {
      open := open - {c};
    }

    /** The close event: the socket is gone and its entry is deleted; no other
        entry changes. */
    method OnClose(c: ConnId)
      requires Valid()
      modifies this
      ensures Valid()
      ensures clients == old(clients) - {c}
      ensures sockets == old(sockets) - {c} && open == old(open) - {c}
      ensures outbox == old(outbox)
    {
      clients := clients - {c};
      sockets := sockets - {c};
      open := open - {c};
    }

    /** The error event deletes the entry. The transport has already moved
        the socket out of OPEN before reporting the error, so no later
        send reaches it; the socket stays tracked until its close event. */
    method OnError(c: ConnId)
      requires Valid()
      modifies this`clients, this`open
      ensures Valid()
      ensures clients == old(clients) - {c}
      ensures open == old(open) - {c}
    {
      clients := clients - {c};
      open := open - {c};
    }

    /** An inbound message on connection c. A payload that does not parse, a
        connection no longer registered, an unknown type, and a SUBSCRIBE or
        UNSUBSCRIBE without an auction id change nothing. */
    method OnMessage(c: ConnId, m: ClientMsg)
      requires Valid()
      modifies this`clients, this`outbox
      ensures Valid()
      ensures c !in old(clients) || m.Garbled? || m.UnknownType? ==>
        clients == old(clients) && outbox == old(outbox)
      ensures c in old(clients) && !m.Garbled? ==>
        clients == old(clients)[c := ApplyControl(old(clients)[c], m)]
      ensures c in old(clients) && m.Auth? ==>
        clients == old(clients)[c := old(clients)[c].(userId := m.userId)] && outbox == old(outbox)
      ensures c in old(clients) && m.Subscribe? ==>
        outbox == old(outbox) &&
        clients == if m.auctionId == "" then old(clients)
          else old(clients)[c := old(clients)[c].(subscriptions := old(clients)[c].subscriptions + {m.auctionId})]
      ensures c in old(clients) && m.Unsubscribe? ==>
        outbox == old(outbox) &&
        clients == if m.auctionId == "" then old(clients)
          else old(clients)[c := old(clients)[c].(subscriptions := old(clients)[c].subscriptions - {m.auctionId})]
      ensures c in old(clients) && m.Ping? ==>
        clients == old(clients) && outbox == old(outbox)[c := old(outbox)[c] + [Pong]]
    {
      if m.Garbled? || c !in clients {
        return;
      }
      var data := clients[c];
      match m
      case Auth(u) =>
        clients := clients[c := data.(userId := u)];
      case Subscribe(a) =>
        if a != "" {
          clients := clients[c := data.(subscriptions := data.subscriptions + {a})];
        }
      case Unsubscribe(a) =>
        if a != "" {
          clients := clients[c := data.(subscriptions := data.subscriptions - {a})];
        }
      case Ping =>
        outbox := outbox[c := outbox[c] + [Pong]];
      case UnknownType(_) =>
      case Garbled =>
    }

    /** `broadcast`: every tracked socket that is open receives m. */
    method Broadcast(m: ServerMsg)
      requires Valid()
      modifies this`outbox
      ensures Valid()
      ensures outbox == Deliver(old(outbox), open, m)
    {
      var pending := sockets;
      while pending != {}
        invariant pending <= sockets
        invariant outbox.Keys == old(outbox).Keys
        invariant forall c :: c in outbox ==>
          outbox[c] == if c in open && c !in pending then old(outbox)[c] + [m] else old(outbox)[c]
        decreases pending
      {
        var c :| c in pending;
        if c in open {
          outbox := outbox[c := outbox[c] + [m]];
        }
        pending := pending - {c};
      }
      assert outbox == Deliver(old(outbox), open, m);
    }

    /** `broadcastToAuction`: exactly the registered open connections
        subscribed to a or to the wildcard receive m. */
    method BroadcastToAuction(a: string, m: ServerMsg)
      requires Valid()
      modifies this`outbox
      ensures Valid()
      ensures outbox == Deliver(old(outbox), AuctionRecipients(clients, open, a), m)
    {
      ghost var recipients := AuctionRecipients(clients, open, a);
      var pending := clients.Keys;
      while pending != {}
        invariant pending <= clients.Keys
        invariant outbox.Keys == old(outbox).Keys
        invariant forall c :: c in outbox ==>
          outbox[c] == if c in recipients && c !in pending then old(outbox)[c] + [m] else old(outbox)[c]
        decreases pending
      {
        var c :| c in pending;
        var subs := clients[c].subscriptions;
        if c in open && (a in subs || Wildcard in subs) {
          outbox := outbox[c := outbox[c] + [m]];
        }
        pending := pending - {c};
      }
      assert outbox == Deliver(old(outbox), recipients, m);
    }

    /** `broadcastToUser`: exactly the registered open connections
        authenticated as u receive m. */
    method BroadcastToUser(u: string, m: ServerMsg)
      requires Valid()
      modifies this`outbox
      ensures Valid()
      ensures outbox == Deliver(old(outbox), UserRecipients(clients, open, u), m)
    {
      ghost var recipients := UserRecipients(clients, open, u);
      var pending := clients.Keys;
      while pending != {}
        invariant pending <= clients.Keys
        invariant outbox.Keys == old(outbox).Keys
        invariant forall c :: c in outbox ==>
          outbox[c] == if c in recipients && c !in pending then old(outbox)[c] + [m] else old(outbox)[c]
        decreases pending
      {
        var c :| c in pending;
        if c in open && clients[c].userId == Some(u) {
          outbox := outbox[c := outbox[c] + [m]];
        }
        pending := pending - {c};
      }
      assert outbox == Deliver(old(outbox), recipients, m);
    }

    /** `POST /broadcast`: a body that does not parse is answered 400 and
        sent nowhere; a body with a truthy auctionId goes to that auction's
        subscribers, any other body to every open socket. */
    method HandleBroadcastRequest(body: IngressBody) returns (status: nat)
      requires Valid()
      modifies this`outbox
      ensures Valid()
      ensures status == (if body.Unparseable? then HttpBadRequest else HttpOk)
      ensures body.Unparseable? ==> outbox == old(outbox)
      ensures body.Json? && AuctionIdOf(body.msg) != "" ==>
        outbox == Deliver(old(outbox), AuctionRecipients(clients, open, AuctionIdOf(body.msg)), body.msg)
      ensures body.Json? && AuctionIdOf(body.msg) == "" ==>
        outbox == Deliver(old(outbox), open, body.msg)
    {
      if body.Unparseable? {
        return HttpBadRequest;
      }
      var a := AuctionIdOf(body.msg);
      if a != "" {
        BroadcastToAuction(a, body.msg);
      } else {
        Broadcast(body.msg);
      }
      status := HttpOk;
    }
  }

  /** A short session: two viewers, one watching auction "A" and one watching
      everything; a bid on "B" reaches only the second. */
  method FanOutScenario() returns (first: seq<ServerMsg>, second: seq<ServerMsg>)
    ensures first == [Connected]
    ensures second == [Connected, BidPlaced("B", 500, "u")]
  {
    var hub := new Hub();
    hub.Connect(1);
    hub.Connect(2);
    hub.OnMessage(1, Subscribe("A"));
    hub.OnMessage(2, Subscribe(Wildcard));
    var status := hub.HandleBroadcastRequest(Json(BidPlaced("B", 500, "u")));
    assert 1 !in AuctionRecipients(hub.clients, hub.open, "B");
    assert 2 in AuctionRecipients(hub.clients, hub.open, "B");
    first, second := hub.outbox[1], hub.outbox[2];
  }
}

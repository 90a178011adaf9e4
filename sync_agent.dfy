/** The browser's connection agent of src/components/WebSocketProvider.tsx:
    connection status, the reconnect attempt counter, a single reconnect
    timer slot, the locally tracked subscriptions and the stored user id.
    Socket callbacks, timer expiry and the socket constructor's failure are
    explicit events; sockets are named by ids; sends are appended to one
    ordered log of (socket, message). */
module SyncAgent {
  import opened Wire
  import Relay

  datatype Status = Connecting | Connected | Disconnected | StatusError

  /** The browser socket's readyState. */
  datatype ReadyState = SockConnecting | SockOpen | SockClosing | SockClosed

  /** The reconnect timer reference: empty, holding a scheduled timer, or
      holding a timer that was cleared without emptying the reference. */
  datatype TimerSlot = NoTimer | Pending(delay: nat) | Cleared

  type SocketId = nat

  datatype Outgoing = Outgoing(socket: SocketId, msg: ClientMsg)

  /** An inbound frame: JSON that parses to a server message, or not. */
  datatype Inbound = Unparseable | Parsed(msg: ServerMsg)

  const ReconnectIntervals: seq<nat> := [1000, 2000, 4000, 8000, 16000, 30000]

  /** `RECONNECT_INTERVALS[min(attempt, length - 1)]`. */
  function ReconnectDelay(attempt: nat): nat
  {
    ReconnectIntervals[if attempt < |ReconnectIntervals| - 1 then attempt else |ReconnectIntervals| - 1]
  }

  /** The ladder: 1, 2, 4, 8, 16 seconds, then 30 seconds for every later
      attempt; it never shrinks as attempts grow. */
  lemma BackoffLadder(attempt: nat, later: nat)
    requires attempt <= later
    ensures attempt < 4 ==> ReconnectDelay(attempt + 1) == 2 * ReconnectDelay(attempt)
    ensures attempt >= 5 ==> ReconnectDelay(attempt) == 30000
    ensures 1000 <= ReconnectDelay(attempt) <= ReconnectDelay(later) <= 30000
  {
  }

  // ---------------------------------------------------------------------
  // The tracked subscriptions: a JavaScript Set, which keeps insertion order
  // ---------------------------------------------------------------------

  predicate NoDuplicates(s: seq<string>)
  {
    forall i, j :: 0 <= i < j < |s| ==> s[i] != s[j]
  }

  /** `Set.prototype.add`: appends x unless it is already there. */
  function SetAdd(s: seq<string>, x: string): (r: seq<string>)
    ensures forall y :: y in r <==> y in s || y == x
    ensures NoDuplicates(s) ==> NoDuplicates(r)
  {
    if x in s then s else s + [x]
  }

  /** `Set.prototype.delete`: drops x and keeps the others in order. */
  function SetDelete(s: seq<string>, x: string): (r: seq<string>)
    ensures forall y :: y in r <==> y in s && y != x
    ensures NoDuplicates(s) ==> NoDuplicates(r)
    ensures |r| <= |s|
  {
    if s == [] then []
    else if s[0] == x then SetDelete(s[1..], x)
    else
      var rest := SetDelete(s[1..], x);
      assert NoDuplicates(s) ==> s[0] !in s[1..];
      [s[0]] + rest
  }

  /** Adding an id that was not tracked and deleting it again restores the
      tracked sequence exactly. */
  lemma {:induction false} AddThenDelete(s: seq<string>, x: string)
    requires x !in s
    ensures SetDelete(SetAdd(s, x), x) == s
  {
    if s != [] {
      AddThenDelete(s[1..], x);
      assert SetAdd(s, x) == [s[0]] + SetAdd(s[1..], x);
    }
  }

  // ---------------------------------------------------------------------
  // What is sent when a socket opens
  // ---------------------------------------------------------------------

  /** The AUTH sent on open: one when a truthy user id is stored. */
  function AuthReplay(sock: SocketId, userId: Option<string>): seq<Outgoing>
  {
    if userId.Some? && userId.value != "" then [Outgoing(sock, Auth(userId))] else []
  }

  /** One SUBSCRIBE per tracked id, in the order they were tracked. */
  function SubscribeReplay(sock: SocketId, ids: seq<string>): (r: seq<Outgoing>)
    ensures |r| == |ids|
    ensures forall k :: 0 <= k < |ids| ==> r[k] == Outgoing(sock, Subscribe(ids[k]))
  {
    if ids == [] then []
    else SubscribeReplay(sock, ids[..|ids| - 1]) + [Outgoing(sock, Subscribe(ids[|ids| - 1]))]
  }

  /** The relay's entry for a connection after it has received the given
      messages in order (those on other sockets are not its own). */
  function RelayView(d: Relay.ClientData, sock: SocketId, out: seq<Outgoing>): Relay.ClientData
  {
    if out == [] then d
    else
      var last := out[|out| - 1];
      var before := RelayView(d, sock, out[..|out| - 1]);
      if last.socket == sock then Relay.ApplyControl(before, last.msg) else before
  }

  lemma {:induction false} RelayViewAppend(d: Relay.ClientData, sock: SocketId, a: seq<Outgoing>, b: seq<Outgoing>)
    ensures RelayView(d, sock, a + b) == RelayView(RelayView(d, sock, a), sock, b)
  {
    if b != [] {
      assert (a + b)[..|a + b| - 1] == a + b[..|b| - 1];
      assert (a + b)[|a + b| - 1] == b[|b| - 1];
      RelayViewAppend(d, sock, a, b[..|b| - 1]);
    } else {
      assert a + b == a;
    }
  }

  /** Replaying the tracked ids to a fresh relay entry subscribes it to
      exactly the non-empty tracked ids and leaves its user alone. */
  lemma {:induction false} SubscribeReplayRebuilds(d: Relay.ClientData, sock: SocketId, ids: seq<string>)
    ensures RelayView(d, sock, SubscribeReplay(sock, ids)) ==
      d.(subscriptions := d.subscriptions + (set x | x in ids && x != ""))
  {
    if ids != [] {
      var init := ids[..|ids| - 1];
      var x := ids[|ids| - 1];
      SubscribeReplayRebuilds(d, sock, init);
      assert SubscribeReplay(sock, ids)[..|ids| - 1] == SubscribeReplay(sock, init);
      assert (set y | y in ids && y != "") == (set y | y in init && y != "") + (if x != "" then {x} else {}) by {
        assert ids == init + [x];
      }
    }
  }

  /** What the agent sends when socket sock opens, read by the relay
      process against the new connection's empty entry, rebuilds the
      server-side state: the stored user (when truthy) and every tracked
      subscription. */
  lemma OpenReplayRebuildsRelayEntry(sock: SocketId, userId: Option<string>, ids: seq<string>)
    ensures RelayView(Relay.ClientData(None, {}), sock, AuthReplay(sock, userId) + SubscribeReplay(sock, ids)) ==
      Relay.ClientData(if userId.Some? && userId.value != "" then userId else None, set x | x in ids && x != "")
  {
    var d0 := Relay.ClientData(None, {});
    var auth := AuthReplay(sock, userId);
    RelayViewAppend(d0, sock, auth, SubscribeReplay(sock, ids));
    var d1 := RelayView(d0, sock, auth);
    if auth != [] {
      assert auth[..0] == [];
      assert d1 == d0.(userId := userId);
    }
    SubscribeReplayRebuilds(d1, sock, ids);
  }

  /** The error `useWebSocket` throws outside a provider; the hook itself
      is `UseContext(context, NoWebSocketProvider)`. */
  const NoWebSocketProvider := "useWebSocket must be used within a WebSocketProvider"

  // ---------------------------------------------------------------------
  // The agent
  // ---------------------------------------------------------------------

  class Agent {
    var status: Status
    var lastMessage: Option<ServerMsg>
    /** The socket reference: the socket most recently created, until a close
        event empties it. */
    var current: Option<SocketId>
    /** The readyState of every socket created so far. */
    var ready: map<SocketId, ReadyState>
    var nextSocket: SocketId
    var attempt: nat
    var timer: TimerSlot
    var tracked: seq<string>
    var userId: Option<string>
    /** Every message sent, oldest first. */
    var sent: seq<Outgoing>
    /** Sockets whose error event has fired: the browser has already moved
        them to CLOSED, and their close event is still to come. */
    var errored: set<SocketId>

    ghost predicate Valid()
      reads this
    {
      && (forall s :: s in ready ==> s < nextSocket)
      && (current.Some? ==> current.value in ready)
      && NoDuplicates(tracked)
      && (forall s :: s in errored ==> s in ready && ready[s] == SockClosed)
    }

    /** The socket reference holds a socket that is OPEN. */
    predicate IsOpen()
      reads this
      requires Valid()
    {
      current.Some? && ready[current.value] == SockOpen
    }

    constructor ()
      ensures Valid()
      ensures status == Disconnected && lastMessage == None && current == None
      ensures ready == map[] && nextSocket == 0 && attempt == 0 && timer == NoTimer
      ensures tracked == [] && userId == None && sent == [] && errored == {}
    {
      status, lastMessage, current := Disconnected, None, None;
      ready, nextSocket, attempt, timer := map[], 0, 0, NoTimer;
      tracked, userId, sent, errored := [], None, [], {};
    }

    /** `connect`: nothing while the referenced socket is open; otherwise the
        status becomes connecting and a new socket is created, or, when the
        constructor throws, the status becomes error and a reconnect is
        scheduled. */
    method Connect(constructorThrows: bool)
      requires Valid()
      modifies this`status, this`current, this`ready, this`nextSocket, this`timer
      ensures Valid()
      ensures old(IsOpen()) ==>
        status == old(status) && current == old(current) && ready == old(ready) &&
        nextSocket == old(nextSocket) && timer == old(timer)
      ensures !old(IsOpen()) && !constructorThrows ==>
        && status == Connecting && nextSocket == old(nextSocket) + 1
        && current == Some(old(nextSocket)) && ready == old(ready)[old(nextSocket) := SockConnecting]
        && timer == old(timer)
      ensures !old(IsOpen()) && constructorThrows ==>
        && status == StatusError && current == old(current) && ready == old(ready)
        && nextSocket == old(nextSocket)
        && timer == (if old(timer) == NoTimer then Pending(ReconnectDelay(attempt)) else old(timer))
    {
      if IsOpen() {
        return;
      }
      status := Connecting;
      if constructorThrows {
        status := StatusError;
        ScheduleReconnect();
      } else {
        var s := nextSocket;
        nextSocket := nextSocket + 1;
        ready := ready[s := SockConnecting];
        current := Some(s);
      }
    }

    /** `scheduleReconnect`: a no-op while the timer slot is non-empty, so at
        most one reconnect timer exists; otherwise a timer is set with the
        delay for the current attempt. */
    method ScheduleReconnect()
      modifies this`timer
      ensures old(timer) != NoTimer ==> timer == old(timer)
      ensures old(timer) == NoTimer ==> timer == Pending(ReconnectDelay(attempt))
    {
      if timer != NoTimer {
        return;
      }
      timer := Pending(ReconnectDelay(attempt));
    }

    /** The reconnect timer fires: the slot is emptied, the attempt counter
        goes up by exactly one, and `connect` runs. */
    method TimerFires(constructorThrows: bool)
      requires Valid()
      requires timer.Pending?
      modifies this`status, this`current, this`ready, this`nextSocket, this`timer, this`attempt
      ensures Valid()
      ensures attempt == old(attempt) + 1
      ensures old(IsOpen()) ==>
        && timer == NoTimer && status == old(status) && current == old(current)
        && ready == old(ready) && nextSocket == old(nextSocket)
      ensures !old(IsOpen()) && !constructorThrows ==>
        && status == Connecting && current == Some(old(nextSocket)) && timer == NoTimer
        && nextSocket == old(nextSocket) + 1 && ready == old(ready)[old(nextSocket) := SockConnecting]
      ensures !old(IsOpen()) && constructorThrows ==>
        && status == StatusError && timer == Pending(ReconnectDelay(old(attempt) + 1))
        && current == old(current) && ready == old(ready) && nextSocket == old(nextSocket)
    {
      timer := NoTimer;
      attempt := attempt + 1;
      Connect(constructorThrows);
    }

    /** `onopen` of socket s: connected, the counter reset, then AUTH when a
        truthy user id is stored and one SUBSCRIBE per tracked id, all on s. */
    method OnOpen(s: SocketId)
      requires Valid()
      requires s in ready && ready[s] == SockConnecting
      modifies this`status, this`attempt, this`ready, this`sent
      ensures Valid()
      ensures status == Status.Connected && attempt == 0
      ensures ready == old(ready)[s := SockOpen]
      ensures sent == old(sent) + AuthReplay(s, userId) + SubscribeReplay(s, tracked)
    {
      ready := ready[s := SockOpen];
      status := Status.Connected;
      attempt := 0;
      if userId.Some? && userId.value != "" {
        sent := sent + [Outgoing(s, Auth(userId))];
      }
      ghost var base := sent;
      var i := 0;
      while i < |tracked|
        modifies this`sent
        invariant 0 <= i <= |tracked|
        invariant sent == base + SubscribeReplay(s, tracked[..i])
      {
        assert tracked[..i + 1][..i] == tracked[..i];
        sent := sent + [Outgoing(s, Wire.Subscribe(tracked[i]))];
        i := i + 1;
      }
      assert tracked[..|tracked|] == tracked;
    }

    /** `onmessage`: a parsed message becomes the latest message; a frame
        that does not parse changes nothing. */
    method OnMessage(frame: Inbound)
      modifies this`lastMessage
      ensures lastMessage == if frame.Parsed? then Some(frame.msg) else old(lastMessage)
    {
      if frame.Parsed? {
        lastMessage := Some(frame.msg);
      }
    }

    /** `onclose` of socket s, which fires once per socket: either the
        socket closes now, or it is the close that follows its error event.
        Disconnected, the socket reference emptied whichever socket it held,
        and a reconnect scheduled. */
    method OnClose(s: SocketId)
      requires Valid()
      requires s in ready && (ready[s] != SockClosed || s in errored)
      modifies this`status, this`current, this`ready, this`timer, this`errored
      ensures Valid()
      ensures status == Disconnected && current == None
      ensures ready == old(ready)[s := SockClosed]
      ensures errored == old(errored) - {s}
      ensures timer == if old(timer) == NoTimer then Pending(ReconnectDelay(attempt)) else old(timer)
    {
      ready := ready[s := SockClosed];
      errored := errored - {s};
      status := Disconnected;
      current := None;
      ScheduleReconnect();
    }

    /** `onerror` of socket s: the browser has already moved the socket to
        CLOSED, so nothing more is sent on it and it never opens; its close
        event is still to come. The handler itself only sets the status; no
        reconnect is scheduled here. */
    method OnError(s: SocketId)
      requires Valid()
      requires s in ready && ready[s] != SockClosed
      modifies this`status, this`ready, this`errored
      ensures Valid()
      ensures status == StatusError
      ensures ready == old(ready)[s := SockClosed]
      ensures errored == old(errored) + {s}
    {
      status := StatusError;
      ready := ready[s := SockClosed];
      errored := errored + {s};
    }

    /** `sendMessage`: sent on the referenced socket when it is open,
        silently dropped otherwise. */
    method SendMessage(msg: ClientMsg)
      requires Valid()
      modifies this`sent
      ensures sent == if old(IsOpen()) then old(sent) + [Outgoing(current.value, msg)] else old(sent)
    {
      if IsOpen() {
        sent := sent + [Outgoing(current.value, msg)];
      }
    }

    /** `subscribe`: always tracked locally, sent only when open. */
    method Subscribe(auctionId: string)
      requires Valid()
      modifies this`tracked, this`sent
      ensures Valid()
      ensures tracked == SetAdd(old(tracked), auctionId)
      ensures sent == if old(IsOpen()) then old(sent) + [Outgoing(current.value, Wire.Subscribe(auctionId))] else old(sent)
    {
      tracked := SetAdd(tracked, auctionId);
      SendMessage(Wire.Subscribe(auctionId));
    }

    /** `unsubscribe`: always untracked locally, sent only when open. */
    method Unsubscribe(auctionId: string)
      requires Valid()
      modifies this`tracked, this`sent
      ensures Valid()
      ensures tracked == SetDelete(old(tracked), auctionId)
      ensures sent == if old(IsOpen()) then old(sent) + [Outgoing(current.value, Wire.Unsubscribe(auctionId))] else old(sent)
    {
      tracked := SetDelete(tracked, auctionId);
      SendMessage(Wire.Unsubscribe(auctionId));
    }

    /** `authenticate`: always stored locally, sent only when open. */
    method Authenticate(u: string)
      requires Valid()
      modifies this`userId, this`sent
      ensures Valid()
      ensures userId == Some(u)
      ensures sent == if old(IsOpen()) then old(sent) + [Outgoing(current.value, Auth(Some(u)))] else old(sent)
    {
      userId := Some(u);
      SendMessage(Auth(Some(u)));
    }

    /** The unmount cleanup: a held timer is cleared (the reference itself
        is not emptied), and the referenced socket is asked to close. The
        close event that follows is an ordinary `onclose`. */
    method Teardown()
      requires Valid()
      modifies this`timer, this`ready
      ensures Valid()
      ensures timer == if old(timer) == NoTimer then NoTimer else Cleared
      ensures old(current).None? ==> ready == old(ready)
      ensures old(current).Some? ==>
        var s := old(current).value;
        ready == old(ready)[s := if old(ready)[s] in {SockConnecting, SockOpen} then SockClosing else old(ready)[s]]
    {
      if timer != NoTimer {
        timer := Cleared;
      }
      if current.Some? {
        var s := current.value;
        if ready[s] in {SockConnecting, SockOpen} {
          ready := ready[s := SockClosing];
        }
      }
    }
  }

  /** Repeated failures: the delays scheduled are 1, 2, 4, 8, 16, 30 and 30
      seconds; after a successful open the next delay is 1 second again. */
  method BackoffScenario() returns (delays: seq<nat>)
    ensures delays == [1000, 2000, 4000, 8000, 16000, 30000, 30000, 1000]
  {
    var agent := new Agent();
    agent.Connect(false);
    delays := [];
    var k := 0;
    while k < 7
      invariant 0 <= k <= 7 && agent.Valid()
      invariant agent.current == Some(agent.nextSocket - 1) && agent.nextSocket >= 1
      invariant agent.ready[agent.nextSocket - 1] == SockConnecting
      invariant agent.attempt == k && agent.timer == NoTimer
      invariant delays == ReconnectDelays(k)
    {
      agent.OnClose(agent.nextSocket - 1);
      delays := delays + [agent.timer.delay];
      agent.TimerFires(false);
      k := k + 1;
    }
    agent.OnOpen(agent.nextSocket - 1);
    agent.OnClose(agent.nextSocket - 1);
    delays := delays + [agent.timer.delay];
  }

  function ReconnectDelays(k: nat): seq<nat>
  {
    if k == 0 then [] else ReconnectDelays(k - 1) + [ReconnectDelay(k - 1)]
  }

  /** The error event alone leaves no reconnect timer behind, a message sent
      after it is dropped, and the close event that follows it schedules a
      reconnect; on the next socket, which opens
      without error, the teardown of an idle provider is followed by a close
      event that schedules a reconnect as well. */
  method CallbackQuirksScenario() returns (afterError: TimerSlot, sentAfterError: seq<Outgoing>, afterErrorClose: TimerSlot, afterTeardown: TimerSlot)
    ensures afterError == NoTimer && sentAfterError == []
    ensures afterErrorClose == Pending(1000)
    ensures afterTeardown == Pending(1000)
  {
    var agent := new Agent();
    agent.Connect(false);
    var s := agent.nextSocket - 1;
    agent.OnError(s);
    afterError := agent.timer;
    agent.SendMessage(Wire.Subscribe("a1"));
    sentAfterError := agent.sent;
    agent.OnClose(s);
    afterErrorClose := agent.timer;
    agent.TimerFires(false);
    var t := agent.nextSocket - 1;
    agent.OnOpen(t);
    agent.Teardown();
    agent.OnClose(t);
    afterTeardown := agent.timer;
  }
}

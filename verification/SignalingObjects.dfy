/** The signaling client as an object updated in place; `Signaling` says what each method means. */
module SignalingObjects {
  import opened Wrappers
  import opened Signaling

  /** `sockets`, `timers` and `wire` belong to the browser and the network. The ghost fields are history. */
  class SignalingClient {
    var sockets: seq<SocketState>
    var timers: set<nat>
    var nextTimer: nat
    var wire: seq<(nat, Frame)>

    var socket: Option<nat>
    var sendQueue: seq<Packet>
    var reconnectTimer: Option<nat>
    var pinging: bool
    var reconnectAttempts: nat
    var isDisconnecting: bool

    ghost var delays: seq<nat>
    ghost var accepted: seq<Packet>
    ghost var entered: seq<Packet>
    ghost var dropped: nat

    ghost function LinkView(): Link
      reads this
    {
      Link(sockets, socket, timers, reconnectTimer, nextTimer, reconnectAttempts, pinging, isDisconnecting, delays)
    }

    ghost function OutView(): Outbox
      reads this
    {
      Outbox(sendQueue, wire, accepted, entered, dropped)
    }

    ghost function View(): Client
      reads this
    {
      Client(LinkView(), OutView())
    }

    constructor ()
      ensures View() == NEW
    {
      sockets, timers, nextTimer, wire := [], {}, 0, [];
      socket, sendQueue, reconnectTimer := None, [], None;
      pinging, reconnectAttempts, isDisconnecting := false, 0, false;
      delays, accepted, entered, dropped := [], [], [], 0;
    }

    /** In plain terms. */
    predicate HasOpenSocket()
      reads this
    {
      socket.Some? && socket.value < |sockets| && sockets[socket.value] == Open
    }

    function SocketIsOpen(): (r: bool)
      reads this
      ensures r == IsOpen(LinkView())
    {
      socket.Some? && socket.value < |sockets| && sockets[socket.value].Open?
    }

    method Connect(works: bool)
      modifies this`sockets, this`socket, this`isDisconnecting
      ensures LinkView() == Signaling.Connect(old(LinkView()), works)
      ensures old(socket).Some? ==> sockets == old(sockets) && socket == old(socket)
      ensures old(socket).None? ==>
                !isDisconnecting && socket == if works then Some(|old(sockets)|) else None
    {
      if socket.Some? {
        return;
      }
      isDisconnecting := false;
      if works {
        socket := Some(|sockets|);
        sockets := sockets + [Connecting];
      }
    }

    method CloseSocket()
      modifies this`sockets
      ensures LinkView() == Signaling.CloseSocket(old(LinkView()))
    {
      if socket.Some? && socket.value < |sockets|
          && (sockets[socket.value].Connecting? || sockets[socket.value].Open?) {
        sockets := sockets[socket.value := Closing];
      }
    }

    method Disconnect()
      modifies this`sockets, this`socket, this`timers, this`isDisconnecting, this`pinging
      ensures LinkView() == Signaling.Disconnect(old(LinkView()))
      ensures isDisconnecting && !pinging && socket == None
      ensures forall t :: t in timers <==> t in old(timers) && reconnectTimer != Some(t)
    {
      isDisconnecting := true;
      pinging := false;
      if reconnectTimer.Some? {
        timers := timers - {reconnectTimer.value};
      }
      CloseSocket();
      socket := None;
    }

    method ScheduleReconnect()
      modifies this`timers, this`reconnectTimer, this`nextTimer, this`reconnectAttempts, this`delays
      ensures LinkView() == Signaling.ScheduleReconnect(old(LinkView()))
      ensures if old(isDisconnecting) || old(reconnectAttempts) >= 5
              then timers == old(timers) && reconnectAttempts == old(reconnectAttempts)
              else && timers == old(timers) + {old(nextTimer)} && reconnectTimer == Some(old(nextTimer))
                   && reconnectAttempts == old(reconnectAttempts) + 1 && nextTimer == old(nextTimer) + 1
    {
      if isDisconnecting || reconnectAttempts >= MAX_ATTEMPTS {
        return;
      }
      delays := delays + [Delay(reconnectAttempts)];
      reconnectAttempts := reconnectAttempts + 1;
      timers := timers + {nextTimer};
      reconnectTimer := Some(nextTimer);
      nextTimer := nextTimer + 1;
    }

    method Send(p: Packet)
      modifies this`wire, this`sendQueue, this`accepted, this`entered, this`dropped
      ensures View() == Signaling.Send(old(View()), p)
      ensures HasOpenSocket() ==> wire == old(wire) + [(socket.value, Direct(p))] && sendQueue == old(sendQueue)
      ensures !HasOpenSocket() ==>
                wire == old(wire) && sendQueue == old(sendQueue) + (if |old(sendQueue)| < 500 then [p] else [])
    {
      if SocketIsOpen() {
        wire := wire + [(socket.value, Direct(p))];
        accepted := accepted + [p];
      } else if |sendQueue| < QUEUE_LIMIT {
        sendQueue := sendQueue + [p];
        accepted, entered := accepted + [p], entered + [p];
      } else {
        dropped := dropped + 1;
      }
    }

    /** Takes messages from the front, one at a time, while the socket is open. */
    method FlushQueue()
      modifies this`wire, this`sendQueue
      ensures View() == Signaling.FlushQueue(old(View()))
      ensures HasOpenSocket() ==>
                && sendQueue == [] && |wire| == |old(wire)| + |old(sendQueue)| && wire[..|old(wire)|] == old(wire)
                && forall i :: 0 <= i < |old(sendQueue)| ==>
                     wire[|old(wire)| + i] == (socket.value, Flushed(old(sendQueue)[i]))
      ensures !HasOpenSocket() ==> wire == old(wire) && sendQueue == old(sendQueue)
    {
      ghost var queue, k := sendQueue, 0;
      assert wire + FlushFrames(0, queue[..0]) == wire;
      while |sendQueue| > 0 && SocketIsOpen()
        invariant 0 <= k <= |queue| && sendQueue == queue[k..]
        invariant k > 0 ==> SocketIsOpen()
        invariant wire == old(wire) + if socket.Some? then FlushFrames(socket.value, queue[..k]) else []
        decreases |sendQueue|
      {
        var p := sendQueue[0];
        sendQueue := sendQueue[1..];
        FramesSplit(old(wire), socket.value, queue[..k + 1]);
        assert queue[..k + 1][..k] == queue[..k];
        wire := wire + [(socket.value, Flushed(p))];
        k := k + 1;
      }
      assert queue[..|queue|] == queue;
    }

    method Perform(calls: seq<Call>)
      modifies this
      ensures View() == CalledAll(old(View()), calls)
    {
      for i := 0 to |calls|
        invariant View() == CalledAll(old(View()), calls[..i])
      {
        assert calls[..i + 1][..i] == calls[..i];
        match calls[i]
        case CallSend(p) => Send(p);
        case CallConnect(works) => Connect(works);
        case CallDisconnect => Disconnect();
      }
      assert calls[..|calls|] == calls;
    }

    method OnOpen(s: nat)
      requires s < |sockets|
      modifies this`sockets, this`wire
      ensures View() == AtOpens(old(View()), s)
      ensures wire == old(wire) + if HasOpenSocket() then [(socket.value, Hello)] else []
      ensures sockets == old(sockets)[s := Open] && socket == old(socket)
    {
      sockets := sockets[s := Open];
      if SocketIsOpen() {
        wire := wire + [(socket.value, Hello)];
      }
    }

    method OnClose(s: nat, calls: seq<Call>, throws: bool)
      requires s < |sockets|
      modifies this
      ensures View() == AtCloses(old(View()), s, calls, throws)
      ensures calls == [] ==>
                && sockets == old(sockets)[s := Closed] && socket == None && !pinging
                && wire == old(wire) && sendQueue == old(sendQueue)
      ensures calls == [] && !throws && !old(isDisconnecting) && old(reconnectAttempts) < 5 ==>
                old(nextTimer) in timers && reconnectAttempts == old(reconnectAttempts) + 1
    {
      sockets := sockets[s := Closed];
      pinging := false;
      socket := None;
      Perform(calls);
      if !throws {
        ScheduleReconnect();
      }
    }

    /** `handleMessage` on an authentication reply. */
    method HandleAuth(success: bool, calls: seq<Call>, throws: bool)
      modifies this
      ensures View() == AtAuth(old(View()), success, calls, throws)
      ensures success && calls == [] ==> reconnectAttempts == 0
      ensures success && !throws ==> pinging && (HasOpenSocket() ==> sendQueue == [])
      ensures success && !throws && calls == [] && HasOpenSocket() ==>
                && |wire| == |old(wire)| + |old(sendQueue)| && wire[..|old(wire)|] == old(wire)
                && forall i :: 0 <= i < |old(sendQueue)| ==>
                     wire[|old(wire)| + i] == (socket.value, Flushed(old(sendQueue)[i]))
      ensures !success ==> wire == old(wire) && sendQueue == old(sendQueue) && socket == old(socket)
      ensures !success && old(HasOpenSocket()) ==> sockets == old(sockets)[socket.value := Closing]
    {
      if !success {
        CloseSocket();
        return;
      }
      reconnectAttempts := 0;
      delays := [];
      Perform(calls);
      if throws {
        return;
      }
      pinging := true;
      FlushQueue();
    }

    method OnHeartbeat(late: bool)
      modifies this
      ensures View() == AtHeartbeat(old(View()), late)
      ensures !late && old(HasOpenSocket()) ==> wire == old(wire) + [(old(socket).value, Heartbeat)]
      ensures late || !old(HasOpenSocket()) ==> wire == old(wire)
      ensures late ==> socket == None
      ensures late ==> old(isDisconnecting) || old(reconnectAttempts) >= 5 || old(nextTimer) in timers
      ensures sendQueue == old(sendQueue) && pinging == old(pinging)
    {
      if late {
        CloseSocket();
        socket := None;
        ScheduleReconnect();
        return;
      }
      if SocketIsOpen() {
        wire := wire + [(socket.value, Heartbeat)];
      }
    }
  }
}

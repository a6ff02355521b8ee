/** The browser's signaling client: its outbound queue and its reconnections. */
module Signaling {
  import opened Wrappers

  const QUEUE_LIMIT := 500
  const MAX_ATTEMPTS := 5
  const BASE_DELAY := 1000
  const MAX_DELAY := 15_000

  datatype Packet = Packet(kind: string, room: string, target: Option<string>, extra: string)

  datatype SocketState = Connecting | Open | Closing | Closed

  /** What is written on a socket: `Direct` by `send` itself, `Flushed` out of the queue. */
  datatype Frame = Hello | Heartbeat | Direct(packet: Packet) | Flushed(packet: Packet)

  /** `sockets` are all that were ever made, `socket` the current one. `timers` are the reconnection timers neither
      fired nor cleared, `handle` the last one set. `delays`: those asked for since the last authentication, before
      jitter. */
  datatype Link = Link(sockets: seq<SocketState>, socket: Option<nat>, timers: set<nat>, handle: Option<nat>,
                       nextTimer: nat, attempts: nat, pinging: bool, disconnecting: bool, delays: seq<nat>)

  /** The queue, and the history: what was written and where, what `send` accepted, what of that entered the queue, and
      how many it refused. */
  datatype Outbox = Outbox(queue: seq<Packet>, wire: seq<(nat, Frame)>, accepted: seq<Packet>, entered: seq<Packet>,
      dropped: nat)

  datatype Client = Client(link: Link, out: Outbox)

  const NEW := Client(Link([], None, {}, None, 0, 0, false, false, []), Outbox([], [], [], [], 0))

  // ---- connecting ----

  predicate Alive(l: Link, s: nat) {
    s < |l.sockets| && (l.sockets[s].Connecting? || l.sockets[s].Open?)
  }

  predicate IsOpen(l: Link) {
    l.socket.Some? && l.socket.value < |l.sockets| && l.sockets[l.socket.value].Open?
  }

  function Put(l: Link, s: nat, state: SocketState): Link
    requires s < |l.sockets|
  {
    l.(sockets := l.sockets[s := state])
  }

  /** `works`: the socket could be made. */
  function Connect(l: Link, works: bool): Link {
    if l.socket.Some? then l
    else if works then l.(disconnecting := false, sockets := l.sockets + [Connecting], socket := Some(|l.sockets|))
    else l.(disconnecting := false)
  }

  /** `close()` on the current socket, if there is one: its closing event comes later. */
  function CloseSocket(l: Link): Link {
    if l.socket.Some? && Alive(l, l.socket.value) then Put(l, l.socket.value, Closing) else l
  }

  function Disconnect(l: Link): Link {
    CloseSocket(l).(disconnecting := true, pinging := false, socket := None,
                    timers := if l.handle.Some? then l.timers - {l.handle.value} else l.timers)
  }

  function Power2(n: nat): nat {
    if n == 0 then 1 else 2 * Power2(n - 1)
  }

  function Delay(attempts: nat): nat {
    var d := BASE_DELAY * Power2(attempts);
    if d < MAX_DELAY then d else MAX_DELAY
  }

  function ScheduleReconnect(l: Link): Link {
    if l.disconnecting || l.attempts >= MAX_ATTEMPTS then l
    else l.(attempts := l.attempts + 1, delays := l.delays + [Delay(l.attempts)],
            timers := l.timers + {l.nextTimer}, handle := Some(l.nextTimer), nextTimer := l.nextTimer + 1)
  }

  // ---- sending ----

  function Write(o: Outbox, socket: nat, f: Frame): Outbox {
    o.(wire := o.wire + [(socket, f)])
  }

  function SendDirectly(o: Outbox, socket: nat, p: Packet): Outbox {
    Write(o, socket, Direct(p)).(accepted := o.accepted + [p])
  }

  function Enqueue(o: Outbox, p: Packet): Outbox {
    o.(queue := o.queue + [p], entered := o.entered + [p], accepted := o.accepted + [p])
  }

  function Send(c: Client, p: Packet): Client {
    c.(out := if IsOpen(c.link) then SendDirectly(c.out, c.link.socket.value, p)
              else if |c.out.queue| < QUEUE_LIMIT then Enqueue(c.out, p)
              else c.out.(dropped := c.out.dropped + 1))
  }

  function FlushFrames(socket: nat, queue: seq<Packet>): (r: seq<(nat, Frame)>)
    ensures |r| == |queue|
  {
    seq(|queue|, i requires 0 <= i < |queue| => (socket, Flushed(queue[i])))
  }

  function FlushQueue(c: Client): Client {
    if IsOpen(c.link)
    then c.(out := c.out.(wire := c.out.wire + FlushFrames(c.link.socket.value, c.out.queue), queue := [])) else c
  }

  /** What a listener may do. */
  datatype Call = CallSend(packet: Packet) | CallConnect(works: bool) | CallDisconnect

  function Called(c: Client, call: Call): Client {
    match call
    case CallSend(p) => Send(c, p)
    case CallConnect(works) => c.(link := Connect(c.link, works))
    case CallDisconnect => c.(link := Disconnect(c.link))
  }

  function CalledAll(c: Client, calls: seq<Call>): Client {
    if calls == [] then c else Called(CalledAll(c, calls[..|calls| - 1]), calls[|calls| - 1])
  }

  // ---- events ----

  /** `calls` is what the listeners triggered by the event do, `throws` whether one of them throws after that, which
      ends the handler. `late`: no pong for 35 seconds. `Fails`: the connection breaks; its closing event is
      `Closes`. */
  datatype Event =
    | Use(call: Call)
    | Opens(s: nat)
    | Fails(s: nat)
    | Closes(s: nat, calls: seq<Call>, throws: bool)
    | AuthReply(s: nat, success: bool, calls: seq<Call>, throws: bool)
    | HeartbeatTick(late: bool)
    | TimerFires(t: nat, works: bool)

  function AtOpens(c: Client, s: nat): Client
    requires s < |c.link.sockets|
  {
    var l := Put(c.link, s, Open);
    Client(l, if IsOpen(l) then Write(c.out, l.socket.value, Hello) else c.out)
  }

  /** Whichever socket has closed, the current one is forgotten. */
  function Forgotten(l: Link, s: nat): Link
    requires s < |l.sockets|
  {
    Put(l, s, Closed).(pinging := false, socket := None)
  }

  function AtCloses(c: Client, s: nat, calls: seq<Call>, throws: bool): Client
    requires s < |c.link.sockets|
  {
    var told := CalledAll(c.(link := Forgotten(c.link, s)), calls);
    if throws then told else told.(link := ScheduleReconnect(told.link))
  }

  /** Authenticated, and the listeners told. */
  function Connected(c: Client, calls: seq<Call>): Client {
    CalledAll(c.(link := c.link.(attempts := 0, delays := [])), calls)
  }

  function AtAuth(c: Client, success: bool, calls: seq<Call>, throws: bool): Client {
    if !success then c.(link := CloseSocket(c.link))
    else
      var told := Connected(c, calls);
      if throws then told else FlushQueue(told.(link := told.link.(pinging := true)))
  }

  function AtHeartbeat(c: Client, late: bool): Client {
    if late then c.(link := ScheduleReconnect(CloseSocket(c.link).(socket := None)))
    else if IsOpen(c.link) then c.(out := Write(c.out, c.link.socket.value, Heartbeat)) else c
  }

  function Step(c: Client, e: Event): Client {
    match e
    case Use(call) => Called(c, call)
    case Opens(s) => if s < |c.link.sockets| && c.link.sockets[s].Connecting? then AtOpens(c, s) else c
    case Fails(s) => if Alive(c.link, s) then c.(link := Put(c.link, s, Closing)) else c
    case Closes(s, calls, throws) =>
      if s < |c.link.sockets| && c.link.sockets[s].Closing? then AtCloses(c, s, calls, throws) else c
    case AuthReply(s, success, calls, throws) =>
      if s < |c.link.sockets| && c.link.sockets[s].Open? then AtAuth(c, success, calls, throws) else c
    case HeartbeatTick(late) => if c.link.pinging then AtHeartbeat(c, late) else c
    case TimerFires(t, works) =>
      if t in c.link.timers then c.(link := Connect(c.link.(timers := c.link.timers - {t}), works)) else c
  }

  function Run(c: Client, es: seq<Event>): Client {
    if es == [] then c else Step(Run(c, es[..|es| - 1]), es[|es| - 1])
  }

  // ---- what was written ----

  /** The messages on the wire, in order. */
  function OnWire(wire: seq<(nat, Frame)>): seq<Packet> {
    if wire == [] then []
    else
      var f := wire[|wire| - 1].1;
      OnWire(wire[..|wire| - 1]) + (if f.Direct? || f.Flushed? then [f.packet] else [])
  }

  /** Those of them that came out of the queue. */
  function FromQueue(wire: seq<(nat, Frame)>): seq<Packet> {
    if wire == [] then []
    else
      var f := wire[|wire| - 1].1;
      FromQueue(wire[..|wire| - 1]) + (if f.Flushed? then [f.packet] else [])
  }

  lemma WriteOne(wire: seq<(nat, Frame)>, s: nat, f: Frame)
    ensures OnWire(wire + [(s, f)]) == OnWire(wire) + (if f.Direct? || f.Flushed? then [f.packet] else [])
    ensures FromQueue(wire + [(s, f)]) == FromQueue(wire) + (if f.Flushed? then [f.packet] else [])
  {
    assert (wire + [(s, f)])[..|wire|] == wire;
  }

  lemma FramesSplit(wire: seq<(nat, Frame)>, s: nat, queue: seq<Packet>)
    requires queue != []
    ensures var n := |queue| - 1;
      wire + FlushFrames(s, queue) == wire + FlushFrames(s, queue[..n]) + [(s, Flushed(queue[n]))]
          && queue == queue[..n] + [queue[n]]
  {
    var n := |queue| - 1;
    assert FlushFrames(s, queue) == FlushFrames(s, queue[..n]) + [(s, Flushed(queue[n]))];
  }

  lemma {:induction false} WriteFlush(wire: seq<(nat, Frame)>, s: nat, queue: seq<Packet>)
    ensures OnWire(wire + FlushFrames(s, queue)) == OnWire(wire) + queue
    ensures FromQueue(wire + FlushFrames(s, queue)) == FromQueue(wire) + queue
  {
    if queue == [] {
      assert wire + FlushFrames(s, queue) == wire;
    } else {
      var front, last := queue[..|queue| - 1], queue[|queue| - 1];
      WriteFlush(wire, s, front);
      FramesSplit(wire, s, queue);
      WriteOne(wire + FlushFrames(s, front), s, Flushed(last));
      assert OnWire(wire) + front + [last] == OnWire(wire) + queue;
      assert FromQueue(wire) + front + [last] == FromQueue(wire) + queue;
    }
  }

  // ---- conservation and order ----

  /** Every accepted message is on the wire or in the queue, as often as it was accepted; the queue gave up, in order,
      the beginning of what entered it; it never outgrows its limit. */
  ghost predicate Conserved(o: Outbox) {
    && multiset(OnWire(o.wire)) + multiset(o.queue) == multiset(o.accepted)
    && FromQueue(o.wire) + o.queue == o.entered
    && |o.queue| <= QUEUE_LIMIT
  }

  /** At most five reconnections are asked for between authentications, each after its own delay. */
  ghost predicate Paced(l: Link) {
    && |l.delays| == l.attempts <= MAX_ATTEMPTS
    && (forall k :: 0 <= k < |l.delays| ==> l.delays[k] == Delay(k))
  }

  ghost predicate Good(c: Client) {
    Conserved(c.out) && Paced(c.link)
  }

  /** The queue has not been written from. */
  ghost predicate Untaken(o: Outbox, o': Outbox) {
    FromQueue(o'.wire) == FromQueue(o.wire)
  }

  /** One more message written, or queued. */
  lemma OneMore(written: seq<Packet>, queue: seq<Packet>, accepted: seq<Packet>, p: Packet)
    requires multiset(written) + multiset(queue) == multiset(accepted)
    ensures multiset(written + [p]) + multiset(queue) == multiset(accepted + [p])
    ensures multiset(written) + multiset(queue + [p]) == multiset(accepted + [p])
  {
  }

  lemma ControlKeeps(o: Outbox, s: nat, f: Frame)
    requires Conserved(o) && (f.Hello? || f.Heartbeat?)
    ensures Conserved(Write(o, s, f)) && Untaken(o, Write(o, s, f))
  {
    WriteOne(o.wire, s, f);
  }

  lemma DirectKeeps(o: Outbox, s: nat, p: Packet)
    requires Conserved(o)
    ensures Conserved(SendDirectly(o, s, p)) && Untaken(o, SendDirectly(o, s, p))
  {
    OneMore(OnWire(o.wire), o.queue, o.accepted, p);
    WriteOne(o.wire, s, Direct(p));
  }

  lemma EnqueueKeeps(o: Outbox, p: Packet)
    requires Conserved(o) && |o.queue| < QUEUE_LIMIT
    ensures Conserved(Enqueue(o, p)) && Untaken(o, Enqueue(o, p))
  {
    OneMore(OnWire(o.wire), o.queue, o.accepted, p);
    assert FromQueue(o.wire) + (o.queue + [p]) == FromQueue(o.wire) + o.queue + [p];
  }

  lemma SendKeeps(c: Client, p: Packet)
    requires Conserved(c.out)
    ensures Conserved(Send(c, p).out) && Untaken(c.out, Send(c, p).out)
  {
    if IsOpen(c.link) {
      DirectKeeps(c.out, c.link.socket.value, p);
    } else if |c.out.queue| < QUEUE_LIMIT {
      EnqueueKeeps(c.out, p);
    }
  }

  lemma FlushKeeps(c: Client)
    requires Conserved(c.out)
    ensures Conserved(FlushQueue(c).out)
  {
    var o := c.out;
    if IsOpen(c.link) {
      WriteFlush(o.wire, c.link.socket.value, o.queue);
      assert multiset(OnWire(o.wire) + o.queue) == multiset(OnWire(o.wire)) + multiset(o.queue);
      assert FromQueue(o.wire) + o.queue + [] == FromQueue(o.wire) + o.queue;
    }
  }

  lemma CallKeeps(c: Client, call: Call)
    requires Good(c)
    ensures Good(Called(c, call)) && Untaken(c.out, Called(c, call).out)
  {
    if call.CallSend? {
      SendKeeps(c, call.packet);
    }
  }

  lemma {:induction false} CallsKeep(c: Client, calls: seq<Call>)
    requires Good(c)
    ensures Good(CalledAll(c, calls)) && Untaken(c.out, CalledAll(c, calls).out)
  {
    if calls != [] {
      CallsKeep(c, calls[..|calls| - 1]);
      CallKeeps(CalledAll(c, calls[..|calls| - 1]), calls[|calls| - 1]);
    }
  }

  lemma OpensKeeps(c: Client, s: nat)
    requires Good(c) && s < |c.link.sockets|
    ensures Good(AtOpens(c, s)) && Untaken(c.out, AtOpens(c, s).out)
  {
    var l := Put(c.link, s, Open);
    if IsOpen(l) {
      ControlKeeps(c.out, l.socket.value, Hello);
    }
  }

  lemma AuthKeeps(c: Client, success: bool, calls: seq<Call>, throws: bool)
    requires Good(c)
    ensures Good(AtAuth(c, success, calls, throws))
    ensures !success || throws ==> Untaken(c.out, AtAuth(c, success, calls, throws).out)
  {
    if success {
      CallsKeep(c.(link := c.link.(attempts := 0, delays := [])), calls);
      var told := Connected(c, calls);
      FlushKeeps(told.(link := told.link.(pinging := true)));
    }
  }

  lemma ClosesKeeps(c: Client, s: nat, calls: seq<Call>, throws: bool)
    requires Good(c) && s < |c.link.sockets|
    ensures Good(AtCloses(c, s, calls, throws)) && Untaken(c.out, AtCloses(c, s, calls, throws).out)
  {
    CallsKeep(c.(link := Forgotten(c.link, s)), calls);
    ScheduleKeeps(CalledAll(c.(link := Forgotten(c.link, s)), calls).link);
  }

  lemma ScheduleKeeps(l: Link)
    requires Paced(l)
    ensures Paced(ScheduleReconnect(l))
  {
  }

  lemma HeartbeatKeeps(c: Client, late: bool)
    requires Good(c)
    ensures Good(AtHeartbeat(c, late)) && Untaken(c.out, AtHeartbeat(c, late).out)
  {
    if late {
      ScheduleKeeps(CloseSocket(c.link).(socket := None));
    } else if IsOpen(c.link) {
      ControlKeeps(c.out, c.link.socket.value, Heartbeat);
    }
  }

  lemma ConnectKeeps(l: Link, works: bool)
    requires Paced(l)
    ensures Paced(Connect(l, works))
  {
  }

  lemma FailsKeeps(l: Link, s: nat)
    requires Paced(l) && s < |l.sockets|
    ensures Paced(Put(l, s, Closing))
  {
  }

  lemma TimerKeeps(l: Link, t: nat, works: bool)
    requires Paced(l)
    ensures Paced(Connect(l.(timers := l.timers - {t}), works))
  {
    ConnectKeeps(l.(timers := l.timers - {t}), works);
  }

  /** An authentication success on an open socket. */
  predicate IsAuth(c: Client, e: Event) {
    e.AuthReply? && e.success && e.s < |c.link.sockets| && c.link.sockets[e.s].Open?
  }

  /** Nothing but an authentication success takes messages out of the queue. */
  lemma StepKeeps(c: Client, e: Event)
    requires Good(c)
    ensures Good(Step(c, e))
    ensures !IsAuth(c, e) ==> Untaken(c.out, Step(c, e).out)
  {
    match e
    case Use(call) => CallKeeps(c, call);
    case Opens(s) => if s < |c.link.sockets| && c.link.sockets[s].Connecting? { OpensKeeps(c, s); }
    case Closes(s, calls, throws) =>
      if s < |c.link.sockets| && c.link.sockets[s].Closing? { ClosesKeeps(c, s, calls, throws); }
    case AuthReply(s, success, calls, throws) =>
      if s < |c.link.sockets| && c.link.sockets[s].Open? { AuthKeeps(c, success, calls, throws); }
    case HeartbeatTick(late) => if c.link.pinging { HeartbeatKeeps(c, late); }
    case Fails(s) => if Alive(c.link, s) { FailsKeeps(c.link, s); }
    case TimerFires(t, works) => TimerKeeps(c.link, t, works);
  }

  lemma {:induction false} RunIsGood(es: seq<Event>)
    ensures Good(Run(NEW, es))
  {
    if es != [] {
      RunIsGood(es[..|es| - 1]);
      StepKeeps(Run(NEW, es[..|es| - 1]), es[|es| - 1]);
    }
  }

  /** Over any run of sends, connections, losses, reconnections and authentications: every accepted message is written
      or still queued, and not both; what was queued is written in queue order; the queue never outgrows its limit. */
  lemma OutboundIsConserved(es: seq<Event>)
    ensures var o := Run(NEW, es).out;
      && multiset(OnWire(o.wire)) + multiset(o.queue) == multiset(o.accepted)
      && FromQueue(o.wire) + o.queue == o.entered
      && |o.queue| <= QUEUE_LIMIT
  {
    RunIsGood(es);
  }

  /** A queued message is written only in handling an authentication success. */
  lemma {:induction false} QueueWaitsForAuthentication(es: seq<Event>)
    requires FromQueue(Run(NEW, es).out.wire) != []
    ensures exists k :: 0 <= k < |es| && IsAuth(Run(NEW, es[..k]), es[k])
  {
    if es != [] {
      var n := |es| - 1;
      RunIsGood(es[..n]);
      StepKeeps(Run(NEW, es[..n]), es[n]);
      if !IsAuth(Run(NEW, es[..n]), es[n]) {
        QueueWaitsForAuthentication(es[..n]);
        var k :| 0 <= k < n && IsAuth(Run(NEW, es[..n][..k]), es[..n][k]);
        assert es[..n][..k] == es[..k];
      }
    }
  }

  predicate NoDisconnect(calls: seq<Call>) {
    forall i :: 0 <= i < |calls| ==> !calls[i].CallDisconnect?
  }

  /** No listener sends when there is no open socket (any more). */
  predicate QueuesNothing(open: bool, calls: seq<Call>) {
    forall i :: 0 <= i < |calls| && calls[i].CallSend? ==> open && NoDisconnect(calls[..i])
  }

  lemma {:induction false} CallsLeaveOpen(c: Client, calls: seq<Call>)
    ensures IsOpen(CalledAll(c, calls).link) <==> IsOpen(c.link) && NoDisconnect(calls)
  {
    if calls != [] {
      var n := |calls| - 1;
      CallsLeaveOpen(c, calls[..n]);
      CallLeaves(CalledAll(c, calls[..n]), calls[n]);
      assert NoDisconnect(calls) <==> NoDisconnect(calls[..n]) && !calls[n].CallDisconnect?;
    }
  }

  lemma {:induction false} CallsLeave(c: Client, calls: seq<Call>)
    ensures CalledAll(c, calls).out.queue == [] <==> c.out.queue == [] && QueuesNothing(IsOpen(c.link), calls)
  {
    if calls != [] {
      var n := |calls| - 1;
      CallsLeave(c, calls[..n]);
      CallsLeaveOpen(c, calls[..n]);
      CallLeaves(CalledAll(c, calls[..n]), calls[n]);
      assert forall i :: 0 <= i < n ==> calls[..n][i] == calls[i] && calls[..n][..i] == calls[..i];
    }
  }

  lemma CallLeaves(c: Client, call: Call)
    ensures IsOpen(Called(c, call).link) <==> IsOpen(c.link) && !call.CallDisconnect?
    ensures Called(c, call).out.queue == [] <==> c.out.queue == [] && (call.CallSend? ==> IsOpen(c.link))
  {
  }

  /** An authentication leaves the queue empty if and only if the client holds an open socket and no listener
      disconnects, or nothing was queued and no listener queues anything. */
  lemma AuthenticationFlushesIff(c: Client, calls: seq<Call>)
    ensures AtAuth(c, true, calls, false).out.queue == []
            <==> || (IsOpen(c.link) && NoDisconnect(calls))
                 || (c.out.queue == [] && QueuesNothing(IsOpen(c.link), calls))
  {
    CallsLeave(c.(link := c.link.(attempts := 0, delays := [])), calls);
    CallsLeaveOpen(c.(link := c.link.(attempts := 0, delays := [])), calls);
  }

  function Append(c: Client, es: seq<Event>, e: Event): (r: Client)
    ensures r == Run(c, es + [e])
  {
    assert (es + [e])[..|es|] == es;
    Step(Run(c, es), e)
  }

  // ---- no order between direct and queued messages ----

  /** One message before the socket opens, one after, and then the authentication reply. */
  function Overtaking(p: Packet, q: Packet): seq<Event> {
    [Use(CallConnect(true)), Use(CallSend(p)), Opens(0), Use(CallSend(q)), AuthReply(0, true, [], false)]
  }

  lemma FirstIsQueued(p: Packet, q: Packet)
    ensures var c := Run(NEW, Overtaking(p, q)[..3]);
            c.link.sockets == [Open] && c.link.socket == Some(0) && c.out == Outbox([p], [(0, Hello)], [p], [p], 0)
  {
    var es := Overtaking(p, q);
    var c1 := Append(NEW, [], es[0]);
    assert es[..1] == [] + [es[0]];
    assert c1.link.sockets == [Connecting] && c1.link.socket == Some(0);
    var c2 := Append(NEW, es[..1], es[1]);
    assert es[..2] == es[..1] + [es[1]];
    assert c2.out == Outbox([p], [], [p], [p], 0);
    var c3 := Append(NEW, es[..2], es[2]);
    assert es[..3] == es[..2] + [es[2]];
  }

  lemma SecondIsDirect(p: Packet, q: Packet)
    ensures var o := Run(NEW, Overtaking(p, q)).out;
            o.accepted == [p, q] && o.wire == [(0, Hello), (0, Direct(q)), (0, Flushed(p))]
  {
    var es := Overtaking(p, q);
    FirstIsQueued(p, q);
    var c4 := Append(NEW, es[..3], es[3]);
    assert es[..4] == es[..3] + [es[3]];
    assert c4.out == Outbox([p], [(0, Hello), (0, Direct(q))], [p, q], [p], 0);
    var c5 := Append(NEW, es[..4], es[4]);
    assert es == es[..4] + [es[4]];
    assert FlushFrames(0, [p]) == [(0, Flushed(p))];
  }

  /** A message sent on the open socket before the authentication reply overtakes one queued earlier, whatever the two
      are. */
  lemma DirectOvertakesQueued(p: Packet, q: Packet)
    ensures var o := Run(NEW, Overtaking(p, q)).out;
            o.accepted == [p, q] && OnWire(o.wire) == [q, p] && FromQueue(o.wire) == [p]
  {
    SecondIsDirect(p, q);
    var hello, direct := [(0, Hello)], [(0, Hello), (0, Direct(q))];
    WriteOne([], 0, Hello);
    WriteOne(hello, 0, Direct(q));
    WriteOne(direct, 0, Flushed(p));
    assert hello == [] + [(0, Hello)] && direct == hello + [(0, Direct(q))];
    assert Run(NEW, Overtaking(p, q)).out.wire == direct + [(0, Flushed(p))];
  }
}

/** What the signaling client does to stay connected: it greets, it pings, and it reconnects until it has reason to give
    up. */
module SignalingLiveness {
  import opened Wrappers
  import opened Signaling

  // ---- greetings and pings on the wire ----

  /** The sockets on which pings were written, in order. */
  function PingsOn(wire: seq<(nat, Frame)>): seq<nat> {
    if wire == [] then []
    else
      var (s, f) := wire[|wire| - 1];
      PingsOn(wire[..|wire| - 1]) + (if f.Heartbeat? then [s] else [])
  }

  function HellosOn(wire: seq<(nat, Frame)>): seq<nat> {
    if wire == [] then []
    else
      var (s, f) := wire[|wire| - 1];
      HellosOn(wire[..|wire| - 1]) + (if f.Hello? then [s] else [])
  }

  lemma {:induction false} WireSplits(a: seq<(nat, Frame)>, b: seq<(nat, Frame)>)
    ensures PingsOn(a + b) == PingsOn(a) + PingsOn(b) && HellosOn(a + b) == HellosOn(a) + HellosOn(b)
    decreases |b|
  {
    if b == [] {
      assert a + b == a;
    } else {
      var n := |b| - 1;
      assert (a + b)[..|a + b| - 1] == a + b[..n];
      WireSplits(a, b[..n]);
    }
  }

  lemma {:induction false} FlushHasNone(s: nat, queue: seq<Packet>)
    ensures PingsOn(FlushFrames(s, queue)) == [] && HellosOn(FlushFrames(s, queue)) == []
  {
    if queue != [] {
      var n := |queue| - 1;
      FlushHasNone(s, queue[..n]);
      assert FlushFrames(s, queue)[..n] == FlushFrames(s, queue[..n]);
    }
  }

  /** What listeners and flushes write is neither. */
  ghost predicate SameControl(o: Outbox, o': Outbox) {
    PingsOn(o'.wire) == PingsOn(o.wire) && HellosOn(o'.wire) == HellosOn(o.wire)
  }

  lemma OneFrame(s: nat, f: Frame)
    ensures PingsOn([(s, f)]) == (if f.Heartbeat? then [s] else [])
    ensures HellosOn([(s, f)]) == (if f.Hello? then [s] else [])
  {
    assert [(s, f)][..0] == [];
  }

  lemma CallIsNeither(c: Client, call: Call)
    ensures SameControl(c.out, Called(c, call).out)
  {
    if call.CallSend? && IsOpen(c.link) {
      WireSplits(c.out.wire, [(c.link.socket.value, Direct(call.packet))]);
      OneFrame(c.link.socket.value, Direct(call.packet));
    }
  }

  lemma {:induction false} CallsAreNeither(c: Client, calls: seq<Call>)
    ensures SameControl(c.out, CalledAll(c, calls).out)
  {
    if calls != [] {
      CallsAreNeither(c, calls[..|calls| - 1]);
      CallIsNeither(CalledAll(c, calls[..|calls| - 1]), calls[|calls| - 1]);
    }
  }

  lemma FlushIsNeither(c: Client)
    ensures SameControl(c.out, FlushQueue(c).out)
  {
    if IsOpen(c.link) {
      WireSplits(c.out.wire, FlushFrames(c.link.socket.value, c.out.queue));
      FlushHasNone(c.link.socket.value, c.out.queue);
    }
  }

  /** The current socket, if it is open. */
  function OpenSocket(l: Link): seq<nat> {
    if l.socket.Some? && l.socket.value < |l.sockets| && l.sockets[l.socket.value] == Open then [l.socket.value] else []
  }

  /** The socket a tick is to ping on: the client is pinging, the last pong is recent and the current socket is open. */
  function PingDue(c: Client, e: Event): seq<nat> {
    if e == HeartbeatTick(false) && c.link.pinging then OpenSocket(c.link) else []
  }

  /** The socket to greet on when one opens: the current one, if it is open then. */
  function HelloDue(c: Client, e: Event): seq<nat> {
    if e.Opens? && e.s < |c.link.sockets| && c.link.sockets[e.s].Connecting?
    then OpenSocket(c.link.(sockets := c.link.sockets[e.s := Open])) else []
  }

  ghost predicate WritesWhatIsDue(c: Client, e: Event) {
    && PingsOn(Step(c, e).out.wire) == PingsOn(c.out.wire) + PingDue(c, e)
    && HellosOn(Step(c, e).out.wire) == HellosOn(c.out.wire) + HelloDue(c, e)
  }

  lemma OneMoreFrame(wire: seq<(nat, Frame)>, s: nat, f: Frame)
    ensures PingsOn(wire + [(s, f)]) == PingsOn(wire) + (if f.Heartbeat? then [s] else [])
    ensures HellosOn(wire + [(s, f)]) == HellosOn(wire) + (if f.Hello? then [s] else [])
  {
    WireSplits(wire, [(s, f)]);
    OneFrame(s, f);
  }

  lemma OpeningGreets(c: Client, s: nat)
    ensures WritesWhatIsDue(c, Opens(s))
  {
    if s < |c.link.sockets| && c.link.sockets[s].Connecting? && IsOpen(Put(c.link, s, Open)) {
      OneMoreFrame(c.out.wire, c.link.socket.value, Hello);
    }
  }

  lemma TickPings(c: Client, late: bool)
    ensures WritesWhatIsDue(c, HeartbeatTick(late))
  {
    if c.link.pinging && !late && IsOpen(c.link) {
      OneMoreFrame(c.out.wire, c.link.socket.value, Heartbeat);
    }
  }

  lemma StepWritesWhatIsDue(c: Client, e: Event)
    ensures WritesWhatIsDue(c, e)
  {
    match e
    case Use(call) => CallIsNeither(c, call);
    case Opens(s) => OpeningGreets(c, s);
    case Closes(s, calls, throws) =>
      if s < |c.link.sockets| && c.link.sockets[s].Closing? {
        CallsAreNeither(c.(link := Forgotten(c.link, s)), calls);
      }
    case AuthReply(s, success, calls, throws) => AuthIsNeither(c, success, calls, throws);
    case HeartbeatTick(late) => TickPings(c, late);
    case _ =>
  }

  lemma AuthIsNeither(c: Client, success: bool, calls: seq<Call>, throws: bool)
    ensures SameControl(c.out, AtAuth(c, success, calls, throws).out)
  {
    if success {
      CallsAreNeither(c.(link := c.link.(attempts := 0, delays := [])), calls);
      var told := Connected(c, calls);
      FlushIsNeither(told.(link := told.link.(pinging := true)));
    }
  }

  function PingsDue(c: Client, es: seq<Event>): seq<nat> {
    if es == [] then [] else PingsDue(c, es[..|es| - 1]) + PingDue(Run(c, es[..|es| - 1]), es[|es| - 1])
  }

  function HellosDue(c: Client, es: seq<Event>): seq<nat> {
    if es == [] then [] else HellosDue(c, es[..|es| - 1]) + HelloDue(Run(c, es[..|es| - 1]), es[|es| - 1])
  }

  /** The heartbeat, over every run: the pings on the wire are exactly those of the ticks that were not late and found
      the client pinging on an open socket, each on the socket that was current then; likewise the greetings on opening.
      */
  lemma {:induction false} PingsAreTheTicks(es: seq<Event>)
    ensures PingsOn(Run(NEW, es).out.wire) == PingsDue(NEW, es)
    ensures HellosOn(Run(NEW, es).out.wire) == HellosDue(NEW, es)
  {
    if es != [] {
      PingsAreTheTicks(es[..|es| - 1]);
      StepWritesWhatIsDue(Run(NEW, es[..|es| - 1]), es[|es| - 1]);
    }
  }

  // ---- what one event does to the connection ----

  /** A reconnection has been asked for, unless there is reason not to. */
  predicate Rescheduled(l: Link, l': Link) {
    if l.disconnecting || l.attempts >= 5 then l' == l
    else && l'.attempts == l.attempts + 1 && l'.timers == l.timers + {l.nextTimer} && l'.handle == Some(l.nextTimer)
         && l'.nextTimer == l.nextTimer + 1 && l'.sockets == l.sockets && l'.socket == l.socket
         && !l'.disconnecting && l'.pinging == l.pinging
  }

  /** A late pong closes the current socket, forgets it, asks for a reconnection and writes nothing. */
  lemma LateTickReconnects(c: Client)
    requires c.link.pinging && c.link.socket.Some? && c.link.socket.value < |c.link.sockets|
    requires c.link.sockets[c.link.socket.value] == Open
    ensures var c' := Step(c, HeartbeatTick(true));
            && c'.out == c.out
            && Rescheduled(c.link.(sockets := c.link.sockets[c.link.socket.value := Closing], socket := None), c'.link)
  {
  }

  /** So does a closing event, which also stops the heartbeat, when no listener interferes. */
  lemma CloseReconnects(c: Client, s: nat)
    requires s < |c.link.sockets| && c.link.sockets[s] == Closing
    ensures var c' := Step(c, Closes(s, [], false));
            && c'.out == c.out
            && Rescheduled(c.link.(sockets := c.link.sockets[s := Closed], pinging := false, socket := None), c'.link)
  {
  }

  /** An authentication success starts the count of attempts anew and the heartbeat; a failure closes the current
      socket. */
  lemma AuthenticationStartsOver(c: Client, s: nat)
    requires s < |c.link.sockets| && c.link.sockets[s] == Open
    ensures Step(c, AuthReply(s, true, [], false)).link == c.link.(attempts := 0, delays := [], pinging := true)
    ensures c.link.socket == Some(s) ==>
              Step(c, AuthReply(s, false, [], false)) == c.(link := c.link.(sockets := c.link.sockets[s := Closing]))
  {
  }

  /** A disconnection closes the current socket, forgets it, stops the heartbeat and clears the newest timer; a timer
      that fires, or a call, makes a new socket if there is none. */
  lemma ConnectionsComeAndGo(l: Link, works: bool)
    requires l.socket.Some? ==> l.socket.value < |l.sockets|
    ensures var d := Disconnect(l);
            && d.disconnecting && !d.pinging && d.socket == None
            && (l.socket.Some? && l.sockets[l.socket.value] == Open ==>
                 d.sockets == l.sockets[l.socket.value := Closing])
            && (forall t :: t in d.timers <==> t in l.timers && l.handle != Some(t))
            && d.attempts == l.attempts
    ensures var m := Connect(l, works);
            && (l.socket.Some? ==> m == l)
            && (l.socket.None? ==>
                  && !m.disconnecting && m.timers == l.timers && m.attempts == l.attempts
                  && (works ==> m.socket == Some(|l.sockets|) && m.sockets == l.sockets + [Connecting])
                  && (!works ==> m.socket == None && m.sockets == l.sockets))
  {
  }

  // ---- it does not give up without reason ----

  predicate AllWork(calls: seq<Call>) {
    forall i :: 0 <= i < |calls| && calls[i].CallConnect? ==> calls[i].works
  }

  /** Sockets can be made, no listener throws on a closing event, and no authentication comes on a socket the client has
      forgotten while it has none. */
  predicate IsFair(c: Client, e: Event) {
    match e
    case Use(call) => call.CallConnect? ==> call.works
    case Closes(_, calls, throws) => AllWork(calls) && !throws
    case AuthReply(_, success, calls, _) => AllWork(calls) && (success ==> c.link.socket.Some?)
    case TimerFires(_, works) => works
    case _ => true
  }

  ghost predicate FairRun(c: Client, es: seq<Event>) {
    es == [] ||
    var n := |es| - 1;
    FairRun(c, es[..n]) && IsFair(Run(c, es[..n]), es[n])
  }

  /** It has a socket, is about to make one, has been told not to, has tried five times, or has not begun. */
  predicate IsTrying(l: Link) {
    l.socket.Some? || l.timers != {} || l.disconnecting || l.attempts >= 5 || l.sockets == []
  }

  lemma CallTries(c: Client, call: Call)
    requires IsTrying(c.link) && (call.CallConnect? ==> call.works)
    ensures IsTrying(Called(c, call).link)
  {
  }

  /** With a socket, or told not to have one: no matter the attempts. */
  predicate IsHolding(l: Link) {
    l.socket.Some? || l.disconnecting
  }

  lemma {:induction false} CallsHold(c: Client, calls: seq<Call>)
    requires IsHolding(c.link) && AllWork(calls)
    ensures IsHolding(CalledAll(c, calls).link)
  {
    if calls != [] {
      CallsHold(c, calls[..|calls| - 1]);
    }
  }

  lemma StepTries(c: Client, e: Event)
    requires IsTrying(c.link) && IsFair(c, e)
    ensures IsTrying(Step(c, e).link)
  {
    match e
    case Use(call) => CallTries(c, call);
    case AuthReply(s, success, calls, throws) =>
      if success && s < |c.link.sockets| && c.link.sockets[s].Open? {
        CallsHold(c.(link := c.link.(attempts := 0, delays := [])), calls);
      }
    case _ =>
  }

  /** The client never gives up without reason: in every run in which sockets can be made, no listener throws on a
      closing event and no forgotten socket authenticates, it holds a socket, has a reconnection pending, has been told
      to disconnect, or has tried five times since the last authentication. */
  lemma {:induction false} NeverGivesUpEarly(es: seq<Event>)
    requires FairRun(NEW, es)
    ensures IsTrying(Run(NEW, es).link)
  {
    if es != [] {
      NeverGivesUpEarly(es[..|es| - 1]);
      StepTries(Run(NEW, es[..|es| - 1]), es[|es| - 1]);
    }
  }

  /** That sockets can be made is needed: a reconnection whose socket cannot be made is the last, though attempts are
      left. */
  lemma FailedSocketEndsIt(c: Client, t: nat)
    requires c.link.socket == None && !c.link.disconnecting && c.link.timers == {t} && c.link.attempts < 5
    requires c.link.sockets != []
    ensures !IsTrying(Step(c, TimerFires(t, false)).link)
  {
    assert {t} - {t} == {};
  }
}

/** How often the signaling client reconnects, and when it stays disconnected. */
module SignalingReconnect {
  import opened Wrappers
  import opened Signaling

  // ---- pace ----

  function Auths(c: Client, es: seq<Event>): nat {
    if es == [] then 0
    else Auths(c, es[..|es| - 1]) + (if IsAuth(Run(c, es[..|es| - 1]), es[|es| - 1]) then 1 else 0)
  }

  /** Timers ever set, against the attempts counted since the last authentication. */
  ghost predicate Bounded(l: Link, auths: nat) {
    l.attempts <= MAX_ATTEMPTS && l.nextTimer <= l.attempts + MAX_ATTEMPTS * auths
  }

  lemma {:induction false} CallsSetNoTimer(c: Client, calls: seq<Call>)
    ensures CalledAll(c, calls).link.nextTimer == c.link.nextTimer
            && CalledAll(c, calls).link.attempts == c.link.attempts
  {
    if calls != [] {
      CallsSetNoTimer(c, calls[..|calls| - 1]);
    }
  }

  lemma StepBounded(c: Client, e: Event, auths: nat)
    requires Bounded(c.link, auths)
    ensures Bounded(Step(c, e).link, if IsAuth(c, e) then auths + 1 else auths)
  {
    match e
    case Closes(s, calls, _) => if s < |c.link.sockets| { CallsSetNoTimer(c.(link := Forgotten(c.link, s)), calls); }
    case AuthReply(_, _, calls, _) => CallsSetNoTimer(c.(link := c.link.(attempts := 0, delays := [])), calls);
    case _ =>
  }

  lemma {:induction false} RunBounded(es: seq<Event>)
    ensures Bounded(Run(NEW, es).link, Auths(NEW, es))
  {
    if es != [] {
      RunBounded(es[..|es| - 1]);
      StepBounded(Run(NEW, es[..|es| - 1]), es[|es| - 1], Auths(NEW, es[..|es| - 1]));
    }
  }

  lemma DelaysDouble(k: nat)
    requires k < MAX_ATTEMPTS
    ensures Delay(k) == [1000, 2000, 4000, 8000, 15_000][k]
  {
    assert Power2(4) == 2 * Power2(3) == 4 * Power2(2) == 8 * Power2(1) == 16 * Power2(0);
  }

  /** At most five reconnections for the first connection and five more after each authentication, the delays since the
      last one being the beginning of 1, 2, 4, 8 and 15 seconds. */
  lemma ReconnectionsAreBounded(es: seq<Event>)
    ensures Run(NEW, es).link.nextTimer <= MAX_ATTEMPTS * (1 + Auths(NEW, es))
    ensures var d := Run(NEW, es).link.delays;
      |d| <= MAX_ATTEMPTS && d == [1000, 2000, 4000, 8000, 15_000][..|d|]
  {
    RunBounded(es);
    RunIsGood(es);
    forall k: nat | k < MAX_ATTEMPTS ensures Delay(k) == [1000, 2000, 4000, 8000, 15_000][k] {
      DelaysDouble(k);
    }
  }

  // ---- staying disconnected ----

  /** Nobody uses the client, its listeners included. */
  predicate Quiet(es: seq<Event>) {
    forall k :: 0 <= k < |es| ==>
      && !es[k].Use? && (es[k].Closes? ==> es[k].calls == []) && (es[k].AuthReply? ==> es[k].calls == [])
  }

  ghost predicate Resting(l: Link) {
    l.disconnecting && l.socket == None && l.timers == {}
  }

  lemma QuietStep(c: Client, e: Event)
    requires Resting(c.link) && Quiet([e])
    ensures Resting(Step(c, e).link) && |Step(c, e).link.sockets| == |c.link.sockets|
  {
    assert [e][0] == e;
  }

  lemma {:induction false} QuietRun(c: Client, es: seq<Event>)
    requires Resting(c.link) && Quiet(es)
    ensures Resting(Run(c, es).link) && |Run(c, es).link.sockets| == |c.link.sockets|
  {
    if es != [] {
      QuietRun(c, es[..|es| - 1]);
      QuietStep(Run(c, es[..|es| - 1]), es[|es| - 1]);
    }
  }

  /** `disconnect` clears only the timer set last: after it the client makes no further connection unasked if and only
      if no other timer was pending. */
  lemma DisconnectIsFinalIff(c: Client)
    ensures var d := Called(c, CallDisconnect);
      (forall es :: Quiet(es) ==> |Run(d, es).link.sockets| == |d.link.sockets|)
      <==> (forall t :: t in c.link.timers ==> c.link.handle == Some(t))
  {
    var d := Called(c, CallDisconnect);
    if forall t :: t in c.link.timers ==> c.link.handle == Some(t) {
      forall es | Quiet(es) ensures |Run(d, es).link.sockets| == |d.link.sockets| {
        QuietRun(d, es);
      }
    } else {
      var t :| t in c.link.timers && c.link.handle != Some(t);
      var es := [TimerFires(t, true)];
      assert t in d.link.timers && Run(d, es[..0]) == d;
      assert Quiet(es) && |Run(d, es).link.sockets| == |d.link.sockets| + 1;
    }
  }

  // ---- a lost heartbeat ----

  /** A lost heartbeat followed by the lost socket's own closing event. */
  const HEARTBEAT_LOST: seq<Event> :=
    [Use(CallConnect(true)), Opens(0), AuthReply(0, true, [], false), HeartbeatTick(true), Closes(0, [], false)]

  lemma AfterHeartbeatLost()
    ensures Run(NEW, HEARTBEAT_LOST).link == Link([Closed], None, {0, 1}, Some(1), 2, 2, false, false, [1000, 2000])
  {
    var es := HEARTBEAT_LOST;
    var c1 := Append(NEW, [], es[0]);
    assert es[..1] == [] + [es[0]];
    var c2 := Append(NEW, es[..1], es[1]);
    assert es[..2] == es[..1] + [es[1]];
    var c3 := Append(NEW, es[..2], es[2]);
    assert es[..3] == es[..2] + [es[2]];
    var c4 := Append(NEW, es[..3], es[3]);
    assert es[..4] == es[..3] + [es[3]];
    assert c4.link == Link([Closing], None, {0}, Some(0), 1, 1, true, false, [1000]);
    var c5 := Append(NEW, es[..4], es[4]);
    assert es == es[..4] + [es[4]];
  }

  /** A lost heartbeat leaves two timers behind, so a `disconnect` after it is not final. */
  lemma HeartbeatLossOutlivesDisconnect()
    ensures var d := Called(Run(NEW, HEARTBEAT_LOST), CallDisconnect);
      exists es :: Quiet(es) && |Run(d, es).link.sockets| > |d.link.sockets|
  {
    AfterHeartbeatLost();
    var c := Run(NEW, HEARTBEAT_LOST);
    assert 0 in c.link.timers && c.link.handle != Some(0);
    var d := Called(c, CallDisconnect);
    var es := [TimerFires(0, true)];
    assert Run(d, es[..0]) == d;
    assert Quiet(es) && |Run(d, es).link.sockets| > |d.link.sockets|;
  }

  // ---- the closing of an old socket ----

  /** When an old socket's closing event comes only after the reconnection, it takes the new socket with it: the new one
      stays open and authenticates, yet nothing queued is flushed on it. */
  lemma LateCloseDropsTheNewSocket(c: Client, s: nat)
    requires s < |c.link.sockets| && c.link.sockets[s].Closing? && IsOpen(c.link)
    ensures var closed, current := Step(c, Closes(s, [], false)), c.link.socket.value;
            && closed.link.socket == None && closed.link.sockets[current].Open?
            && Step(closed, AuthReply(current, true, [], false)).out == c.out
  {
  }

  /** As after a lost heartbeat, but the new socket is there before the old one has closed. */
  const RECONNECTED: seq<Event> :=
    [Use(CallConnect(true)), Opens(0), AuthReply(0, true, [], false), HeartbeatTick(true), TimerFires(0, true),
        Opens(1)]

  /** Such a state is reached, and any message sent while the client has no open socket then waits. */
  lemma LateCloseHappens()
    ensures var l := Run(NEW, RECONNECTED).link;
            l.sockets == [Closing, Open] && l.socket == Some(1) && !l.disconnecting
    ensures var l := Step(Run(NEW, RECONNECTED), Closes(0, [], false)).link;
            l.sockets == [Closed, Open] && l.socket == None
  {
    var es := RECONNECTED;
    var c1 := Append(NEW, [], es[0]);
    assert es[..1] == [] + [es[0]];
    var c2 := Append(NEW, es[..1], es[1]);
    assert es[..2] == es[..1] + [es[1]];
    var c3 := Append(NEW, es[..2], es[2]);
    assert es[..3] == es[..2] + [es[2]];
    var c4 := Append(NEW, es[..3], es[3]);
    assert es[..4] == es[..3] + [es[3]];
    assert c4.link == Link([Closing], None, {0}, Some(0), 1, 1, true, false, [1000]);
    var c5 := Append(NEW, es[..4], es[4]);
    assert es[..5] == es[..4] + [es[4]];
    assert c5.link.sockets == [Closing, Connecting] && c5.link.socket == Some(1);
    var c6 := Append(NEW, es[..5], es[5]);
    assert es == es[..5] + [es[5]];
  }

  /** Socket `n` is the current one all along, until the last event, which is the closing of another. */
  ghost predicate DropsByAnother(c: Client, es: seq<Event>, n: nat) {
    && es != [] && (forall k :: 0 <= k < |es| ==> Run(c, es[..k]).link.socket == Some(n))
    && var last, l := es[|es| - 1], Run(c, es[..|es| - 1]).link;
       last.Closes? && last.s != n && last.s < |l.sockets| && l.sockets[last.s].Closing?
  }

  /** Every socket but `n` has closed. */
  ghost predicate AllOthersClosed(l: Link, n: nat) {
    forall s :: 0 <= s < |l.sockets| && s != n ==> l.sockets[s].Closed?
  }

  /** From `l` to `l'`: either `n` is still current and the other sockets are as they were, or `n` is not and, as only
      new sockets become current, never will be again. */
  ghost predicate Onward(l: Link, l': Link, n: nat) {
    && n < |l.sockets| <= |l'.sockets|
    && (l'.socket == Some(n) ==> |l'.sockets| == |l.sockets| && (AllOthersClosed(l, n) ==> AllOthersClosed(l', n)))
  }

  lemma CallOnward(l: Link, c: Client, call: Call, n: nat)
    requires Onward(l, c.link, n)
    ensures Onward(l, Called(c, call).link, n)
  {
  }

  lemma {:induction false} CallsOnward(l: Link, c: Client, calls: seq<Call>, n: nat)
    requires Onward(l, c.link, n)
    ensures Onward(l, CalledAll(c, calls).link, n)
  {
    if calls != [] {
      CallsOnward(l, c, calls[..|calls| - 1], n);
      CallOnward(l, CalledAll(c, calls[..|calls| - 1]), calls[|calls| - 1], n);
    }
  }

  lemma StepOnward(c: Client, e: Event, n: nat)
    requires n < |c.link.sockets| && c.link.socket == Some(n) && AllOthersClosed(c.link, n)
    ensures Onward(c.link, Step(c, e).link, n)
  {
    match e
    case Use(call) => CallOnward(c.link, c, call, n);
    case Closes(s, calls, _) =>
      if s < |c.link.sockets| && c.link.sockets[s].Closing? {
        CallsOnward(c.link, c.(link := Forgotten(c.link, s)), calls, n);
      }
    case AuthReply(s, success, calls, _) =>
      if success {
        CallsOnward(c.link, c.(link := c.link.(attempts := 0, delays := [])), calls, n);
      }
    case _ =>
  }

  lemma {:induction false} RunOnward(c: Client, es: seq<Event>, n: nat)
    requires n < |c.link.sockets| && c.link.socket == Some(n) && AllOthersClosed(c.link, n)
    requires forall k :: 0 <= k <= |es| ==> Run(c, es[..k]).link.socket == Some(n)
    ensures n < |Run(c, es).link.sockets| && AllOthersClosed(Run(c, es).link, n)
  {
    if es != [] {
      var before := es[..|es| - 1];
      forall k | 0 <= k <= |before| ensures Run(c, before[..k]).link.socket == Some(n) {
        assert before[..k] == es[..k];
      }
      RunOnward(c, before, n);
      assert es[..|es|] == es;
      StepOnward(Run(c, before), es[|es| - 1], n);
    }
  }

  /** The exact condition: the closing of another socket can make the client forget its current one, somewhere ahead, if
      and only if some other socket has not closed. */
  lemma CurrentCanBeDroppedIff(c: Client, n: nat)
    requires n < |c.link.sockets| && c.link.socket == Some(n)
    ensures (exists es :: DropsByAnother(c, es, n)) <==> !AllOthersClosed(c.link, n)
  {
    if AllOthersClosed(c.link, n) {
      forall es ensures !DropsByAnother(c, es, n) {
        if DropsByAnother(c, es, n) {
          NeverDropped(c, es, n);
        }
      }
    } else {
      var s :| 0 <= s < |c.link.sockets| && s != n && !c.link.sockets[s].Closed?;
      Droppable(c, n, s);
    }
  }

  lemma NeverDropped(c: Client, es: seq<Event>, n: nat)
    requires n < |c.link.sockets| && c.link.socket == Some(n) && DropsByAnother(c, es, n)
    ensures !AllOthersClosed(c.link, n)
  {
    if AllOthersClosed(c.link, n) {
      var before := es[..|es| - 1];
      forall k | 0 <= k <= |before| ensures Run(c, before[..k]).link.socket == Some(n) {
        assert before[..k] == es[..k];
      }
      RunOnward(c, before, n);
    }
  }

  lemma Droppable(c: Client, n: nat, s: nat)
    requires n < |c.link.sockets| && c.link.socket == Some(n)
    requires s < |c.link.sockets| && s != n && !c.link.sockets[s].Closed?
    ensures exists es :: DropsByAnother(c, es, n)
  {
    if c.link.sockets[s].Closing? {
      var es := [Closes(s, [], false)];
      assert Run(c, es[..0]) == c;
      assert DropsByAnother(c, es, n);
    } else {
      var es := [Fails(s), Closes(s, [], false)];
      assert es[..0] == [] && es[..1] == [] + [es[0]];
      var c1 := Append(c, [], es[0]);
      assert Run(c, es[..1]).link.socket == Some(n) && Run(c, es[..1]).link.sockets[s].Closing?;
      assert DropsByAnother(c, es, n);
    }
  }

  /** So a new connection is safe from older ones if and only if each of them had closed when it was made. */
  lemma NewConnectionIsSafeIff(c: Client)
    requires c.link.socket == None
    ensures var n, c' := |c.link.sockets|, Called(c, CallConnect(true));
            (exists es :: DropsByAnother(c', es, n)) <==> exists s :: 0 <= s < n && !c.link.sockets[s].Closed?
  {
    var n, c' := |c.link.sockets|, Called(c, CallConnect(true));
    CurrentCanBeDroppedIff(c', n);
    assert forall s :: 0 <= s < n ==> c'.link.sockets[s] == c.link.sockets[s];
  }
}

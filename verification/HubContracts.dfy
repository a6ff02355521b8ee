/** What each handler of the hub does to every single connection, in terms of the tables before it alone. */
module HubContracts {
  import opened Wrappers
  import opened HubState
  import opened HubTables

  /** The queue takes one more message: the channel is in use and has room for it. */
  predicate Accepts(c: Conn) {
    !c.closed && |c.sent| - c.drained < 256
  }

  /** The connection has been offered the message: queued as the last one, or refused and only counted. */
  predicate Offered(c: Conn, c': Conn, m: Message) {
    c' == if Accepts(c) then c.(sent := c.sent + [m]) else c.(lost := c.lost + 1)
  }

  /** The table of its room has this very connection under its id. */
  predicate IsListed(h: Hub, n: nat)
    requires n in h.conns
  {
    var c := h.conns[n];
    c.room in h.rooms && c.id in h.rooms[c.room] && h.rooms[c.room][c.id] == n
  }

  /** Every entry of the tables names a connection of this hub, under its own room and id. */
  ghost predicate EntriesFiled(h: Hub) {
    forall room, p :: room in h.rooms && p in h.rooms[room] ==>
      var n := h.rooms[room][p]; n in h.conns && h.conns[n].id == p && h.conns[n].room == room
  }

  lemma TablesAreFiled(h: Hub)
    requires TablesOk(h)
    ensures EntriesFiled(h)
  {
    forall room, p | room in h.rooms && p in h.rooms[room]
      ensures var n := h.rooms[room][p]; n in h.conns && h.conns[n].id == p && h.conns[n].room == room
    {
      assert EntryOk(h, room, p);
    }
  }

  lemma ListedAre(h: Hub, room: string)
    requires EntriesFiled(h)
    ensures forall p :: room in h.rooms && p in h.rooms[room] ==>
              var n := h.rooms[room][p]; n in h.conns && IsListed(h, n) && h.conns[n].room == room && h.conns[n].id == p
  {
  }

  /** Nothing but queues has changed. */
  predicate OnlyQueues(h: Hub, h': Hub) {
    && h'.rooms == h.rooms && h'.subscribed == h.subscribed && h'.broker == h.broker
    && h'.shuttingDown == h.shuttingDown && h'.conns.Keys == h.conns.Keys
  }

  // ---- relayed messages ----

  /** A message is for its target, or else for everybody in its room but the sender. */
  predicate IsAddressed(h: Hub, m: Message, n: nat)
    requires n in h.conns
  {
    && IsListed(h, n) && h.conns[n].room == m.room
    && if m.target != "" then h.conns[n].id == m.target else h.conns[n].id != m.from
  }

  /** The message has been offered to exactly those it is addressed to, and nothing else has changed. */
  predicate ReachedExactly(h: Hub, h': Hub, m: Message) {
    && OnlyQueues(h, h')
    && forall n :: n in h.conns ==>
         if IsAddressed(h, m, n) then Offered(h.conns[n], h'.conns[n], m) else h'.conns[n] == h.conns[n]
  }

  lemma RoutedIffAddressed(h: Hub, m: Message, n: nat)
    requires EntriesFiled(h) && n in h.conns
    ensures n in Route(MembersOf(h, m.room), m) <==> IsAddressed(h, m, n)
  {
    var members := MembersOf(h, m.room);
    ListedAre(h, m.room);
    if IsAddressed(h, m, n) {
      assert members[h.conns[n].id] == n;
    }
  }

  /** Kinds the hub passes on. */
  predicate IsRelayed(k: Kind) {
    k != Ping && k != Auth && k != Join && k != Leave
  }

  /** A message from the broker is offered to exactly those it is addressed to, and touches nobody else. */
  lemma ArrivalReachesExactly(h: Hub, m: Message)
    requires EntriesFiled(h)
    ensures ReachedExactly(h, NatsArrives(h, m), m)
  {
    forall n | n in h.conns ensures n in Route(MembersOf(h, m.room), m) <==> IsAddressed(h, m, n) {
      RoutedIffAddressed(h, m, n);
    }
  }

  /** So is one of a client; it is published exactly if the hub has a broker that takes the room and the room is there.
      */
  lemma RelayReachesExactly(h: Hub, m: Message)
    requires EntriesFiled(h) && IsRelayed(m.kind)
    ensures var (h', published) := Broadcast(h, m);
            && ReachedExactly(h, h', m)
            && published == if m.room in h.rooms && h.broker && ValidRoomId(m.room) then Some(m) else None
  {
    forall n | n in h.conns ensures n in Route(MembersOf(h, m.room), m) <==> IsAddressed(h, m, n) {
      RoutedIffAddressed(h, m, n);
    }
  }

  /** A ping is answered with a pong to the connection listed under its sender's id, and to nobody else; commands the
      hub has handled elsewhere change nothing. Neither is published. */
  lemma OtherKindsStayHere(h: Hub, m: Message)
    requires EntriesFiled(h) && !IsRelayed(m.kind)
    ensures var (h', published) := Broadcast(h, m);
            && OnlyQueues(h, h') && published == None
            && forall n :: n in h.conns ==>
                 if m.kind == Ping && IsListed(h, n) && h.conns[n].room == m.room && h.conns[n].id == m.from
                 then exists pong: Message ::
                     pong.kind == Pong && pong.room == m.room && Offered(h.conns[n], h'.conns[n], pong)
                 else h'.conns[n] == h.conns[n]
  {
    ListedAre(h, m.room);
    var (h', published) := Broadcast(h, m);
    forall n | n in h.conns
      ensures if m.kind == Ping && IsListed(h, n) && h.conns[n].room == m.room && h.conns[n].id == m.from
              then Offered(h.conns[n], h'.conns[n], Notice(Pong, m.room)) else h'.conns[n] == h.conns[n]
    {
    }
  }

  // ---- registration ----

  /** Who else is in the room of connection `n`, by id. */
  function Others(h: Hub, n: nat): set<string>
    requires n in h.conns
  {
    var c := h.conns[n];
    if c.room in h.rooms then h.rooms[c.room].Keys - {c.id} else {}
  }

  /** The arrival, or departure, of `n` as it is told to the others when they are `count` in the room. */
  predicate IsNews(m: Message, kind: Kind, c: Conn, count: nat) {
    m == Message(kind, c.room, c.id, "", "", {}, count, "", None)
  }

  predicate IsRefused(h: Hub, n: nat, natsOk: bool)
    requires n in h.conns
  {
    h.shuttingDown || (h.conns[n].room !in h.rooms && h.broker && !(natsOk && ValidRoomId(h.conns[n].room)))
  }

  /** A refused connection is told of an error; it is listed nowhere, nobody else hears of it, and nothing is published.
      */
  lemma RefusalTellsOnlyTheClient(h: Hub, n: nat, natsOk: bool)
    requires TablesOk(h) && n in h.conns && h.conns[n].life == Fresh && IsRefused(h, n, natsOk)
    ensures var (h', published) := Register(h, n, natsOk);
            && published == None && h'.conns.Keys == h.conns.Keys && h'.subscribed == h.subscribed
            && (forall k :: k in h.conns && k != n ==> h'.conns[k] == h.conns[k])
            && |h'.conns[n].sent| == 1 && h'.conns[n].sent[0].kind == Error && h'.conns[n].life == Registered
            && !IsListed(h', n)
            && (forall room :: room in h.rooms ==> room in h'.rooms && h'.rooms[room] == h.rooms[room])
  {
    assert ConnOk(h.conns[n]);
    var c := h.conns[n];
    if c.room in h.rooms && c.id in h.rooms[c.room] {
      assert EntryOk(h, c.room, c.id);
    }
  }

  /** What the new client is told: that it is authenticated, and who the others are. */
  predicate IsGreeted(h: Hub, n: nat, c': Conn)
    requires n in h.conns
  {
    var c := h.conns[n];
    && |c'.sent| == 2 && c'.lost == 0 && c'.life == Registered && !c'.closed && c'.open
    && c'.sent[0].kind == Auth && c'.sent[0].room == c.room
    && c'.sent[1].kind == RoomState && c'.sent[1].room == c.room
    && c'.sent[1].peers == Others(h, n) && c'.sent[1].peerCount == |Others(h, n)| + 1
  }

  lemma GreetedFresh(h: Hub, n: nat)
    requires TablesOk(h) && n in h.conns && h.conns[n].life == Fresh
    ensures IsGreeted(h, n, Welcome(h.conns[n].(life := Registered), MembersOf(h, h.conns[n].room)[h.conns[n].id := n]))
  {
    var c := h.conns[n];
    assert ConnOk(c);
    assert MembersOf(h, c.room)[c.id := n].Keys - {c.id} == Others(h, n);
  }

  /** A registration files the client under its id, in place of any other there, and subscribes a new room. */
  lemma RegistrationFiles(h: Hub, n: nat, natsOk: bool)
    requires TablesOk(h) && n in h.conns && h.conns[n].life == Fresh && !IsRefused(h, n, natsOk)
    ensures var h', c := Register(h, n, natsOk).0, h.conns[n];
            && h'.rooms == h.rooms[c.room := (if c.room in h.rooms then h.rooms[c.room] else map[])[c.id := n]]
            && h'.subscribed == (if h.broker && c.room !in h.rooms then h.subscribed + {c.room} else h.subscribed)
            && h'.conns.Keys == h.conns.Keys && h'.shuttingDown == h.shuttingDown
  {
  }

  lemma RegistrationLists(h: Hub, n: nat, natsOk: bool)
    requires TablesOk(h) && n in h.conns && h.conns[n].life == Fresh && !IsRefused(h, n, natsOk)
    ensures n in Register(h, n, natsOk).0.conns && IsListed(Register(h, n, natsOk).0, n)
  {
    RegistrationFiles(h, n, natsOk);
    GreetedFresh(h, n);
    NewcomerIsSkipped(h, n);
  }

  /** It greets the newcomer, and tells those already in the room, and nobody else, how many they are now. */
  lemma RegistrationTells(h: Hub, n: nat, natsOk: bool)
    requires TablesOk(h) && n in h.conns && h.conns[n].life == Fresh && !IsRefused(h, n, natsOk)
    ensures var h', c := Register(h, n, natsOk).0, h.conns[n];
            && IsGreeted(h, n, h'.conns[n])
            && forall k :: k in h.conns && k != n ==>
                 if IsListed(h, k) && h.conns[k].room == c.room && h.conns[k].id != c.id
                 then exists m :: IsNews(m, PeerJoined, c, |Others(h, n)| + 1) && Offered(h.conns[k], h'.conns[k], m)
                 else h'.conns[k] == h.conns[k]
  {
    var h', c := Register(h, n, natsOk).0, h.conns[n];
    GreetedFresh(h, n);
    NewcomerIsSkipped(h, n);
    JoinNoticeIsNews(h, n);
    forall k | k in h.conns && k != n
      ensures if IsListed(h, k) && h.conns[k].room == c.room && h.conns[k].id != c.id
              then Offered(h.conns[k], h'.conns[k], JoinNotice(h, n)) else h'.conns[k] == h.conns[k]
    {
      NewsTarget(h, n, k);
    }
  }

  lemma JoinNoticeIsNews(h: Hub, n: nat)
    requires n in h.conns
    ensures IsNews(JoinNotice(h, n), PeerJoined, h.conns[n], |Others(h, n)| + 1)
  {
    var c := h.conns[n];
    var members := MembersOf(h, c.room)[c.id := n];
    assert members.Keys == Others(h, n) + {c.id} && |members| == |members.Keys|;
  }

  /** And it is published exactly if the hub has a broker that takes the room. */
  lemma RegistrationIsPublished(h: Hub, n: nat, natsOk: bool)
    requires TablesOk(h) && n in h.conns && h.conns[n].life == Fresh && !IsRefused(h, n, natsOk)
    ensures var published := Register(h, n, natsOk).1;
            if h.broker && ValidRoomId(h.conns[n].room)
            then published.Some? && IsNews(published.value, PeerJoined, h.conns[n], |Others(h, n)| + 1)
            else published == None
  {
    JoinNoticeIsNews(h, n);
  }

  lemma NewsTarget(h: Hub, n: nat, k: nat)
    requires TablesOk(h) && n in h.conns && h.conns[n].life == Fresh && k in h.conns && k != n
    ensures var c := h.conns[n];
            k in Targets(MembersOf(h, c.room)[c.id := n], c.id)
            <==> IsListed(h, k) && h.conns[k].room == c.room && h.conns[k].id != c.id
  {
    var c := h.conns[n];
    TablesAreFiled(h);
    ListedAre(h, c.room);
    if IsListed(h, k) && h.conns[k].room == c.room && h.conns[k].id != c.id {
      assert MembersOf(h, c.room)[c.id := n][h.conns[k].id] == k;
    }
  }

  lemma NewcomerIsSkipped(h: Hub, n: nat)
    requires TablesOk(h) && n in h.conns && h.conns[n].life == Fresh
    ensures n !in Targets(MembersOf(h, h.conns[n].room)[h.conns[n].id := n], h.conns[n].id)
  {
    TablesAreFiled(h);
    ListedAre(h, h.conns[n].room);
    MembersAreRegistered(h, h.conns[n].room);
  }

  // ---- departure ----

  /** A departing connection whose id is not in its room's table only ends its life. */
  lemma UnlistedDepartsSilently(h: Hub, n: nat)
    requires TablesOk(h) && n in h.conns && h.conns[n].life == Registered
    requires !(h.conns[n].room in h.rooms && h.conns[n].id in h.rooms[h.conns[n].room])
    ensures var (h', published) := Unregister(h, n);
            && published == None && OnlyQueues(h, h') && h'.conns[n] == h.conns[n].(life := Unregistered)
            && forall k :: k in h.conns && k != n ==> h'.conns[k] == h.conns[k]
  {
  }

  predicate IsDeparture(h: Hub, n: nat)
    requires n in h.conns
  {
    h.conns[n].life == Registered && h.conns[n].room in h.rooms && h.conns[n].id in h.rooms[h.conns[n].room]
  }

  /** A departure takes the entry under the id out of the room, with the room and its subscription if it was the last,
      and closes the departing connection's channel. */
  lemma DepartureRemoves(h: Hub, n: nat)
    requires TablesOk(h) && n in h.conns && IsDeparture(h, n)
    ensures var h', c := Unregister(h, n).0, h.conns[n];
            && h'.conns.Keys == h.conns.Keys && h'.shuttingDown == h.shuttingDown
            && (if Others(h, n) == {}
                then h'.rooms == h.rooms - {c.room} && h'.subscribed == h.subscribed - {c.room}
                else h'.rooms == h.rooms[c.room := h.rooms[c.room] - {c.id}] && h'.subscribed == h.subscribed)
  {
    var c := h.conns[n];
    assert (h.rooms[c.room] - {c.id}).Keys == Others(h, n);
  }

  lemma LeaveNoticeIsNews(h: Hub, n: nat)
    requires n in h.conns && h.conns[n].room in h.rooms
    ensures IsNews(LeaveNotice(h, n), PeerLeft, h.conns[n], |Others(h, n)|)
  {
    var left := h.rooms[h.conns[n].room] - {h.conns[n].id};
    assert left.Keys == Others(h, n) && |left| == |left.Keys|;
  }

  /** Whoever stays in the room, and nobody else, is told how many they are now. The departing connection itself is told
      nothing: its channel is closed. */
  lemma DepartureTells(h: Hub, n: nat)
    requires TablesOk(h) && n in h.conns && IsDeparture(h, n)
    ensures var h', c := Unregister(h, n).0, h.conns[n];
            && h'.conns[n].sent == c.sent && !h'.conns[n].open && h'.conns[n].closed && h'.conns[n].life == Unregistered
            && forall k :: k in h.conns && k != n ==>
                 if IsListed(h, k) && h.conns[k].room == c.room && h.conns[k].id != c.id
                 then exists m :: IsNews(m, PeerLeft, c, |Others(h, n)|) && Offered(h.conns[k], h'.conns[k], m)
                 else h'.conns[k] == h.conns[k]
  {
    var h', c := Unregister(h, n).0, h.conns[n];
    var left := h.rooms[c.room] - {c.id};
    LeaveNoticeIsNews(h, n);
    TablesAreFiled(h);
    ListedAre(h, c.room);
    assert MembersOf(Left(h, n), c.room) == left;
    forall k | k in h.conns
      ensures k in left.Values <==> IsListed(h, k) && h.conns[k].room == c.room && h.conns[k].id != c.id
    {
      if IsListed(h, k) && h.conns[k].room == c.room && h.conns[k].id != c.id {
        assert left[h.conns[k].id] == k;
      }
    }
    forall k | k in h.conns && k != n
      ensures if IsListed(h, k) && h.conns[k].room == c.room && h.conns[k].id != c.id
              then Offered(h.conns[k], h'.conns[k], LeaveNotice(h, n)) else h'.conns[k] == h.conns[k]
    {
    }
  }

  lemma DepartureIsPublished(h: Hub, n: nat)
    requires TablesOk(h) && n in h.conns && IsDeparture(h, n)
    ensures var published := Unregister(h, n).1;
            if h.broker && ValidRoomId(h.conns[n].room)
            then published.Some? && IsNews(published.value, PeerLeft, h.conns[n], |Others(h, n)|) else published == None
  {
    LeaveNoticeIsNews(h, n);
  }

  // ---- shutdown ----

  /** Exactly those listed in the room are told of the shutdown, and later have their flags set. */
  lemma ShutdownReachesExactly(h: Hub, room: string)
    requires EntriesFiled(h)
    ensures OnlyQueues(h, ShutdownNotify(h, room)) && OnlyQueues(h, ShutdownClose(h, room))
    ensures forall n :: n in h.conns ==>
              if IsListed(h, n) && h.conns[n].room == room
              then && (exists m: Message :: m.kind == ServerShutdown && m.room == room
                                            && Offered(h.conns[n], ShutdownNotify(h, room).conns[n], m))
                   && ShutdownClose(h, room).conns[n] == h.conns[n].(closed := true)
              else ShutdownNotify(h, room).conns[n] == h.conns[n] && ShutdownClose(h, room).conns[n] == h.conns[n]
  {
    ListedAre(h, room);
    forall n | n in h.conns
      ensures if IsListed(h, n) && h.conns[n].room == room
              then && Offered(h.conns[n], ShutdownNotify(h, room).conns[n], Notice(ServerShutdown, room))
                   && ShutdownClose(h, room).conns[n] == h.conns[n].(closed := true)
              else ShutdownNotify(h, room).conns[n] == h.conns[n] && ShutdownClose(h, room).conns[n] == h.conns[n]
    {
      if IsListed(h, n) && h.conns[n].room == room {
        assert h.rooms[room][h.conns[n].id] == n;
      }
    }
  }

  // ---- the write pump ----

  /** What the pump takes, it takes from the front: accepted messages keep their places, and it never takes more than
      are waiting. */
  lemma PumpTakesInOrder(c: Conn, k: nat)
    requires ConnOk(c)
    ensures var c' := Drained(c, k);
            && c'.sent == c.sent && c'.lost == c.lost && c'.drained <= |c'.sent|
            && (k <= |c.sent| - c.drained ==>
                 c'.drained == c.drained + k && c'.sent[c'.drained..] == c.sent[c.drained..][k..])
  {
  }
}

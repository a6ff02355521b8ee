/** One hub without a broker: every member's browser sees exactly the room's other members. */
module HubMembership {
  import opened Wrappers
  import opened HubState
  import opened HubTables

  datatype Event =
    | Connect(conn: nat, id: string, room: string)
    | Joins(conn: nat)
    | Leaves(conn: nat)
    | Relays(message: Message)
    | Pumps(conn: nat, count: nat)
    | ShutdownBegins
    | ShutdownNotifies(room: string)
    | ShutdownCloses(room: string)

  function Empty(): Hub {
    Hub(map[], map[], {}, false, false)
  }

  /** Events whose moment has not come change nothing: a number is connected once, joins once, leaves once. */
  function Step(h: Hub, e: Event): Hub {
    match e
    case Connect(n, id, room) => if n in h.conns then h else h.(conns := h.conns[n := NewConn(id, room)])
    case Joins(n) => if n in h.conns && h.conns[n].life == Fresh then Register(h, n, true).0 else h
    case Leaves(n) => if n in h.conns && h.conns[n].life == Registered then Unregister(h, n).0 else h
    case Relays(m) => Broadcast(h, m).0
    case Pumps(n, k) => if n in h.conns then h.(conns := h.conns[n := Drained(h.conns[n], k)]) else h
    case ShutdownBegins => h.(shuttingDown := true)
    case ShutdownNotifies(room) => ShutdownNotify(h, room)
    case ShutdownCloses(room) => ShutdownClose(h, room)
  }

  function Run(h: Hub, es: seq<Event>): Hub {
    if es == [] then h else Step(Run(h, es[..|es| - 1]), es[|es| - 1])
  }

  // ---- what a browser makes of its messages ----

  predicate IsMembership(k: Kind) {
    k == RoomState || k == PeerJoined || k == PeerLeft
  }

  function Apply(view: set<string>, m: Message): set<string> {
    match m.kind
    case RoomState => m.peers
    case PeerJoined => view + {m.peer}
    case PeerLeft => view - {m.peer}
    case _ => view
  }

  function View(sent: seq<Message>): set<string> {
    if sent == [] then {} else Apply(View(sent[..|sent| - 1]), sent[|sent| - 1])
  }

  /** The `peerCount` of the last membership message. */
  function LastCount(sent: seq<Message>): nat {
    if sent == [] then 0
    else if IsMembership(sent[|sent| - 1].kind) then sent[|sent| - 1].peerCount
    else LastCount(sent[..|sent| - 1])
  }

  lemma Sees(sent: seq<Message>, m: Message)
    ensures View(sent + [m]) == Apply(View(sent), m)
    ensures LastCount(sent + [m]) == if IsMembership(m.kind) then m.peerCount else LastCount(sent)
  {
    assert (sent + [m])[..|sent|] == sent;
  }

  // ---- invariant ----

  /** Connection `c` sees the other members, and how many they are with itself, if nothing was lost on the way. */
  ghost predicate SeesMembers(c: Conn, members: Members) {
    c.lost == 0 ==> View(c.sent) == members.Keys - {c.id} && LastCount(c.sent) == |members|
  }

  ghost predicate Agreement(h: Hub) {
    && TablesOk(h) && !h.broker
    && forall room, p :: room in h.rooms && p in h.rooms[room] ==> SeesMembers(h.conns[h.rooms[room][p]], h.rooms[room])
  }

  /** A message that was not refused is what the browser sees next. */
  lemma PushSeen(c: Conn, m: Message)
    ensures Push(c, m).lost == 0 ==>
              && c.lost == 0 && Push(c, m).id == c.id
              && View(Push(c, m).sent) == Apply(View(c.sent), m)
              && LastCount(Push(c, m).sent) == if IsMembership(m.kind) then m.peerCount else LastCount(c.sent)
  {
    if Push(c, m).lost == 0 {
      Sees(c.sent, m);
    }
  }

  lemma OneFewer(members: Members, p: string)
    requires p in members
    ensures |members| == |members.Keys - {p}| + 1
  {
    assert members.Keys == (members.Keys - {p}) + {p};
    assert |members| == |members.Keys|;
  }

  lemma ListSeen(c: Conn, members: Members, m: Message)
    requires m.kind == RoomState && m.peers == members.Keys - {c.id} && m.peerCount == |members|
    ensures SeesMembers(Push(c, m), members)
  {
    PushSeen(c, m);
  }

  lemma WelcomeSeen(c: Conn, members: Members)
    requires c.id in members
    ensures SeesMembers(Welcome(c, members), members)
  {
    OneFewer(members, c.id);
    ListSeen(Push(c, Notice(Auth, c.room)), members, PeerList(c.room, members.Keys - {c.id}));
  }

  /** What a delivery of a membership message does to one entry. */
  lemma TellEntry(h: Hub, room: string, targets: set<nat>, m: Message, members: Members, p: string)
    requires TablesOk(h) && room in h.rooms && p in h.rooms[room] && h.rooms[room][p] in h.conns
    requires targets <= h.rooms[room].Values && SeesMembers(h.conns[h.rooms[room][p]], members)
    requires if h.rooms[room][p] in targets
             then IsMembership(m.kind) && m.peerCount == |h.rooms[room]|
                 && Apply(members.Keys - {p}, m) == h.rooms[room].Keys - {p}
             else members == h.rooms[room]
    ensures SeesMembers(DeliverAll(h.conns, targets, m)[h.rooms[room][p]], h.rooms[room])
  {
    assert EntryOk(h, room, p);
    PushSeen(h.conns[h.rooms[room][p]], m);
  }

  /** What a join does to the other members of the room. */
  lemma JoinNeighbour(h: Hub, n: nat, p: string)
    requires Agreement(h) && n in h.conns && h.conns[n].life == Fresh && !h.shuttingDown
    requires p in MembersOf(h, h.conns[n].room) && p != h.conns[n].id
    ensures var h', room := Register(h, n, true).0, h.conns[n].room;
            room in h'.rooms && p in h'.rooms[room] && h'.rooms[room][p] in h'.conns
            && SeesMembers(h'.conns[h'.rooms[room][p]], h'.rooms[room])
  {
    var c := h.conns[n];
    var j := Joined(h, n);
    JoinedTables(h, n);
    assert EntryOk(h, c.room, p) && SeesMembers(h.conns[h.rooms[c.room][p]], h.rooms[c.room]);
    var members := MembersOf(j, c.room);
    TargetsAreMembers(members, c.id);
    assert members[p] in Targets(members, c.id);
    assert (h.rooms[c.room].Keys - {p}) + {c.id} == members.Keys - {p};
    TellEntry(j, c.room, Targets(members, c.id), JoinNotice(h, n), h.rooms[c.room], p);
  }

  /** And to the members of other rooms: nothing. */
  lemma JoinElsewhere(h: Hub, n: nat, room: string, p: string)
    requires Agreement(h) && n in h.conns && h.conns[n].life == Fresh && !h.shuttingDown
    requires room in h.rooms && p in h.rooms[room] && room != h.conns[n].room
    ensures var h' := Register(h, n, true).0;
            room in h'.rooms && h'.rooms[room] == h.rooms[room] && h.rooms[room][p] in h'.conns
            && SeesMembers(h'.conns[h.rooms[room][p]], h.rooms[room])
  {
    var c := h.conns[n];
    assert EntryOk(h, room, p) && SeesMembers(h.conns[h.rooms[room][p]], h.rooms[room]);
    var members := MembersOf(Joined(h, n), c.room);
    forall q | q in members && q != c.id ensures members[q] != h.rooms[room][p] {
      assert EntryOk(h, c.room, q);
    }
  }

  /** The joining connection itself. */
  lemma JoinHere(h: Hub, n: nat)
    requires Agreement(h) && n in h.conns && h.conns[n].life == Fresh && !h.shuttingDown
    ensures var h', c := Register(h, n, true).0, h.conns[n];
            c.room in h'.rooms && c.id in h'.rooms[c.room] && h'.rooms[c.room][c.id] == n
            && SeesMembers(h'.conns[n], h'.rooms[c.room])
  {
    var c := h.conns[n].(life := Registered);
    var members := MembersOf(h, c.room)[c.id := n];
    WelcomeSeen(c, members);
    forall q | q in members && q != c.id ensures members[q] != n {
      assert EntryOk(h, c.room, q);
    }
  }

  lemma JoinKeeps(h: Hub, n: nat)
    requires Agreement(h) && n in h.conns && h.conns[n].life == Fresh && !h.shuttingDown
    ensures Agreement(Register(h, n, true).0)
  {
    var h', c := Register(h, n, true).0, h.conns[n];
    RegisterTables(h, n, true);
    forall room, p | room in h'.rooms && p in h'.rooms[room]
      ensures SeesMembers(h'.conns[h'.rooms[room][p]], h'.rooms[room])
    {
      if room != c.room {
        JoinElsewhere(h, n, room, p);
      } else if p != c.id {
        JoinNeighbour(h, n, p);
      } else {
        JoinHere(h, n);
      }
    }
  }

  /** What a leave does to the members that stay. */
  lemma LeaveNeighbour(h: Hub, n: nat, p: string)
    requires Agreement(h) && n in h.conns && h.conns[n].life == Registered
    requires h.conns[n].id in MembersOf(h, h.conns[n].room) && p in MembersOf(h, h.conns[n].room) && p != h.conns[n].id
    ensures var h', room := Unregister(h, n).0, h.conns[n].room;
            room in h'.rooms && p in h'.rooms[room] && h'.rooms[room][p] in h'.conns
            && SeesMembers(h'.conns[h'.rooms[room][p]], h'.rooms[room])
  {
    var c := h.conns[n];
    var l := Left(h, n);
    LeftTables(h, n);
    assert EntryOk(h, c.room, p) && SeesMembers(h.conns[h.rooms[c.room][p]], h.rooms[c.room]);
    var members := MembersOf(h, c.room) - {c.id};
    assert p in members;
    assert (h.rooms[c.room].Keys - {p}) - {c.id} == members.Keys - {p};
    TellEntry(l, c.room, members.Values, LeaveNotice(h, n), h.rooms[c.room], p);
  }

  lemma LeaveElsewhere(h: Hub, n: nat, room: string, p: string)
    requires Agreement(h) && n in h.conns && h.conns[n].life == Registered
    requires h.conns[n].id in MembersOf(h, h.conns[n].room)
    requires room in h.rooms && p in h.rooms[room] && room != h.conns[n].room
    ensures var h' := Unregister(h, n).0;
            room in h'.rooms && h'.rooms[room] == h.rooms[room] && h.rooms[room][p] in h'.conns
            && SeesMembers(h'.conns[h.rooms[room][p]], h.rooms[room])
  {
    var c := h.conns[n];
    assert EntryOk(h, room, p) && SeesMembers(h.conns[h.rooms[room][p]], h.rooms[room]);
    var members := MembersOf(Left(h, n), c.room);
    forall q | q in members ensures members[q] != h.rooms[room][p] {
      assert EntryOk(h, c.room, q);
    }
  }

  lemma LeaveKeeps(h: Hub, n: nat)
    requires Agreement(h) && n in h.conns && h.conns[n].life == Registered
    ensures Agreement(Unregister(h, n).0)
  {
    var h', c := Unregister(h, n).0, h.conns[n];
    UnregisterTables(h, n);
    forall room, p | room in h'.rooms && p in h'.rooms[room]
      ensures SeesMembers(h'.conns[h'.rooms[room][p]], h'.rooms[room])
    {
      if c.id !in MembersOf(h, c.room) {
        assert EntryOk(h, room, p) && SeesMembers(h.conns[h.rooms[room][p]], h.rooms[room]);
      } else if room == c.room {
        assert p != c.id;
        LeaveNeighbour(h, n, p);
      } else {
        LeaveElsewhere(h, n, room, p);
      }
    }
  }

  /** Messages that are not about membership leave every view as it was. */
  lemma DeliveryKeeps(h: Hub, targets: set<nat>, m: Message)
    requires Agreement(h) && !IsMembership(m.kind)
    requires forall n :: n in targets && n in h.conns ==> h.conns[n].life == Registered
    ensures Agreement(h.(conns := DeliverAll(h.conns, targets, m)))
  {
    var h' := h.(conns := DeliverAll(h.conns, targets, m));
    forall room, p | room in h'.rooms && p in h'.rooms[room]
      ensures EntryOk(h', room, p) && SeesMembers(h'.conns[h'.rooms[room][p]], h'.rooms[room])
    {
      assert EntryOk(h, room, p) && SeesMembers(h.conns[h.rooms[room][p]], h.rooms[room]);
      PushSeen(h.conns[h.rooms[room][p]], m);
    }
  }

  /** Clients relay only messages that are not about membership. */
  predicate PeerTraffic(e: Event) {
    e.Relays? ==> !IsMembership(e.message.kind)
  }

  lemma RelayKeeps(h: Hub, m: Message)
    requires Agreement(h) && !IsMembership(m.kind)
    ensures Agreement(Broadcast(h, m).0)
  {
    var members := MembersOf(h, m.room);
    MembersAreRegistered(h, m.room);
    forall p | p in members ensures members[p] in members.Values {
    }
    if m.kind == Ping {
      if m.from in members {
        DeliveryKeeps(h, {members[m.from]}, Notice(Pong, m.room));
      }
    } else {
      DeliveryKeeps(h, Route(members, m), m);
    }
  }

  lemma PlainStepKeeps(h: Hub, e: Event)
    requires Agreement(h) && (e.Connect? || e.Pumps? || e.ShutdownBegins? || e.ShutdownCloses?)
    ensures Agreement(Step(h, e))
  {
    var h' := Step(h, e);
    MembersAreRegistered(h, if e.ShutdownCloses? then e.room else "");
    forall room, p | room in h'.rooms && p in h'.rooms[room]
      ensures EntryOk(h', room, p) && SeesMembers(h'.conns[h'.rooms[room][p]], h'.rooms[room])
    {
      assert EntryOk(h, room, p) && SeesMembers(h.conns[h.rooms[room][p]], h.rooms[room]);
    }
  }

  lemma LateJoinKeeps(h: Hub, n: nat)
    requires Agreement(h) && n in h.conns && h.conns[n].life == Fresh && h.shuttingDown
    ensures Agreement(Register(h, n, true).0)
  {
    var h' := Register(h, n, true).0;
    forall room, p | room in h'.rooms && p in h'.rooms[room]
      ensures EntryOk(h', room, p) && SeesMembers(h'.conns[h'.rooms[room][p]], h'.rooms[room])
    {
      assert EntryOk(h, room, p) && SeesMembers(h.conns[h.rooms[room][p]], h.rooms[room]);
    }
  }

  lemma StepKeeps(h: Hub, e: Event)
    requires Agreement(h) && PeerTraffic(e)
    ensures Agreement(Step(h, e))
  {
    match e
    case Joins(n) =>
      if n in h.conns && h.conns[n].life == Fresh {
        if h.shuttingDown {
          LateJoinKeeps(h, n);
        } else {
          JoinKeeps(h, n);
        }
      }
    case Leaves(n) => if n in h.conns && h.conns[n].life == Registered { LeaveKeeps(h, n); }
    case Relays(m) => RelayKeeps(h, m);
    case ShutdownNotifies(room) =>
      MembersAreRegistered(h, room);
      DeliveryKeeps(h, MembersOf(h, room).Values, Notice(ServerShutdown, room));
    case _ => PlainStepKeeps(h, e);
  }

  lemma {:induction false} RunAgrees(es: seq<Event>)
    requires forall i :: 0 <= i < |es| ==> PeerTraffic(es[i])
    ensures Agreement(Run(Empty(), es))
  {
    if es != [] {
      RunAgrees(es[..|es| - 1]);
      StepKeeps(Run(Empty(), es[..|es| - 1]), es[|es| - 1]);
    }
  }

  /** Membership view agreement: after every run of connects, joins, leaves (also with repeated peer ids), relays, pumps
      and shutdown, a member none of whose messages was dropped has been told exactly the other members of its room, and
      the last peer count it was told is their number plus one. */
  lemma MembersSeeEachOther(es: seq<Event>, room: string, p: string)
    requires forall i :: 0 <= i < |es| ==> PeerTraffic(es[i])
    requires room in Run(Empty(), es).rooms && p in Run(Empty(), es).rooms[room]
    ensures var h := Run(Empty(), es);
            h.rooms[room][p] in h.conns &&
            var c := h.conns[h.rooms[room][p]];
            c.lost == 0 ==>
              View(c.sent) == h.rooms[room].Keys - {p} && LastCount(c.sent) == |h.rooms[room].Keys - {p}| + 1
  {
    RunAgrees(es);
    var h := Run(Empty(), es);
    assert EntryOk(h, room, p) && SeesMembers(h.conns[h.rooms[room][p]], h.rooms[room]);
    assert h.rooms[room].Keys == (h.rooms[room].Keys - {p}) + {p};
  }

  // ---- relayed membership messages: exactly when they do no harm ----

  /** Member `p` is sent the message, and neither this nor any earlier one was refused. */
  predicate IsTold(h: Hub, m: Message, p: string) {
    var members := MembersOf(h, m.room);
    && p in members && members[p] in h.conns && members[p] in Route(members, m)
    && Push(h.conns[members[p]], m).lost == 0
  }

  /** The message says what member `p` knows already: as the hub passes it on as it stands, only then is it true for
      `p`. */
  predicate IsTrueFor(h: Hub, m: Message, p: string) {
    var members := MembersOf(h, m.room);
    Apply(members.Keys - {p}, m) == members.Keys - {p} && m.peerCount == |members|
  }

  predicate TrueForAll(h: Hub, m: Message) {
    forall p :: p in MembersOf(h, m.room) && IsTold(h, m, p) ==> IsTrueFor(h, m, p)
  }

  /** One entry of the tables after the relay: its view is right exactly if the message was true for it. */
  lemma RelayedEntry(h: Hub, m: Message, room: string, p: string)
    requires Agreement(h) && IsMembership(m.kind) && room in h.rooms && p in h.rooms[room]
    ensures h.rooms[room][p] in h.conns
    ensures SeesMembers(DeliverAll(h.conns, Route(MembersOf(h, m.room), m), m)[h.rooms[room][p]], h.rooms[room])
            <==> (room == m.room && IsTold(h, m, p) ==> IsTrueFor(h, m, p))
  {
    var members, n := MembersOf(h, m.room), h.rooms[room][p];
    assert EntryOk(h, room, p) && SeesMembers(h.conns[n], h.rooms[room]);
    PushSeen(h.conns[n], m);
    if n in Route(members, m) {
      RouteIsWithin(members, m);
      var q :| q in members && members[q] == n;
      EntriesDistinct(h, room, p, m.room, q);
    }
  }

  /** From an agreeing state, passing on a membership message keeps all views right if and only if it is true for every
      member that is told. */
  lemma RelayedMembershipIff(h: Hub, m: Message)
    requires Agreement(h) && IsMembership(m.kind)
    ensures Agreement(Broadcast(h, m).0) <==> TrueForAll(h, m)
  {
    if m.room in h.rooms {
      var h' := Broadcast(h, m).0;
      RouteIsWithin(h.rooms[m.room], m);
      DeliverTables(h, m.room, Route(h.rooms[m.room], m), m);
      forall room, p | room in h.rooms && p in h.rooms[room]
        ensures SeesMembers(h'.conns[h.rooms[room][p]], h.rooms[room])
                <==> (room == m.room && IsTold(h, m, p) ==> IsTrueFor(h, m, p))
      {
        RelayedEntry(h, m, room, p);
      }
    }
  }

  /** An event does no harm to the views. */
  predicate Harmless(h: Hub, e: Event) {
    e.Relays? && IsMembership(e.message.kind) ==> TrueForAll(h, e.message)
  }

  lemma StepAgreesIff(h: Hub, e: Event)
    requires Agreement(h)
    ensures Agreement(Step(h, e)) <==> Harmless(h, e)
  {
    if PeerTraffic(e) {
      StepKeeps(h, e);
    } else {
      RelayedMembershipIff(h, e.message);
    }
  }

  ghost predicate AgreesThroughout(es: seq<Event>) {
    Agreement(Run(Empty(), es)) && (es == [] || AgreesThroughout(es[..|es| - 1]))
  }

  ghost predicate HarmlessThroughout(es: seq<Event>) {
    es == [] || (HarmlessThroughout(es[..|es| - 1]) && Harmless(Run(Empty(), es[..|es| - 1]), es[|es| - 1]))
  }

  /** The exact condition over runs: all views are right at every moment if and only if every membership message that a
      client relayed was, when it was relayed, true for everyone told. */
  lemma {:induction false} ViewsAgreeIff(es: seq<Event>)
    ensures AgreesThroughout(es) <==> HarmlessThroughout(es)
  {
    if es != [] {
      ViewsAgreeIff(es[..|es| - 1]);
      if AgreesThroughout(es[..|es| - 1]) {
        StepAgreesIff(Run(Empty(), es[..|es| - 1]), es[|es| - 1]);
      }
    }
  }

  // ---- a run in which a member announces a departure that does not happen ----

  function TwoJoin(room: string, p: string, q: string): seq<Event> {
    [Connect(0, p, room), Joins(0), Connect(1, q, room), Joins(1)]
  }

  lemma RunSnoc(es: seq<Event>, e: Event)
    ensures Run(Empty(), es + [e]) == Step(Run(Empty(), es), e)
  {
    assert (es + [e])[..|es|] == es;
  }

  lemma OneJoins(room: string, p: string)
    ensures var h := Run(Empty(), [Connect(0, p, room), Joins(0)]);
            && h.rooms == map[room := map[p := 0]] && h.conns.Keys == {0} && !h.shuttingDown && !h.broker
            && var c := h.conns[0];
               c.id == p && c.room == room && |c.sent| == 2 && c.drained == 0 && c.lost == 0 && !c.closed
  {
    var e0, e1 := Connect(0, p, room), Joins(0);
    RunSnoc([], e0);
    RunSnoc([e0], e1);
    assert [] + [e0] == [e0] && [e0] + [e1] == [e0, e1];
    var h0 := Step(Empty(), e0);
    assert h0.conns == map[0 := NewConn(p, room)];
    var h1 := Step(h0, e1);
    assert MembersOf(Joined(h0, 0), room) == map[p := 0];
    assert Targets(map[p := 0], p) == {};
    assert h1.conns[0] == Welcome(NewConn(p, room).(life := Registered), map[p := 0]);
  }

  /** One connection, alone in its room, with nothing refused and room in its queue. */
  ghost predicate OneMember(h: Hub, room: string, p: string) {
    && h.rooms == map[room := map[p := 0]] && h.conns.Keys == {0} && !h.shuttingDown && !h.broker
    && h.conns[0].id == p && h.conns[0].lost == 0 && !h.conns[0].closed && Pending(h.conns[0]) == 2
  }

  ghost predicate TwoMembers(h: Hub, room: string, p: string, q: string) {
    && h.rooms == map[room := map[p := 0, q := 1]] && 0 in h.conns && 1 in h.conns
    && h.conns[0].lost == 0 && !h.conns[0].closed && Pending(h.conns[0]) == 3
  }

  lemma SecondJoins(h: Hub, room: string, p: string, q: string)
    requires OneMember(h, room, p) && p != q
    ensures TwoMembers(Step(Step(h, Connect(1, q, room)), Joins(1)), room, p, q)
  {
    var h2 := Step(h, Connect(1, q, room));
    assert h2.conns[1] == NewConn(q, room) && h2.rooms == h.rooms && h2.conns[0] == h.conns[0];
    var j := Joined(h2, 1);
    assert MembersOf(j, room) == map[p := 0, q := 1] && j.conns[0] == h.conns[0];
    assert 0 in Targets(MembersOf(j, room), q);
    assert Register(h2, 1, true).0.conns[0] == Push(h.conns[0], JoinNotice(h2, 1));
  }

  lemma TwoHaveJoined(room: string, p: string, q: string)
    requires p != q
    ensures TwoMembers(Run(Empty(), TwoJoin(room, p, q)), room, p, q)
  {
    var e0, e1, e2, e3 := Connect(0, p, room), Joins(0), Connect(1, q, room), Joins(1);
    OneJoins(room, p);
    RunSnoc([e0, e1], e2);
    RunSnoc([e0, e1, e2], e3);
    assert [e0, e1] + [e2] == [e0, e1, e2] && [e0, e1, e2] + [e3] == TwoJoin(room, p, q);
    SecondJoins(Run(Empty(), [e0, e1]), room, p, q);
  }

  function Departure(room: string, q: string): Message {
    PeerNotice(PeerLeft, room, q, 1).(from := q)
  }

  lemma DepartureIsUntrue(h: Hub, room: string, p: string, q: string)
    requires TwoMembers(h, room, p, q) && p != q
    ensures !TrueForAll(h, Departure(room, q))
  {
    var m := Departure(room, q);
    var members := MembersOf(h, room);
    assert members[p] == 0 && 0 in Targets(members, q) && 0 in Route(members, m);
    assert IsTold(h, m, p);
    assert q in members.Keys - {p} && q !in Apply(members.Keys - {p}, m);
  }

  /** In every room of two, a client that relays its own departure and stays makes the other's view wrong. */
  lemma RelayedMembershipMisleads(room: string, p: string, q: string)
    requires p != q
    ensures AgreesThroughout(TwoJoin(room, p, q))
    ensures !AgreesThroughout(TwoJoin(room, p, q) + [Relays(Departure(room, q))])
  {
    var es, e := TwoJoin(room, p, q), Relays(Departure(room, q));
    TwoHaveJoined(room, p, q);
    DepartureIsUntrue(Run(Empty(), es), room, p, q);
    PlainRunIsHarmless(es);
    FirstHarm(es, e);
  }

  lemma FirstHarm(es: seq<Event>, e: Event)
    requires HarmlessThroughout(es) && !Harmless(Run(Empty(), es), e)
    ensures AgreesThroughout(es) && !AgreesThroughout(es + [e])
  {
    ViewsAgreeIff(es);
    ViewsAgreeIff(es + [e]);
    assert (es + [e])[..|es|] == es && (es + [e])[|es|] == e;
  }

  lemma {:induction false} PlainRunIsHarmless(es: seq<Event>)
    requires forall i :: 0 <= i < |es| ==> PeerTraffic(es[i])
    ensures HarmlessThroughout(es)
  {
    if es != [] {
      PlainRunIsHarmless(es[..|es| - 1]);
    }
  }
}

/** Any number of hubs joined by a broker: who receives what, and that publications never feed on themselves. */
module HubNetwork {
  import opened Wrappers
  import opened HubState
  import opened HubTables

  /** What waits on a hub's channels. */
  datatype Input = Reg(conn: nat, natsOk: bool) | Unreg(conn: nat) | Relay(message: Message)

  /** `inbox` and `bus` pair an item with the hub it is for; items are taken in any order.
      `processed` and `published` count hub inputs handled and publications made. */
  datatype Net = Net(hubs: seq<Hub>, inbox: seq<(nat, Input)>, bus: seq<(nat, Message)>, processed: nat, published: nat)

  datatype Event =
    | Connect(hub: nat, conn: nat, id: string, room: string, natsOk: bool)
    | HangUp(hub: nat, conn: nat)
    | Submit(hub: nat, conn: nat, raw: Message)
    | Pump(hub: nat, conn: nat, count: nat)
    | ShutdownBegins(hub: nat)
    | ShutdownNotifies(hub: nat, room: string)
    | ShutdownCloses(hub: nat, room: string)
    | Process(item: nat, reach: set<nat>)
    | Arrive(item: nat)

  function Hubs(n: nat): Net {
    Net(seq(n, _ => Hub(map[], map[], {}, true, false)), [], [], 0, 0)
  }

  /** `ReadPump`: the sender's identity is always that of the connection. */
  function Stamp(hub: nat, conn: nat, c: Conn, raw: Message): Message {
    raw.(from := c.id, room := c.room, author := Some((hub, conn)))
  }

  function Without<T>(s: seq<T>, k: nat): seq<T>
    requires k < |s|
  {
    s[..k] + s[k + 1..]
  }

  /** A publication reaches any of the first `n` hubs, its publisher among them. */
  function Fan(m: Message, reach: set<nat>, n: nat): (r: seq<(nat, Message)>)
    ensures |r| <= n && forall i :: 0 <= i < |r| ==> r[i].1 == m
  {
    if n == 0 then []
    else Fan(m, reach, n - 1) + (if n - 1 in reach then [(n - 1, m)] else [])
  }

  function PutHub(net: Net, i: nat, h: Hub): Net
    requires i < |net.hubs|
  {
    net.(hubs := net.hubs[i := h])
  }

  /** One hub input, handled to its end: the hub loop takes one at a time. */
  function Handle(h: Hub, input: Input): (Hub, Option<Message>) {
    match input
    case Reg(n, natsOk) => if n in h.conns && h.conns[n].life == Fresh then Register(h, n, natsOk) else (h, None)
    case Unreg(n) => if n in h.conns && h.conns[n].life == Registered then Unregister(h, n) else (h, None)
    case Relay(m) => Broadcast(h, m)
  }

  /** The item is taken, its hub is now `h`, and what it published is on its way. */
  function Handled(net: Net, item: nat, h: Hub, publication: Option<Message>, reach: set<nat>): Net
    requires item < |net.inbox| && net.inbox[item].0 < |net.hubs|
  {
    var taken := PutHub(net, net.inbox[item].0, h).(inbox := Without(net.inbox, item), processed := net.processed + 1);
    match publication
    case None => taken
    case Some(m) => taken.(bus := net.bus + Fan(m, reach, |net.hubs|), published := net.published + 1)
  }

  function AtProcess(net: Net, item: nat, reach: set<nat>): Net
    requires item < |net.inbox| && net.inbox[item].0 < |net.hubs|
  {
    var (h, publication) := Handle(net.hubs[net.inbox[item].0], net.inbox[item].1);
    Handled(net, item, h, publication, reach)
  }

  function Step(net: Net, e: Event): Net {
    match e
    case Connect(i, n, id, room, natsOk) =>
      if i < |net.hubs| && n !in net.hubs[i].conns
      then PutHub(net, i, net.hubs[i].(conns := net.hubs[i].conns[n := NewConn(id, room)]))
           .(inbox := net.inbox + [(i, Reg(n, natsOk))])
      else net
    case HangUp(i, n) => if i < |net.hubs| then net.(inbox := net.inbox + [(i, Unreg(n))]) else net
    case Submit(i, n, raw) =>
      if i < |net.hubs| && n in net.hubs[i].conns
      then net.(inbox := net.inbox + [(i, Relay(Stamp(i, n, net.hubs[i].conns[n], raw)))]) else net
    case Pump(i, n, k) =>
      if i < |net.hubs| && n in net.hubs[i].conns
      then PutHub(net, i, net.hubs[i].(conns := net.hubs[i].conns[n := Drained(net.hubs[i].conns[n], k)])) else net
    case ShutdownBegins(i) => if i < |net.hubs| then PutHub(net, i, net.hubs[i].(shuttingDown := true)) else net
    case ShutdownNotifies(i, room) => if i < |net.hubs| then PutHub(net, i, ShutdownNotify(net.hubs[i], room)) else net
    case ShutdownCloses(i, room) => if i < |net.hubs| then PutHub(net, i, ShutdownClose(net.hubs[i], room)) else net
    case Process(item, reach) =>
      if item < |net.inbox| && net.inbox[item].0 < |net.hubs| then AtProcess(net, item, reach) else net
    case Arrive(item) =>
      if item < |net.bus| && net.bus[item].0 < |net.hubs|
      then PutHub(net, net.bus[item].0, NatsArrives(net.hubs[net.bus[item].0], net.bus[item].1))
           .(bus := Without(net.bus, item))
      else net
  }

  function Run(net: Net, es: seq<Event>): Net {
    if es == [] then net else Step(Run(net, es[..|es| - 1]), es[|es| - 1])
  }

  // ---- routing ----

  /** The connection that submitted a message exists and carries the id and room the message is stamped with. */
  ghost predicate Authored(hubs: seq<Hub>, m: Message) {
    match m.author
    case None => true
    case Some((i, n)) =>
      i < |hubs| && n in hubs[i].conns && hubs[i].conns[n].id == m.from && hubs[i].conns[n].room == m.room
  }

  /** `m` may be in the queue of `c`. */
  ghost predicate RightRecipient(c: Conn, m: Message) {
    m.author.Some? ==> m.room == c.room && (if m.target != "" then m.target == c.id else m.from != c.id)
  }

  ghost predicate HubRouted(hubs: seq<Hub>, h: Hub) {
    && TablesOk(h)
    && forall n, k :: n in h.conns && 0 <= k < |h.conns[n].sent| ==>
         Authored(hubs, h.conns[n].sent[k]) && RightRecipient(h.conns[n], h.conns[n].sent[k])
  }

  ghost predicate Routed(net: Net) {
    && (forall i :: 0 <= i < |net.hubs| ==> HubRouted(net.hubs, net.hubs[i]))
    && (forall k :: 0 <= k < |net.inbox| && net.inbox[k].1.Relay? ==> Authored(net.hubs, net.inbox[k].1.message))
    && (forall k :: 0 <= k < |net.bus| ==> Authored(net.hubs, net.bus[k].1))
  }

  /** `c'` is `c` with authored messages it may receive added to its queue. */
  ghost predicate Extends(hubs: seq<Hub>, c: Conn, c': Conn) {
    && c'.id == c.id && c'.room == c.room && c.sent <= c'.sent
    && forall k :: |c.sent| <= k < |c'.sent| ==> Authored(hubs, c'.sent[k]) && RightRecipient(c', c'.sent[k])
  }

  lemma PushExtends(hubs: seq<Hub>, c: Conn, m: Message)
    requires Authored(hubs, m) && RightRecipient(c, m)
    ensures Extends(hubs, c, Push(c, m))
  {
  }

  /** A handler changes a hub by extending queues this way. */
  ghost predicate GoodChange(hubs: seq<Hub>, h: Hub, h': Hub) {
    && TablesOk(h') && h.conns.Keys == h'.conns.Keys
    && forall n :: n in h.conns ==> Extends(hubs, h.conns[n], h'.conns[n])
  }

  lemma DeliverGood(hubs: seq<Hub>, conns: map<nat, Conn>, targets: set<nat>, m: Message)
    requires Authored(hubs, m)
    requires forall n :: n in targets && n in conns ==> RightRecipient(conns[n], m)
    ensures forall n :: n in conns ==> Extends(hubs, conns[n], DeliverAll(conns, targets, m)[n])
  {
    forall n | n in conns ensures Extends(hubs, conns[n], DeliverAll(conns, targets, m)[n]) {
      if n in targets {
        PushExtends(hubs, conns[n], m);
      }
    }
  }

  lemma RouteGood(h: Hub, m: Message)
    requires TablesOk(h)
    ensures forall n :: n in Route(MembersOf(h, m.room), m) && n in h.conns ==> RightRecipient(h.conns[n], m)
  {
    var members := MembersOf(h, m.room);
    forall n | n in Route(members, m) && n in h.conns ensures RightRecipient(h.conns[n], m) {
      if m.target != "" {
        assert EntryOk(h, m.room, m.target);
      } else {
        var p :| p in members && p != m.from && members[p] == n;
        assert EntryOk(h, m.room, p);
      }
    }
  }

  lemma RelayGood(hubs: seq<Hub>, h: Hub, m: Message)
    requires TablesOk(h) && Authored(hubs, m)
    ensures GoodChange(hubs, h, h.(conns := DeliverAll(h.conns, Route(MembersOf(h, m.room), m), m)))
  {
    RouteGood(h, m);
    RouteIsWithin(MembersOf(h, m.room), m);
    DeliverTables(h, m.room, Route(MembersOf(h, m.room), m), m);
    DeliverGood(hubs, h.conns, Route(MembersOf(h, m.room), m), m);
  }

  /** The hub's own notices may go to anyone. */
  lemma NoticeGood(hubs: seq<Hub>, h: Hub, room: string, targets: set<nat>, m: Message)
    requires TablesOk(h) && targets <= MembersOf(h, room).Values && m.author.None?
    ensures GoodChange(hubs, h, h.(conns := DeliverAll(h.conns, targets, m)))
  {
    DeliverTables(h, room, targets, m);
    DeliverGood(hubs, h.conns, targets, m);
  }

  lemma BroadcastGood(hubs: seq<Hub>, h: Hub, m: Message)
    requires TablesOk(h) && Authored(hubs, m)
    ensures GoodChange(hubs, h, Broadcast(h, m).0)
  {
    var members := MembersOf(h, m.room);
    if m.kind == Ping {
      if m.from in members {
        assert members[m.from] in members.Values;
        NoticeGood(hubs, h, m.room, {members[m.from]}, Notice(Pong, m.room));
      }
    } else {
      RelayGood(hubs, h, m);
    }
  }

  lemma ChangesCompose(hubs: seq<Hub>, h: Hub, h1: Hub, h2: Hub)
    requires GoodChange(hubs, h, h1) && GoodChange(hubs, h1, h2)
    ensures GoodChange(hubs, h, h2)
  {
    forall n | n in h.conns ensures Extends(hubs, h.conns[n], h2.conns[n]) {
      var a, b, c := h.conns[n], h1.conns[n], h2.conns[n];
      assert Extends(hubs, a, b) && Extends(hubs, b, c);
      forall k | |a.sent| <= k < |c.sent| ensures Authored(hubs, c.sent[k]) && RightRecipient(c, c.sent[k]) {
        if k < |b.sent| {
          assert b.sent[k] == c.sent[k];
        }
      }
    }
  }

  lemma WelcomeExtends(hubs: seq<Hub>, c: Conn, members: Members)
    ensures Extends(hubs, c, Welcome(c, members))
  {
    var peers := members.Keys - {c.id};
    PushExtends(hubs, c, Notice(Auth, c.room));
    PushExtends(hubs, Push(c, Notice(Auth, c.room)),
        Notice(RoomState, c.room).(peers := peers, peerCount := |peers| + 1));
  }

  lemma RefusedGood(hubs: seq<Hub>, h: Hub, n: nat)
    requires TablesOk(h) && n in h.conns && h.conns[n].life == Fresh
    ensures GoodChange(hubs, h, Refused(h, n))
    ensures h.conns[n].room !in h.rooms ==>
            GoodChange(hubs, h, Refused(h, n).(rooms := h.rooms[h.conns[n].room := map[]]))
  {
    RefusedTables(h, n);
    PushExtends(hubs, h.conns[n].(life := Registered), Notice(Error, ""));
  }

  lemma JoinedGood(hubs: seq<Hub>, h: Hub, n: nat)
    requires TablesOk(h) && n in h.conns && h.conns[n].life == Fresh
    ensures GoodChange(hubs, h, Joined(h, n))
  {
    JoinedTables(h, n);
    var c := h.conns[n];
    WelcomeExtends(hubs, c.(life := Registered), MembersOf(h, c.room)[c.id := n]);
    assert Joined(h, n).conns == h.conns[n := Welcome(c.(life := Registered), MembersOf(h, c.room)[c.id := n])];
  }

  lemma RegisterGood(hubs: seq<Hub>, h: Hub, n: nat, natsOk: bool)
    requires TablesOk(h) && n in h.conns && h.conns[n].life == Fresh
    ensures GoodChange(hubs, h, Register(h, n, natsOk).0)
  {
    var c := h.conns[n];
    if h.shuttingDown || SubscriptionFails(h, c.room, natsOk) {
      RefusedGood(hubs, h, n);
    } else {
      var j := Joined(h, n);
      JoinedGood(hubs, h, n);
      TargetsAreMembers(MembersOf(j, c.room), c.id);
      NoticeGood(hubs, j, c.room, Targets(MembersOf(j, c.room), c.id), JoinNotice(h, n));
      ChangesCompose(hubs, h, j, Register(h, n, natsOk).0);
    }
  }

  lemma LeftGood(hubs: seq<Hub>, h: Hub, n: nat)
    requires TablesOk(h) && n in h.conns && h.conns[n].life == Registered
    ensures GoodChange(hubs, h, Left(h, n))
  {
    LeftTables(h, n);
    assert Left(h, n).conns == h.conns[n := h.conns[n].(life := Unregistered, closed := true, open := false)];
  }

  lemma UnregisterGood(hubs: seq<Hub>, h: Hub, n: nat)
    requires TablesOk(h) && n in h.conns && h.conns[n].life == Registered
    ensures GoodChange(hubs, h, Unregister(h, n).0)
  {
    var c := h.conns[n];
    if c.id in MembersOf(h, c.room) {
      var l := Left(h, n);
      LeftGood(hubs, h, n);
      NoticeGood(hubs, l, c.room, MembersOf(l, c.room).Values, LeaveNotice(h, n));
      ChangesCompose(hubs, h, l, Unregister(h, n).0);
    } else {
      UnregisterTables(h, n);
    }
  }

  /** What a hub publishes is a notice of its own or the message it was given. */
  lemma PublishesOwnOrGiven(h: Hub, input: Input)
    ensures var p := Handle(h, input).1;
            p.Some? ==> p.value.author.None? || (input.Relay? && p.value == input.message)
  {
  }

  lemma HandleGood(hubs: seq<Hub>, h: Hub, input: Input)
    requires TablesOk(h) && (input.Relay? ==> Authored(hubs, input.message))
    ensures GoodChange(hubs, h, Handle(h, input).0)
    ensures Handle(h, input).1.Some? ==> Authored(hubs, Handle(h, input).1.value)
  {
    PublishesOwnOrGiven(h, input);
    match input
    case Reg(n, natsOk) => if n in h.conns && h.conns[n].life == Fresh { RegisterGood(hubs, h, n, natsOk); }
    case Unreg(n) => if n in h.conns && h.conns[n].life == Registered { UnregisterGood(hubs, h, n); }
    case Relay(m) => BroadcastGood(hubs, h, m);
  }

  lemma AuthoredKept(hubs: seq<Hub>, i: nat, h': Hub, m: Message)
    requires i < |hubs| && GoodChange(hubs, hubs[i], h') && Authored(hubs, m)
    ensures Authored(hubs[i := h'], m)
  {
  }

  lemma QueuesKept(hubs: seq<Hub>, i: nat, h': Hub, h: Hub, h2: Hub)
    requires i < |hubs| && GoodChange(hubs, hubs[i], h') && HubRouted(hubs, h) && GoodChange(hubs, h, h2)
    ensures HubRouted(hubs[i := h'], h2)
  {
    forall n, k | n in h2.conns && 0 <= k < |h2.conns[n].sent|
      ensures Authored(hubs[i := h'], h2.conns[n].sent[k]) && RightRecipient(h2.conns[n], h2.conns[n].sent[k])
    {
      assert Extends(hubs, h.conns[n], h2.conns[n]);
      if k < |h.conns[n].sent| {
        assert h2.conns[n].sent[k] == h.conns[n].sent[k];
      }
      AuthoredKept(hubs, i, h', h2.conns[n].sent[k]);
    }
  }

  lemma ChangeKeeps(net: Net, i: nat, h': Hub)
    requires Routed(net) && i < |net.hubs| && GoodChange(net.hubs, net.hubs[i], h')
    ensures Routed(PutHub(net, i, h'))
  {
    var net' := PutHub(net, i, h');
    forall j | 0 <= j < |net'.hubs| ensures HubRouted(net'.hubs, net'.hubs[j]) {
      assert HubRouted(net.hubs, net.hubs[j]);
      QueuesKept(net.hubs, i, h', net.hubs[j], net'.hubs[j]);
    }
    forall k | 0 <= k < |net.inbox| && net.inbox[k].1.Relay? ensures Authored(net'.hubs, net.inbox[k].1.message) {
      AuthoredKept(net.hubs, i, h', net.inbox[k].1.message);
    }
    forall k | 0 <= k < |net.bus| ensures Authored(net'.hubs, net.bus[k].1) {
      AuthoredKept(net.hubs, i, h', net.bus[k].1);
    }
  }

  lemma ProcessKeeps(net: Net, item: nat, reach: set<nat>)
    requires Routed(net) && item < |net.inbox| && net.inbox[item].0 < |net.hubs|
    ensures Routed(AtProcess(net, item, reach))
  {
    var i := net.inbox[item].0;
    var (h', publication) := Handle(net.hubs[i], net.inbox[item].1);
    assert HubRouted(net.hubs, net.hubs[i]);
    HandleGood(net.hubs, net.hubs[i], net.inbox[item].1);
    ChangeKeeps(net, i, h');
    if publication.Some? {
      AuthoredKept(net.hubs, i, h', publication.value);
    }
  }

  lemma ArriveKeeps(net: Net, item: nat)
    requires Routed(net) && item < |net.bus| && net.bus[item].0 < |net.hubs|
    ensures Routed(Step(net, Event.Arrive(item)))
  {
    var i := net.bus[item].0;
    assert HubRouted(net.hubs, net.hubs[i]);
    RelayGood(net.hubs, net.hubs[i], net.bus[item].1);
    ChangeKeeps(net, i, NatsArrives(net.hubs[i], net.bus[item].1));
  }

  /** Tables whose entries and their connections' identities and queues are unchanged stay in order. */
  lemma SameEntries(hubs: seq<Hub>, h: Hub, h': Hub)
    requires TablesOk(h) && h'.rooms == h.rooms && h'.conns.Keys == h.conns.Keys
    requires forall n :: n in h.conns ==>
      && ConnOk(h'.conns[n]) && h'.conns[n].life == h.conns[n].life
      && h'.conns[n].id == h.conns[n].id && h'.conns[n].room == h.conns[n].room && h'.conns[n].sent == h.conns[n].sent
    ensures GoodChange(hubs, h, h')
  {
    forall r, p | r in h'.rooms && p in h'.rooms[r] ensures EntryOk(h', r, p) {
      assert EntryOk(h, r, p);
    }
  }

  function WithConn(h: Hub, n: nat, id: string, room: string): Hub {
    h.(conns := h.conns[n := NewConn(id, room)])
  }

  lemma ConnectKeeps(net: Net, i: nat, n: nat, id: string, room: string)
    requires Routed(net) && i < |net.hubs| && n !in net.hubs[i].conns
    ensures Routed(PutHub(net, i, WithConn(net.hubs[i], n, id, room)))
  {
    var net' := PutHub(net, i, WithConn(net.hubs[i], n, id, room));
    assert forall m :: Authored(net.hubs, m) ==> Authored(net'.hubs, m);
    forall j | 0 <= j < |net'.hubs| ensures HubRouted(net'.hubs, net'.hubs[j]) {
      assert HubRouted(net.hubs, net.hubs[j]);
      forall r, p | r in net'.hubs[j].rooms && p in net'.hubs[j].rooms[r] ensures EntryOk(net'.hubs[j], r, p) {
        assert EntryOk(net.hubs[j], r, p);
      }
    }
  }

  lemma ShutdownKeeps(net: Net, e: Event)
    requires Routed(net) && (e.ShutdownBegins? || e.ShutdownNotifies? || e.ShutdownCloses?) && e.hub < |net.hubs|
    ensures Routed(Step(net, e))
  {
    var h := net.hubs[e.hub];
    assert HubRouted(net.hubs, h);
    match e
    case ShutdownBegins(i) => SameEntries(net.hubs, h, h.(shuttingDown := true));
                              ChangeKeeps(net, i, h.(shuttingDown := true));
    case ShutdownNotifies(i, room) =>
      NoticeGood(net.hubs, h, room, MembersOf(h, room).Values, Notice(ServerShutdown, room));
      ChangeKeeps(net, i, ShutdownNotify(h, room));
    case ShutdownCloses(i, room) =>
      MembersAreRegistered(h, room);
      SameEntries(net.hubs, h, ShutdownClose(h, room));
      ChangeKeeps(net, i, ShutdownClose(h, room));
  }

  lemma PumpKeeps(net: Net, i: nat, n: nat, k: nat)
    requires Routed(net) && i < |net.hubs| && n in net.hubs[i].conns
    ensures Routed(Step(net, Pump(i, n, k)))
  {
    var h := net.hubs[i];
    assert HubRouted(net.hubs, h);
    SameEntries(net.hubs, h, h.(conns := h.conns[n := Drained(h.conns[n], k)]));
    ChangeKeeps(net, i, h.(conns := h.conns[n := Drained(h.conns[n], k)]));
  }

  lemma OutsideKeeps(net: Net, e: Event)
    requires Routed(net) && !e.Process? && !e.Arrive?
    ensures Routed(Step(net, e))
  {
    match e
    case Connect(i, n, id, room, natsOk) =>
      if i < |net.hubs| && n !in net.hubs[i].conns {
        ConnectKeeps(net, i, n, id, room);
      }
    case Pump(i, n, k) =>
      if i < |net.hubs| && n in net.hubs[i].conns {
        PumpKeeps(net, i, n, k);
      }
    case HangUp(_, _) =>
    case Submit(_, _, _) =>
    case ShutdownBegins(i) => if i < |net.hubs| { ShutdownKeeps(net, e); }
    case ShutdownNotifies(i, _) => if i < |net.hubs| { ShutdownKeeps(net, e); }
    case ShutdownCloses(i, _) => if i < |net.hubs| { ShutdownKeeps(net, e); }
  }

  lemma StepIsRouted(net: Net, e: Event)
    requires Routed(net)
    ensures Routed(Step(net, e))
  {
    match e
    case Process(item, reach) =>
      if item < |net.inbox| && net.inbox[item].0 < |net.hubs| {
        ProcessKeeps(net, item, reach);
      }
    case Arrive(item) =>
      if item < |net.bus| && net.bus[item].0 < |net.hubs| {
        ArriveKeeps(net, item);
      }
    case _ => OutsideKeeps(net, e);
  }

  lemma NothingIsRouted(n: nat)
    ensures Routed(Hubs(n))
  {
  }

  lemma {:induction false} RunIsRouted(n: nat, es: seq<Event>)
    ensures Routed(Run(Hubs(n), es))
  {
    if es == [] {
      NothingIsRouted(n);
    } else {
      RunIsRouted(n, es[..|es| - 1]);
      StepIsRouted(Run(Hubs(n), es[..|es| - 1]), es[|es| - 1]);
    }
  }

  /** Routing over any number of hubs: whatever a client submitted and another client was sent, the receiver is in the
      room the message is stamped with, `from` is the id of the submitting connection, a targeted message is at its
      target, and a broadcast is not back at its sender's id, not even through the broker's echo. */
  lemma RelaysReachTheirRoom(hubs: nat, es: seq<Event>, i: nat, n: nat, k: nat)
    requires var net := Run(Hubs(hubs), es);
             i < |net.hubs| && n in net.hubs[i].conns && k < |net.hubs[i].conns[n].sent|
    requires Run(Hubs(hubs), es).hubs[i].conns[n].sent[k].author.Some?
    ensures var net := Run(Hubs(hubs), es);
            var receiver, m := net.hubs[i].conns[n], net.hubs[i].conns[n].sent[k];
            var (j, author) := m.author.value;
            && j < |net.hubs| && author in net.hubs[j].conns
            && m.from == net.hubs[j].conns[author].id && m.room == net.hubs[j].conns[author].room == receiver.room
            && (m.target != "" ==> m.target == receiver.id)
            && (m.target == "" ==> m.from != receiver.id)
  {
    RunIsRouted(hubs, es);
    assert HubRouted(Run(Hubs(hubs), es).hubs, Run(Hubs(hubs), es).hubs[i]);
  }

  // ---- no fan-out loop ----

  lemma StepPublishes(net: Net, e: Event)
    ensures Step(net, e).published - net.published <= Step(net, e).processed - net.processed
    ensures |Step(net, e).hubs| == |net.hubs|
    ensures e.Arrive? ==> Step(net, e).published == net.published
  {
  }

  /** Publications never outnumber the hub inputs handled: what arrives from the broker publishes nothing. */
  lemma {:induction false} PublicationsAreBounded(hubs: nat, es: seq<Event>)
    ensures var net := Run(Hubs(hubs), es); net.published <= net.processed && |net.hubs| == hubs
  {
    if es != [] {
      PublicationsAreBounded(hubs, es[..|es| - 1]);
      StepPublishes(Run(Hubs(hubs), es[..|es| - 1]), es[|es| - 1]);
    }
  }

  /** A step that works off an item waiting at a hub or on the broker. */
  predicate Works(net: Net, e: Event) {
    || (e.Process? && e.item < |net.inbox| && net.inbox[e.item].0 < |net.hubs|)
    || (e.Arrive? && e.item < |net.bus| && net.bus[e.item].0 < |net.hubs|)
  }

  function WorkLeft(net: Net): nat {
    |net.inbox| * (|net.hubs| + 1) + |net.bus|
  }

  lemma HandlingShrinks(net: Net, item: nat, h: Hub, publication: Option<Message>, reach: set<nat>)
    requires item < |net.inbox| && net.inbox[item].0 < |net.hubs|
    ensures var net' := Handled(net, item, h, publication, reach);
            WorkLeft(net') < WorkLeft(net) && |net'.hubs| == |net.hubs|
  {
    var left, width := |net.inbox| - 1, |net.hubs| + 1;
    assert |net.inbox| * width == left * width + width;
    assert |Handled(net, item, h, publication, reach).inbox| == left;
  }

  lemma WorkShrinks(net: Net, e: Event)
    requires Works(net, e)
    ensures WorkLeft(Step(net, e)) < WorkLeft(net) && |Step(net, e).hubs| == |net.hubs|
  {
    if e.Process? {
      var (h, publication) := Handle(net.hubs[net.inbox[e.item].0], net.inbox[e.item].1);
      HandlingShrinks(net, e.item, h, publication, e.reach);
    }
  }

  ghost predicate AllWork(net: Net, es: seq<Event>)
    decreases |es|
  {
    es == [] || (Works(net, es[0]) && AllWork(Step(net, es[0]), es[1..]))
  }

  /** All work terminates: without new input, no more steps can work than the inputs waiting times one more than the
      number of hubs, plus the messages on the broker. */
  lemma {:induction false} WorkTerminates(net: Net, es: seq<Event>)
    requires AllWork(net, es)
    ensures |es| <= |net.inbox| * (|net.hubs| + 1) + |net.bus|
    decreases |es|
  {
    if es != [] {
      WorkShrinks(net, es[0]);
      WorkTerminates(Step(net, es[0]), es[1..]);
    }
  }
}

/** The hub and its clients as objects updated in place; `HubState` says what each handler means. */
module HubObjects {
  import opened Wrappers
  import opened HubState
  import opened HubTables
  import opened HubContracts
  import HubNetwork
  import Framing

  /** A connection. `queue` is the buffered channel, `open` whether it is still open, `closed` the flag tested before
      sending. `number` and the ghost fields, its history, are the model's own. */
  class Client {
    const id: string
    const room: string
    const number: nat
    var queue: seq<Message>
    var open: bool
    var closed: bool
    ghost var sent: seq<Message>
    ghost var drained: nat
    ghost var lost: nat
    ghost var life: Life

    constructor (number: nat, id: string, room: string)
      ensures Valid() && View() == NewConn(id, room) && this.number == number
    {
      this.id, this.room, this.number := id, room, number;
      queue, open, closed := [], true, false;
      sent, drained, lost, life := [], 0, 0, Fresh;
    }

    /** The queue is the end of what was accepted, never over its capacity, and the channel is open unless the flag is
        set. */
    ghost predicate Valid()
      reads this
    {
      && drained <= |sent| && queue == sent[drained..] && |queue| <= SEND_CAPACITY
      && (open || closed) && (life != Unregistered ==> open)
    }

    ghost function View(): Conn
      reads this
      requires Valid()
    {
      Conn(id, room, sent, drained, lost, closed, open, life)
    }

    /** Never sends on a closed channel, and never blocks. */
    method SendJSON(m: Message)
      requires Valid()
      modifies this
      ensures Valid() && View() == Push(old(View()), m)
      ensures Offered(old(View()), View(), m)
      ensures queue == old(queue) + if closed || |old(queue)| >= 256 then [] else [m]
    {
      if closed {
        lost := lost + 1;
        return;
      }
      assert open;
      if |queue| < SEND_CAPACITY {
        assert (sent + [m])[drained..] == sent[drained..] + [m];
        queue := queue + [m];
        sent := sent + [m];
      } else {
        lost := lost + 1;
      }
    }

    method Refuse()
      requires Valid() && open
      modifies this
      ensures Valid() && View() == Push(old(View()).(life := Registered), Notice(Error, ""))
    {
      life := Registered;
      SendJSON(Notice(Error, ""));
    }

    /** The channel is closed, and must not have been. */
    method Close()
      requires Valid() && open
      modifies this
      ensures Valid() && View() == old(View()).(life := Unregistered, closed := true, open := false)
    {
      life := Unregistered;
      closed := true;
      open := false;
    }

    /** The authentication reply and the list of those already there. */
    method Greet(members: map<string, Client>)
      requires Valid() && open
      modifies this
      ensures Valid() && View() == HubState.Welcome(old(View()).(life := Registered), Numbers(members))
    {
      life := Registered;
      SameKeys(members);
      var peers := members.Keys - {id};
      SendJSON(Notice(Auth, room));
      SendJSON(PeerList(room, peers));
    }

    /** `ReadPump`: whatever identity the payload claims is overwritten. */
    method Stamp(hub: nat, raw: Message) returns (m: Message)
      requires Valid()
      ensures m.from == id && m.room == room && m.author == Some((hub, number))
      ensures m.kind == raw.kind && m.target == raw.target && m.peer == raw.peer && m.peers == raw.peers
      ensures m.peerCount == raw.peerCount && m.body == raw.body
      ensures m == HubNetwork.Stamp(hub, number, View(), raw)
    {
      m := raw.(from := id, room := room, author := Some((hub, number)));
    }

    /** Receiving from the channel. */
    method Take() returns (m: Message)
      requires Valid() && queue != []
      modifies this
      ensures Valid() && View() == Drained(old(View()), 1) && m == old(queue)[0] && queue == old(queue)[1..]
    {
      m := queue[0];
      queue := queue[1..];
      drained := drained + 1;
    }

    /** A turn of `WritePump`: the message taken first, then as many as are then queued, one a line, in one frame. */
    method WriteFrame(json: Message -> string) returns (frame: string)
      requires Valid() && queue != []
      modifies this
      ensures Valid() && View() == Drained(old(View()), |old(queue)|) && queue == []
      ensures frame == Framing.Join(Texts(json, old(queue)))
    {
      ghost var c, q := View(), queue;
      var m := Take();
      frame := json(m);
      var n := |queue|;
      for i := 0 to n
        invariant Valid() && View() == Drained(c, 1 + i) && queue == q[1 + i..]
        invariant frame == Framing.Join(Texts(json, q[..1 + i]))
      {
        DrainedOneMore(c, 1 + i);
        JoinOneMore(json, q, 1 + i);
        m := Take();
        frame := frame + "\n" + json(m);
      }
      assert q[..1 + n] == q;
    }
  }

  lemma DrainedOneMore(c: Conn, k: nat)
    requires k < Pending(c)
    ensures Drained(Drained(c, k), 1) == Drained(c, k + 1)
  {
  }

  lemma JoinOneMore(json: Message -> string, ms: seq<Message>, k: nat)
    requires 0 < k < |ms|
    ensures Framing.Join(Texts(json, ms[..k + 1])) == Framing.Join(Texts(json, ms[..k])) + "\n" + json(ms[k])
  {
    assert Texts(json, ms[..k + 1])[..k] == Texts(json, ms[..k]);
  }

  function Texts(json: Message -> string, ms: seq<Message>): (r: seq<string>)
    ensures |r| == |ms|
  {
    seq(|ms|, i requires 0 <= i < |ms| => json(ms[i]))
  }

  function Numbers(members: map<string, Client>): Members {
    map p | p in members :: members[p].number
  }

  function Index(rooms: map<string, map<string, Client>>): map<string, Members> {
    map room | room in rooms :: Numbers(rooms[room])
  }

  lemma IndexWith(rooms: map<string, map<string, Client>>, room: string, members: map<string, Client>)
    ensures Index(rooms[room := members]) == Index(rooms)[room := Numbers(members)]
  {
  }

  lemma IndexWithout(rooms: map<string, map<string, Client>>, room: string)
    ensures Index(rooms - {room}) == Index(rooms) - {room}
  {
  }

  lemma NumbersWith(members: map<string, Client>, p: string, c: Client)
    ensures Numbers(members[p := c]) == Numbers(members)[p := c.number]
    ensures Numbers(members - {p}) == Numbers(members) - {p}
  {
  }

  ghost function Views(clients: map<nat, Client>): map<nat, Conn>
    reads clients.Values
    requires forall n :: n in clients ==> clients[n].Valid()
  {
    map n | n in clients :: clients[n].View()
  }

  /** The notification loops: everyone filed in `members`, except under the id to skip. */
  method Notify(members: map<string, Client>, skip: Option<string>, m: Message)
    requires forall p :: p in members ==> members[p].id == p && members[p].Valid()
    modifies members.Values
    ensures forall p :: p in members ==>
      members[p].Valid() && members[p].View() == if skip == Some(p) then old(members[p].View())
          else Push(old(members[p].View()), m)
  {
    var left := members.Keys;
    while left != {}
      invariant left <= members.Keys
      invariant forall p :: p in members ==> members[p].Valid()
      invariant forall p :: p in members ==>
        members[p].View() == if p in left || skip == Some(p) then old(members[p].View())
            else Push(old(members[p].View()), m)
      decreases left
    {
      var p :| p in left;
      left := left - {p};
      if skip != Some(members[p].id) {
        members[p].SendJSON(m);
      }
    }
  }

  /** The hub. Its ghost field holds every connection by number; a room's client table is a value in `rooms`. */
  class SignalingHub {
    var rooms: map<string, map<string, Client>>
    var subscriptions: set<string>
    var shuttingDown: bool
    const broker: bool
    ghost var clients: map<nat, Client>

    /** Every table entry is a connection of this hub, filed under its own room and id. */
    ghost predicate Valid()
      reads this, clients.Values
    {
      && (forall n :: n in clients ==> clients[n].number == n && clients[n].Valid())
      && (forall room :: room in rooms ==> Filed(room, rooms[room]))
    }

    ghost predicate Knows(client: Client)
      reads this
    {
      client.number in clients && clients[client.number] == client
    }

    ghost predicate Filed(room: string, members: map<string, Client>)
      reads this
    {
      forall p :: p in members ==> Knows(members[p]) && members[p].id == p && members[p].room == room
    }

    ghost function View(): Hub
      reads this, clients.Values
      requires Valid()
    {
      Hub(Index(rooms), Views(clients), subscriptions, broker, shuttingDown)
    }

    constructor (broker: bool)
      ensures Valid() && View() == Hub(map[], map[], {}, broker, false) && fresh(clients.Values)
    {
      rooms, subscriptions, shuttingDown, clients := map[], {}, false, map[];
      this.broker := broker;
    }

    function Members(room: string): map<string, Client>
      reads this
    {
      if room in rooms then rooms[room] else map[]
    }

    method Deliver(room: string, skip: Option<string>, m: Message)
      requires Valid()
      modifies Members(room).Values
      ensures Valid()
      ensures View() == old(View()).(conns :=
              DeliverAll(old(View()).conns, Chosen(MembersOf(old(View()), room), skip), m))
    {
      var members := Members(room);
      ghost var was := Views(clients);
      assert Numbers(members) == MembersOf(View(), room);
      Notify(members, skip, m);
      Delivered(was, Views(clients), Numbers(members), skip, m);
    }

    /** Only this client has changed. */
    twostate lemma OneClient(client: Client)
      requires old(Valid()) && Knows(client) && client.Valid() && unchanged(this)
      requires forall n :: n in clients && clients[n] != client ==> unchanged(clients[n])
      ensures Valid() && View() == old(View()).(conns := old(View()).conns[client.number := client.View()])
    {
      forall n | n in clients ensures clients[n].Valid() {
      }
      assert Views(clients) == old(Views(clients))[client.number := client.View()];
    }

    /** Only the tables have changed. */
    twostate lemma OnlyTables()
      requires old(Valid()) && clients == old(clients) && shuttingDown == old(shuttingDown)
      requires forall n :: n in clients ==> unchanged(clients[n])
      requires forall room :: room in rooms ==> Filed(room, rooms[room])
      ensures Valid() && View() == old(View()).(rooms := Index(rooms), subscribed := subscriptions)
    {
      assert Views(clients) == old(Views(clients));
    }

    method Tell(client: Client, m: Message)
      requires Valid() && Knows(client)
      modifies client
      ensures Valid() && View() == old(View()).(conns :=
              old(View()).conns[client.number := Push(old(client.View()), m)])
      ensures client.View() == Push(old(client.View()), m)
    {
      client.SendJSON(m);
      OneClient(client);
    }

    /** The room's table is made if need be; without the subscription it stays empty. */
    method OpenRoom(room: string, natsOk: bool) returns (ok: bool)
      requires Valid()
      modifies this`rooms, this`subscriptions
      ensures Valid() && ok == !SubscriptionFails(old(View()), room, natsOk)
      ensures room in rooms && View() == Roomed(old(View()), room, ok)
    {
      ok := true;
      if room !in rooms {
        IndexWith(rooms, room, map[]);
        rooms := rooms[room := map[]];
        OnlyTables();
        if broker {
          if !natsOk || !ValidRoomId(room) {
            return false;
          }
          subscriptions := subscriptions + {room};
          OnlyTables();
        }
      }
    }

    /** The client takes its place in the table, and that of any other with its id. */
    method Enter(client: Client)
      requires Valid() && Knows(client) && client.room in rooms
      modifies this`rooms
      ensures Valid()
      ensures View() == Entered(old(View()), client.number)
    {
      var members := rooms[client.room][client.id := client];
      NumbersWith(rooms[client.room], client.id, client);
      IndexWith(rooms, client.room, members);
      assert Numbers(members) == MembersOf(View(), client.room)[client.id := client.number];
      rooms := rooms[client.room := members];
      OnlyTables();
    }

    method Refuse(client: Client)
      requires Valid() && Knows(client) && client.open
      modifies client
      ensures Valid() && View() == Refused(old(View()), client.number)
    {
      client.Refuse();
      OneClient(client);
    }

    method Welcome(client: Client)
      requires Valid() && Knows(client) && client.open
      modifies client
      ensures Valid()
      ensures View() == Welcomed(old(View()), client.number) && rooms == old(rooms)
    {
      client.Greet(Members(client.room));
      OneClient(client);
    }

    method Announce(client: Client, kind: Kind, skip: Option<string>) returns (notice: Message)
      requires Valid() && Knows(client)
      modifies Members(client.room).Values
      ensures Valid()
      ensures notice == NoticeIn(old(View()), client.number, kind)
      ensures View() == Announced(old(View()), client.number, kind, skip)
    {
      SameKeys(Members(client.room));
      notice := PeerNotice(kind, client.room, client.id, |Members(client.room)|);
      Deliver(client.room, skip, notice);
    }

    /** The connection was not in its room: only its life ends. */
    ghost method Forget(client: Client)
      requires Valid() && Knows(client)
      modifies client`life
      ensures Valid() && var h := old(View());
        View() == h.(conns := h.conns[client.number := old(client.View()).(life := Unregistered)])
    {
      client.life := Unregistered;
      OneClient(client);
    }

    /** A connection registers once. `natsOk`: the broker accepts the subscription. `published`: what goes to the
        broker. */
    method HandleRegister(client: Client, natsOk: bool) returns (published: Option<Message>)
      requires Valid() && Knows(client) && client.life == Fresh
      modifies this`rooms, this`subscriptions, clients.Values
      ensures Valid()
      ensures (View(), published) == Register(old(View()), client.number, natsOk)
    {
      if shuttingDown {
        Refuse(client);
        return None;
      }
      var subscribed := OpenRoom(client.room, natsOk);
      if !subscribed {
        Refuse(client);
        return None;
      }
      Enter(client);
      Welcome(client);
      RegisterByParts(old(View()), client.number, natsOk);
      var notice := Announce(client, PeerJoined, Some(client.id));
      return if broker && ValidRoomId(client.room) then Some(notice) else None;
    }

    method Close(client: Client)
      requires Valid() && Knows(client) && client.open
      modifies client
      ensures Valid() && View() == Closed(old(View()), client.number)
    {
      client.Close();
      OneClient(client);
    }

    /** The entry under the client's id goes, whichever client it names. */
    method Remove(client: Client)
      requires Valid() && Knows(client) && client.room in rooms
      modifies this`rooms
      ensures Valid() && client.room in rooms && View() == Removed(old(View()), client.number)
    {
      var members := rooms[client.room] - {client.id};
      NumbersWith(rooms[client.room], client.id, client);
      IndexWith(rooms, client.room, members);
      assert Numbers(members) == MembersOf(View(), client.room) - {client.id};
      rooms := rooms[client.room := members];
      OnlyTables();
    }

    /** An empty room is dropped with its subscription. */
    method CleanUp(room: string)
      requires Valid() && room in rooms
      modifies this`rooms, this`subscriptions
      ensures Valid() && View() == CleanedUp(old(View()), room)
    {
      NoNumbers(rooms[room]);
      assert Numbers(rooms[room]) == MembersOf(View(), room);
      if |rooms[room]| == 0 {
        DropRoom(room);
      }
    }

    method DropRoom(room: string)
      requires Valid()
      modifies this`rooms, this`subscriptions
      ensures Valid()
      ensures View() == old(View()).(rooms := old(View()).rooms - {room}, subscribed := old(View()).subscribed - {room})
    {
      IndexWithout(rooms, room);
      subscriptions := subscriptions - {room};
      rooms := rooms - {room};
      OnlyTables();
    }

    /** A registered connection unregisters at most once. */
    method HandleUnregister(client: Client) returns (published: Option<Message>)
      requires Valid() && Knows(client) && client.life == Registered
      modifies this`rooms, this`subscriptions, clients.Values
      ensures Valid()
      ensures (View(), published) == Unregister(old(View()), client.number)
    {
      if client.room !in rooms || client.id !in rooms[client.room] {
        Forget(client);
        return None;
      }
      UnregisterByParts(View(), client.number);
      Remove(client);
      Close(client);
      var notice := Announce(client, PeerLeft, None);
      CleanUp(client.room);
      return if broker && ValidRoomId(client.room) then Some(notice) else None;
    }

    method Unicast(room: string, p: string, m: Message)
      requires Valid()
      modifies clients.Values
      ensures Valid()
      ensures var h := old(View());
        View() == h.(conns := DeliverAll(h.conns, if p in MembersOf(h, room) then {MembersOf(h, room)[p]} else {}, m))
    {
      ghost var was := View();
      if p in Members(room) {
        DeliverOne(was.conns, MembersOf(was, room)[p], m);
        Tell(rooms[room][p], m);
      } else {
        DeliverNone(was.conns, m);
      }
    }

    /** To the target, or to everyone but the sender. */
    method Relay(m: Message)
      requires Valid()
      modifies clients.Values
      ensures Valid() && View() == NatsArrives(old(View()), m)
    {
      if m.target != "" {
        Unicast(m.room, m.target, m);
      } else {
        Deliver(m.room, Some(m.from), m);
      }
    }

    lemma EntriesAreFiled()
      requires Valid()
      ensures EntriesFiled(View())
    {
      forall room, p | room in rooms && p in rooms[room]
        ensures var n := Numbers(rooms[room])[p]; n in clients && clients[n].id == p && clients[n].room == room
      {
        assert Filed(room, rooms[room]);
      }
    }

    method HandleBroadcast(m: Message) returns (published: Option<Message>)
      requires Valid()
      modifies clients.Values
      ensures Valid() && (View(), published) == Broadcast(old(View()), m)
      ensures IsRelayed(m.kind) ==>
                && ReachedExactly(old(View()), View(), m)
                && published == if m.room in rooms && broker && ValidRoomId(m.room) then Some(m) else None
    {
      published := None;
      EntriesAreFiled();
      if IsRelayed(m.kind) {
        RelayReachesExactly(View(), m);
      }
      if m.kind == Ping {
        ghost var was := View();
        Unicast(m.room, m.from, Notice(Pong, m.room));
        DeliverNone(was.conns, Notice(Pong, m.room));
      } else if m.kind != Auth && m.kind != Join && m.kind != Leave && m.room in rooms {
        Relay(m);
        published := if broker && ValidRoomId(m.room) then Some(m) else None;
      }
    }

    /** Nothing that comes from the broker goes back to it. */
    method HandleNatsMessage(m: Message)
      requires Valid()
      modifies clients.Values
      ensures Valid() && View() == NatsArrives(old(View()), m)
      ensures ReachedExactly(old(View()), View(), m)
    {
      EntriesAreFiled();
      ArrivalReachesExactly(View(), m);
      Relay(m);
    }

    lemma OwnRooms()
      requires Valid()
      ensures InOwnRoom(View())
    {
      forall room, n | room in rooms && n in Numbers(rooms[room]).Values
        ensures n in clients && clients[n].room == room
      {
        var p :| p in rooms[room] && rooms[room][p].number == n;
        assert Filed(room, rooms[room]);
      }
    }

    /** First half of `Shutdown`: no more registrations, and everyone filed in a room is told once, in any order. */
    method NotifyShutdown()
      requires Valid()
      modifies this`shuttingDown, clients.Values
      ensures Valid()
      ensures var h := old(View()).(shuttingDown := true); View() == ToldOfShutdown(h, h.rooms.Keys)
    {
      shuttingDown := true;
      var left := rooms.Keys;
      ghost var was, done := View(), {};
      OwnRooms();
      ToldNone(was);
      while left != {}
        invariant done <= was.rooms.Keys && left == was.rooms.Keys - done
        invariant Valid() && shuttingDown && View() == ToldOfShutdown(was, done)
        decreases left
      {
        var room :| room in left;
        ToldOneMore(was, done, room);
        Deliver(room, None, Notice(ServerShutdown, room));
        left, done := left - {room}, done + {room};
      }
      assert done == was.rooms.Keys;
    }
  }

  /** Everyone filed in one of these rooms has been told. */
  ghost function ToldOfShutdown(h: Hub, rooms: set<string>): Hub {
    h.(conns := map n | n in h.conns ::
         if exists room :: room in rooms && n in MembersOf(h, room).Values
         then Push(h.conns[n], Notice(ServerShutdown, h.conns[n].room)) else h.conns[n])
  }

  ghost predicate InOwnRoom(h: Hub) {
    forall room, n :: room in h.rooms && n in h.rooms[room].Values ==> n in h.conns && h.conns[n].room == room
  }

  lemma ToldNone(h: Hub)
    ensures ToldOfShutdown(h, {}) == h
  {
    assert ToldOfShutdown(h, {}).conns == h.conns;
  }

  lemma ToldOneMore(h: Hub, done: set<string>, room: string)
    requires InOwnRoom(h) && room in h.rooms && room !in done && done <= h.rooms.Keys
    ensures ShutdownNotify(ToldOfShutdown(h, done), room) == ToldOfShutdown(h, done + {room})
  {
    var a, b := ShutdownNotify(ToldOfShutdown(h, done), room), ToldOfShutdown(h, done + {room});
    forall n | n in h.conns ensures a.conns[n] == b.conns[n] {
      if n in MembersOf(h, room).Values {
        assert forall r :: r in done && n in MembersOf(h, r).Values ==> r == room;
        assert room in done + {room};
      }
    }
    assert a.conns == b.conns;
  }

  lemma DeliverOne(conns: map<nat, Conn>, n: nat, m: Message)
    requires n in conns
    ensures DeliverAll(conns, {n}, m) == conns[n := Push(conns[n], m)]
  {
  }

  lemma DeliverNone(conns: map<nat, Conn>, m: Message)
    ensures DeliverAll(conns, {}, m) == conns
  {
  }

  // ---- a registration in parts ----

  function Roomed(h: Hub, room: string, subscribed: bool): Hub {
    if room in h.rooms then h
    else h.(rooms := h.rooms[room := map[]],
            subscribed := if h.broker && subscribed then h.subscribed + {room} else h.subscribed)
  }

  function Entered(h: Hub, n: nat): Hub
    requires n in h.conns
  {
    var c := h.conns[n];
    h.(rooms := h.rooms[c.room := MembersOf(h, c.room)[c.id := n]])
  }

  function Welcomed(h: Hub, n: nat): Hub
    requires n in h.conns
  {
    var c := h.conns[n].(life := Registered);
    h.(conns := h.conns[n := Welcome(c, MembersOf(h, c.room))])
  }

  function NoticeIn(h: Hub, n: nat, kind: Kind): Message
    requires n in h.conns
  {
    PeerNotice(kind, h.conns[n].room, h.conns[n].id, |MembersOf(h, h.conns[n].room)|)
  }

  function Announced(h: Hub, n: nat, kind: Kind, skip: Option<string>): Hub
    requires n in h.conns
  {
    h.(conns := DeliverAll(h.conns, Chosen(MembersOf(h, h.conns[n].room), skip), NoticeIn(h, n, kind)))
  }

  function Removed(h: Hub, n: nat): Hub
    requires n in h.conns
  {
    h.(rooms := h.rooms[h.conns[n].room := MembersOf(h, h.conns[n].room) - {h.conns[n].id}])
  }

  function Closed(h: Hub, n: nat): Hub
    requires n in h.conns
  {
    h.(conns := h.conns[n := h.conns[n].(life := Unregistered, closed := true, open := false)])
  }

  function CleanedUp(h: Hub, room: string): Hub {
    if MembersOf(h, room) == map[] then h.(rooms := h.rooms - {room}, subscribed := h.subscribed - {room}) else h
  }

  lemma RegisterByParts(h: Hub, n: nat, natsOk: bool)
    requires n in h.conns && !h.shuttingDown && !SubscriptionFails(h, h.conns[n].room, natsOk)
    ensures var w := Welcomed(Entered(Roomed(h, h.conns[n].room, true), n), n);
      Register(h, n, natsOk) == (Announced(w, n, PeerJoined, Some(h.conns[n].id)),
          Publish(h, NoticeIn(w, n, PeerJoined)))
  {
    var c := h.conns[n];
    TwicePut(h.rooms, c.room, map[], map[c.id := n]);
    assert Welcomed(Entered(Roomed(h, c.room, true), n), n) == Joined(h, n);
  }

  lemma UnregisterByParts(h: Hub, n: nat)
    requires n in h.conns && h.conns[n].id in MembersOf(h, h.conns[n].room)
    ensures var c := Closed(Removed(h, n), n);
      Unregister(h, n) == (CleanedUp(Announced(c, n, PeerLeft, None), h.conns[n].room),
          Publish(h, NoticeIn(c, n, PeerLeft)))
  {
    var room := h.conns[n].room;
    var members := MembersOf(h, room) - {h.conns[n].id};
    if members == map[] {
      assert h.rooms[room := members] - {room} == h.rooms - {room};
    }
  }

  lemma NoNumbers(members: map<string, Client>)
    ensures |members| == 0 <==> Numbers(members) == map[]
  {
    if |members| != 0 {
      var p :| p in members;
      assert p in Numbers(members);
    }
  }

  lemma SameKeys(members: map<string, Client>)
    ensures Numbers(members).Keys == members.Keys && |Numbers(members)| == |members|
  {
    assert |Numbers(members)| == |Numbers(members).Keys|;
  }

  lemma TwicePut<K, V>(m: map<K, V>, k: K, v: V, w: V)
    ensures m[k := v][k := w] == m[k := w]
  {
  }

  /** Whom a notification loop reaches. */
  function Chosen(members: Members, skip: Option<string>): set<nat> {
    if skip.None? then members.Values else Targets(members, skip.value)
  }

  lemma Delivered(was: map<nat, Conn>, now: map<nat, Conn>, members: Members, skip: Option<string>, m: Message)
    requires was.Keys == now.Keys
    requires forall p, q :: p in members && q in members && members[p] == members[q] ==> p == q
    requires forall p :: p in members ==>
      members[p] in was && now[members[p]] == if skip == Some(p) then was[members[p]] else Push(was[members[p]], m)
    requires forall n :: n in was && n !in members.Values ==> now[n] == was[n]
    ensures now == DeliverAll(was, Chosen(members, skip), m)
  {
    forall n | n in was ensures now[n] == DeliverAll(was, Chosen(members, skip), m)[n] {
      if n in members.Values {
        var p :| p in members && members[p] == n;
        assert n in Chosen(members, skip) <==> skip != Some(p);
      }
    }
  }
}

/** The signaling hub's tables as values, and what each of its handlers does to them. */
module HubState {
  import opened Wrappers

  datatype Kind =
    | Offer | Answer | Ice | KeyExchange | Presence
    | Join | Leave | Ping | Auth
    | PeerJoined | PeerLeft | RoomState | Pong | Error | ServerShutdown
    | Unknown(name: string)

  /** `SignalMessage`. `author` is not on the wire and no handler reads it: it names the connection that submitted the
      message (hub, connection), or None for the hub's own notifications. */
  datatype Message = Message(kind: Kind, room: string, peer: string, target: string, from: string,
                             peers: set<string>, peerCount: nat, body: string, author: Option<(nat, nat)>)

  const SEND_CAPACITY := 256

  /** A connection registers once and then unregisters at most once. */
  datatype Life = Fresh | Registered | Unregistered

  /** A connection. `sent` lists what its queue has ever accepted, of which the write pump has taken `drained`;
      `lost` counts what the queue refused. `open` is the channel, `closed` the flag tested before sending. */
  datatype Conn = Conn(id: string, room: string, sent: seq<Message>, drained: nat, lost: nat,
                       closed: bool, open: bool, life: Life)

  type Members = map<string, nat>

  /** `subscribed` are the rooms this hub listens to on the broker; connections are numbered. */
  datatype Hub = Hub(rooms: map<string, Members>, conns: map<nat, Conn>, subscribed: set<string>,
                     broker: bool, shuttingDown: bool)

  function NewConn(id: string, room: string): Conn {
    Conn(id, room, [], 0, 0, false, true, Fresh)
  }

  /** Queued and not yet taken by the write pump. */
  function Pending(c: Conn): int {
    |c.sent| - c.drained
  }

  /** `SendJSON`: dropped when the flag is set or the queue is full. */
  function Push(c: Conn, m: Message): Conn {
    if c.closed || Pending(c) >= SEND_CAPACITY then c.(lost := c.lost + 1) else c.(sent := c.sent + [m])
  }

  function Notice(kind: Kind, room: string): Message {
    Message(kind, room, "", "", "", {}, 0, "", None)
  }

  function PeerNotice(kind: Kind, room: string, peer: string, count: nat): Message {
    Notice(kind, room).(peer := peer, peerCount := count)
  }

  function PeerList(room: string, peers: set<string>): Message {
    Notice(RoomState, room).(peers := peers, peerCount := |peers| + 1)
  }

  /** The members a message goes to. */
  function Targets(members: Members, skip: string): set<nat> {
    set p | p in members && p != skip :: members[p]
  }

  function DeliverAll(conns: map<nat, Conn>, targets: set<nat>, m: Message): map<nat, Conn> {
    map c | c in conns :: if c in targets then Push(conns[c], m) else conns[c]
  }

  /** A room id the broker accepts: non-empty, hexadecimal digits and dashes. */
  predicate ValidRoomId(room: string) {
    room != "" && forall i :: 0 <= i < |room| ==>
      '0' <= room[i] <= '9' || 'a' <= room[i] <= 'f' || 'A' <= room[i] <= 'F' || room[i] == '-'
  }

  function MembersOf(h: Hub, room: string): Members {
    if room in h.rooms then h.rooms[room] else map[]
  }

  /** What a publish puts on the broker: nothing without a broker or for a room id it rejects. */
  function Publish(h: Hub, m: Message): Option<Message> {
    if h.broker && ValidRoomId(m.room) then Some(m) else None
  }

  // ---- handleRegister ----

  /** The subscription of a room that was not there yet; without a broker nothing can fail. */
  predicate SubscriptionFails(h: Hub, room: string, natsOk: bool) {
    room !in h.rooms && h.broker && !(natsOk && ValidRoomId(room))
  }

  function Welcome(c: Conn, members: Members): Conn {
    Push(Push(c, Notice(Auth, c.room)), PeerList(c.room, members.Keys - {c.id}))
  }

  /** The connection is filed under its id, in place of any other there, and welcomed. */
  function Joined(h: Hub, n: nat): Hub
    requires n in h.conns
  {
    var c := h.conns[n].(life := Registered);
    var members := MembersOf(h, c.room)[c.id := n];
    h.(rooms := h.rooms[c.room := members], conns := h.conns[n := Welcome(c, members)],
       subscribed := if c.room !in h.rooms && h.broker then h.subscribed + {c.room} else h.subscribed)
  }

  function JoinNotice(h: Hub, n: nat): Message
    requires n in h.conns
  {
    var c := h.conns[n];
    PeerNotice(PeerJoined, c.room, c.id, |MembersOf(h, c.room)[c.id := n]|)
  }

  function Refused(h: Hub, n: nat): Hub
    requires n in h.conns
  {
    h.(conns := h.conns[n := Push(h.conns[n].(life := Registered), Notice(Error, ""))])
  }

  function Register(h: Hub, n: nat, natsOk: bool): (Hub, Option<Message>)
    requires n in h.conns
  {
    var c := h.conns[n];
    if h.shuttingDown then (Refused(h, n), None)
    else if SubscriptionFails(h, c.room, natsOk) then (Refused(h, n).(rooms := h.rooms[c.room := map[]]), None)
    else
      var j := Joined(h, n);
      (j.(conns := DeliverAll(j.conns, Targets(MembersOf(j, c.room), c.id), JoinNotice(h, n))),
          Publish(h, JoinNotice(h, n)))
  }

  // ---- handleUnregister ----

  /** The entry under the connection's id is removed, whichever connection it names; this connection is closed. */
  function Left(h: Hub, n: nat): Hub
    requires n in h.conns
  {
    var c := h.conns[n];
    var members := MembersOf(h, c.room) - {c.id};
    var conns := h.conns[n := c.(life := Unregistered, closed := true, open := false)];
    if members == map[] then h.(rooms := h.rooms - {c.room}, conns := conns, subscribed := h.subscribed - {c.room})
    else h.(rooms := h.rooms[c.room := members], conns := conns)
  }

  function LeaveNotice(h: Hub, n: nat): Message
    requires n in h.conns
  {
    var c := h.conns[n];
    PeerNotice(PeerLeft, c.room, c.id, |MembersOf(h, c.room) - {c.id}|)
  }

  function Unregister(h: Hub, n: nat): (Hub, Option<Message>)
    requires n in h.conns
  {
    var c := h.conns[n];
    if c.id !in MembersOf(h, c.room) then (h.(conns := h.conns[n := c.(life := Unregistered)]), None)
    else
      var l := Left(h, n);
      (l.(conns := DeliverAll(l.conns, MembersOf(l, c.room).Values, LeaveNotice(h, n))), Publish(h, LeaveNotice(h, n)))
  }

  // ---- handleBroadcast, handleNatsMessage ----

  /** Where a relayed message goes among the members of its room. */
  function Route(members: Members, m: Message): set<nat> {
    if m.target != "" then (if m.target in members then {members[m.target]} else {})
    else Targets(members, m.from)
  }

  function Broadcast(h: Hub, m: Message): (Hub, Option<Message>) {
    var members := MembersOf(h, m.room);
    if m.kind == Ping then
      (if m.from in members
       then h.(conns := DeliverAll(h.conns, {members[m.from]}, Notice(Pong, m.room))) else h, None)
    else if m.kind == Auth || m.kind == Join || m.kind == Leave || m.room !in h.rooms then (h, None)
    else (h.(conns := DeliverAll(h.conns, Route(members, m), m)), Publish(h, m))
  }

  /** A message from the broker: routed the same way, and never published again. */
  function NatsArrives(h: Hub, m: Message): Hub {
    h.(conns := DeliverAll(h.conns, Route(MembersOf(h, m.room), m), m))
  }

  // ---- Shutdown, room by room ----

  function ShutdownNotify(h: Hub, room: string): Hub {
    h.(conns := DeliverAll(h.conns, MembersOf(h, room).Values, Notice(ServerShutdown, room)))
  }

  function ShutdownClose(h: Hub, room: string): Hub {
    h.(conns := map c | c in h.conns ::
         if c in MembersOf(h, room).Values then h.conns[c].(closed := true) else h.conns[c])
  }

  /** The write pump takes `k` messages. */
  function Drained(c: Conn, k: nat): Conn {
    if k <= Pending(c) then c.(drained := c.drained + k) else c
  }

  // ---- invariant of the tables ----

  ghost predicate ConnOk(c: Conn) {
    && c.drained <= |c.sent| && Pending(c) <= SEND_CAPACITY
    && (c.open || c.closed) && (c.life != Unregistered ==> c.open)
    && (c.life == Fresh ==> c.sent == [] && c.lost == 0 && !c.closed)
  }

  /** A map entry names a registered connection with an open channel, filed under its own room and id. */
  ghost predicate EntryOk(h: Hub, room: string, p: string)
    requires room in h.rooms && p in h.rooms[room]
  {
    var n := h.rooms[room][p];
    n in h.conns && h.conns[n].id == p && h.conns[n].room == room && h.conns[n].life == Registered
  }

  ghost predicate TablesOk(h: Hub) {
    && (forall n :: n in h.conns ==> ConnOk(h.conns[n]))
    && (forall room, p :: room in h.rooms && p in h.rooms[room] ==> EntryOk(h, room, p))
  }
}

/** What every handler keeps of the hub's tables, with or without a broker. */
module HubTables {
  import opened Wrappers
  import opened HubState

  /** Two entries of the tables that name the same connection are the same entry. */
  lemma EntriesDistinct(h: Hub, r1: string, p1: string, r2: string, p2: string)
    requires TablesOk(h) && r1 in h.rooms && p1 in h.rooms[r1] && r2 in h.rooms && p2 in h.rooms[r2]
    requires h.rooms[r1][p1] == h.rooms[r2][p2]
    ensures r1 == r2 && p1 == p2
  {
    assert EntryOk(h, r1, p1) && EntryOk(h, r2, p2);
  }

  lemma PushOk(c: Conn, m: Message)
    requires ConnOk(c) && c.life != Fresh
    ensures ConnOk(Push(c, m)) && Push(c, m).id == c.id && Push(c, m).room == c.room && Push(c, m).life == c.life
  {
  }

  lemma MembersAreRegistered(h: Hub, room: string)
    requires TablesOk(h)
    ensures forall n :: n in MembersOf(h, room).Values ==> n in h.conns && h.conns[n].life == Registered
  {
    forall n | n in MembersOf(h, room).Values ensures n in h.conns && h.conns[n].life == Registered {
      var p :| p in h.rooms[room] && h.rooms[room][p] == n;
      assert EntryOk(h, room, p);
    }
  }

  lemma TargetsAreMembers(members: Members, skip: string)
    ensures Targets(members, skip) <= members.Values
  {
  }

  lemma RouteIsWithin(members: Members, m: Message)
    ensures Route(members, m) <= members.Values
  {
  }

  /** A delivery to members keeps the tables. */
  lemma DeliverTables(h: Hub, room: string, targets: set<nat>, m: Message)
    requires TablesOk(h) && targets <= MembersOf(h, room).Values
    ensures TablesOk(h.(conns := DeliverAll(h.conns, targets, m)))
  {
    MembersAreRegistered(h, room);
    var h' := h.(conns := DeliverAll(h.conns, targets, m));
    forall r, p | r in h'.rooms && p in h'.rooms[r] ensures EntryOk(h', r, p) {
      assert EntryOk(h, r, p);
    }
  }

  lemma WelcomeOk(c: Conn, members: Members)
    requires ConnOk(c) && c.life == Registered
    ensures var w := Welcome(c, members); ConnOk(w) && w.id == c.id && w.room == c.room && w.life == Registered
  {
    PushOk(c, Notice(Auth, c.room));
  }

  /** The tables are the rooms and the connections; new connections under fresh or unchanged numbers do not disturb
      them. */
  lemma SameEntriesTables(h: Hub, h': Hub)
    requires TablesOk(h) && h.conns.Keys <= h'.conns.Keys && (forall n :: n in h'.conns ==> ConnOk(h'.conns[n]))
    requires forall r, p :: r in h'.rooms && p in h'.rooms[r] ==>
             r in h.rooms && p in h.rooms[r] && h'.rooms[r][p] == h.rooms[r][p]
    requires forall r, p :: r in h'.rooms && p in h'.rooms[r] ==>
      var n := h'.rooms[r][p];
      n in h.conns ==>
        && h'.conns[n].id == h.conns[n].id && h'.conns[n].room == h.conns[n].room
        && h'.conns[n].life == h.conns[n].life
    ensures TablesOk(h')
  {
    forall r, p | r in h'.rooms && p in h'.rooms[r] ensures EntryOk(h', r, p) {
      assert EntryOk(h, r, p);
    }
  }

  lemma JoinedTables(h: Hub, n: nat)
    requires TablesOk(h) && n in h.conns && h.conns[n].life == Fresh
    ensures TablesOk(Joined(h, n))
  {
    var c := h.conns[n].(life := Registered);
    WelcomeOk(c, MembersOf(h, c.room)[c.id := n]);
    var j := Joined(h, n);
    forall r, p | r in j.rooms && p in j.rooms[r] ensures EntryOk(j, r, p) {
      if r != c.room || p != c.id {
        assert EntryOk(h, r, p);
      }
    }
  }

  lemma RefusedTables(h: Hub, n: nat)
    requires TablesOk(h) && n in h.conns && h.conns[n].life == Fresh
    ensures TablesOk(Refused(h, n))
    ensures h.conns[n].room !in h.rooms ==> TablesOk(Refused(h, n).(rooms := h.rooms[h.conns[n].room := map[]]))
  {
    forall r, p | r in h.rooms && p in h.rooms[r] ensures h.rooms[r][p] != n {
      assert EntryOk(h, r, p);
    }
    SameEntriesTables(h, Refused(h, n));
    if h.conns[n].room !in h.rooms {
      SameEntriesTables(h, Refused(h, n).(rooms := h.rooms[h.conns[n].room := map[]]));
    }
  }

  lemma RegisterTables(h: Hub, n: nat, natsOk: bool)
    requires TablesOk(h) && n in h.conns && h.conns[n].life == Fresh
    ensures TablesOk(Register(h, n, natsOk).0)
  {
    var c := h.conns[n];
    if h.shuttingDown || SubscriptionFails(h, c.room, natsOk) {
      RefusedTables(h, n);
    } else {
      var j := Joined(h, n);
      JoinedTables(h, n);
      TargetsAreMembers(MembersOf(j, c.room), c.id);
      DeliverTables(j, c.room, Targets(MembersOf(j, c.room), c.id), JoinNotice(h, n));
    }
  }

  lemma LeftTables(h: Hub, n: nat)
    requires TablesOk(h) && n in h.conns && h.conns[n].life == Registered
    ensures TablesOk(Left(h, n))
  {
    var l := Left(h, n);
    forall r, p | r in l.rooms && p in l.rooms[r] ensures EntryOk(l, r, p) {
      assert EntryOk(h, r, p);
    }
  }

  lemma UnregisterTables(h: Hub, n: nat)
    requires TablesOk(h) && n in h.conns && h.conns[n].life == Registered
    ensures TablesOk(Unregister(h, n).0)
  {
    var c := h.conns[n];
    if c.id in MembersOf(h, c.room) {
      LeftTables(h, n);
      DeliverTables(Left(h, n), c.room, MembersOf(Left(h, n), c.room).Values, LeaveNotice(h, n));
    } else {
      forall r, p | r in h.rooms && p in h.rooms[r] ensures h.rooms[r][p] != n {
        assert EntryOk(h, r, p);
      }
      SameEntriesTables(h, h.(conns := h.conns[n := c.(life := Unregistered)]));
    }
  }
}

/** A registration or a departure that the hub goroutine handles piece by piece, whatever other threads do in between,
    leaves the tables as the one-step handlers of `HubState` leave them. */
module HubAtomicity {
  import Wrappers
  import HubState
  import opened HubThreads

  /** The client tables, room by room. */
  function Tables(s: State): map<string, HubState.Members> {
    map room | room in s.rooms && s.rooms[room] in s.locals :: s.locals[s.rooms[room]].clients
  }

  /** The hub of the one-step handlers, as far as they look at it to change the tables. */
  function Abstract(s: State): HubState.Hub {
    HubState.Hub(Tables(s),
                 map n | n in s.clients ::
                   HubState.Conn(s.clients[n].id, s.clients[n].room, [], 0, 0, s.clients[n].closed, s.clients[n].open,
                                 s.clients[n].life),
                 {}, false, false)
  }

  /** Clients keep their ids and rooms; a flag stays set, and a closed channel stays closed. */
  ghost predicate SameClients(s: State, s': State) {
    forall n :: n in s.clients ==>
      && n in s'.clients && s'.clients[n].id == s.clients[n].id && s'.clients[n].room == s.clients[n].room
      && (s.clients[n].closed ==> s'.clients[n].closed) && (!s.clients[n].open ==> !s'.clients[n].open)
  }

  /** Neither a table nor which rooms there are has changed. */
  ghost predicate SameTables(s: State, s': State) {
    && s'.rooms == s.rooms
    && forall lr :: lr in s.locals ==>
         lr in s'.locals && s'.locals[lr].clients == s.locals[lr].clients && s'.locals[lr].room == s.locals[lr].room
  }

  lemma TablesFollow(s: State, s': State)
    requires LocalsOk(s) && SameTables(s, s')
    ensures Tables(s') == Tables(s)
  {
  }

  /** The hub goroutine changes a table only where it inserts, removes, or makes or forgets a room. */
  predicate IsChange(pc: Pc, a: Act) {
    a.TakeRegister? || a.DoInsert? || a.DoRemove? || (a.FinishSends? && pc.Sends? && pc.next.Forget?)
  }

  /** The act is a send, or the end of a reading or sending loop. */
  predicate IsSending(a: Act) {
    a.TestFlag? || a.SendNow? || a.ReleaseRead? || a.FinishSends?
  }

  lemma ReadingChangesNothing(s: State, t: nat, one: set<nat>)
    ensures SameTables(s, AtReleaseRead(s, t, one))
  {
    match PcOf(s, t)
    case Reading(lr, _) =>
      if lr in s.locals {
        var l := s.locals[lr];
        assert SameTables(s, PutLocal(s, lr, l.(readers := l.readers - {t})));
      }
    case _ =>
  }

  lemma SendsChangeNothing(s: State, t: nat, a: Act)
    requires IsSending(a) && !IsChange(PcOf(s, t), a)
    ensures SameTables(s, Step(s, t, a))
  {
    if a.ReleaseRead? {
      ReadingChangesNothing(s, t, a.one);
    }
  }

  lemma LockChangesNothing(s: State, lr: nat, l: Local, t: nat, pc: Pc)
    requires lr in s.locals && l.clients == s.locals[lr].clients && l.room == s.locals[lr].room
    ensures SameTables(s, Go(PutLocal(s, lr, l), t, pc))
  {
  }

  predicate IsLocking(a: Act) {
    a.AcquireWrite? || a.ReleaseWrite? || a.AcquireRead?
  }

  lemma LocksChangeNothing(s: State, t: nat, a: Act)
    requires IsLocking(a)
    ensures SameTables(s, Step(s, t, a))
  {
    var pc := PcOf(s, t);
    if (pc.WantWrite? || pc.Unlocking? || pc.Writing? || pc.WantRead?) && pc.lr in s.locals {
      var l, s' := s.locals[pc.lr], Step(s, t, a);
      if s'.locals != s.locals {
        LockChangesNothing(s, pc.lr, s'.locals[pc.lr], t, PcOf(s', t));
      }
    }
  }

  lemma OnlyChangesChange(s: State, t: nat, a: Act)
    requires !IsChange(PcOf(s, t), a)
    ensures SameTables(s, Step(s, t, a))
  {
    if IsSending(a) {
      SendsChangeNothing(s, t, a);
    } else if IsLocking(a) {
      LocksChangeNothing(s, t, a);
    }
  }

  /** Other threads change no table, and not where the hub goroutine is. */
  lemma OthersKeepTables(s: State, t: nat, a: Act)
    requires Ok(s) && t != HUB
    ensures SameTables(s, Step(s, t, a)) && PcOf(Step(s, t, a), HUB) == PcOf(s, HUB)
  {
    assert PcOk(s, t);
    if !IsChange(PcOf(s, t), a) {
      OnlyChangesChange(s, t, a);
    }
  }

  /** One table has changed, that of a room that is there. */
  lemma OneTable(s: State, s': State, lr: nat)
    requires LocalsOk(s) && Current(s, lr) && s'.rooms == s.rooms && s'.locals.Keys == s.locals.Keys
    requires forall l :: l in s.locals && l != lr ==> s'.locals[l].clients == s.locals[l].clients
    ensures Tables(s') == Tables(s)[s.locals[lr].room := s'.locals[lr].clients]
  {
    var t, t', room := Tables(s), Tables(s'), s.locals[lr].room;
    forall r | r in t' ensures r in t && t'[r] == t[room := s'.locals[lr].clients][r] {
      assert s.locals[s.rooms[r]].room == r;
    }
  }

  // ---- a registration ----

  /** The table of the client's room has it under its id. */
  predicate IsFiled(s: State, was: map<string, HubState.Members>, n: nat)
    requires n in s.clients && s.clients[n].room in was
  {
    Tables(s) == was[s.clients[n].room := was[s.clients[n].room][s.clients[n].id := n]]
  }

  predicate BeforeInsert(pc: Pc, n: nat) {
    (pc.WantWrite? || pc.Writing?) && pc.job == Insert(n)
  }

  predicate AfterInsert(pc: Pc) {
    match pc
    case Sends(_, next) => next.SendAgain? || next.Notify?
    case SendFree(_, next, _) => next.SendAgain? || next.Notify?
    case WantRead(_, why) => why.FanOut?
    case Reading(_, why) => why.FanOut?
    case SendUnderLock(_, why, _) => why.FanOut?
    case Idle => true
    case _ => false
  }

  /** The hub goroutine is in the middle of registering `n`, or has just done so. */
  ghost predicate Registering(s: State, was: map<string, HubState.Members>, n: nat) {
    && n in s.clients && s.clients[n].room in was
    && if BeforeInsert(PcOf(s, HUB), n) then Tables(s) == was else AfterInsert(PcOf(s, HUB)) && IsFiled(s, was, n)
  }

  lemma InsertFiles(s: State, n: nat, lr: nat)
    requires LocalsOk(s) && PcOf(s, HUB) == Writing(lr, Insert(n)) && JobOk(s, HUB, lr, Insert(n))
    ensures var s' := Step(s, HUB, DoInsert);
            && s.clients[n].room in Tables(s) && s'.clients == s.clients && AfterInsert(PcOf(s', HUB))
            && Tables(s') == Tables(s)[s.clients[n].room := Tables(s)[s.clients[n].room][s.clients[n].id := n]]
  {
    OneTable(s, Step(s, HUB, DoInsert), lr);
  }

  /** Where the hub goroutine goes next. */
  lemma InsertFlow(s: State, n: nat, a: Act)
    requires PcOf(s, HUB) == Idle || BeforeInsert(PcOf(s, HUB), n) || AfterInsert(PcOf(s, HUB))
    requires !PcOf(s, HUB).Idle? && !(a.DoInsert? && PcOf(s, HUB).Writing?)
    ensures var pc' := PcOf(Step(s, HUB, a), HUB);
            if BeforeInsert(PcOf(s, HUB), n) then BeforeInsert(pc', n) else AfterInsert(pc')
  {
    match a
    case TestFlag(_) =>
    case SendNow =>
    case ReleaseRead(_) =>
    case FinishSends =>
    case _ =>
  }

  lemma SendsKeepClients(s: State, t: nat, a: Act)
    requires IsSending(a) || IsLocking(a)
    ensures Step(s, t, a).clients == s.clients
  {
  }

  lemma LifeKeepsClient(s: State, n: nat, life: HubState.Life)
    requires n in s.clients
    ensures SameClients(s, PutClient(s, n, s.clients[n].(life := life)))
  {
  }

  lemma LivesKeepClients(s: State, t: nat, a: Act)
    requires a.Connect? || a.TakeRegister? || a.TakeUnregister?
    ensures SameClients(s, Step(s, t, a))
  {
    if a.client in s.clients {
      LifeKeepsClient(s, a.client, HubState.Registered);
      LifeKeepsClient(s, a.client, HubState.Unregistered);
    }
  }

  lemma FlagsKeepClients(s: State, t: nat, a: Act)
    requires a.SetFlag? || a.CloseChannel? || a.FlagOne? || a.TakeRead? || a.TakeFlagAll?
    ensures SameClients(s, Step(s, t, a))
  {
  }

  lemma ClientsStay(s: State, t: nat, a: Act)
    ensures SameClients(s, Step(s, t, a))
  {
    if IsSending(a) || IsLocking(a) {
      SendsKeepClients(s, t, a);
    } else if a.Connect? || a.TakeRegister? || a.TakeUnregister? {
      LivesKeepClients(s, t, a);
    } else if !a.DoInsert? && !a.DoRemove? {
      FlagsKeepClients(s, t, a);
    }
  }

  lemma RegisteringStep(s: State, was: map<string, HubState.Members>, n: nat, t: nat, a: Act)
    requires Ok(s) && Registering(s, was, n) && !PcOf(s, HUB).Idle?
    ensures Registering(Step(s, t, a), was, n)
  {
    assert PcOk(s, HUB);
    var s' := Step(s, t, a);
    ClientsStay(s, t, a);
    if t != HUB {
      OthersKeepTables(s, t, a);
      TablesFollow(s, s');
    } else if a.DoInsert? && PcOf(s, HUB).Writing? {
      InsertFiles(s, n, PcOf(s, HUB).lr);
    } else {
      InsertFlow(s, n, a);
      InsertChangesNothing(s, n, a);
      TablesFollow(s, s');
    }
  }

  lemma InsertChangesNothing(s: State, n: nat, a: Act)
    requires BeforeInsert(PcOf(s, HUB), n) || AfterInsert(PcOf(s, HUB))
    requires !PcOf(s, HUB).Idle? && !(a.DoInsert? && PcOf(s, HUB).Writing?)
    ensures SameTables(s, Step(s, HUB, a))
  {
    if !IsChange(PcOf(s, HUB), a) {
      OnlyChangesChange(s, HUB, a);
    }
  }

  /** Through all of the schedule, up to its last act, the hub goroutine has not come back to its loop. */
  ghost predicate IsBusy(s: State, schedule: seq<(nat, Act)>) {
    schedule == [] ||
    var k := |schedule| - 1;
    IsBusy(s, schedule[..k]) && !PcOf(Run(s, schedule[..k]), HUB).Idle?
  }

  lemma {:induction false} BusyFromTheStart(s: State, schedule: seq<(nat, Act)>)
    requires IsBusy(s, schedule) && schedule != []
    ensures !PcOf(s, HUB).Idle?
  {
    if |schedule| > 1 {
      BusyFromTheStart(s, schedule[..|schedule| - 1]);
    }
  }

  lemma {:induction false} RunKeepsOk(s: State, schedule: seq<(nat, Act)>)
    requires Ok(s)
    ensures Ok(Run(s, schedule))
  {
    if schedule != [] {
      var k := |schedule| - 1;
      RunKeepsOk(s, schedule[..k]);
      StepKeeps(Run(s, schedule[..k]), schedule[k].0, schedule[k].1);
    }
  }

  lemma {:induction false} RegisteringRun(s: State, was: map<string, HubState.Members>, n: nat,
                                          schedule: seq<(nat, Act)>)
    requires Ok(s) && Registering(s, was, n) && IsBusy(s, schedule)
    ensures Registering(Run(s, schedule), was, n) && SameClients(s, Run(s, schedule))
  {
    if schedule != [] {
      var k := |schedule| - 1;
      RegisteringRun(s, was, n, schedule[..k]);
      RunKeepsOk(s, schedule[..k]);
      RegisteringStep(Run(s, schedule[..k]), was, n, schedule[k].0, schedule[k].1);
      ClientsStay(Run(s, schedule[..k]), schedule[k].0, schedule[k].1);
    }
  }

  predicate CanRegister(s: State, n: nat, lr: nat) {
    && PcOf(s, HUB).Idle? && n in s.clients && s.clients[n].life.Fresh?
    && (s.clients[n].room in s.rooms || lr !in s.locals)
  }

  /** The tables with a table for this room, be it empty. */
  function WithRoom(tables: map<string, HubState.Members>, room: string): (r: map<string, HubState.Members>)
    ensures room in r
  {
    if room in tables then tables else tables[room := map[]]
  }

  lemma NewRoom(s: State, s': State, lr: nat, room: string, l: Local)
    requires LocalsOk(s) && room !in s.rooms && lr !in s.locals && s'.rooms == s.rooms[room := lr]
    requires s'.locals == s.locals[lr := l] && l.clients == map[]
    ensures Tables(s') == Tables(s)[room := map[]]
  {
    assert forall r :: r in s.rooms ==> s.rooms[r] in s.locals;
  }

  lemma RegistrationBegins(s: State, n: nat, lr: nat)
    requires LocalsOk(s) && CanRegister(s, n, lr)
    ensures var s' := Step(s, HUB, TakeRegister(n, lr, false));
            && SameClients(s, s') && BeforeInsert(PcOf(s', HUB), n)
            && Tables(s') == WithRoom(Tables(s), s.clients[n].room)
  {
    var s', room := Step(s, HUB, TakeRegister(n, lr, false)), s.clients[n].room;
    ClientsStay(s, HUB, TakeRegister(n, lr, false));
    if room in s.rooms {
      assert SameTables(s, s');
      TablesFollow(s, s');
    } else {
      NewRoom(s, s', lr, room, Local(room, map[], {}, Wrappers.None));
    }
  }

  lemma OneStepRegistration(h: HubState.Hub, n: nat)
    requires n in h.conns && !h.shuttingDown && !h.broker
    ensures var was := WithRoom(h.rooms, h.conns[n].room);
            HubState.Register(h, n, true).0.rooms
            == was[h.conns[n].room := was[h.conns[n].room][h.conns[n].id := n]]
  {
  }

  /** The hub goroutine has taken the registration and come back. */
  lemma RegistrationEnds(s: State, n: nat, lr: nat, schedule: seq<(nat, Act)>)
    requires Ok(s) && CanRegister(s, n, lr)
    requires var taken := Step(s, HUB, TakeRegister(n, lr, false));
             IsBusy(taken, schedule) && PcOf(Run(taken, schedule), HUB).Idle?
    ensures var was := WithRoom(Tables(s), s.clients[n].room);
            Tables(Run(Step(s, HUB, TakeRegister(n, lr, false)), schedule))
            == was[s.clients[n].room := was[s.clients[n].room][s.clients[n].id := n]]
  {
    RegistrationBegins(s, n, lr);
    StepKeeps(s, HUB, TakeRegister(n, lr, false));
    RegisteringRun(Step(s, HUB, TakeRegister(n, lr, false)), WithRoom(Tables(s), s.clients[n].room), n, schedule);
  }

  /** A registration is atomic: from any reachable state, under every schedule of the other threads, once the hub
      goroutine is back in its loop the tables are those of the one-step handler. */
  lemma RegistrationIsAtomic(before: seq<(nat, Act)>, n: nat, lr: nat, schedule: seq<(nat, Act)>)
    requires CanRegister(Run(Begin(), before), n, lr)
    requires var taken := Step(Run(Begin(), before), HUB, TakeRegister(n, lr, false));
             IsBusy(taken, schedule) && PcOf(Run(taken, schedule), HUB).Idle?
    ensures var s := Run(Begin(), before);
            Tables(Run(Step(s, HUB, TakeRegister(n, lr, false)), schedule))
            == HubState.Register(Abstract(s), n, true).0.rooms
  {
    RunIsOk(before);
    RegistrationEnds(Run(Begin(), before), n, lr, schedule);
    OneStepRegistration(Abstract(Run(Begin(), before)), n);
  }

  // ---- a departure ----

  /** The client's flag is set and its channel closed. */
  predicate IsDown(s: State, n: nat) {
    n in s.clients && s.clients[n].closed && !s.clients[n].open
  }

  predicate IsOf(s: State, lr: nat, room: string) {
    lr in s.locals && s.locals[lr].room == room
  }

  predicate BeforeRemove(s: State, pc: Pc, n: nat, room: string) {
    (pc.WantWrite? || pc.Writing?) && pc.job == Remove(n) && IsOf(s, pc.lr, room)
  }

  /** Between the removal of the entry and the hub goroutine's return; `left` are those still in the room. */
  predicate AfterRemove(s: State, pc: Pc, n: nat, room: string, left: HubState.Members) {
    match pc
    case Flagging(lr, c) => c == n && IsOf(s, lr, room)
    case Closing(lr, c) => c == n && IsOf(s, lr, room) && n in s.clients && s.clients[n].closed
    case Unlocking(lr) => IsOf(s, lr, room) && IsDown(s, n)
    case WantRead(lr, why) => why.CopyPeers? && IsOf(s, lr, room) && IsDown(s, n)
    case Reading(lr, why) => why.CopyPeers? && IsOf(s, lr, room) && IsDown(s, n)
    case Sends(_, next) => IsDown(s, n) && next == if left == map[] then Forget(room) else Done
    case SendFree(_, next, _) => IsDown(s, n) && next == if left == map[] then Forget(room) else Done
    case _ => false
  }

  /** The room with these members, or without any no room at all. */
  function Shrunk(was: map<string, HubState.Members>, room: string, left: HubState.Members):
      map<string, HubState.Members> {
    if left == map[] then was - {room} else was[room := left]
  }

  /** The hub goroutine is in the middle of the departure of `n`, or has just done with it. */
  ghost predicate Leaving(s: State, was: map<string, HubState.Members>, n: nat, id: string, room: string) {
    && n in s.clients && s.clients[n].id == id && s.clients[n].room == room && room in was
    && var pc, left := PcOf(s, HUB), was[room] - {id};
       if BeforeRemove(s, pc, n, room) then Tables(s) == was
       else if id !in was[room] then pc.Idle? && Tables(s) == was
       else if pc.Idle? then IsDown(s, n) && Tables(s) == Shrunk(was, room, left)
       else AfterRemove(s, pc, n, room, left) && Tables(s) == was[room := left]
  }

  lemma RemoveLeaves(s: State, n: nat, lr: nat)
    requires LocalsOk(s) && PcOf(s, HUB) == Writing(lr, Remove(n)) && JobOk(s, HUB, lr, Remove(n))
    ensures var s', room, id := Step(s, HUB, DoRemove), s.clients[n].room, s.clients[n].id;
            && room in Tables(s) && s'.clients == s.clients
            && if id in Tables(s)[room]
               then PcOf(s', HUB) == Flagging(lr, n) && IsOf(s', lr, room)
                    && Tables(s') == Tables(s)[room := Tables(s)[room] - {id}]
               else PcOf(s', HUB) == Idle && Tables(s') == Tables(s)
  {
    var s' := Step(s, HUB, DoRemove);
    if s.clients[n].id in s.locals[lr].clients {
      OneTable(s, s', lr);
    } else {
      assert SameTables(s, s');
      TablesFollow(s, s');
    }
  }

  lemma AskedFlow(s: State, n: nat, room: string, a: Act)
    requires BeforeRemove(s, PcOf(s, HUB), n, room) && !(a.DoRemove? && PcOf(s, HUB).Writing?)
    ensures BeforeRemove(Step(s, HUB, a), PcOf(Step(s, HUB, a), HUB), n, room) && SameTables(s, Step(s, HUB, a))
  {
  }

  predicate IsForgetting(s: State, a: Act) {
    a.FinishSends? && PcOf(s, HUB).Sends? && PcOf(s, HUB).targets == {}
  }

  /** Where the hub goroutine goes next; the table it reads before its last sends is the room's. */
  lemma RemoveFlow(s: State, n: nat, room: string, left: HubState.Members, a: Act)
    requires AfterRemove(s, PcOf(s, HUB), n, room, left) && n in s.clients && !IsForgetting(s, a)
    requires forall lr :: IsOf(s, lr, room) && PcOf(s, HUB) == Reading(lr, CopyPeers) ==> s.locals[lr].clients == left
    ensures var s' := Step(s, HUB, a); AfterRemove(s', PcOf(s', HUB), n, room, left) && SameTables(s, s')
  {
    match a
    case SetFlag =>
    case CloseChannel =>
    case TestFlag(_) =>
    case SendNow =>
    case ReleaseRead(_) =>
    case ReleaseWrite =>
    case AcquireRead =>
    case FinishSends =>
    case _ =>
  }

  lemma LastFlow(s: State, n: nat, room: string, left: HubState.Members)
    requires LocalsOk(s) && AfterRemove(s, PcOf(s, HUB), n, room, left) && IsForgetting(s, FinishSends)
    requires room in Tables(s) && Tables(s)[room] == left
    ensures var s' := Step(s, HUB, FinishSends);
            PcOf(s', HUB).Idle? && Tables(s') == Shrunk(Tables(s), room, left) && s'.clients == s.clients
  {
    var s' := Step(s, HUB, FinishSends);
    if left != map[] {
      assert SameTables(s, s');
      TablesFollow(s, s');
      assert Tables(s)[room := left] == Tables(s);
    }
  }

  lemma OthersKeepLeaving(s: State, was: map<string, HubState.Members>, n: nat, id: string, room: string, t: nat,
      a: Act)
    requires Ok(s) && Leaving(s, was, n, id, room) && t != HUB
    ensures Leaving(Step(s, t, a), was, n, id, room)
  {
    var s' := Step(s, t, a);
    OthersKeepTables(s, t, a);
    TablesFollow(s, s');
    ClientsStay(s, t, a);
    KeepsPlace(s, s', PcOf(s, HUB), n, room, was[room] - {id});
  }

  lemma KeepsPlace(s: State, s': State, pc: Pc, n: nat, room: string, left: HubState.Members)
    requires SameTables(s, s') && SameClients(s, s')
    ensures AfterRemove(s, pc, n, room, left) ==> AfterRemove(s', pc, n, room, left)
    ensures JobKnown(s, pc) ==> (BeforeRemove(s', pc, n, room) <==> BeforeRemove(s, pc, n, room))
  {
  }

  predicate JobKnown(s: State, pc: Pc) {
    pc.WantWrite? || pc.Writing? ==> pc.lr in s.locals
  }

  lemma HubLeaves(s: State, was: map<string, HubState.Members>, n: nat, id: string, room: string, a: Act)
    requires Ok(s) && Leaving(s, was, n, id, room) && !PcOf(s, HUB).Idle?
    ensures Leaving(Step(s, HUB, a), was, n, id, room)
  {
    assert PcOk(s, HUB);
    var s', pc, left := Step(s, HUB, a), PcOf(s, HUB), was[room] - {id};
    ClientsStay(s, HUB, a);
    if BeforeRemove(s, pc, n, room) {
      if a.DoRemove? && pc.Writing? {
        RemoveLeaves(s, n, pc.lr);
      } else {
        AskedFlow(s, n, room, a);
        TablesFollow(s, s');
      }
    } else if IsForgetting(s, a) {
      LastFlow(s, n, room, left);
    } else {
      if pc.Reading? && IsOf(s, pc.lr, room) {
        assert Current(s, pc.lr) && Tables(s)[room] == s.locals[pc.lr].clients;
      }
      RemoveFlow(s, n, room, left, a);
      TablesFollow(s, s');
    }
  }

  lemma {:induction false} LeavingRun(s: State, was: map<string, HubState.Members>, n: nat, id: string, room: string,
                                      schedule: seq<(nat, Act)>)
    requires Ok(s) && Leaving(s, was, n, id, room) && IsBusy(s, schedule)
    ensures Leaving(Run(s, schedule), was, n, id, room)
  {
    if schedule != [] {
      var k := |schedule| - 1;
      LeavingRun(s, was, n, id, room, schedule[..k]);
      RunKeepsOk(s, schedule[..k]);
      if schedule[k].0 == HUB {
        HubLeaves(Run(s, schedule[..k]), was, n, id, room, schedule[k].1);
      } else {
        OthersKeepLeaving(Run(s, schedule[..k]), was, n, id, room, schedule[k].0, schedule[k].1);
      }
    }
  }

  predicate CanUnregister(s: State, n: nat) {
    PcOf(s, HUB).Idle? && n in s.clients && s.clients[n].life.Registered?
  }

  lemma DepartureBegins(s: State, n: nat)
    requires LocalsOk(s) && CanUnregister(s, n)
    ensures var s', c := Step(s, HUB, TakeUnregister(n)), s.clients[n];
            && Tables(s') == Tables(s)
            && if c.room in s.rooms then Leaving(s', Tables(s), n, c.id, c.room) else PcOf(s', HUB).Idle?
  {
    var s' := Step(s, HUB, TakeUnregister(n));
    assert SameTables(s, s');
    TablesFollow(s, s');
    ClientsStay(s, HUB, TakeUnregister(n));
  }

  lemma OneStepDeparture(h: HubState.Hub, n: nat)
    requires n in h.conns
    ensures var c := h.conns[n];
            HubState.Unregister(h, n).0.rooms
            == if c.room in h.rooms && c.id in h.rooms[c.room]
               then Shrunk(h.rooms, c.room, h.rooms[c.room] - {c.id}) else h.rooms
  {
  }

  /** The hub goroutine has taken the departure and come back. */
  lemma DepartureEnds(s: State, n: nat, schedule: seq<(nat, Act)>)
    requires Ok(s) && CanUnregister(s, n)
    requires var taken := Step(s, HUB, TakeUnregister(n));
             IsBusy(taken, schedule) && PcOf(Run(taken, schedule), HUB).Idle?
    ensures var s', c := Run(Step(s, HUB, TakeUnregister(n)), schedule), s.clients[n];
            if c.room in Tables(s) && c.id in Tables(s)[c.room]
            then Tables(s') == Shrunk(Tables(s), c.room, Tables(s)[c.room] - {c.id}) && IsDown(s', n)
            else Tables(s') == Tables(s)
  {
    var taken, c := Step(s, HUB, TakeUnregister(n)), s.clients[n];
    DepartureBegins(s, n);
    StepKeeps(s, HUB, TakeUnregister(n));
    if c.room in s.rooms {
      LeavingRun(taken, Tables(s), n, c.id, c.room, schedule);
    } else if schedule != [] {
      BusyFromTheStart(taken, schedule);
    }
  }

  /** So is a departure; and if the client was listed, its flag is set and its channel closed by then. */
  lemma DepartureIsAtomic(before: seq<(nat, Act)>, n: nat, schedule: seq<(nat, Act)>)
    requires CanUnregister(Run(Begin(), before), n)
    requires var taken := Step(Run(Begin(), before), HUB, TakeUnregister(n));
             IsBusy(taken, schedule) && PcOf(Run(taken, schedule), HUB).Idle?
    ensures var s := Run(Begin(), before);
            var s', c := Run(Step(s, HUB, TakeUnregister(n)), schedule), s.clients[n];
            && Tables(s') == HubState.Unregister(Abstract(s), n).0.rooms
            && (c.room in Tables(s) && c.id in Tables(s)[c.room] ==> IsDown(s', n))
  {
    RunIsOk(before);
    DepartureEnds(Run(Begin(), before), n, schedule);
    OneStepDeparture(Abstract(Run(Begin(), before)), n);
  }
}

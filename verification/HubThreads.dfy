/** The hub under true concurrency: the hub goroutine, broker callbacks and shutdown interleave at every lock operation,
    flag test and channel operation. No interleaving sends on a closed channel or closes one twice. */
module HubThreads {
  import opened Wrappers
  import HubState

  datatype Client = Client(id: string, room: string, closed: bool, open: bool, life: HubState.Life)

  /** A `LocalRoom` object; `readers` and `writer` are the state of its RWMutex. */
  datatype Local = Local(room: string, clients: map<string, nat>, readers: set<nat>, writer: Option<nat>)

  datatype WriteJob = Insert(client: nat) | Remove(client: nat) | FlagAll
  datatype ReadJob = FanOut | CopyPeers | FindOne

  /** Where a thread is. Thread 0 is the hub goroutine. */
  datatype Pc =
    | Idle
    | WantWrite(lr: nat, job: WriteJob)
    | Writing(lr: nat, job: WriteJob)
    | Flagging(lr: nat, client: nat)                  // entry deleted, before closed.Store(true)
    | Closing(lr: nat, client: nat)                   // before close(client.Send)
    | Unlocking(lr: nat)                              // before Unlock
    | WantRead(lr: nat, why: ReadJob)
    | Reading(lr: nat, why: ReadJob)
    | SendUnderLock(lr: nat, why: ReadJob, client: nat)   // flag seen down, before the channel send
    | Sends(targets: set<nat>, next: After)               // sending without the lock
    | SendFree(targets: set<nat>, next: After, client: nat)

  /** What the hub goroutine does once its unlocked sends are over. */
  datatype After = Done | SendAgain(lr: nat, client: nat) | Notify(lr: nat) | Forget(room: string)

  /** `fault`: something was sent on a closed channel, or a closed channel was closed. */
  datatype State = State(rooms: map<string, nat>, locals: map<nat, Local>, clients: map<nat, Client>,
                         pcs: map<nat, Pc>, fault: bool)

  datatype Act =
    | Connect(client: nat, id: string, room: string)
    | TakeRegister(client: nat, lr: nat, refused: bool)
    | TakeUnregister(client: nat)
    | TakeRead(room: string, why: ReadJob)
    | TakeFlagAll(room: string)
    | AcquireWrite
    | DoInsert
    | DoRemove
    | SetFlag
    | CloseChannel
    | FlagOne(client: nat)
    | ReleaseWrite
    | AcquireRead
    | TestFlag(client: nat)
    | SendNow
    | ReleaseRead(one: set<nat>)
    | FinishSends

  const HUB: nat := 0

  function PcOf(s: State, t: nat): Pc {
    if t in s.pcs then s.pcs[t] else Idle
  }

  function Go(s: State, t: nat, pc: Pc): State {
    s.(pcs := s.pcs[t := pc])
  }

  function PutLocal(s: State, lr: nat, l: Local): State {
    s.(locals := s.locals[lr := l])
  }

  function PutClient(s: State, n: nat, c: Client): State {
    s.(clients := s.clients[n := c])
  }

  function Begin(): State {
    State(map[], map[], map[], map[], false)
  }

  // ---- taking work ----

  function AtRegister(s: State, n: nat, lr: nat, refused: bool): State
    requires n in s.clients
  {
    var c := s.clients[n];
    var s' := PutClient(s, n, c.(life := HubState.Registered));
    if c.room in s.rooms then Go(s', HUB, if refused then Sends({n}, Done) else WantWrite(s.rooms[c.room], Insert(n)))
    else if lr in s.locals then s
    else
      var s'' := PutLocal(s', lr, Local(c.room, map[], {}, None)).(rooms := s.rooms[c.room := lr]);
      Go(s'', HUB, if refused then Sends({n}, Done) else WantWrite(lr, Insert(n)))
  }

  function AtTakeUnregister(s: State, n: nat): State
    requires n in s.clients
  {
    var c := s.clients[n];
    var s' := PutClient(s, n, c.(life := HubState.Unregistered));
    if c.room in s.rooms then Go(s', HUB, WantWrite(s.rooms[c.room], Remove(n))) else s'
  }

  // ---- under the write lock ----

  predicate Free(l: Local) {
    l.readers == {} && l.writer.None?
  }

  function AtInsert(s: State, lr: nat, n: nat): State
    requires lr in s.locals && n in s.clients
  {
    var l := s.locals[lr];
    Go(PutLocal(s, lr, l.(clients := l.clients[s.clients[n].id := n], writer := None)), HUB,
        Sends({n}, SendAgain(lr, n)))
  }

  function AtRemove(s: State, lr: nat, n: nat): State
    requires lr in s.locals && n in s.clients
  {
    var l, id := s.locals[lr], s.clients[n].id;
    if id !in l.clients then Go(PutLocal(s, lr, l.(writer := None)), HUB, Idle)
    else Go(PutLocal(s, lr, l.(clients := l.clients - {id})), HUB, Flagging(lr, n))
  }

  function AtClose(s: State, lr: nat, n: nat): State
    requires n in s.clients
  {
    Go(PutClient(s, n, s.clients[n].(open := false)), HUB, Unlocking(lr)).(fault := s.fault || !s.clients[n].open)
  }

  // ---- sends ----

  function AtTestFlag(s: State, t: nat, n: nat): State
    requires n in s.clients
  {
    match PcOf(s, t)
    case Reading(lr, why) =>
      if lr in s.locals && n in s.locals[lr].clients.Values && why.FanOut? && !s.clients[n].closed
      then Go(s, t, SendUnderLock(lr, why, n)) else s
    case Sends(targets, next) =>
      if n !in targets then s
      else if s.clients[n].closed then Go(s, t, Sends(targets - {n}, next))
      else Go(s, t, SendFree(targets, next, n))
    case _ => s
  }

  function AtSend(s: State, t: nat): State {
    match PcOf(s, t)
    case SendUnderLock(lr, why, n) =>
      if n in s.clients then Go(s, t, Reading(lr, why)).(fault := s.fault || !s.clients[n].open) else s
    case SendFree(targets, next, n) =>
      if n in s.clients then Go(s, t, Sends(targets - {n}, next)).(fault := s.fault || !s.clients[n].open) else s
    case _ => s
  }

  function AtReleaseRead(s: State, t: nat, one: set<nat>): State {
    match PcOf(s, t)
    case Reading(lr, why) =>
      if lr !in s.locals then s
      else
        var l := s.locals[lr];
        var released := PutLocal(s, lr, l.(readers := l.readers - {t}));
        match why {
          case FanOut => Go(released, t, Idle)
          case CopyPeers =>
            Go(released, t,
               if t == HUB then Sends(l.clients.Values, if l.clients == map[] then Forget(l.room) else Done) else Idle)
          case FindOne => Go(released, t, if t == HUB && one <= l.clients.Values then Sends(one, Done) else Idle)
        }
    case _ => s
  }

  /** After an unregister that emptied the room, the room is forgotten. */
  function AtFinish(s: State, t: nat, next: After): State {
    match next
    case Done => Go(s, t, Idle)
    case SendAgain(lr, n) => Go(s, t, Sends({n}, Notify(lr)))
    case Notify(lr) => Go(s, t, WantRead(lr, FanOut))
    case Forget(room) => Go(s.(rooms := s.rooms - {room}), t, Idle)
  }

  function Step(s: State, t: nat, a: Act): State {
    var pc := PcOf(s, t);
    match a
    case Connect(n, id, room) =>
      if n in s.clients then s else PutClient(s, n, Client(id, room, false, true, HubState.Fresh))
    case TakeRegister(n, lr, refused) =>
      if t == HUB && pc.Idle? && n in s.clients && s.clients[n].life.Fresh? then AtRegister(s, n, lr, refused) else s
    case TakeUnregister(n) =>
      if t == HUB && pc.Idle? && n in s.clients && s.clients[n].life.Registered? then AtTakeUnregister(s, n) else s
    case TakeRead(room, why) => if pc.Idle? && room in s.rooms && !why.CopyPeers?
        then Go(s, t, WantRead(s.rooms[room], why)) else s
    case TakeFlagAll(room) => if t != HUB && pc.Idle? && room in s.rooms
        then Go(s, t, WantWrite(s.rooms[room], FlagAll)) else s
    case AcquireWrite =>
      if pc.WantWrite? && pc.lr in s.locals && Free(s.locals[pc.lr])
      then Go(PutLocal(s, pc.lr, s.locals[pc.lr].(writer := Some(t))), t, Writing(pc.lr, pc.job)) else s
    case DoInsert =>
      if t == HUB && pc.Writing? && pc.job.Insert? && pc.lr in s.locals && pc.job.client in s.clients
      then AtInsert(s, pc.lr, pc.job.client) else s
    case DoRemove =>
      if t == HUB && pc.Writing? && pc.job.Remove? && pc.lr in s.locals && pc.job.client in s.clients
      then AtRemove(s, pc.lr, pc.job.client) else s
    case SetFlag =>
      if pc.Flagging? && pc.client in s.clients
      then Go(PutClient(s, pc.client, s.clients[pc.client].(closed := true)), t, Closing(pc.lr, pc.client)) else s
    case CloseChannel => if t == HUB && pc.Closing? && pc.client in s.clients then AtClose(s, pc.lr, pc.client) else s
    case FlagOne(n) =>
      if pc.Writing? && pc.job.FlagAll? && pc.lr in s.locals && n in s.locals[pc.lr].clients.Values && n in s.clients
      then PutClient(s, n, s.clients[n].(closed := true)) else s
    case ReleaseWrite =>
      if (pc.Unlocking? || (pc.Writing? && pc.job.FlagAll?)) && pc.lr in s.locals
      then Go(PutLocal(s, pc.lr, s.locals[pc.lr].(writer := None)), t,
              if pc.Unlocking? then WantRead(pc.lr, CopyPeers) else Idle) else s
    case AcquireRead =>
      if pc.WantRead? && pc.lr in s.locals && s.locals[pc.lr].writer.None?
      then Go(PutLocal(s, pc.lr, s.locals[pc.lr].(readers := s.locals[pc.lr].readers + {t})), t, Reading(pc.lr, pc.why))
          else s
    case TestFlag(n) => if n in s.clients then AtTestFlag(s, t, n) else s
    case SendNow => AtSend(s, t)
    case ReleaseRead(one) => AtReleaseRead(s, t, one)
    case FinishSends => if pc.Sends? && pc.targets == {} then AtFinish(s, t, pc.next) else s
  }

  /** A schedule: which thread does what next; an act whose moment has not come changes nothing. */
  function Run(s: State, schedule: seq<(nat, Act)>): State {
    if schedule == [] then s
    else Step(Run(s, schedule[..|schedule| - 1]), schedule[|schedule| - 1].0, schedule[|schedule| - 1].1)
  }

  // ---- invariant ----

  /** Locks exclude, rooms and `LocalRoom` objects correspond, and only the current object of a room has members. */
  ghost predicate LocalsOk(s: State) {
    && (forall lr :: lr in s.locals && s.locals[lr].writer.Some? ==> s.locals[lr].readers == {})
    && (forall room :: room in s.rooms ==> s.rooms[room] in s.locals && s.locals[s.rooms[room]].room == room)
    && (forall lr :: lr in s.locals && s.locals[lr].clients != map[] ==>
          s.locals[lr].room in s.rooms && s.rooms[s.locals[lr].room] == lr)
  }

  /** The hub goroutine has been asked to remove `n` and has not done so yet. */
  ghost predicate RemovalAhead(s: State, n: nat) {
    var pc := PcOf(s, HUB);
    (pc.WantWrite? || pc.Writing?) && pc.job == Remove(n)
  }

  ghost predicate EntryOk(s: State, lr: nat, p: string)
    requires lr in s.locals && p in s.locals[lr].clients
  {
    var n := s.locals[lr].clients[p];
    && n in s.clients && s.clients[n].id == p && s.clients[n].room == s.locals[lr].room
    && s.clients[n].open && (s.clients[n].life.Registered? || RemovalAhead(s, n))
  }

  ghost predicate EntriesOk(s: State) {
    forall lr, p :: lr in s.locals && p in s.locals[lr].clients ==> EntryOk(s, lr, p)
  }

  ghost predicate ClientsOk(s: State) {
    forall n :: n in s.clients && !s.clients[n].life.Unregistered? ==> s.clients[n].open
  }

  ghost predicate Unlisted(s: State, n: nat) {
    forall lr, p :: lr in s.locals && p in s.locals[lr].clients ==> s.locals[lr].clients[p] != n
  }

  ghost predicate HoldsWrite(s: State, t: nat, lr: nat) {
    lr in s.locals && s.locals[lr].writer == Some(t)
  }

  ghost predicate HoldsRead(s: State, t: nat, lr: nat) {
    lr in s.locals && t in s.locals[lr].readers
  }

  /** The job concerns a known client whose channel is open, in the current object of its room. */
  ghost predicate JobOk(s: State, t: nat, lr: nat, job: WriteJob) {
    && lr in s.locals
    && match job
       case FlagAll => t != HUB
       case Insert(n) => && t == HUB && n in s.clients && s.clients[n].life.Registered?
                         && s.clients[n].room in s.rooms && s.rooms[s.clients[n].room] == lr
       case Remove(n) => && t == HUB && n in s.clients && s.clients[n].life.Unregistered? && s.clients[n].open
                         && s.clients[n].room in s.rooms && s.rooms[s.clients[n].room] == lr
  }

  /** `lr` is the object its room is filed under. */
  ghost predicate Current(s: State, lr: nat) {
    lr in s.locals && s.locals[lr].room in s.rooms && s.rooms[s.locals[lr].room] == lr
  }

  ghost predicate AllOpen(s: State, targets: set<nat>) {
    forall n :: n in targets ==> n in s.clients && s.clients[n].open
  }

  ghost predicate AfterOk(s: State, next: After) {
    match next
    case Done => true
    case SendAgain(lr, n) => lr in s.locals && n in s.clients && s.clients[n].open
    case Notify(lr) => lr in s.locals
    case Forget(room) => room in s.rooms ==> s.rooms[room] in s.locals && s.locals[s.rooms[room]].clients == map[]
  }

  ghost predicate PcOk(s: State, t: nat) {
    match PcOf(s, t)
    case Idle => true
    case WantWrite(lr, job) => JobOk(s, t, lr, job)
    case Writing(lr, job) => JobOk(s, t, lr, job) && HoldsWrite(s, t, lr)
    case Flagging(lr, n) => t == HUB && HoldsWrite(s, t, lr) && Current(s, lr) && n in s.clients && s.clients[n].open
        && Unlisted(s, n)
                            && s.clients[n].life.Unregistered?
    case Closing(lr, n) => t == HUB && HoldsWrite(s, t, lr) && Current(s, lr) && n in s.clients && s.clients[n].open
        && Unlisted(s, n)
                           && s.clients[n].closed && s.clients[n].life.Unregistered?
    case Unlocking(lr) => t == HUB && HoldsWrite(s, t, lr) && Current(s, lr)
    case WantRead(lr, why) => lr in s.locals && (why.CopyPeers? ==> t == HUB && Current(s, lr))
    case Reading(lr, why) => HoldsRead(s, t, lr) && (why.CopyPeers? ==> t == HUB && Current(s, lr))
    case SendUnderLock(lr, why, n) => HoldsRead(s, t, lr) && why.FanOut? && n in s.locals[lr].clients.Values
    case Sends(targets, next) => t == HUB && AllOpen(s, targets) && AfterOk(s, next)
    case SendFree(targets, next, n) => t == HUB && AllOpen(s, targets) && AfterOk(s, next) && n in targets
  }

  ghost predicate Ok(s: State) {
    && LocalsOk(s) && EntriesOk(s) && ClientsOk(s) && !s.fault
    && forall t :: PcOk(s, t)
  }

  // ---- preservation ----

  /** What other threads may rely on when thread `t` only touches locks, flags and its own position. */
  ghost predicate Gentle(s: State, s': State, t: nat) {
    && s'.rooms == s.rooms && s'.locals.Keys == s.locals.Keys && s'.clients.Keys == s.clients.Keys
    && (forall lr :: lr in s.locals ==>
          s'.locals[lr].room == s.locals[lr].room && s'.locals[lr].clients == s.locals[lr].clients)
    && (forall lr, u :: lr in s.locals && u != t && HoldsWrite(s, u, lr) ==> HoldsWrite(s', u, lr))
    && (forall lr, u :: lr in s.locals && u != t && HoldsRead(s, u, lr) ==> HoldsRead(s', u, lr))
    && (forall n :: n in s.clients ==> s'.clients[n] == s.clients[n].(closed := s'.clients[n].closed)
                                       && (s.clients[n].closed ==> s'.clients[n].closed))
    && (forall u :: u != t ==> PcOf(s', u) == PcOf(s, u))
    && (forall n :: RemovalAhead(s, n) ==> RemovalAhead(s', n))
  }

  lemma GentleKeeps(s: State, s': State, t: nat)
    requires Ok(s) && Gentle(s, s', t) && PcOk(s', t) && !s'.fault
    requires forall lr :: lr in s'.locals && s'.locals[lr].writer.Some? ==> s'.locals[lr].readers == {}
    ensures Ok(s')
  {
    forall lr, p | lr in s'.locals && p in s'.locals[lr].clients ensures EntryOk(s', lr, p) {
      assert EntryOk(s, lr, p);
    }
    forall u ensures PcOk(s', u) {
      assert PcOk(s, u);
      if u != t {
        GentleThread(s, s', t, u);
      }
    }
  }

  lemma GentleThread(s: State, s': State, t: nat, u: nat)
    requires Gentle(s, s', t) && u != t && PcOk(s, u)
    ensures PcOk(s', u)
  {
  }

  /** A thread that only moves. */
  lemma MoveKeeps(s: State, t: nat, pc: Pc)
    requires Ok(s) && PcOk(Go(s, t, pc), t)
    requires forall n :: RemovalAhead(s, n) ==> RemovalAhead(Go(s, t, pc), n)
    ensures Ok(Go(s, t, pc))
  {
    GentleKeeps(s, Go(s, t, pc), t);
  }

  /** A thread that takes or gives back a lock and moves. */
  lemma LockKeeps(s: State, t: nat, lr: nat, l: Local, pc: Pc)
    requires Ok(s) && lr in s.locals && l.room == s.locals[lr].room && l.clients == s.locals[lr].clients
    requires l.writer.Some? ==> l.readers == {}
    requires forall u :: u != t && s.locals[lr].writer == Some(u) ==> l.writer == Some(u)
    requires forall u :: u != t && u in s.locals[lr].readers ==> u in l.readers
    requires PcOk(Go(PutLocal(s, lr, l), t, pc), t)
    requires forall n :: RemovalAhead(s, n) ==> RemovalAhead(Go(PutLocal(s, lr, l), t, pc), n)
    ensures Ok(Go(PutLocal(s, lr, l), t, pc))
  {
    GentleKeeps(s, Go(PutLocal(s, lr, l), t, pc), t);
  }

  lemma TakeKeeps(s: State, t: nat, a: Act)
    requires Ok(s) && (a.TakeRead? || a.TakeFlagAll?)
    ensures Ok(Step(s, t, a))
  {
    if PcOf(s, t).Idle? && a.room in s.rooms {
      if a.TakeRead? && !a.why.CopyPeers? {
        MoveKeeps(s, t, WantRead(s.rooms[a.room], a.why));
      } else if a.TakeFlagAll? && t != HUB {
        MoveKeeps(s, t, WantWrite(s.rooms[a.room], FlagAll));
      }
    }
  }

  lemma AcquireWriteKeeps(s: State, t: nat)
    requires Ok(s)
    ensures Ok(Step(s, t, AcquireWrite))
  {
    assert PcOk(s, t);
    var pc := PcOf(s, t);
    if pc.WantWrite? && Free(s.locals[pc.lr]) {
      LockKeeps(s, t, pc.lr, s.locals[pc.lr].(writer := Some(t)), Writing(pc.lr, pc.job));
    }
  }

  lemma ReleaseWriteKeeps(s: State, t: nat)
    requires Ok(s)
    ensures Ok(Step(s, t, ReleaseWrite))
  {
    assert PcOk(s, t);
    var pc := PcOf(s, t);
    if pc.Unlocking? {
      LockKeeps(s, t, pc.lr, s.locals[pc.lr].(writer := None), WantRead(pc.lr, CopyPeers));
    } else if pc.Writing? && pc.job.FlagAll? {
      LockKeeps(s, t, pc.lr, s.locals[pc.lr].(writer := None), Idle);
    }
  }

  lemma AcquireReadKeeps(s: State, t: nat)
    requires Ok(s)
    ensures Ok(Step(s, t, AcquireRead))
  {
    assert PcOk(s, t);
    var pc := PcOf(s, t);
    if pc.WantRead? && s.locals[pc.lr].writer.None? {
      LockKeeps(s, t, pc.lr, s.locals[pc.lr].(readers := s.locals[pc.lr].readers + {t}), Reading(pc.lr, pc.why));
    }
  }

  lemma SetFlagKeeps(s: State, t: nat)
    requires Ok(s)
    ensures Ok(Step(s, t, SetFlag))
  {
    var pc := PcOf(s, t);
    assert PcOk(s, t);
    if pc.Flagging? {
      var raised := s.clients[pc.client].(closed := true);
      GentleKeeps(s, Go(PutClient(s, pc.client, raised), t, Closing(pc.lr, pc.client)), t);
    }
  }

  lemma FlagOneKeeps(s: State, t: nat, n: nat)
    requires Ok(s)
    ensures Ok(Step(s, t, FlagOne(n)))
  {
    assert PcOk(s, t);
    if Step(s, t, FlagOne(n)) != s {
      GentleKeeps(s, PutClient(s, n, s.clients[n].(closed := true)), t);
    }
  }

  lemma TestFlagKeeps(s: State, t: nat, n: nat)
    requires Ok(s)
    ensures Ok(Step(s, t, TestFlag(n)))
  {
    assert PcOk(s, t);
    if n in s.clients {
      match PcOf(s, t)
      case Reading(lr, why) =>
        if n in s.locals[lr].clients.Values && why.FanOut? && !s.clients[n].closed {
          MoveKeeps(s, t, SendUnderLock(lr, why, n));
        }
      case Sends(targets, next) =>
        if n in targets {
          MoveKeeps(s, t, if s.clients[n].closed then Sends(targets - {n}, next) else SendFree(targets, next, n));
        }
      case _ =>
    }
  }

  lemma SendKeeps(s: State, t: nat)
    requires Ok(s)
    ensures Ok(Step(s, t, SendNow))
  {
    assert PcOk(s, t);
    match PcOf(s, t)
    case SendUnderLock(lr, why, n) =>
      var p :| p in s.locals[lr].clients && s.locals[lr].clients[p] == n;
      assert EntryOk(s, lr, p);
      MoveKeeps(s, t, Reading(lr, why));
    case SendFree(targets, next, n) => MoveKeeps(s, t, Sends(targets - {n}, next));
    case _ =>
  }

  lemma MembersAreOpen(s: State, lr: nat)
    requires Ok(s) && lr in s.locals
    ensures AllOpen(s, s.locals[lr].clients.Values)
  {
    forall n | n in s.locals[lr].clients.Values ensures n in s.clients && s.clients[n].open {
      var p :| p in s.locals[lr].clients && s.locals[lr].clients[p] == n;
      assert EntryOk(s, lr, p);
    }
  }

  lemma ReleaseReadKeeps(s: State, t: nat, one: set<nat>)
    requires Ok(s)
    ensures Ok(Step(s, t, ReleaseRead(one)))
  {
    assert PcOk(s, t);
    if PcOf(s, t).Reading? {
      var lr := PcOf(s, t).lr;
      var l := s.locals[lr];
      MembersAreOpen(s, lr);
      var l' := l.(readers := l.readers - {t});
      match PcOf(s, t).why
      case FanOut => LockKeeps(s, t, lr, l', Idle);
      case CopyPeers =>
        var next := if l.clients == map[] then Forget(l.room) else Done;
        LockKeeps(s, t, lr, l', Sends(l.clients.Values, next));
      case FindOne => LockKeeps(s, t, lr, l', if t == HUB && one <= l.clients.Values then Sends(one, Done) else Idle);
    }
  }

  /** What the other threads rely on when the hub goroutine changes tables: they are only readers or flaggers. */
  lemma OthersKeep(s: State, s': State)
    requires Ok(s) && s.locals.Keys <= s'.locals.Keys && s.clients.Keys <= s'.clients.Keys
    requires forall u :: u != HUB ==> PcOf(s', u) == PcOf(s, u)
    requires forall lr, u :: lr in s.locals && u != HUB && HoldsWrite(s, u, lr) ==> HoldsWrite(s', u, lr)
    requires forall lr :: lr in s.locals ==> s'.locals[lr].readers == s.locals[lr].readers
    requires forall lr :: lr in s.locals && s.locals[lr].readers != {} ==> s'.locals[lr].clients == s.locals[lr].clients
    ensures forall u :: u != HUB ==> PcOk(s', u)
  {
    forall u | u != HUB ensures PcOk(s', u) {
      assert PcOk(s, u);
    }
  }

  lemma AllThreads(s: State)
    requires PcOk(s, HUB) && forall u :: u != HUB ==> PcOk(s, u)
    ensures forall u :: PcOk(s, u)
  {
  }

  lemma ConnectKeeps(s: State, n: nat, id: string, room: string)
    requires Ok(s) && n !in s.clients
    ensures Ok(PutClient(s, n, Client(id, room, false, true, HubState.Fresh)))
  {
    var s' := PutClient(s, n, Client(id, room, false, true, HubState.Fresh));
    forall lr, p | lr in s'.locals && p in s'.locals[lr].clients ensures EntryOk(s', lr, p) {
      assert EntryOk(s, lr, p);
    }
    assert PcOk(s, HUB);
    OthersKeep(s, s');
    AllThreads(s');
  }

  /** The first register of a room creates its object; a new object disturbs nobody. */
  lemma CreateRoomKeeps(s: State, lr: nat, room: string)
    requires Ok(s) && PcOf(s, HUB).Idle? && lr !in s.locals && room !in s.rooms
    ensures Ok(PutLocal(s, lr, Local(room, map[], {}, None)).(rooms := s.rooms[room := lr]))
  {
    var s' := PutLocal(s, lr, Local(room, map[], {}, None)).(rooms := s.rooms[room := lr]);
    forall l, p | l in s'.locals && p in s'.locals[l].clients ensures EntryOk(s', l, p) {
      assert EntryOk(s, l, p);
    }
    OthersKeep(s, s');
    AllThreads(s');
  }

  lemma MarkRegistered(s: State, n: nat, pc: Pc)
    requires Ok(s) && PcOf(s, HUB).Idle? && n in s.clients && s.clients[n].life.Fresh?
    requires s.clients[n].room in s.rooms
             && (pc == Sends({n}, Done) || pc == WantWrite(s.rooms[s.clients[n].room], Insert(n)))
    ensures Ok(Go(PutClient(s, n, s.clients[n].(life := HubState.Registered)), HUB, pc))
  {
    var s' := Go(PutClient(s, n, s.clients[n].(life := HubState.Registered)), HUB, pc);
    forall l, p | l in s'.locals && p in s'.locals[l].clients ensures EntryOk(s', l, p) {
      assert EntryOk(s, l, p);
    }
    OthersKeep(s, s');
    AllThreads(s');
  }

  lemma RegisterKeeps(s: State, n: nat, lr: nat, refused: bool)
    requires Ok(s) && PcOf(s, HUB).Idle? && n in s.clients && s.clients[n].life.Fresh?
    ensures Ok(AtRegister(s, n, lr, refused))
  {
    var c := s.clients[n];
    if c.room in s.rooms {
      MarkRegistered(s, n, if refused then Sends({n}, Done) else WantWrite(s.rooms[c.room], Insert(n)));
    } else if lr !in s.locals {
      var s1 := PutLocal(s, lr, Local(c.room, map[], {}, None)).(rooms := s.rooms[c.room := lr]);
      CreateRoomKeeps(s, lr, c.room);
      MarkRegistered(s1, n, if refused then Sends({n}, Done) else WantWrite(lr, Insert(n)));
    }
  }

  lemma TakeUnregisterKeeps(s: State, n: nat)
    requires Ok(s) && PcOf(s, HUB).Idle? && n in s.clients && s.clients[n].life.Registered?
    ensures Ok(AtTakeUnregister(s, n))
  {
    var s' := AtTakeUnregister(s, n);
    forall l, p | l in s'.locals && p in s'.locals[l].clients ensures EntryOk(s', l, p) {
      assert EntryOk(s, l, p);
    }
    OthersKeep(s, s');
    AllThreads(s');
  }

  lemma InsertKeeps(s: State, lr: nat, n: nat)
    requires Ok(s) && PcOf(s, HUB) == Writing(lr, Insert(n))
    ensures lr in s.locals && n in s.clients && Ok(AtInsert(s, lr, n))
  {
    assert PcOk(s, HUB);
    var s' := AtInsert(s, lr, n);
    forall l, p | l in s'.locals && p in s'.locals[l].clients ensures EntryOk(s', l, p) {
      if l != lr || p != s.clients[n].id {
        assert EntryOk(s, l, p);
      }
    }
    OthersKeep(s, s');
    AllThreads(s');
  }

  /** Afterwards no entry names the leaving client, whichever entry was under its id. */
  lemma RemoveEntries(s: State, lr: nat, n: nat)
    requires Ok(s) && PcOf(s, HUB) == Writing(lr, Remove(n))
    ensures lr in s.locals && n in s.clients && EntriesOk(AtRemove(s, lr, n)) && Unlisted(AtRemove(s, lr, n), n)
  {
    assert PcOk(s, HUB);
    var s' := AtRemove(s, lr, n);
    forall l, p | l in s'.locals && p in s'.locals[l].clients
      ensures s'.locals[l].clients[p] != n && EntryOk(s', l, p)
    {
      assert EntryOk(s, l, p);
    }
  }

  lemma RemoveKeeps(s: State, lr: nat, n: nat)
    requires Ok(s) && PcOf(s, HUB) == Writing(lr, Remove(n))
    ensures lr in s.locals && n in s.clients && Ok(AtRemove(s, lr, n))
  {
    assert PcOk(s, HUB);
    var s' := AtRemove(s, lr, n);
    RemoveEntries(s, lr, n);
    OthersKeep(s, s');
    assert LocalsOk(s');
    AllThreads(s');
  }

  lemma CloseKeeps(s: State, lr: nat, n: nat)
    requires Ok(s) && PcOf(s, HUB) == Closing(lr, n)
    ensures n in s.clients && Ok(AtClose(s, lr, n))
  {
    assert PcOk(s, HUB);
    var s' := AtClose(s, lr, n);
    forall l, p | l in s'.locals && p in s'.locals[l].clients ensures EntryOk(s', l, p) {
      assert EntryOk(s, l, p);
    }
    OthersKeep(s, s');
    AllThreads(s');
  }

  lemma FinishKeeps(s: State, t: nat, next: After)
    requires Ok(s) && PcOf(s, t) == Sends({}, next)
    ensures Ok(AtFinish(s, t, next))
  {
    assert PcOk(s, t);
    var s' := AtFinish(s, t, next);
    forall l, p | l in s'.locals && p in s'.locals[l].clients ensures EntryOk(s', l, p) {
      assert EntryOk(s, l, p);
    }
    OthersKeep(s, s');
    AllThreads(s');
  }

  lemma StepKeeps(s: State, t: nat, a: Act)
    requires Ok(s)
    ensures Ok(Step(s, t, a))
  {
    match a
    case Connect(n, id, room) => if n !in s.clients { ConnectKeeps(s, n, id, room); }
    case TakeRegister(n, lr, refused) =>
      if t == HUB && PcOf(s, t).Idle? && n in s.clients
         && s.clients[n].life.Fresh? {
        RegisterKeeps(s, n, lr, refused);
      }
    case TakeUnregister(n) =>
      if t == HUB && PcOf(s, t).Idle? && n in s.clients
         && s.clients[n].life.Registered? {
        TakeUnregisterKeeps(s, n);
      }
    case DoInsert =>
      if t == HUB && PcOf(s, t).Writing? && PcOf(s, t).job.Insert? {
        InsertKeeps(s, PcOf(s, t).lr, PcOf(s, t).job.client);
      }
    case DoRemove =>
      if t == HUB && PcOf(s, t).Writing? && PcOf(s, t).job.Remove? {
        RemoveKeeps(s, PcOf(s, t).lr, PcOf(s, t).job.client);
      }
    case CloseChannel => if t == HUB && PcOf(s, t).Closing? { CloseKeeps(s, PcOf(s, t).lr, PcOf(s, t).client); }
    case FinishSends => if PcOf(s, t).Sends? && PcOf(s, t).targets == {} { FinishKeeps(s, t, PcOf(s, t).next); }
    case ReleaseRead(one) => ReleaseReadKeeps(s, t, one);
    case SetFlag => SetFlagKeeps(s, t);
    case FlagOne(n) => FlagOneKeeps(s, t, n);
    case TestFlag(n) => TestFlagKeeps(s, t, n);
    case SendNow => SendKeeps(s, t);
    case AcquireWrite => AcquireWriteKeeps(s, t);
    case ReleaseWrite => ReleaseWriteKeeps(s, t);
    case AcquireRead => AcquireReadKeeps(s, t);
    case _ => TakeKeeps(s, t, a);
  }

  lemma {:induction false} RunIsOk(schedule: seq<(nat, Act)>)
    ensures Ok(Run(Begin(), schedule))
  {
    if schedule == [] {
      assert forall t :: PcOk(Begin(), t);
    } else {
      var k := |schedule| - 1;
      RunIsOk(schedule[..k]);
      StepKeeps(Run(Begin(), schedule[..k]), schedule[k].0, schedule[k].1);
    }
  }

  /** Channel safety: under every schedule of the hub goroutine, broker callbacks and shutdown, also with two
      connections that share an id, no step has sent on a closed channel or closed one twice, and every client in a map
      has an open channel. */
  lemma ChannelsAreSafe(schedule: seq<(nat, Act)>)
    ensures var s := Run(Begin(), schedule);
            && !s.fault
            && forall lr, p :: lr in s.locals && p in s.locals[lr].clients ==>
                 s.locals[lr].clients[p] in s.clients && s.clients[s.locals[lr].clients[p]].open
  {
    RunIsOk(schedule);
    var s := Run(Begin(), schedule);
    forall lr, p | lr in s.locals && p in s.locals[lr].clients
      ensures s.locals[lr].clients[p] in s.clients && s.clients[s.locals[lr].clients[p]].open {
      assert EntryOk(s, lr, p);
    }
  }
}

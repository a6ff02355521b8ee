/** The hub's threads cannot block each other for good: from wherever a schedule has brought them, all of them can
    finish what they are doing, and then every lock is free. */
module HubSettling {
  import Wrappers
  import HubState
  import opened HubThreads

  // ---- who holds a lock ----

  predicate ReadsOn(pc: Pc, lr: nat) {
    (pc.Reading? || pc.SendUnderLock?) && pc.lr == lr
  }

  predicate WritesOn(pc: Pc, lr: nat) {
    (pc.Writing? || pc.Flagging? || pc.Closing? || pc.Unlocking?) && pc.lr == lr
  }

  /** A lock is held only by threads that are in the middle of using it. */
  ghost predicate Backed(s: State) {
    forall lr :: lr in s.locals ==> LockBacked(s, lr)
  }

  ghost predicate LockBacked(s: State, lr: nat)
    requires lr in s.locals
  {
    && (forall t :: t in s.locals[lr].readers ==> ReadsOn(PcOf(s, t), lr))
    && (s.locals[lr].writer.Some? ==> WritesOn(PcOf(s, s.locals[lr].writer.value), lr))
  }

  ghost predicate OthersStay(s: State, s': State, t: nat) {
    forall u :: u != t ==> PcOf(s', u) == PcOf(s, u)
  }

  /** Thread `t` goes on using what it was using, if anything, and no lock changes. */
  lemma SameLocks(s: State, s': State, t: nat)
    requires Backed(s) && OthersStay(s, s', t) && s'.locals == s.locals
    requires forall lr :: lr in s.locals && ReadsOn(PcOf(s, t), lr) ==> ReadsOn(PcOf(s', t), lr)
    requires forall lr :: lr in s.locals && WritesOn(PcOf(s, t), lr) ==> WritesOn(PcOf(s', t), lr)
    ensures Backed(s')
  {
    forall lr | lr in s'.locals ensures LockBacked(s', lr) {
      assert LockBacked(s, lr);
    }
  }

  /** Thread `t` takes this lock, or lets it go, and holds no other. */
  lemma OneLock(s: State, s': State, t: nat, lr: nat, l: Local)
    requires Backed(s) && OthersStay(s, s', t) && s'.locals == s.locals[lr := l]
    requires forall k :: ReadsOn(PcOf(s, t), k) || WritesOn(PcOf(s, t), k) ==> k == lr
    requires l.readers <= (if lr in s.locals then s.locals[lr].readers else {}) + {t}
    requires l.writer.None? || l.writer == Wrappers.Some(t) || (lr in s.locals && l.writer == s.locals[lr].writer)
    requires t in l.readers ==> ReadsOn(PcOf(s', t), lr)
    requires l.writer == Wrappers.Some(t) ==> WritesOn(PcOf(s', t), lr)
    ensures Backed(s')
  {
    forall k | k in s'.locals ensures LockBacked(s', k) {
      if k in s.locals {
        assert LockBacked(s, k);
      }
    }
  }

  lemma RegisterBacks(s: State, n: nat, lr: nat, refused: bool)
    requires Backed(s) && PcOf(s, HUB).Idle? && n in s.clients
    ensures Backed(AtRegister(s, n, lr, refused))
  {
    var s', room := AtRegister(s, n, lr, refused), s.clients[n].room;
    if room in s.rooms {
      SameLocks(s, s', HUB);
    } else if lr !in s.locals {
      OneLock(s, s', HUB, lr, Local(room, map[], {}, Wrappers.None));
    }
  }

  lemma TakingBacks(s: State, t: nat, a: Act)
    requires Backed(s) && (a.Connect? || a.TakeUnregister? || a.TakeRead? || a.TakeFlagAll?)
    ensures Backed(Step(s, t, a))
  {
    SameLocks(s, Step(s, t, a), t);
  }

  lemma AcquireWriteBacks(s: State, t: nat)
    requires Backed(s)
    ensures Backed(Step(s, t, AcquireWrite))
  {
    var pc := PcOf(s, t);
    if pc.WantWrite? && pc.lr in s.locals && Free(s.locals[pc.lr]) {
      OneLock(s, Step(s, t, AcquireWrite), t, pc.lr, s.locals[pc.lr].(writer := Wrappers.Some(t)));
    }
  }

  lemma ReleaseWriteBacks(s: State, t: nat)
    requires Backed(s)
    ensures Backed(Step(s, t, ReleaseWrite))
  {
    var pc := PcOf(s, t);
    if (pc.Unlocking? || (pc.Writing? && pc.job.FlagAll?)) && pc.lr in s.locals {
      assert LockBacked(s, pc.lr);
      OneLock(s, Step(s, t, ReleaseWrite), t, pc.lr, s.locals[pc.lr].(writer := Wrappers.None));
    }
  }

  lemma AcquireReadBacks(s: State, t: nat)
    requires Backed(s)
    ensures Backed(Step(s, t, AcquireRead))
  {
    var pc := PcOf(s, t);
    if pc.WantRead? && pc.lr in s.locals && s.locals[pc.lr].writer.None? {
      OneLock(s, Step(s, t, AcquireRead), t, pc.lr, s.locals[pc.lr].(readers := s.locals[pc.lr].readers + {t}));
    }
  }

  lemma ReleaseReadBacks(s: State, t: nat, one: set<nat>)
    requires Backed(s)
    ensures Backed(AtReleaseRead(s, t, one))
  {
    var pc := PcOf(s, t);
    if pc.Reading? && pc.lr in s.locals {
      assert LockBacked(s, pc.lr);
      OneLock(s, AtReleaseRead(s, t, one), t, pc.lr, s.locals[pc.lr].(readers := s.locals[pc.lr].readers - {t}));
    }
  }

  lemma TableBacks(s: State, t: nat, a: Act)
    requires Backed(s) && (a.DoInsert? || a.DoRemove?)
    ensures Backed(Step(s, t, a))
  {
    var pc, s' := PcOf(s, t), Step(s, t, a);
    if t == HUB && pc.Writing? && pc.lr in s.locals && !pc.job.FlagAll? && pc.job.client in s.clients {
      assert LockBacked(s, pc.lr);
      if s' != s {
        OneLock(s, s', t, pc.lr, s'.locals[pc.lr]);
      }
    }
  }

  lemma FlagBacks(s: State, t: nat, a: Act)
    requires Backed(s) && (a.SetFlag? || a.CloseChannel? || a.FlagOne?)
    ensures Backed(Step(s, t, a))
  {
    SameLocks(s, Step(s, t, a), t);
  }

  lemma TestBacks(s: State, t: nat, n: nat)
    requires Backed(s) && n in s.clients
    ensures Backed(AtTestFlag(s, t, n))
  {
    SameLocks(s, AtTestFlag(s, t, n), t);
  }

  lemma SendBacks(s: State, t: nat)
    requires Backed(s)
    ensures Backed(AtSend(s, t))
  {
    SameLocks(s, AtSend(s, t), t);
  }

  lemma FinishBacks(s: State, t: nat, next: After)
    requires Backed(s) && PcOf(s, t).Sends?
    ensures Backed(AtFinish(s, t, next))
  {
    SameLocks(s, AtFinish(s, t, next), t);
  }

  lemma StepBacks(s: State, t: nat, a: Act)
    requires Backed(s)
    ensures Backed(Step(s, t, a))
  {
    match a
    case TakeRegister(n, lr, refused) =>
      if t == HUB && PcOf(s, t).Idle? && n in s.clients && s.clients[n].life.Fresh? {
        RegisterBacks(s, n, lr, refused);
      }
    case AcquireWrite => AcquireWriteBacks(s, t);
    case ReleaseWrite => ReleaseWriteBacks(s, t);
    case AcquireRead => AcquireReadBacks(s, t);
    case ReleaseRead(one) => ReleaseReadBacks(s, t, one);
    case TestFlag(n) => if n in s.clients { TestBacks(s, t, n); }
    case SendNow => SendBacks(s, t);
    case FinishSends => if PcOf(s, t).Sends? { FinishBacks(s, t, PcOf(s, t).next); }
    case _ =>
      if a.DoInsert? || a.DoRemove? {
        TableBacks(s, t, a);
      } else if a.SetFlag? || a.CloseChannel? || a.FlagOne? {
        FlagBacks(s, t, a);
      } else {
        TakingBacks(s, t, a);
      }
  }

  lemma {:induction false} RunIsBacked(schedule: seq<(nat, Act)>)
    ensures Backed(Run(Begin(), schedule))
  {
    if schedule != [] {
      var k := |schedule| - 1;
      RunIsBacked(schedule[..k]);
      StepBacks(Run(Begin(), schedule[..k]), schedule[k].0, schedule[k].1);
    }
  }

  // ---- who can go on ----

  /** The thread does not wait for a lock that another holds. */
  predicate CanGo(s: State, t: nat) {
    var pc := PcOf(s, t);
    && !pc.Idle?
    && (pc.WantWrite? ==> pc.lr in s.locals && Free(s.locals[pc.lr]))
    && (pc.WantRead? ==> pc.lr in s.locals && s.locals[pc.lr].writer.None?)
  }

  /** Where a thread is busy, one can go on: the waiting ones wait for one that does not. */
  lemma SomebodyCanGo(s: State, t: nat) returns (u: nat)
    requires Ok(s) && Backed(s) && !PcOf(s, t).Idle?
    ensures CanGo(s, u)
  {
    u := t;
    assert PcOk(s, t);
    var pc := PcOf(s, t);
    if !CanGo(s, t) {
      assert LockBacked(s, pc.lr);
      if s.locals[pc.lr].writer.Some? {
        u := s.locals[pc.lr].writer.value;
      } else {
        u :| u in s.locals[pc.lr].readers;
      }
    }
  }

  /** Its next act. */
  ghost function Next(pc: Pc): Act {
    match pc
    case WantWrite(_, _) => AcquireWrite
    case Writing(_, job) => if job.Insert? then DoInsert else if job.Remove? then DoRemove else ReleaseWrite
    case Flagging(_, _) => SetFlag
    case Closing(_, _) => CloseChannel
    case Unlocking(_) => ReleaseWrite
    case WantRead(_, _) => AcquireRead
    case Reading(_, _) => ReleaseRead({})
    case SendUnderLock(_, _, _) => SendNow
    case Sends(targets, _) => if targets == {} then FinishSends else var n :| n in targets; TestFlag(n)
    case _ => SendNow
  }

  /** Whether the thread has yet to read whom to tell of a departure, and how many acts are left to it otherwise. */
  function Stage(pc: Pc): nat {
    match pc
    case WantWrite(_, job) => if job.Remove? then 1 else 0
    case Writing(_, job) => if job.Remove? then 1 else 0
    case Flagging(_, _) => 1
    case Closing(_, _) => 1
    case Unlocking(_) => 1
    case WantRead(_, why) => if why.CopyPeers? then 1 else 0
    case Reading(_, why) => if why.CopyPeers? then 1 else 0
    case SendUnderLock(_, why, _) => if why.CopyPeers? then 1 else 0
    case _ => 0
  }

  function Then(next: After): nat {
    match next
    case Done => 0
    case Forget(_) => 0
    case Notify(_) => 3
    case SendAgain(_, _) => 6
  }

  function Left(pc: Pc): nat {
    match pc
    case Idle => 0
    case WantWrite(_, job) => if job.FlagAll? then 2 else 11
    case Writing(_, job) => if job.FlagAll? then 1 else 10
    case Flagging(_, _) => 9
    case Closing(_, _) => 8
    case Unlocking(_) => 7
    case WantRead(_, _) => 3
    case Reading(_, _) => 2
    case SendUnderLock(_, _, _) => 3
    case Sends(targets, next) => 2 * |targets| + 1 + Then(next)
    case SendFree(targets, next, _) => 2 * |targets| + Then(next)
  }

  predicate Less(pc: Pc, pc': Pc) {
    Stage(pc') < Stage(pc) || (Stage(pc') == Stage(pc) && Left(pc') < Left(pc))
  }

  ghost predicate Nearer(s: State, t: nat, s': State) {
    Less(PcOf(s, t), PcOf(s', t)) && OthersStay(s, s', t)
  }

  lemma WriterGoesOn(s: State, t: nat)
    requires PcOk(s, t) && CanGo(s, t)
    requires var pc := PcOf(s, t); pc.WantWrite? || pc.Writing? || pc.Flagging? || pc.Closing? || pc.Unlocking?
    ensures Nearer(s, t, Step(s, t, Next(PcOf(s, t))))
  {
  }

  lemma ReaderGoesOn(s: State, t: nat)
    requires PcOk(s, t) && PcOf(s, t).Reading?
    ensures Nearer(s, t, AtReleaseRead(s, t, {}))
  {
  }

  lemma TestGoesOn(s: State, t: nat, n: nat)
    requires PcOk(s, t) && PcOf(s, t).Sends? && n in PcOf(s, t).targets
    ensures n in s.clients && Nearer(s, t, AtTestFlag(s, t, n))
  {
    assert |PcOf(s, t).targets - {n}| == |PcOf(s, t).targets| - 1;
  }

  lemma FinishGoesOn(s: State, t: nat)
    requires PcOf(s, t).Sends? && PcOf(s, t).targets == {}
    ensures Nearer(s, t, AtFinish(s, t, PcOf(s, t).next))
  {
  }

  lemma SenderGoesOn(s: State, t: nat)
    requires PcOk(s, t) && PcOf(s, t).Sends?
    ensures Nearer(s, t, Step(s, t, Next(PcOf(s, t))))
  {
    if PcOf(s, t).targets != {} {
      TestGoesOn(s, t, Next(PcOf(s, t)).client);
    } else {
      FinishGoesOn(s, t);
    }
  }

  lemma WaitingReaderGoesOn(s: State, t: nat)
    requires CanGo(s, t) && PcOf(s, t).WantRead?
    ensures Nearer(s, t, Step(s, t, AcquireRead))
  {
  }

  lemma SendGoesOn(s: State, t: nat)
    requires PcOk(s, t) && (PcOf(s, t).SendFree? || PcOf(s, t).SendUnderLock?) && EntriesOk(s)
    ensures Nearer(s, t, AtSend(s, t))
  {
    match PcOf(s, t)
    case SendFree(targets, _, n) => assert |targets - {n}| == |targets| - 1;
    case SendUnderLock(lr, _, n) =>
      var p :| p in s.locals[lr].clients && s.locals[lr].clients[p] == n;
      assert EntryOk(s, lr, p);
  }

  /** A thread that can go on comes nearer to its end by its next act, and no other thread moves. */
  lemma GoesOn(s: State, t: nat)
    requires Ok(s) && CanGo(s, t)
    ensures Nearer(s, t, Step(s, t, Next(PcOf(s, t))))
  {
    assert PcOk(s, t);
    match PcOf(s, t)
    case Reading(_, _) => ReaderGoesOn(s, t);
    case Sends(_, _) => SenderGoesOn(s, t);
    case SendFree(_, _, _) => SendGoesOn(s, t);
    case SendUnderLock(_, _, _) => SendGoesOn(s, t);
    case WantRead(_, _) => WaitingReaderGoesOn(s, t);
    case _ => WriterGoesOn(s, t);
  }

  // ---- everybody finishes ----

  ghost predicate Below(s: State, n: nat) {
    forall t :: t >= n ==> PcOf(s, t).Idle?
  }

  function StagesOf(s: State, n: nat): nat {
    if n == 0 then 0 else StagesOf(s, n - 1) + Stage(PcOf(s, n - 1))
  }

  function LeftOf(s: State, n: nat): nat {
    if n == 0 then 0 else LeftOf(s, n - 1) + Left(PcOf(s, n - 1))
  }

  lemma {:induction false} SumsMove(s: State, s': State, t: nat, n: nat)
    requires OthersStay(s, s', t)
    ensures var one := if t < n then 1 else 0;
            && StagesOf(s', n) == StagesOf(s, n) + one * (Stage(PcOf(s', t)) - Stage(PcOf(s, t)))
            && LeftOf(s', n) == LeftOf(s, n) + one * (Left(PcOf(s', t)) - Left(PcOf(s, t)))
  {
    if n > 0 {
      SumsMove(s, s', t, n - 1);
    }
  }

  lemma {:induction false} RunCons(s: State, first: (nat, Act), rest: seq<(nat, Act)>)
    ensures Run(s, [first] + rest) == Run(Step(s, first.0, first.1), rest)
    decreases |rest|
  {
    var all := [first] + rest;
    if rest == [] {
      assert all == [first] && all[..0] == [];
    } else {
      assert all[..|all| - 1] == [first] + rest[..|rest| - 1];
      RunCons(s, first, rest[..|rest| - 1]);
    }
  }

  lemma {:induction false} RunSum(s: State, a: seq<(nat, Act)>, b: seq<(nat, Act)>)
    ensures Run(s, a + b) == Run(Run(s, a), b)
    decreases |b|
  {
    if b == [] {
      assert a + b == a;
    } else {
      assert (a + b)[..|a + b| - 1] == a + b[..|b| - 1];
      RunSum(s, a, b[..|b| - 1]);
    }
  }

  ghost predicate AllIdle(s: State) {
    forall t :: PcOf(s, t).Idle?
  }

  lemma {:induction false} CanSettle(s: State, n: nat) returns (more: seq<(nat, Act)>)
    requires Ok(s) && Backed(s) && Below(s, n)
    ensures AllIdle(Run(s, more))
    decreases StagesOf(s, n), LeftOf(s, n)
  {
    if t: nat :| t < n && !PcOf(s, t).Idle? {
      var u := SomebodyCanGo(s, t);
      var a := Next(PcOf(s, u));
      var s' := Step(s, u, a);
      GoesOn(s, u);
      SumsMove(s, s', u, n);
      StepKeeps(s, u, a);
      StepBacks(s, u, a);
      OneMoves(s, s', u, n);
      var rest := CanSettle(s', n);
      RunCons(s, (u, a), rest);
      more := [(u, a)] + rest;
    } else {
      more := [];
    }
  }

  lemma OneMoves(s: State, s': State, u: nat, n: nat)
    requires Below(s, n) && u < n && OthersStay(s, s', u)
    ensures Below(s', n)
  {
  }

  lemma {:induction false} Bound(threads: set<nat>) returns (n: nat)
    ensures forall t :: t in threads ==> t < n
  {
    n := 0;
    if threads != {} {
      var t :| t in threads;
      var rest := Bound(threads - {t});
      n := if t < rest then rest else t + 1;
      assert threads == threads - {t} + {t};
    }
  }

  /** No deadlock: every schedule has a continuation after which no thread is busy and every lock is free. */
  lemma EveryScheduleCanSettle(schedule: seq<(nat, Act)>)
    ensures exists more :: var s := Run(Begin(), schedule + more);
              AllIdle(s) && forall lr :: lr in s.locals ==> Free(s.locals[lr])
  {
    var s := Run(Begin(), schedule);
    RunIsOk(schedule);
    RunIsBacked(schedule);
    var n := Bound(s.pcs.Keys);
    var more := CanSettle(s, n);
    RunSum(Begin(), schedule, more);
    RunIsBacked(schedule + more);
    var s' := Run(Begin(), schedule + more);
    forall lr | lr in s'.locals ensures Free(s'.locals[lr]) {
      assert LockBacked(s', lr);
    }
  }
}

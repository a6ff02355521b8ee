/** The life of a room through any run: shown by its id and its code, with its last lock flag, exactly until it is
    deleted or its time is over. */
module RoomLife {
  import opened Wrappers
  import opened RoomStore
  import RoomService

  type Timed = (Event, int)

  /** The room, apart from what may change while it lives. */
  predicate IsSame(a: Room, b: Room) {
    a.id == b.id && a.code == b.code && a.settings == b.settings && a.expiresAt == b.expiresAt
  }

  /** The lock flag after these events, if it was `locked` before. */
  function LastLock(es: seq<Timed>, id: string, locked: bool): bool {
    if es == [] then locked
    else
      var (e, _) := es[|es| - 1];
      if e.SetLock? && e.id == id then e.locked else LastLock(es[..|es| - 1], id, locked)
  }

  predicate NeverDeleted(es: seq<Timed>, id: string) {
    forall k :: 0 <= k < |es| ==> es[k].0 != DeleteRoom(id)
  }

  /** The table that deletes no expired room has this one, with that flag. */
  ghost predicate Keeps(w: World, room: Room, locked: bool) {
    && room.id in w.ids && room.id in w.repo.byID && IsSame(w.repo.byID[room.id], room)
    && w.repo.byID[room.id].locked == locked
  }

  lemma StepKeeps(w: World, e: Event, t: int, room: Room, locked: bool)
    requires Keeps(w, room, locked) && e != DeleteRoom(room.id)
    ensures Keeps(Step(w, e, t, false), room, if e.SetLock? && e.id == room.id then e.locked else locked)
  {
  }

  function Began(before: seq<Timed>, room: Room, born: int): seq<Timed> {
    before + [(CreateRoom(room), born)]
  }

  lemma BirthKeeps(before: seq<Timed>, room: Room, born: int)
    requires IsNew(Run(before, false), room)
    ensures Keeps(Run(Began(before, room, born), false), room, room.locked)
  {
    assert Began(before, room, born)[..|before|] == before;
  }

  lemma {:induction false} LifeKeeps(before: seq<Timed>, room: Room, born: int, life: seq<Timed>)
    requires IsNew(Run(before, false), room) && NeverDeleted(life, room.id)
    ensures Keeps(Run(Began(before, room, born) + life, false), room, LastLock(life, room.id, room.locked))
  {
    var b := Began(before, room, born);
    if life == [] {
      assert b + [] == b;
      BirthKeeps(before, room, born);
    } else {
      var n := |life| - 1;
      LifeKeeps(before, room, born, life[..n]);
      assert (b + life)[..|b + life| - 1] == b + life[..n];
      StepKeeps(Run(b + life[..n], false), life[n].0, life[n].1, room, LastLock(life[..n], room.id, room.locked));
    }
  }

  lemma NewInBoth(before: seq<Timed>, room: Room)
    requires Monotone(before)
    ensures IsNew(Run(before, true), room) <==> IsNew(Run(before, false), room)
  {
    if before != [] {
      RunsMatch(before, before[|before| - 1].1);
    }
  }

  /** What a lookup shows: this room with this flag, if it is alive, and otherwise nothing. */
  predicate Shows(answer: Option<Room>, room: Room, locked: bool, now: int) {
    if room.expiresAt.Some? && now > room.expiresAt.value then answer == None
    else answer.Some? && IsSame(answer.value, room) && answer.value.locked == locked
  }

  lemma LastAnswer(es: seq<Timed>, e: Event, t: int, room: Room, locked: bool)
    requires e == LookupId(room.id) || e == LookupCode(room.code)
    requires Keeps(Run(es, false), room, locked) && IndexOk(Run(es, false).repo)
    ensures var answers := Run(es + [(e, t)], false).answers;
            answers != [] && Shows(answers[|answers| - 1], room, locked, t)
  {
    var w := Run(es, false);
    assert (es + [(e, t)])[..|es|] == es;
    CodeLookupIsScan(w.repo, room.code);
  }

  /** The life of a room. In every run with sweeps and lazy deletions anywhere: after a room is created, and as long as
      nobody deletes it, a lookup by its id or by its code shows it, with the flag it was last given, exactly until its
      time is over. */
  lemma RoomLivesItsTime(before: seq<Timed>, room: Room, born: int, life: seq<Timed>, e: Event, t: int)
    requires Monotone(Began(before, room, born) + life + [(e, t)]) && IsNew(Run(before, true), room)
    requires NeverDeleted(life, room.id) && (e == LookupId(room.id) || e == LookupCode(room.code))
    ensures var answers := Run(Began(before, room, born) + life + [(e, t)], true).answers;
            answers != [] && Shows(answers[|answers| - 1], room, LastLock(life, room.id, room.locked), t)
  {
    var es := Began(before, room, born) + life;
    PrefixMonotone(es, (e, t));
    PrefixOf(before, room, born, life);
    NewInBoth(before, room);
    LifeKeeps(before, room, born, life);
    RunsMatch(es, es[|es| - 1].1);
    LastAnswer(es, e, t, room, LastLock(life, room.id, room.locked));
    SweepsAreInvisible(es + [(e, t)]);
  }

  lemma PrefixMonotone(es: seq<Timed>, last: Timed)
    requires Monotone(es + [last])
    ensures Monotone(es)
  {
    assert forall i :: 0 <= i < |es| ==> (es + [last])[i] == es[i];
  }

  lemma PrefixOf(before: seq<Timed>, room: Room, born: int, life: seq<Timed>)
    requires Monotone(Began(before, room, born) + life)
    ensures Monotone(before)
  {
    var es := Began(before, room, born) + life;
    assert forall i :: 0 <= i < |before| ==> es[i] == before[i];
  }

  /** A room deleted by its owner is not shown any more. */
  lemma DeletedIsGone(w: World, id: string, now: int)
    requires IndexOk(w.repo)
    ensures var w' := Step(w, DeleteRoom(id), now, true);
            && Step(w', LookupId(id), now, true).answers == w.answers + [None]
            && forall other :: other != id && other in w.repo.byID ==>
                 other in w'.repo.byID && w'.repo.byID[other] == w.repo.byID[other]
  {
  }

  /** For a room created on request: it lives as the request says, a lifetime before the temporary flag. */
  lemma RequestedRoomLives(p: RoomService.Params, code: string, uuid: string, asked: int, answer: Option<Room>,
      locked: bool,
                           t: int)
    requires Shows(answer, RoomService.Requested(p, code, uuid, asked), locked, t)
    ensures answer.Some? <==> RoomService.IsAlive(p, asked, t)
  {
    RoomService.AliveIsUnexpired(p, code, uuid, asked, t);
  }
}

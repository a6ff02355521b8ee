/** Creating, finding, locking and deleting rooms. The clock and the random source are parameters. */
module RoomService {
  import opened Wrappers
  import opened RoomStore
  import opened RoomRepository

  datatype Failure =
    | TooManyMembers | LifetimeTooLong | IdIsNoUuid | NameTooLong | ConfigTooLong | NoRandomness | IdRequired
    | NotFound | HasExpired | IsLocked | IsFull

  const HOUR := 3_600_000_000_000
  const BLOB_LIMIT := 64 * 1024
  const DEFAULT_MEMBERS := 10

  /** The source's comment says it omits O; it does not. */
  const CHARSET := "ABCDEFGHJKLMNOPQRSTUVWXYZ23456789"

  datatype Params = Params(id: string, name: string, config: string, maxMembers: int, temporary: bool, lifetime: int,
                           owner: Option<string>)

  predicate IsHex(c: char) {
    '0' <= c <= '9' || 'a' <= c <= 'f' || 'A' <= c <= 'F'
  }

  predicate IsUuid(s: string) {
    |s| == ID_LENGTH && forall i :: 0 <= i < |s| ==>
        if i == 8 || i == 13 || i == 18 || i == 23 then s[i] == '-' else IsHex(s[i])
  }

  /** The first thing wrong with a request, in the order in which they are looked at. */
  function Validate(p: Params): (r: Option<Failure>)
    ensures r.None? <==>
              && 0 <= p.maxMembers <= 1000 && p.lifetime <= 2_592_000_000_000_000 && (p.id == "" || IsUuid(p.id))
              && |p.name| <= 65536 && |p.config| <= 65536
    ensures r == Some(TooManyMembers) <==> !(0 <= p.maxMembers <= 1000)
    ensures r == Some(LifetimeTooLong) <==> 0 <= p.maxMembers <= 1000 && p.lifetime > 2_592_000_000_000_000
    ensures r == Some(IdIsNoUuid) ==> p.id != "" && !IsUuid(p.id)
    ensures r == Some(NameTooLong) ==> |p.name| > 65536
    ensures r == Some(ConfigTooLong) ==> |p.config| > 65536
  {
    if p.maxMembers < 0 || p.maxMembers > 1000 then Some(TooManyMembers)
    else if p.lifetime > 720 * HOUR then Some(LifetimeTooLong)
    else if p.id != "" && !IsUuid(p.id) then Some(IdIsNoUuid)
    else if |p.name| > BLOB_LIMIT then Some(NameTooLong)
    else if |p.config| > BLOB_LIMIT then Some(ConfigTooLong)
    else None
  }

  /** The last instant at which the room is still shown; None if it never expires. */
  function ShownUntil(p: Params, now: int): Option<int> {
    if p.lifetime > 0 then Some(now + p.lifetime) else if p.temporary then Some(now + 24 * HOUR) else None
  }

  /** The room asked for: `uuid` is the generated id, used only when none was given. */
  function Requested(p: Params, code: string, uuid: string, now: int): Room {
    Room(if p.id == "" then uuid else p.id, code,
         Settings(p.name, p.config, p.owner, if p.maxMembers <= 0 then DEFAULT_MEMBERS else p.maxMembers, p.temporary),
         ShownUntil(p, now), false, 0, 0)
  }

  /** One draw per position, each below the size of the charset, unless the source fails. */
  predicate AreDraws(draws: seq<Option<nat>>) {
    |draws| == CODE_LENGTH && forall i :: 0 <= i < |draws| && draws[i].Some? ==> draws[i].value < |CHARSET|
  }

  predicate AllDrawn(draws: seq<Option<nat>>) {
    forall i :: 0 <= i < |draws| ==> draws[i].Some?
  }

  predicate Spells(code: string, draws: seq<Option<nat>>)
    requires AreDraws(draws) && AllDrawn(draws)
  {
    |code| == CODE_LENGTH && forall i :: 0 <= i < CODE_LENGTH ==> code[i] == CHARSET[draws[i].value]
  }

  /** A source that fails gives no code; otherwise each position takes the letter of its own draw. */
  method GenerateRoomCode(draws: seq<Option<nat>>) returns (r: Option<string>)
    requires AreDraws(draws)
    ensures r.Some? <==> AllDrawn(draws)
    ensures r.Some? ==> Spells(r.value, draws)
  {
    var code := new char[CODE_LENGTH];
    for i := 0 to CODE_LENGTH
      invariant forall j :: 0 <= j < i ==> draws[j].Some? && code[j] == CHARSET[draws[j].value]
    {
      if draws[i].None? {
        return None;
      }
      code[i] := CHARSET[draws[i].value];
    }
    return Some(code[..]);
  }

  class RoomService {
    const repo: MemoryRoomRepository

    constructor (r: MemoryRoomRepository)
      ensures repo == r
    {
      repo := r;
    }

    method CreateRoom(p: Params, draws: seq<Option<nat>>, uuid: string, asked: int, stored: int)
      returns (r: Result<RoomRecord, Failure>)
      requires repo.Valid() && AreDraws(draws) && IsUuid(uuid)
      modifies repo
      ensures repo.Valid()
      ensures r.Ok? <==> Validate(p).None? && AllDrawn(draws)
      ensures r.Err? ==> r.error == (if Validate(p).Some? then Validate(p).value else NoRandomness)
      ensures r.Err? ==> repo.View() == old(repo.View())
      ensures r.Ok? ==> fresh(r.value) && Spells(r.value.code, draws)
      ensures r.Ok? && p.lifetime > 0 ==> r.value.expiresAt == Some(asked + p.lifetime)
      ensures r.Ok? && p.lifetime <= 0 && p.temporary ==> r.value.expiresAt == Some(asked + 86_400_000_000_000)
      ensures r.Ok? && p.lifetime <= 0 && !p.temporary ==> r.value.expiresAt == None
      ensures r.Ok? ==> && r.value.id == (if p.id == "" then uuid else p.id)
                        && !r.value.locked && r.value.memberCount == 0
                        && r.value.createdAt == stored && r.value.settings.temporary == p.temporary
                        && r.value.settings.maxMembers == (if p.maxMembers == 0 then 10 else p.maxMembers)
                        && r.value.settings.name == p.name && r.value.settings.config == p.config
                        && r.value.settings.owner == p.owner
      ensures r.Ok? ==> r.value.id in repo.byID && repo.byID[r.value.id] == r.value
      ensures r.Ok? ==> var room := Requested(p, r.value.code, uuid, asked);
                        && r.value.View() == room.(createdAt := stored)
                        && repo.View() == Create(old(repo.View()), room, stored)
    {
      var invalid := Validate(p);
      if invalid.Some? {
        return Err(invalid.value);
      }
      var code := GenerateRoomCode(draws);
      if code.None? {
        return Err(NoRandomness);
      }
      var maxMembers := if p.maxMembers <= 0 then DEFAULT_MEMBERS else p.maxMembers;
      var expiresAt := None;
      if p.lifetime > 0 {
        expiresAt := Some(asked + p.lifetime);
      } else if p.temporary {
        expiresAt := Some(asked + 24 * HOUR);
      }
      var id := if p.id == "" then uuid else p.id;
      var settings := Settings(p.name, p.config, p.owner, maxMembers, p.temporary);
      var room := new RoomRecord(Room(id, code.value, settings, expiresAt, false, 0, 0));
      var ok := repo.Create(room, stored);
      return if ok then Ok(room) else Err(IdRequired);
    }

    /** An expired room is deleted on the way, and not shown. */
    method GetRoom(id: string, now: int) returns (r: Result<Room, Failure>)
      requires repo.Valid()
      modifies repo
      ensures repo.Valid() && r == Opened(GetByID(old(repo.View()), id), now)
      ensures repo.View() == LazilyDeleted(old(repo.View()), GetByID(old(repo.View()), id), id, now)
      ensures r.Ok? ==> id in old(repo.byID) && r.value == old(repo.View()).byID[id] && repo.View() == old(repo.View())
      ensures r.Ok? <==> id in old(repo.byID) && !IsPast(old(repo.byID)[id].expiresAt, now)
      ensures r == Err(HasExpired) <==> id in old(repo.byID) && IsPast(old(repo.byID)[id].expiresAt, now)
      ensures r == Err(HasExpired) ==>
                id !in repo.byID && forall k :: k in old(repo.byID) && k != id ==> k in repo.byID
    {
      var found := repo.GetByID(id);
      if found.None? {
        return Err(NotFound);
      }
      if found.value.expiresAt.Some? && now > found.value.expiresAt.value {
        var _ := repo.Delete(id);
        return Err(HasExpired);
      }
      return Ok(found.value);
    }

    method GetRoomByCode(code: string, now: int) returns (r: Result<Room, Failure>)
      requires repo.Valid()
      modifies repo
      ensures repo.Valid() && r == Opened(GetByCode(old(repo.View()), code), now)
      ensures var found := GetByCode(old(repo.View()), code);
              repo.View() == LazilyDeleted(old(repo.View()), found, if found.Some? then found.value.id else "", now)
    {
      var found := repo.GetByCode(code);
      if found.None? {
        return Err(NotFound);
      }
      if found.value.expiresAt.Some? && now > found.value.expiresAt.value {
        var _ := repo.Delete(found.value.id);
        return Err(HasExpired);
      }
      return Ok(found.value);
    }

    method LockRoom(id: string) returns (ok: bool)
      requires repo.Valid()
      modifies repo.byID.Values
      ensures repo.Valid() && ok == (id in repo.byID) && repo.View() == UpdateLock(old(repo.View()), id, true)
    {
      ok := repo.UpdateLock(id, true);
    }

    method UnlockRoom(id: string) returns (ok: bool)
      requires repo.Valid()
      modifies repo.byID.Values
      ensures repo.Valid() && ok == (id in repo.byID) && repo.View() == UpdateLock(old(repo.View()), id, false)
    {
      ok := repo.UpdateLock(id, false);
    }

    method DeleteRoom(id: string) returns (ok: bool)
      requires repo.Valid()
      modifies repo
      ensures repo.Valid() && ok == (id in old(repo.byID)) && repo.View() == Delete(old(repo.View()), id)
    {
      ok := repo.Delete(id);
    }

    method ValidateAccess(id: string, now: int) returns (refusal: Option<Failure>)
      requires repo.Valid()
      modifies repo
      ensures repo.Valid() && refusal == Access(old(repo.View()), id, now)
      ensures refusal == None <==>
                && id in old(repo.byID) && !IsPast(old(repo.byID)[id].expiresAt, now) && !old(repo.byID[id].locked)
                && old(repo.byID[id].memberCount) < old(repo.byID)[id].settings.maxMembers
      ensures repo.View() == LazilyDeleted(old(repo.View()), GetByID(old(repo.View()), id), id, now)
    {
      var room := GetRoom(id, now);
      if room.Err? {
        return Some(room.error);
      }
      if room.value.locked {
        return Some(IsLocked);
      }
      if room.value.memberCount >= room.value.settings.maxMembers {
        return Some(IsFull);
      }
      return None;
    }
  }

  /** The room's time, if it has one, is over. */
  predicate IsPast(expiresAt: Option<int>, now: int) {
    expiresAt.Some? && expiresAt.value < now
  }

  function Opened(found: Option<Room>, now: int): Result<Room, Failure> {
    if found.None? then Err(NotFound) else if Expired(found.value, now) then Err(HasExpired) else Ok(found.value)
  }

  function LazilyDeleted(r: Repo, found: Option<Room>, id: string, now: int): Repo {
    if found.Some? && Expired(found.value, now) then Delete(r, id) else r
  }

  /** None: the room may be entered. */
  function Access(r: Repo, id: string, now: int): Option<Failure> {
    var room := Opened(GetByID(r, id), now);
    if room.Err? then Some(room.error)
    else if room.value.locked then Some(IsLocked)
    else if room.value.memberCount >= room.value.settings.maxMembers then Some(IsFull)
    else None
  }

  // ---- what a room's creator is promised ----

  /** How long a room lives, by what was asked for: a lifetime counts, whether the room is temporary or not; a temporary
      room without one lives for a day; any other for ever. */
  predicate IsAlive(p: Params, asked: int, t: int) {
    if p.lifetime > 0 then t <= asked + p.lifetime else p.temporary ==> t <= asked + 86_400_000_000_000
  }

  lemma AliveIsUnexpired(p: Params, code: string, uuid: string, asked: int, t: int)
    ensures Expired(Requested(p, code, uuid, asked), t) <==> !IsAlive(p, asked, t)
  {
  }

  /** A created room, under an id and a code not in use, is found by either of them, and can be entered, exactly as long
      as it lives. */
  lemma CreatedRoomIsFound(r: Repo, p: Params, code: string, uuid: string, asked: int, stored: int, t: int)
    requires IndexOk(r) && Validate(p).None? && IsUuid(uuid)
    requires Requested(p, code, uuid, asked).id !in r.byID && code !in r.byCode
    ensures var room := Requested(p, code, uuid, asked);
      var r' := Create(r, room, stored);
      && IndexOk(r') && |room.id| == ID_LENGTH && 0 < room.settings.maxMembers <= 1000
      && (if IsAlive(p, asked, t)
          then && Opened(GetByID(r', room.id), t) == Opened(GetByCode(r', code), t) == Ok(room.(createdAt := stored))
               && Access(r', room.id, t) == None
          else && Opened(GetByID(r', room.id), t) == Opened(GetByCode(r', code), t) == Err(HasExpired)
               && Access(r', room.id, t) == Some(HasExpired))
  {
    AliveIsUnexpired(p, code, uuid, asked, t);
    CreateKeepsIndexIff(r, Requested(p, code, uuid, asked), stored);
  }

  /** A locked room admits nobody and an unlocked one, while it has a free place, admits everybody; nothing else
      changes. */
  lemma LockDecidesAccess(r: Repo, id: string, now: int)
    requires id in r.byID && !Expired(r.byID[id], now)
    ensures Access(UpdateLock(r, id, true), id, now) == Some(IsLocked)
    ensures Access(UpdateLock(r, id, false), id, now)
            == if r.byID[id].memberCount < r.byID[id].settings.maxMembers then None else Some(IsFull)
    ensures UpdateLock(UpdateLock(r, id, true), id, r.byID[id].locked) == r
    ensures forall other :: other != id ==> GetByID(UpdateLock(r, id, true), other) == GetByID(r, other)
  {
    assert r.byID[id := r.byID[id]] == r.byID;
    assert UpdateLock(UpdateLock(r, id, true), id, r.byID[id].locked).byID == r.byID;
  }

  lemma LowerTwice(s: string)
    ensures Lower(Lower(s)) == Lower(s)
  {
  }

  /** A room's id can stand in for its code, in some spelling, exactly when the id has no upper-case letter, which
      `Validate` does not ask for. */
  lemma IdServesAsCodeIff(r: Repo, id: string)
    requires IndexOk(r) && id in r.byID && |id| == ID_LENGTH
    requires forall code :: code in r.byCode ==> |code| == CODE_LENGTH
    ensures (exists typed: string :: |typed| == ID_LENGTH && GetByCode(r, typed) == Some(r.byID[id]))
            <==> Lower(id) == id
  {
    LowerTwice(id);
    if Lower(id) == id {
      assert GetByCode(r, id) == Some(r.byID[id]);
    }
    forall typed: string | |typed| == ID_LENGTH && GetByCode(r, typed) == Some(r.byID[id]) ensures Lower(id) == id {
      LowerTwice(typed);
      assert r.byID[Lower(typed)].id == id;
    }
  }
}

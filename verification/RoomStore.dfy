/** The in-memory room table with its code index, its lazy and its periodic expiry. Times are nanoseconds. */
module RoomStore {
  import opened Wrappers

  /** What is fixed at creation and never looked at by the repository. */
  datatype Settings = Settings(name: string, config: string, owner: Option<string>, maxMembers: int, temporary: bool)

  datatype Room = Room(id: string, code: string, settings: Settings, expiresAt: Option<int>,
                       locked: bool, memberCount: int, createdAt: int)

  datatype Repo = Repo(byID: map<string, Room>, byCode: map<string, string>)

  predicate Expired(room: Room, now: int) {
    room.expiresAt.Some? && now > room.expiresAt.value
  }

  /** `strings.ToLower` as far as it matters for ids: ids are ASCII, and no other letter lowers to a hexadecimal
      digit. */
  function Lower(s: string): (r: string)
    ensures |r| == |s|
  {
    seq(|s|, i requires 0 <= i < |s| => if 'A' <= s[i] <= 'Z' then (s[i] as int + 32) as char else s[i])
  }

  // ---- the repository's operations ----

  /** The room is filed under its id and its code, in place of any others there. */
  function Create(r: Repo, room: Room, now: int): Repo {
    if room.id == "" then r
    else Repo(r.byID[room.id := room.(createdAt := now, memberCount := 0)], r.byCode[room.code := room.id])
  }

  function GetByID(r: Repo, id: string): Option<Room> {
    if id in r.byID then Some(r.byID[id]) else None
  }

  /** An unknown code is tried as an id. */
  function GetByCode(r: Repo, code: string): Option<Room> {
    if code in r.byCode then GetByID(r, r.byCode[code]) else GetByID(r, Lower(code))
  }

  function UpdateLock(r: Repo, id: string, locked: bool): Repo {
    if id in r.byID then r.(byID := r.byID[id := r.byID[id].(locked := locked)]) else r
  }

  function UpdateMemberCount(r: Repo, id: string, delta: int): Repo {
    if id !in r.byID then r
    else
      var n := r.byID[id].memberCount + delta;
      r.(byID := r.byID[id := r.byID[id].(memberCount := if n < 0 then 0 else n)])
  }

  function Delete(r: Repo, id: string): Repo {
    if id in r.byID then Repo(r.byID - {id}, r.byCode - {r.byID[id].code}) else r
  }

  function ExpiredIds(r: Repo, now: int): set<string> {
    set id | id in r.byID && Expired(r.byID[id], now)
  }

  function CodesOf(r: Repo, ids: set<string>): set<string> {
    set id | id in ids && id in r.byID :: r.byID[id].code
  }

  /** `DeleteExpired` and the body of `expireLoop`. */
  function Purge(r: Repo, now: int): Repo {
    Repo(r.byID - ExpiredIds(r, now), r.byCode - CodesOf(r, ExpiredIds(r, now)))
  }

  /** The services' view of a lookup: an expired room is not shown. */
  function Shown(found: Option<Room>, now: int): Option<Room> {
    if found.Some? && Expired(found.value, now) then None else found
  }

  // ---- the code index ----

  /** `byCode` is the exact inverse of the stored rooms' codes. */
  ghost predicate IndexOk(r: Repo) {
    && (forall id :: id in r.byID ==>
          r.byID[id].id == id && r.byID[id].code in r.byCode && r.byCode[r.byID[id].code] == id)
    && (forall code :: code in r.byCode ==> r.byCode[code] in r.byID && r.byID[r.byCode[code]].code == code)
  }

  /** Creating keeps the index exact if and only if neither id nor code is in use, or the id's room has that very
      code. */
  lemma CreateKeepsIndexIff(r: Repo, room: Room, now: int)
    requires IndexOk(r) && room.id != ""
    ensures IndexOk(Create(r, room, now))
            <==> if room.id in r.byID then r.byID[room.id].code == room.code else room.code !in r.byCode
  {
    var r' := Create(r, room, now);
    if room.id in r.byID && r.byID[room.id].code != room.code {
      var stale := r.byID[room.id].code;
      assert r'.byCode[stale] == room.id && r'.byID[room.id].code != stale;
    } else if room.id !in r.byID && room.code in r.byCode {
      var other := r.byCode[room.code];
      assert r'.byID[other].code == room.code && r'.byCode[room.code] == room.id != other;
    }
  }

  lemma DeleteKeepsIndex(r: Repo, id: string)
    requires IndexOk(r)
    ensures IndexOk(Delete(r, id))
  {
  }

  lemma PurgeKeepsIndex(r: Repo, now: int)
    requires IndexOk(r)
    ensures IndexOk(Purge(r, now))
  {
    var r' := Purge(r, now);
    forall code | code in r'.byCode ensures r'.byCode[code] in r'.byID && r'.byID[r'.byCode[code]].code == code {
      assert r.byID[r.byCode[code]].code == code;
    }
    forall id | id in r'.byID ensures r'.byID[id].code in r'.byCode && r'.byCode[r'.byID[id].code] == id {
      assert r.byCode[r.byID[id].code] == id;
    }
  }

  // ---- what the operations change, room by room ----

  /** A lock changes one flag. */
  lemma LockSetsOneFlag(r: Repo, id: string, locked: bool)
    ensures var r' := UpdateLock(r, id, locked);
            && r'.byCode == r.byCode && r'.byID.Keys == r.byID.Keys
            && (id in r.byID ==> r'.byID[id].locked == locked && r'.byID[id] == r.byID[id].(locked := locked))
            && forall k :: k in r.byID && k != id ==> r'.byID[k] == r.byID[k]
  {
  }

  /** A change of members moves one count, never below zero. */
  lemma CountStaysNatural(r: Repo, id: string, delta: int)
    ensures var r' := UpdateMemberCount(r, id, delta);
            && r'.byCode == r.byCode && r'.byID.Keys == r.byID.Keys
            && (id in r.byID ==>
                  && r'.byID[id] == r.byID[id].(memberCount := r'.byID[id].memberCount)
                  && (if r.byID[id].memberCount + delta >= 0
                       then r'.byID[id].memberCount == r.byID[id].memberCount + delta
                      else r'.byID[id].memberCount == 0))
            && forall k :: k in r.byID && k != id ==> r'.byID[k] == r.byID[k]
  {
  }

  /** A deletion takes one room and its code, and leaves every other room under its id and its code. */
  lemma DeletionTakesOneRoom(r: Repo, id: string)
    requires IndexOk(r)
    ensures var r' := Delete(r, id);
            && id !in r'.byID && (id in r.byID ==> r.byID[id].code !in r'.byCode)
            && forall k :: k in r.byID && k != id ==>
                 && k in r'.byID && r'.byID[k] == r.byID[k]
                 && r.byID[k].code in r'.byCode && r'.byCode[r.byID[k].code] == k
  {
  }

  /** A sweep takes exactly the rooms whose time is over, with their codes. */
  lemma SweepTakesTheExpired(r: Repo, now: int)
    requires IndexOk(r)
    ensures var r' := Purge(r, now);
            forall k :: k in r.byID ==>
              if r.byID[k].expiresAt.Some? && now > r.byID[k].expiresAt.value
              then k !in r'.byID && r.byID[k].code !in r'.byCode
              else && k in r'.byID && r'.byID[k] == r.byID[k]
                   && r.byID[k].code in r'.byCode && r'.byCode[r.byID[k].code] == k
  {
    PurgeKeepsIndex(r, now);
    forall k | k in r.byID && Expired(r.byID[k], now) ensures r.byID[k].code !in Purge(r, now).byCode {
      assert k in ExpiredIds(r, now) && r.byID[k].code in CodesOf(r, ExpiredIds(r, now));
    }
  }

  /** With an exact index, looking up a code is a scan of the rooms, apart from the fallback to ids. */
  lemma CodeLookupIsScan(r: Repo, code: string)
    requires IndexOk(r)
    ensures forall id :: id in r.byID && r.byID[id].code == code ==> GetByCode(r, code) == Some(r.byID[id])
    ensures (forall id :: id in r.byID ==> r.byID[id].code != code) ==> GetByCode(r, code) == GetByID(r, Lower(code))
  {
  }

  // ---- runs ----

  const ID_LENGTH := 36
  const CODE_LENGTH := 8

  /** `pending`: ids a lookup has found expired and is about to delete. `ids`, `codes`: all ever used. `answers`: what
      the lookups showed. */
  datatype World = World(repo: Repo, pending: set<string>, ids: set<string>, codes: set<string>,
      answers: seq<Option<Room>>)

  datatype Event =
    | CreateRoom(room: Room)
    | LookupId(id: string)
    | LookupCode(code: string)
    | LazyDelete(id: string)
    | SetLock(id: string, locked: bool)
    | CountMembers(id: string, delta: int)
    | DeleteRoom(id: string)
    | Sweep

  const NEW := World(Repo(map[], map[]), {}, {}, {}, [])

  /** Ids and codes are never reused, and no id has the length of a code. */
  predicate IsNew(w: World, room: Room) {
    room.id !in w.ids && room.code !in w.codes && |room.id| == ID_LENGTH && |room.code| == CODE_LENGTH
  }

  function AtLookup(w: World, found: Option<Room>, now: int): World {
    w.(pending := if found.Some? && Expired(found.value, now) then w.pending + {found.value.id} else w.pending,
       answers := w.answers + [Shown(found, now)])
  }

  /** One event at a time. Without `sweeping` neither the periodic nor the lazy expiry deletes anything. */
  function Step(w: World, e: Event, now: int, sweeping: bool): World {
    match e
    case CreateRoom(room) =>
      if IsNew(w, room)
      then w.(repo := Create(w.repo, room, now), ids := w.ids + {room.id}, codes := w.codes + {room.code}) else w
    case LookupId(id) => AtLookup(w, GetByID(w.repo, id), now)
    case LookupCode(code) => AtLookup(w, GetByCode(w.repo, code), now)
    case LazyDelete(id) => if sweeping && id in w.pending then w.(repo := Delete(w.repo, id)) else w
    case SetLock(id, locked) => w.(repo := UpdateLock(w.repo, id, locked))
    case CountMembers(id, delta) => w.(repo := UpdateMemberCount(w.repo, id, delta))
    case DeleteRoom(id) => w.(repo := Delete(w.repo, id))
    case Sweep => if sweeping then w.(repo := Purge(w.repo, now)) else w
  }

  /** Events with their times. */
  function Run(es: seq<(Event, int)>, sweeping: bool): World {
    if es == [] then NEW
    else Step(Run(es[..|es| - 1], sweeping), es[|es| - 1].0, es[|es| - 1].1, sweeping)
  }

  predicate Monotone(es: seq<(Event, int)>) {
    forall i, j :: 0 <= i <= j < |es| ==> es[i].1 <= es[j].1
  }

  // ---- expiry is invisible ----

  ghost predicate Consistent(w: World, now: int) {
    && IndexOk(w.repo)
    && w.repo.byID.Keys <= w.ids && w.repo.byCode.Keys <= w.codes
    && (forall id :: id in w.ids ==> |id| == ID_LENGTH)
    && (forall code :: code in w.codes ==> |code| == CODE_LENGTH)
    && w.pending <= w.ids
    && (forall id :: id in w.pending && id in w.repo.byID ==> Expired(w.repo.byID[id], now))
  }

  /** The swept table is the other one without some rooms that have expired by now. */
  ghost predicate Matches(a: World, b: World, now: int) {
    && Consistent(a, now) && Consistent(b, now)
    && a.ids == b.ids && a.codes == b.codes && a.answers == b.answers
    && (forall id :: id in a.repo.byID ==> id in b.repo.byID && a.repo.byID[id] == b.repo.byID[id])
    && (forall id :: id in b.repo.byID && id !in a.repo.byID ==> Expired(b.repo.byID[id], now))
  }

  lemma LaterMatches(a: World, b: World, now: int, later: int)
    requires Matches(a, b, now) && now <= later
    ensures Matches(a, b, later)
  {
  }

  lemma CreateMatches(a: World, b: World, room: Room, now: int)
    requires Matches(a, b, now) && IsNew(a, room)
    ensures Matches(Step(a, CreateRoom(room), now, true), Step(b, CreateRoom(room), now, false), now)
  {
    CreateKeepsIndexIff(a.repo, room, now);
    CreateKeepsIndexIff(b.repo, room, now);
  }

  /** A lookup by code finds the same, or in one table an expired room and in the other nothing. */
  lemma CodeMatches(a: World, b: World, code: string, now: int)
    requires Matches(a, b, now)
    ensures Shown(GetByCode(a.repo, code), now) == Shown(GetByCode(b.repo, code), now)
  {
    if code in a.repo.byCode {
      var id := a.repo.byCode[code];
      assert a.repo.byID[id].code == code && b.repo.byID[id].code == code;
      assert b.repo.byCode[code] == id;
    } else if code in b.repo.byCode {
      assert Lower(code) !in a.repo.byID by {
        assert |Lower(code)| == CODE_LENGTH;
      }
      assert forall id :: id in a.repo.byID ==> a.repo.byID[id].code in a.repo.byCode;
      assert b.repo.byID[b.repo.byCode[code]].code == code;
    }
  }

  lemma FoundIsKnown(w: World, found: Option<Room>, now: int)
    requires Consistent(w, now) && (found.Some? ==>
             found.value.id in w.repo.byID && w.repo.byID[found.value.id] == found.value)
    ensures Consistent(AtLookup(w, found, now), now)
  {
  }

  lemma LookupMatches(a: World, b: World, e: Event, now: int)
    requires Matches(a, b, now) && (e.LookupId? || e.LookupCode?)
    ensures Matches(Step(a, e, now, true), Step(b, e, now, false), now)
  {
    if e.LookupId? {
      FoundIsKnown(a, GetByID(a.repo, e.id), now);
      FoundIsKnown(b, GetByID(b.repo, e.id), now);
    } else {
      CodeMatches(a, b, e.code, now);
      FoundIsKnown(a, GetByCode(a.repo, e.code), now);
      FoundIsKnown(b, GetByCode(b.repo, e.code), now);
    }
  }

  /** The same rooms, up to their lock flags and member counts. */
  ghost predicate SameShape(r: Repo, r': Repo) {
    && r'.byCode == r.byCode && r'.byID.Keys == r.byID.Keys
    && forall id :: id in r.byID ==> r'.byID[id].id == r.byID[id].id && r'.byID[id].code == r.byID[id].code
                                     && r'.byID[id].expiresAt == r.byID[id].expiresAt
  }

  lemma ReshapedIsConsistent(w: World, r: Repo, now: int)
    requires Consistent(w, now) && SameShape(w.repo, r)
    ensures Consistent(w.(repo := r), now)
  {
    assert IndexOk(r);
  }

  lemma ReshapedMatches(a: World, b: World, ra: Repo, rb: Repo, now: int)
    requires Matches(a, b, now) && SameShape(a.repo, ra) && SameShape(b.repo, rb)
    requires Within(ra, rb)
    ensures Matches(a.(repo := ra), b.(repo := rb), now)
  {
    ReshapedIsConsistent(a, ra, now);
    ReshapedIsConsistent(b, rb, now);
  }

  /** What two tables agree on, one being within the other. */
  ghost predicate Within(a: Repo, b: Repo) {
    forall id :: id in a.byID ==> id in b.byID && a.byID[id] == b.byID[id]
  }

  lemma LockReshapes(a: Repo, b: Repo, id: string, locked: bool)
    requires Within(a, b) && IndexOk(a)
    ensures SameShape(a, UpdateLock(a, id, locked)) && Within(UpdateLock(a, id, locked), UpdateLock(b, id, locked))
  {
  }

  lemma CountReshapes(a: Repo, b: Repo, id: string, delta: int)
    requires Within(a, b) && IndexOk(a)
    ensures SameShape(a, UpdateMemberCount(a, id, delta))
    ensures Within(UpdateMemberCount(a, id, delta), UpdateMemberCount(b, id, delta))
  {
  }

  lemma LockMatches(a: World, b: World, id: string, locked: bool, now: int)
    requires Matches(a, b, now)
    ensures Matches(Step(a, SetLock(id, locked), now, true), Step(b, SetLock(id, locked), now, false), now)
  {
    LockReshapes(a.repo, b.repo, id, locked);
    LockReshapes(b.repo, b.repo, id, locked);
    ReshapedMatches(a, b, UpdateLock(a.repo, id, locked), UpdateLock(b.repo, id, locked), now);
  }

  lemma CountMatches(a: World, b: World, id: string, delta: int, now: int)
    requires Matches(a, b, now)
    ensures Matches(Step(a, CountMembers(id, delta), now, true), Step(b, CountMembers(id, delta), now, false), now)
  {
    CountReshapes(a.repo, b.repo, id, delta);
    CountReshapes(b.repo, b.repo, id, delta);
    ReshapedMatches(a, b, UpdateMemberCount(a.repo, id, delta), UpdateMemberCount(b.repo, id, delta), now);
  }

  lemma DeleteMatches(a: World, b: World, id: string, now: int)
    requires Matches(a, b, now)
    ensures Matches(Step(a, DeleteRoom(id), now, true), Step(b, DeleteRoom(id), now, false), now)
  {
    DeleteKeepsIndex(a.repo, id);
    DeleteKeepsIndex(b.repo, id);
  }

  lemma ExpiryMatches(a: World, b: World, e: Event, now: int)
    requires Matches(a, b, now) && (e.LazyDelete? || e.Sweep?)
    ensures Matches(Step(a, e, now, true), Step(b, e, now, false), now)
  {
    if e.LazyDelete? {
      DeleteKeepsIndex(a.repo, e.id);
    } else {
      PurgeKeepsIndex(a.repo, now);
    }
  }

  lemma {:induction false} RunsMatch(es: seq<(Event, int)>, now: int)
    requires Monotone(es) && (forall i :: 0 <= i < |es| ==> es[i].1 <= now)
    ensures Matches(Run(es, true), Run(es, false), now)
  {
    if es != [] {
      var n := |es| - 1;
      var (e, t) := es[n];
      RunsMatch(es[..n], t);
      var a, b := Run(es[..n], true), Run(es[..n], false);
      match e {
        case CreateRoom(room) => if IsNew(a, room) { CreateMatches(a, b, room, t); }
        case LookupId(_) => LookupMatches(a, b, e, t);
        case LookupCode(_) => LookupMatches(a, b, e, t);
        case LazyDelete(_) => ExpiryMatches(a, b, e, t);
        case Sweep => ExpiryMatches(a, b, e, t);
        case SetLock(id, locked) => LockMatches(a, b, id, locked, t);
        case CountMembers(id, delta) => CountMatches(a, b, id, delta, t);
        case DeleteRoom(id) => DeleteMatches(a, b, id, t);
      }
      LaterMatches(Run(es, true), Run(es, false), t, now);
    }
  }

  /** Expiry is invisible: however periodic sweeps and lazy deletes interleave with everything else, every lookup by id
      or code succeeds, and shows the same room with the same lock flag, exactly as in a table that deletes no expired
      room. */
  lemma SweepsAreInvisible(es: seq<(Event, int)>)
    requires Monotone(es)
    ensures Run(es, true).answers == Run(es, false).answers
  {
    if es != [] {
      RunsMatch(es, es[|es| - 1].1);
    }
  }

  /** The code index stays exact through every such run. */
  lemma IndexStaysExact(es: seq<(Event, int)>)
    requires Monotone(es)
    ensures IndexOk(Run(es, true).repo)
  {
    if es != [] {
      RunsMatch(es, es[|es| - 1].1);
    }
  }
}

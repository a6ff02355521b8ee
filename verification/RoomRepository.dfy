/** The room table's objects, updated in place; `RoomStore` is its meaning. */
module RoomRepository {
  import opened Wrappers
  import opened RoomStore

  class RoomRecord {
    const id: string
    const code: string
    const settings: Settings
    const expiresAt: Option<int>
    var locked: bool
    var memberCount: int
    var createdAt: int

    constructor (room: Room)
      ensures View() == room
    {
      id, code, settings, expiresAt := room.id, room.code, room.settings, room.expiresAt;
      locked, memberCount, createdAt := room.locked, room.memberCount, room.createdAt;
    }

    function View(): Room
      reads this
    {
      Room(id, code, settings, expiresAt, locked, memberCount, createdAt)
    }
  }

  function Views(rooms: map<string, RoomRecord>): map<string, Room>
    reads rooms.Values
  {
    map id | id in rooms :: rooms[id].View()
  }

  class MemoryRoomRepository {
    var byID: map<string, RoomRecord>
    var byCode: map<string, string>

    /** Every record is filed under its own id, so no two ids share one. */
    ghost predicate Valid()
      reads this
    {
      forall id :: id in byID ==> byID[id].id == id
    }

    function View(): Repo
      reads this, byID.Values
    {
      Repo(Views(byID), byCode)
    }

    constructor ()
      ensures Valid() && View() == Repo(map[], map[]) && fresh(byID.Values)
    {
      byID, byCode := map[], map[];
    }

    /** Stores the caller's own record, not a copy. */
    method Create(room: RoomRecord, now: int) returns (ok: bool)
      requires Valid()
      modifies this, room
      ensures Valid() && ok == (room.id != "")
      ensures View() == RoomStore.Create(old(View()), old(room.View()), now)
      ensures room.View() == if ok then old(room.View()).(createdAt := now, memberCount := 0) else old(room.View())
      ensures byID == if ok then old(byID)[room.id := room] else old(byID)
    {
      if room.id == "" {
        return false;
      }
      room.createdAt := now;
      room.memberCount := 0;
      ghost var filed := old(room.View()).(createdAt := now, memberCount := 0);
      assert room.View() == filed;
      byID := byID[room.id := room];
      byCode := byCode[room.code := room.id];
      assert Views(byID) == old(View()).byID[room.id := filed];
      return true;
    }

    method GetByID(id: string) returns (found: Option<Room>)
      requires Valid()
      ensures found == RoomStore.GetByID(View(), id)
    {
      if id in byID {
        return Some(byID[id].View());
      }
      return None;
    }

    method GetByCode(code: string) returns (found: Option<Room>)
      requires Valid()
      ensures found == RoomStore.GetByCode(View(), code)
    {
      if code !in byCode {
        if Lower(code) in byID {
          return Some(byID[Lower(code)].View());
        }
        return None;
      }
      if byCode[code] !in byID {
        return None;
      }
      return Some(byID[byCode[code]].View());
    }

    method UpdateLock(id: string, locked: bool) returns (ok: bool)
      requires Valid()
      modifies byID.Values
      ensures Valid() && ok == (id in byID) && View() == RoomStore.UpdateLock(old(View()), id, locked)
    {
      if id !in byID {
        return false;
      }
      byID[id].locked := locked;
      return true;
    }

    method UpdateMemberCount(id: string, delta: int)
      requires Valid()
      modifies byID.Values
      ensures Valid() && View() == RoomStore.UpdateMemberCount(old(View()), id, delta)
    {
      if id !in byID {
        return;
      }
      byID[id].memberCount := byID[id].memberCount + delta;
      if byID[id].memberCount < 0 {
        byID[id].memberCount := 0;
      }
    }

    method Delete(id: string) returns (ok: bool)
      requires Valid()
      modifies this
      ensures Valid() && ok == (id in old(byID)) && View() == RoomStore.Delete(old(View()), id)
      ensures id !in byID && forall k :: k in old(byID) && k != id ==> k in byID
      ensures forall k :: k in byID ==> k in old(byID) && byID[k] == old(byID)[k]
    {
      if id !in byID {
        return false;
      }
      byCode := byCode - {byID[id].code};
      byID := byID - {id};
      return true;
    }

    /** Also the body of the periodic loop, which ignores the count. */
    method DeleteExpired(now: int) returns (count: nat)
      requires Valid()
      modifies this
      ensures Valid() && View() == Purge(old(View()), now) && count == |ExpiredIds(old(View()), now)|
      ensures forall k :: k in byID ==> k in old(byID) && byID[k] == old(byID)[k]
    {
      count := 0;
      var ids := byID.Keys;
      ghost var was := View();
      while ids != {}
        invariant ids <= was.byID.Keys && Valid()
        invariant View() == PurgedBut(was, ids, now) && count == |ExpiredIds(was, now) - ids|
        invariant forall k :: k in byID ==> k in old(byID) && byID[k] == old(byID)[k]
        decreases ids
      {
        var id :| id in ids;
        OneMore(was, ids, id, now);
        assert byID[id].View() == View().byID[id];
        if byID[id].expiresAt.Some? && now > byID[id].expiresAt.value {
          var _ := Delete(id);
          count := count + 1;
        }
        ids := ids - {id};
      }
    }
  }

  /** A pass of the expiry loop that still has the ids `left` to visit. */
  function PurgedBut(r: Repo, left: set<string>, now: int): Repo {
    var gone := ExpiredIds(r, now) - left;
    Repo(r.byID - gone, r.byCode - CodesOf(r, gone))
  }

  lemma OneMore(r: Repo, left: set<string>, id: string, now: int)
    requires id in left && id in r.byID
    ensures var part, more := PurgedBut(r, left, now), left - {id};
      && id in part.byID && part.byID[id] == r.byID[id]
      && (if Expired(r.byID[id], now)
          then PurgedBut(r, more, now) == RoomStore.Delete(part, id)
               && |ExpiredIds(r, now) - more| == |ExpiredIds(r, now) - left| + 1
          else PurgedBut(r, more, now) == part && ExpiredIds(r, now) - more == ExpiredIds(r, now) - left)
  {
    var gone := ExpiredIds(r, now) - left;
    if Expired(r.byID[id], now) {
      assert ExpiredIds(r, now) - (left - {id}) == gone + {id};
      assert CodesOf(r, gone + {id}) == CodesOf(r, gone) + {r.byID[id].code};
    } else {
      assert ExpiredIds(r, now) - (left - {id}) == gone;
    }
  }
}

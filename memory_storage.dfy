/**
  `MemoryStorage`: cache entries kept as properties of a plain object. A read
  that finds a stale entry clears it; a write of an already stale entry is
  refused.
*/
module MemoryStore {
  import opened Wrappers
  import opened CacheData

  /** The exception `set(key, null)` raises. */
  datatype WriteFault = NullData

  class MemoryStorage<T> {
    /** The keys currently holding an entry (a cleared key holds `undefined`, i.e. is absent). */
    var cells: map<string, Entry<T>>

    constructor ()
      ensures cells == map[]
    {
      cells := map[];
    }

    /** `get`: the entry at `key` if it is fresh; a stale one is cleared and not returned. */
    method Get(key: string, now: int) returns (r: Option<Entry<T>>)
      modifies this
      ensures key !in old(cells) ==> r == None && cells == old(cells)
      ensures key in old(cells) && Fresh(old(cells)[key], now) ==>
                r == Some(old(cells)[key]) && cells == old(cells)
      ensures key in old(cells) && !Fresh(old(cells)[key], now) ==>
                r == None && cells == old(cells) - {key}
    {
      if key !in cells {
        return None;
      }
      var raw := cells[key];
      var data := if Fresh(raw, now) then Some(raw) else None;
      if data.None? {
        cells := cells - {key};
      }
      return data;
    }

    /**
      `set`: stores a fresh entry and returns it; a stale one is refused and
      nothing is written; `null` throws when its `lastUpdate` is read.
    */
    method Set(key: string, data: Option<Entry<T>>, now: int) returns (r: Result<Option<Entry<T>>, WriteFault>)
      modifies this
      ensures data.None? ==> r == Failure(NullData) && cells == old(cells)
      ensures data.Some? && Fresh(data.value, now) ==> r == Success(data) && cells == old(cells)[key := data.value]
      ensures data.Some? && !Fresh(data.value, now) ==> r == Success(None) && cells == old(cells)
    {
      if data.None? {
        return Failure(NullData);
      }
      var value := if Fresh(data.value, now) then data else None;
      if value.None? {
        return Success(None);
      }
      cells := cells[key := data.value];
      return Success(data);
    }
  }

  /** A fresh entry written at `key` is what a read of `key` at the same instant returns. */
  method SetThenGet<T>(store: MemoryStorage<T>, key: string, data: Entry<T>, now: int)
    returns (written: Result<Option<Entry<T>>, WriteFault>, read: Option<Entry<T>>)
    requires Fresh(data, now)
    modifies store
    ensures written == Success(Some(data)) && read == Some(data)
    ensures store.cells == old(store.cells)[key := data]
  {
    written := store.Set(key, Some(data), now);
    read := store.Get(key, now);
  }

  /**
    A stored entry is served by every read before `lastUpdate + howLongIsItFresh`
    and evicted by the first read from that instant on.
  */
  method ReadAgainstDeadline<T>(store: MemoryStorage<T>, key: string, now: int) returns (r: Option<Entry<T>>)
    requires key in store.cells
    modifies store
    ensures var e := old(store.cells)[key];
            now < e.lastUpdate + e.howLongIsItFresh ==> r == Some(e) && store.cells == old(store.cells)
    ensures var e := old(store.cells)[key];
            now >= e.lastUpdate + e.howLongIsItFresh ==> r == None && key !in store.cells
  {
    r := store.Get(key, now);
  }

  /**
    An entry accepted at `writtenAt` and read under the same key at a later
    `readAt` comes back exactly when `readAt` is before its deadline; otherwise
    the read removes it.
  */
  method WriteThenReadLater<T>(store: MemoryStorage<T>, key: string, data: Entry<T>, writtenAt: int, readAt: int)
    returns (read: Option<Entry<T>>)
    requires Fresh(data, writtenAt) && writtenAt <= readAt
    modifies store
    ensures read == if readAt < data.lastUpdate + data.howLongIsItFresh then Some(data) else None
    ensures key in store.cells <==> readAt < data.lastUpdate + data.howLongIsItFresh
  {
    var _ := store.Set(key, Some(data), writtenAt);
    read := store.Get(key, readAt);
  }
}

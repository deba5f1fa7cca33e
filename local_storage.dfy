/**
  `LocalStorage`: cache entries serialised as JSON text in the browser's
  `localStorage`, under the cache key itself. Same policy as `MemoryStorage`:
  a stale record found by a read is removed, a stale write is refused.
  `JSON.stringify` and `JSON.parse` are parameters of the store.
*/
module LocalStore {
  import opened Wrappers
  import opened CacheData
  import opened BrowserStorage

  /** What `JSON.parse` followed by reading `lastUpdate` and `howLongIsItFresh` makes of a stored text. */
  datatype Parsed<T> =
    | Record(entry: Entry<T>)  // an object whose two timestamps are numbers or coerce to integers (`null`, numeric text, booleans)
    | NoTimestamps             // valid JSON whose timestamps make `isFresh` false (`undefined` or text that is not a number, coerced to NaN)
    | Throws                   // not JSON, or JSON `null`: the parse or the field access throws

  /** The exception a read lets escape. */
  datatype ReadFault = ParseError

  class LocalStorage<T> {
    const store: WebStorage
    const stringify: Entry<T> -> string
    const parse: string -> Parsed<T>

    constructor (store: WebStorage, stringify: Entry<T> -> string, parse: string -> Parsed<T>)
      ensures this.store == store && this.stringify == stringify && this.parse == parse
    {
      this.store := store;
      this.stringify := stringify;
      this.parse := parse;
    }

    /** `_parseDataWithExpirationDate`: the stored entry if it is a fresh record, `null` otherwise. */
    function ParseWithExpiration(text: string, now: int): (r: Result<Option<Entry<T>>, ReadFault>)
      ensures text == "" ==> r == Success(None)
      ensures r.Failure? <==> text != "" && parse(text).Throws?
      ensures (r.Success? && r.value.Some?) <==> text != "" && parse(text).Record? && Fresh(parse(text).entry, now)
      ensures r.Success? && r.value.Some? ==> r.value.value == parse(text).entry
    {
      if text == "" then Success(None)
      else match parse(text)
        case Throws => Failure(ParseError)
        case NoTimestamps => Success(None)
        case Record(e) => if Fresh(e, now) then Success(Some(e)) else Success(None)
    }

    /** `_stringifyDataWithExpirationDate`: the JSON text of a present, fresh entry; `null` otherwise. */
    function StringifyWithExpiration(data: Option<Entry<T>>, now: int): (r: Option<string>)
      ensures r.Some? <==> data.Some? && Fresh(data.value, now)
      ensures r.Some? ==> r.value == stringify(data.value)
    {
      if data.None? || !Fresh(data.value, now) then None else Some(stringify(data.value))
    }

    /** When parsing inverts serialising, a fresh entry survives the trip through its text. */
    lemma ParseInvertsStringify(e: Entry<T>, now: int)
      requires parse(stringify(e)) == Record(e) && stringify(e) != ""
      requires Fresh(e, now)
      ensures StringifyWithExpiration(Some(e), now).Some?
      ensures ParseWithExpiration(StringifyWithExpiration(Some(e), now).value, now) == Success(Some(e))
    {
    }

    /** `get`: no record or an empty one gives `null`; a fresh record gives its entry; any other record is removed. */
    method Get(key: string, now: int) returns (r: Result<Option<Entry<T>>, ReadFault>)
      modifies store
      ensures key !in old(store.items) || old(store.items)[key] == "" ==>
                r == Success(None) && store.items == old(store.items)
      ensures key in old(store.items) && old(store.items)[key] != "" ==>
                var text := old(store.items)[key];
                r == ParseWithExpiration(text, now) &&
                store.items == if r == Success(None) then old(store.items) - {key} else old(store.items)
    {
      var rawData := store.GetItem(key);
      if rawData.None? || rawData.value == "" {
        return Success(None);
      }
      var data := ParseWithExpiration(rawData.value, now);
      if data.Success? && data.value.None? {
        store.RemoveItem(key);
      }
      return data;
    }

    /** `set`: a present, fresh entry is written as text and returned; anything else writes nothing. */
    method Set(key: string, data: Option<Entry<T>>, now: int) returns (r: Option<Entry<T>>)
      modifies store
      ensures data.Some? && Fresh(data.value, now) ==>
                r == data && store.items == old(store.items)[key := stringify(data.value)]
      ensures !(data.Some? && Fresh(data.value, now)) ==>
                r == None && store.items == old(store.items)
    {
      var value := StringifyWithExpiration(data, now);
      if value.None? {
        return None;
      }
      store.SetItem(key, value.value);
      return data;
    }
  }

  /** A fresh write followed by a read of the same key at the same instant returns the entry written. */
  method SetThenGet<T>(ls: LocalStorage<T>, key: string, e: Entry<T>, now: int)
    returns (written: Option<Entry<T>>, read: Result<Option<Entry<T>>, ReadFault>)
    requires ls.parse(ls.stringify(e)) == Record(e) && ls.stringify(e) != ""
    requires Fresh(e, now)
    modifies ls.store
    ensures written == Some(e) && read == Success(Some(e))
    ensures ls.store.items == old(ls.store.items)[key := ls.stringify(e)]
  {
    written := ls.Set(key, Some(e), now);
    ls.ParseInvertsStringify(e, now);
    read := ls.Get(key, now);
  }
}

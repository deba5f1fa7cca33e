/**
  The cached record both stores keep (`dataCache`: the payload, when it was
  written, and how long it stays usable) and the freshness rule they share.
*/
module CacheData {

  datatype Entry<T> = Entry(data: T, lastUpdate: int, howLongIsItFresh: int)

  /** `isFresh`: less time than `howLongIsItFresh` has passed since `lastUpdate` (times in milliseconds). */
  predicate IsFresh(lastUpdate: int, howLongIsItFresh: int, now: int)
  {
    now - lastUpdate < howLongIsItFresh
  }

  predicate Fresh<T>(e: Entry<T>, now: int)
  {
    IsFresh(e.lastUpdate, e.howLongIsItFresh, now)
  }

  /** Once stale, an entry never becomes fresh again, which is what makes evicting it on read safe. */
  lemma StaleStaysStale(lastUpdate: int, howLongIsItFresh: int, now: int, later: int)
    requires !IsFresh(lastUpdate, howLongIsItFresh, now)
    requires now <= later
    ensures !IsFresh(lastUpdate, howLongIsItFresh, later)
  {
  }
}

/**
 * `fetch_data_with_cache` and the emptiness check of `get_data_from_yahoo`.
 * The directory of pickled frames is a map from key string to frame; the
 * Yahoo download is a function supplied by the caller.
 */
module PriceCache {
  import opened Wrappers
  import opened CacheKeys

  /** One row of a downloaded price frame. */
  datatype Bar = Bar(date: string, open: real, high: real, low: real, close: real, volume: real)

  /** A downloaded price frame; it is `empty` when it has no rows. */
  type Frame = seq<Bar>

  /** The arguments of one call to the external download. */
  datatype Request = Request(stock: string, start: Timestamp, end: Timestamp)

  /** The `ValueError` raised for a stock with no data in the window. */
  datatype NoData = NoData(stock: string, start: Timestamp, end: Timestamp)

  /** The external download (`yf.download(stock, start=, end=)`). */
  type Download = (string, Timestamp, Timestamp) -> Frame

  class Cache {
    /** The cache directory: one stored frame per key string. */
    var store: map<string, Frame>
    /** Every call made to the external download, oldest first. */
    ghost var downloads: seq<Request>

    constructor (initial: map<string, Frame>)
      ensures store == initial && downloads == []
    {
      store := initial;
      downloads := [];
    }

    /**
     * On a hit, the stored frame is returned and nothing is downloaded or
     * written. On a miss, the frame is downloaded with the full timestamps,
     * stored under the date-only key, and returned. Either way the key is
     * present afterwards and holds the returned frame.
     */
    method FetchWithCache(stock: string, start: Timestamp, end: Timestamp, download: Download)
      returns (df: Frame)
      requires start.Valid() && end.Valid()
      modifies this
      ensures var key := CacheKey(stock, start, end);
        if key in old(store) then
          && df == old(store)[key]
          && store == old(store)
          && downloads == old(downloads)
        else
          && df == download(stock, start, end)
          && store == old(store)[key := df]
          && downloads == old(downloads) + [Request(stock, start, end)]
      ensures CacheKey(stock, start, end) in store && store[CacheKey(stock, start, end)] == df
      ensures forall k :: k in old(store) ==> k in store && store[k] == old(store)[k]
    {
      var key := CacheKey(stock, start, end);
      if key in store {
        df := store[key];
        return;
      }
      df := download(stock, start, end);
      downloads := downloads + [Request(stock, start, end)];
      store := store[key := df];
    }
  }

  /**
   * Fetches through the cache, then raises when the frame has no rows.
   * The fetched frame is cached before the check, so an empty download
   * is stored, and a later call with the same key raises without downloading.
   */
  method GetDataFromYahoo(cache: Cache, stock: string, start: Timestamp, end: Timestamp,
                          download: Download)
    returns (r: Result<Frame, NoData>)
    requires start.Valid() && end.Valid()
    modifies cache
    ensures var key := CacheKey(stock, start, end);
      && key in cache.store
      && (r.Err? <==> cache.store[key] == [])
      && (r.Ok? ==> r.value == cache.store[key])
      && (r.Err? ==> r.error == NoData(stock, start, end))
      && cache.store == old(cache.store)[key := cache.store[key]]
      && (key in old(cache.store) ==> cache.store[key] == old(cache.store)[key]
                                      && cache.downloads == old(cache.downloads))
      && (key !in old(cache.store) ==> cache.store[key] == download(stock, start, end)
                                       && cache.downloads == old(cache.downloads) + [Request(stock, start, end)])
  {
    var df := cache.FetchWithCache(stock, start, end, download);
    if |df| == 0 {
      return Err(NoData(stock, start, end));
    }
    r := Ok(df);
  }

  /**
   * Two calls whose timestamps fall on the same calendar dates: the second
   * is served from the cache and returns the frame of the first; the
   * download runs once if the first call missed and never if it hit.
   */
  method FetchTwice(cache: Cache, stock: string, start1: Timestamp, end1: Timestamp,
                    start2: Timestamp, end2: Timestamp, download: Download)
    returns (first: Frame, second: Frame)
    requires start1.Valid() && end1.Valid() && start2.Valid() && end2.Valid()
    requires SameDate(start1, start2) && SameDate(end1, end2)
    modifies cache
    ensures second == first
    ensures CacheKey(stock, start1, end1) in old(cache.store) ==> cache.downloads == old(cache.downloads)
    ensures CacheKey(stock, start1, end1) !in old(cache.store) ==>
      cache.downloads == old(cache.downloads) + [Request(stock, start1, end1)]
    ensures cache.store == old(cache.store)[CacheKey(stock, start1, end1) := first]
  {
    first := cache.FetchWithCache(stock, start1, end1, download);
    KeyIdentifiesRequest(stock, start1, end1, stock, start2, end2);
    second := cache.FetchWithCache(stock, start2, end2, download);
  }
}

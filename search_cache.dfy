/** The cache of search results offered to a user for selection: each entry
    is kept under a random id until its absolute expiry time. */
module SearchCache {
  import opened Wrappers

  type SelectionId = string

  const DEFAULT_TTL: int := 60000

  /** `{ tracks, userId, guildId, expiresAt }`; the tracks are left abstract. */
  datatype Selection<T> = Selection(tracks: seq<T>, userId: string, guildId: string, expiresAt: int)

  /** `now > entry.expiresAt`: an entry is still good at its expiry instant. */
  predicate Expired<T>(e: Selection<T>, now: int) {
    now > e.expiresAt
  }

  /** What the sweep leaves: exactly the entries that have not expired. */
  function Live<T>(cache: map<SelectionId, Selection<T>>, now: int): (live: map<SelectionId, Selection<T>>)
    ensures forall id :: id in live <==> id in cache && !Expired(cache[id], now)
    ensures forall id :: id in live ==> live[id] == cache[id]
  {
    map id | id in cache && !Expired(cache[id], now) :: cache[id]
  }

  /** What `getSelection(id)` returns at time `now`. */
  function Lookup<T>(cache: map<SelectionId, Selection<T>>, id: SelectionId, now: int): (r: Option<Selection<T>>)
    ensures r.Some? <==> id in cache && !Expired(cache[id], now)
    ensures r.Some? ==> r.value == cache[id]
  {
    if id !in cache then None else if Expired(cache[id], now) then None else Some(cache[id])
  }

  /** The cache after `getSelection(id)`: an expired entry is deleted. */
  function AfterLookup<T>(cache: map<SelectionId, Selection<T>>, id: SelectionId, now: int): (after: map<SelectionId, Selection<T>>)
    ensures id in cache && Expired(cache[id], now) ==> after == cache - {id}
    ensures !(id in cache && Expired(cache[id], now)) ==> after == cache
  {
    if id in cache && Expired(cache[id], now) then cache - {id} else cache
  }

  /** The sweep does not change what any lookup at the same time returns. */
  lemma LookupAfterSweep<T>(cache: map<SelectionId, Selection<T>>, id: SelectionId, now: int)
    ensures Lookup(Live(cache, now), id, now) == Lookup(cache, id, now)
  {
  }

  /** A lookup's own deletion does not change what it returns next time. */
  lemma LookupStable<T>(cache: map<SelectionId, Selection<T>>, id: SelectionId, now: int, later: int)
    requires later >= now
    ensures Lookup(AfterLookup(cache, id, now), id, later) == Lookup(cache, id, later)
  {
  }

  /** Sweeping at two times is sweeping at the later one. */
  lemma SweepTwice<T>(cache: map<SelectionId, Selection<T>>, now: int, later: int)
    requires later >= now
    ensures Live(Live(cache, now), later) == Live(cache, later)
  {
    var a := Live(Live(cache, now), later);
    var b := Live(cache, later);
    assert forall id :: id in a <==> id in b;
    assert a.Keys == b.Keys;
  }

  /** A fresh selection is found until its expiry and not after it. */
  lemma CreatedFoundUntilExpiry<T>(cache: map<SelectionId, Selection<T>>, id: SelectionId, s: Selection<T>, now: int, ttl: int, at: int)
    requires s.expiresAt == now + ttl
    ensures Lookup(cache[id := s], id, at) == if at <= now + ttl then Some(s) else None
  {
  }

  /** The module-level `cache` map. */
  class Store<T> {
    var cache: map<SelectionId, Selection<T>>

    constructor ()
      ensures cache == map[]
    {
      cache := map[];
    }

    /** `createSelection(tracks, userId, guildId, ttl)`: the id drawn by
        `crypto.randomBytes` is the parameter `id`, and `Date.now()` is `now`.
        The entry is stored under it with expiry `now + ttl`. */
    method CreateSelection(id: SelectionId, tracks: seq<T>, userId: string, guildId: string,
                           now: int, ttl: int := DEFAULT_TTL) returns (r: SelectionId)
      modifies this
      ensures r == id
      ensures cache == old(cache)[id := Selection(tracks, userId, guildId, now + ttl)]
    {
      cache := cache[id := Selection(tracks, userId, guildId, now + ttl)];
      r := id;
    }

    /** `getSelection(id)` at time `now`. */
    method GetSelection(id: SelectionId, now: int) returns (r: Option<Selection<T>>)
      modifies this
      ensures r == Lookup(old(cache), id, now)
      ensures cache == AfterLookup(old(cache), id, now)
    {
      if id !in cache {
        return None;
      }
      var entry := cache[id];
      if now > entry.expiresAt {
        cache := cache - {id};
        return None;
      }
      return Some(entry);
    }

    /** `deleteSelection(id)`: only that id goes. */
    method DeleteSelection(id: SelectionId)
      modifies this
      ensures cache == old(cache) - {id}
    {
      cache := cache - {id};
    }

    /** The body of the two-minute interval: every expired entry is deleted. */
    method Sweep(now: int)
      modifies this
      ensures cache == Live(old(cache), now)
    {
      var pending := cache.Keys;
      while pending != {}
        invariant pending <= old(cache).Keys
        invariant forall id :: id in cache <==> id in old(cache) && (id in pending || !Expired(old(cache)[id], now))
        invariant forall id :: id in cache ==> cache[id] == old(cache)[id]
        decreases |pending|
      {
        var id :| id in pending;
        if now > cache[id].expiresAt {
          cache := cache - {id};
        }
        pending := pending - {id};
      }
      assert cache.Keys == Live(old(cache), now).Keys;
    }
  }
}

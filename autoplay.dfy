/** The autoplay engine: the module-level maps and set of the autoplay
    module as one object, and the operations that change them. Lavalink
    searches, the Last.fm request and the `sort(() => Math.random() - 0.5)`
    shuffles are parameters; `shuffleArray`'s draws are `Math.random()`
    values. */
module Autoplay {
  import opened Wrappers
  import opened Strings
  import opened Random
  import opened ArtistNames
  import opened AutoplayRules
  import GuildConfig

  /** `config.autoplay ?? false`, read as the callers read it. */
  predicate AutoplayOn(c: GuildConfig.Config) {
    GuildConfig.AUTOPLAY in c && GuildConfig.Truthy(c[GuildConfig.AUTOPLAY])
  }

  /** The store after `setConfig(guildId, { autoplay: enabled })`. */
  function StoreWithAutoplay(store: map<GuildId, GuildConfig.Config>, g: GuildId, enabled: bool): map<GuildId, GuildConfig.Config> {
    if g == "" then store
    else store[g := GuildConfig.Updated(store, g, map[GuildConfig.AUTOPLAY := GuildConfig.Bool(enabled)])]
  }

  /** Autoplay is off until a guild turns it on. */
  lemma OffByDefault(store: map<GuildId, GuildConfig.Config>, g: GuildId)
    requires g !in store
    ensures !AutoplayOn(GuildConfig.ConfigOf(store, g))
  {
    GuildConfig.DefaultFacts();
    GuildConfig.DeleteThenDefaults(store, g);
    assert store - {g} == store;
  }

  /** What `setAutoplay` writes is what `isAutoplayEnabled` reads back. */
  lemma SetAutoplayReadsBack(store: map<GuildId, GuildConfig.Config>, g: GuildId, enabled: bool)
    requires g != ""
    ensures AutoplayOn(GuildConfig.ConfigOf(StoreWithAutoplay(store, g, enabled), g)) == enabled
  {
    GuildConfig.SetThenGet(store, g, map[GuildConfig.AUTOPLAY := GuildConfig.Bool(enabled)]);
  }

  /** Whether `handleAutoplay` gets past its early returns: autoplay on,
      nothing queued, nothing playing and no round running for the guild. */
  predicate Startable(on: bool, queue: seq<Track>, current: Option<Track>, playing: bool, running: bool) {
    on && queue == [] && !(current.Some? && playing) && !running
  }

  /** The player the engine queues into. Nothing but `queue` is changed here;
      `play()` is the caller's to do, and `HandleAutoplay` reports whether it
      is called. */
  class Player {
    const guildId: GuildId
    var queue: seq<Track>
    var current: Option<Track>
    var playing: bool
    var paused: bool

    constructor (guildId: GuildId)
      ensures this.guildId == guildId && queue == [] && current == None && !playing && !paused
    {
      this.guildId := guildId;
      queue := [];
      current := None;
      playing := false;
      paused := false;
    }

    /** `queue.add(track)`: the track goes to the end of the queue. */
    method Add(t: Track)
      modifies this
      ensures queue == old(queue) + [t]
      ensures current == old(current) && playing == old(playing) && paused == old(paused)
    {
      queue := queue + [t];
    }
  }

  class Engine {
    var recentTracks: map<GuildId, seq<RecentEntry>>
    var similarArtistsCache: map<string, CacheEntry>
    var preferredSeed: map<GuildId, TrackInfo>
    var autoplayInProgress: set<GuildId>
    /** The guild settings the autoplay flag is kept in. */
    const configs: GuildConfig.ConfigStore
    /** Whether `LASTFM_API_KEY` is set. */
    const hasApiKey: bool

    ghost predicate Valid()
      reads this
    {
      && (forall g :: g in recentTracks ==> RecentOk(recentTracks[g]))
      && CacheOk(similarArtistsCache)
    }

    constructor (configs: GuildConfig.ConfigStore, hasApiKey: bool)
      ensures Valid()
      ensures this.configs == configs && this.hasApiKey == hasApiKey
      ensures recentTracks == map[] && similarArtistsCache == map[] && preferredSeed == map[] && autoplayInProgress == {}
    {
      this.configs := configs;
      this.hasApiKey := hasApiKey;
      recentTracks := map[];
      similarArtistsCache := map[];
      preferredSeed := map[];
      autoplayInProgress := {};
    }

    // ------------------------------------------------------------ settings

    /** `isAutoplayEnabled(guildId)`; reading the settings may migrate them. */
    method IsAutoplayEnabled(g: GuildId) returns (on: bool)
      modifies configs
      ensures on == AutoplayOn(GuildConfig.ConfigOf(old(configs.store), g))
      ensures configs.store == GuildConfig.StoreAfterGet(old(configs.store), g)
    {
      var c := configs.GetConfig(g);
      on := AutoplayOn(c);
    }

    /** `setAutoplay(guildId, enabled)`: turning it off also forgets the
        guild's history. */
    method SetAutoplay(g: GuildId, enabled: bool)
      requires Valid()
      modifies this, configs
      ensures Valid()
      ensures configs.store == StoreWithAutoplay(old(configs.store), g, enabled)
      ensures recentTracks == if enabled then old(recentTracks) else old(recentTracks) - {g}
      ensures similarArtistsCache == old(similarArtistsCache) && preferredSeed == old(preferredSeed)
      ensures autoplayInProgress == old(autoplayInProgress)
    {
      var written := configs.SetConfig(g, map[GuildConfig.AUTOPLAY := GuildConfig.Bool(enabled)]);
      if !enabled {
        recentTracks := recentTracks - {g};
      }
    }

    /** `toggleAutoplay(guildId)`: the setting flips and the new value is
        returned; for a real guild, reading it again gives that value. */
    method ToggleAutoplay(g: GuildId) returns (now: bool)
      requires Valid()
      modifies this, configs
      ensures Valid()
      ensures now == !AutoplayOn(GuildConfig.ConfigOf(old(configs.store), g))
      ensures g != "" ==> AutoplayOn(GuildConfig.ConfigOf(configs.store, g)) == now
      ensures configs.store == StoreWithAutoplay(GuildConfig.StoreAfterGet(old(configs.store), g), g, now)
      ensures recentTracks == if now then old(recentTracks) else old(recentTracks) - {g}
      ensures similarArtistsCache == old(similarArtistsCache) && preferredSeed == old(preferredSeed)
      ensures autoplayInProgress == old(autoplayInProgress)
    {
      var current := IsAutoplayEnabled(g);
      SetAutoplay(g, !current);
      now := !current;
      if g != "" {
        SetAutoplayReadsBack(GuildConfig.StoreAfterGet(old(configs.store), g), g, now);
      }
    }

    // ------------------------------------------------------------ history

    /** `addToRecentTracks(guildId, track)`. */
    method AddToRecentTracks(g: GuildId, track: Track)
      requires Valid()
      modifies this
      ensures Valid()
      ensures recentTracks == AddRecent(old(recentTracks), g, track)
      ensures similarArtistsCache == old(similarArtistsCache) && preferredSeed == old(preferredSeed)
      ensures autoplayInProgress == old(autoplayInProgress)
    {
      if track.info.None? {
        return;
      }
      var recent := if g in recentTracks then recentTracks[g] else [];
      if Recorded(recent, track.info.value.identifier) {
        return;
      }
      var entry := EntryOf(track.info.value);
      recent := recent + [entry];
      if |recent| > MAX_RECENT_TRACKS {
        recent := recent[1..];
      }
      assert recent == Pushed(RecentOf(recentTracks, g), entry);
      AddRecentKeepsOk(recentTracks, g, track);
      recentTracks := recentTracks[g := recent];
    }

    /** `clearAutoplayState(guildId)`. */
    method ClearAutoplayState(g: GuildId)
      requires Valid()
      modifies this
      ensures Valid()
      ensures recentTracks == old(recentTracks) - {g}
      ensures similarArtistsCache == old(similarArtistsCache) && preferredSeed == old(preferredSeed)
      ensures autoplayInProgress == old(autoplayInProgress)
    {
      recentTracks := recentTracks - {g};
    }

    /** `resetSeed(guildId, trackInfo)`: the history is always cleared; the
        seed is stored only when one is given. */
    method ResetSeed(g: GuildId, trackInfo: Option<TrackInfo>)
      requires Valid()
      modifies this
      ensures Valid()
      ensures recentTracks == old(recentTracks) - {g}
      ensures preferredSeed == if trackInfo.Some? then old(preferredSeed)[g := trackInfo.value] else old(preferredSeed)
      ensures similarArtistsCache == old(similarArtistsCache) && autoplayInProgress == old(autoplayInProgress)
    {
      recentTracks := recentTracks - {g};
      if trackInfo.Some? {
        preferredSeed := preferredSeed[g := trackInfo.value];
      }
    }

    // ------------------------------------------------------------ similar artists

    /** `fetchSimilarArtistsFromLastFm(artist)` at time `now`; `reply`
        answers the request for a cache key. */
    method FetchSimilarArtists(artist: string, now: int, reply: string -> LastFmReply) returns (artists: seq<string>)
      requires Valid()
      modifies this
      ensures Valid()
      ensures artists == FetchResult(old(similarArtistsCache), hasApiKey, artist, now, reply)
      ensures CachedOk(CacheEntry(artists, now))
      ensures similarArtistsCache == CacheAfterFetch(old(similarArtistsCache), hasApiKey, artist, now, reply)
      ensures recentTracks == old(recentTracks) && preferredSeed == old(preferredSeed)
      ensures autoplayInProgress == old(autoplayInProgress)
    {
      FetchShape(similarArtistsCache, hasApiKey, artist, now, reply);
      if !hasApiKey {
        return [];
      }
      var key := Trim(Lower(artist));
      if key == "" {
        return [];
      }
      if key in similarArtistsCache && now - similarArtistsCache[key].timestamp < CACHE_TTL {
        return similarArtistsCache[key].artists;
      }
      var r := reply(key);
      if !r.Body? || r.error || r.artists.None? {
        return [];
      }
      var names := LowerAll(r.artists.value);
      artists := if |names| <= MAX_SIMILAR then names else names[..MAX_SIMILAR];
      similarArtistsCache := similarArtistsCache[key := CacheEntry(artists, now)];
    }

    /** `findSimilarArtists(artistName)`. */
    method FindSimilarArtists(artistName: string, now: int, reply: string -> LastFmReply) returns (artists: seq<string>)
      requires Valid()
      modifies this
      ensures Valid()
      ensures artists == if artistName == "" then [] else FetchResult(old(similarArtistsCache), hasApiKey, artistName, now, reply)
      ensures CachedOk(CacheEntry(artists, now))
      ensures similarArtistsCache == if artistName == "" then old(similarArtistsCache)
                                     else CacheAfterFetch(old(similarArtistsCache), hasApiKey, artistName, now, reply)
      ensures recentTracks == old(recentTracks) && preferredSeed == old(preferredSeed)
      ensures autoplayInProgress == old(autoplayInProgress)
    {
      if artistName == "" {
        return [];
      }
      var found := FetchSimilarArtists(artistName, now, reply);
      if |found| > 0 {
        return found;
      }
      return [];
    }

    /** The body of the hourly interval: entries older than 24 hours go. */
    method SweepCache(now: int)
      requires Valid()
      modifies this
      ensures Valid()
      ensures similarArtistsCache == Swept(old(similarArtistsCache), now)
      ensures recentTracks == old(recentTracks) && preferredSeed == old(preferredSeed)
      ensures autoplayInProgress == old(autoplayInProgress)
    {
      var cache := similarArtistsCache;
      var pending := cache.Keys;
      while pending != {}
        invariant pending <= old(similarArtistsCache).Keys
        invariant forall k :: k in cache <==>
                    (k in old(similarArtistsCache) && (k in pending || now - old(similarArtistsCache)[k].timestamp <= CACHE_TTL))
        invariant forall k :: k in cache ==> cache[k] == old(similarArtistsCache)[k]
        decreases |pending|
      {
        var k :| k in pending;
        if now - cache[k].timestamp > CACHE_TTL {
          cache := cache - {k};
        }
        pending := pending - {k};
      }
      assert cache.Keys == Swept(old(similarArtistsCache), now).Keys;
      similarArtistsCache := cache;
    }

    // ------------------------------------------------------------ queries

    /** `buildSearchQueries(track, guildId)`. `picked` are the names drawn
        from the pool by `shuffleArray(...).slice(0, 4)`. */
    method BuildSearchQueries(track: Track, g: GuildId, now: int, reply: string -> LastFmReply, draws: seq<real>)
      returns (queries: seq<string>, ghost picked: seq<string>)
      requires Valid()
      requires |draws| >= MAX_SIMILAR - 1 && AllDraws(draws)
      modifies this
      ensures Valid()
      ensures |queries| <= MAX_SIMILAR_QUERIES + 1
      ensures forall i :: 0 <= i < |queries| ==> EndsWith(queries[i], " music")
      ensures track.info.None? || ArtistName(track.info.value.title, track.info.value.author) == "" ==>
                queries == [] && similarArtistsCache == old(similarArtistsCache)
      ensures track.info.Some? && ArtistName(track.info.value.title, track.info.value.author) != "" ==>
                var name := ArtistName(track.info.value.title, track.info.value.author);
                var recentArtists := RecentArtists(RecentOf(recentTracks, g));
                var pool := Pool(FetchResult(old(similarArtistsCache), hasApiKey, name, now, reply), recentArtists);
                && queries == QueriesFor(picked) + SeedQuery(name, recentArtists)
                && |picked| == (if |pool| <= MAX_SIMILAR_QUERIES then |pool| else MAX_SIMILAR_QUERIES)
                && multiset(picked) <= multiset(pool)
                && similarArtistsCache == CacheAfterFetch(old(similarArtistsCache), hasApiKey, name, now, reply)
      ensures recentTracks == old(recentTracks) && preferredSeed == old(preferredSeed)
      ensures autoplayInProgress == old(autoplayInProgress)
    {
      picked := [];
      if track.info.None? {
        return [], picked;
      }
      var artistName := ArtistName(track.info.value.title, track.info.value.author);
      if artistName == "" {
        return [], picked;
      }
      var recentArtists := RecentArtists(RecentOf(recentTracks, g));
      var similar := FindSimilarArtists(artistName, now, reply);
      var pool := Pool(similar, recentArtists);
      PoolChoice(similar, recentArtists);
      var toSearch := PickNames(pool, draws);
      picked := toSearch;
      queries := AppendQueries(toSearch);
      queries := queries + SeedQuery(artistName, recentArtists);
      QueriesEndInMusic(picked, artistName, recentArtists);
    }

    /** `shuffleArray(pool).slice(0, 4)`; an empty pool gives no names. */
    static method PickNames(pool: seq<string>, draws: seq<real>) returns (names: seq<string>)
      requires |draws| >= |pool| - 1 && AllDraws(draws)
      ensures |names| == if |pool| <= MAX_SIMILAR_QUERIES then |pool| else MAX_SIMILAR_QUERIES
      ensures multiset(names) <= multiset(pool)
    {
      var shuffled := ShuffleArray(pool, draws);
      names := if |shuffled| <= MAX_SIMILAR_QUERIES then shuffled else shuffled[..MAX_SIMILAR_QUERIES];
      PrefixInMultiset(shuffled, |names|);
    }

    /** The `for (const artist of artistsToSearch)` loop: one query pushed
        per name, in order. */
    static method AppendQueries(names: seq<string>) returns (queries: seq<string>)
      ensures queries == QueriesFor(names)
    {
      queries := [];
      var i := 0;
      while i < |names|
        invariant 0 <= i <= |names|
        invariant queries == QueriesFor(names[..i])
      {
        assert QueriesFor(names[..i + 1]) == QueriesFor(names[..i]) + [names[i] + " music"];
        queries := queries + [names[i] + " music"];
        i := i + 1;
      }
      assert names[..i] == names;
    }

    /** `shuffleArray(array)`: a shuffled copy. */
    static method ShuffleArray(items: seq<string>, draws: seq<real>) returns (r: seq<string>)
      requires |draws| >= |items| - 1 && AllDraws(draws)
      ensures multiset(r) == multiset(items) && |r| == |items|
    {
      var arr := new string[|items|](i requires 0 <= i < |items| => items[i]);
      assert arr[..] == items;
      Shuffle(arr, draws);
      r := arr[..];
    }

    // ------------------------------------------------------------ picking

    /** The `for (const track of shuffled)` loop: the first acceptable
        candidate, marked as not yet queued by autoplay. */
    static method FirstAcceptable(candidates: seq<TrackInfo>, recent: seq<RecentEntry>, lastTrack: Track,
                                  looping: bool, seedArtist: string) returns (pick: Option<Track>)
      ensures pick.None? <==> forall i :: 0 <= i < |candidates| ==> !Acceptable(candidates[i], recent, lastTrack, looping, seedArtist)
      ensures pick.Some? ==> exists i :: 0 <= i < |candidates| && pick.value == AsTrack(candidates[i])
                               && Acceptable(candidates[i], recent, lastTrack, looping, seedArtist)
                               && forall j :: 0 <= j < i ==> !Acceptable(candidates[j], recent, lastTrack, looping, seedArtist)
    {
      var i := 0;
      while i < |candidates|
        invariant 0 <= i <= |candidates|
        invariant forall j :: 0 <= j < i ==> !Acceptable(candidates[j], recent, lastTrack, looping, seedArtist)
      {
        var t := candidates[i];
        var trackArtist := ArtistName(t.title, t.author);
        if looping && Lower(trackArtist) == Lower(seedArtist) {
          assert !Acceptable(t, recent, lastTrack, looping, seedArtist);
          RejectedPrefixExtends(candidates, i, recent, lastTrack, looping, seedArtist);
          i := i + 1;
          continue;
        }
        if IsTrackSuitable(recent, AsTrack(t), lastTrack) {
          assert Acceptable(candidates[i], recent, lastTrack, looping, seedArtist);
          return Some(AsTrack(t));
        }
        assert !Acceptable(t, recent, lastTrack, looping, seedArtist);
        RejectedPrefixExtends(candidates, i, recent, lastTrack, looping, seedArtist);
        i := i + 1;
      }
      return None;
    }

    /** `candidates.sort(() => Math.random() - 0.5)` and the loop over it:
        `shuffle(round, xs)` is the order the `round`-th sort gives. */
    static method PickAmong(candidates: seq<TrackInfo>, round: nat, shuffle: (nat, seq<TrackInfo>) -> seq<TrackInfo>,
                            recent: seq<RecentEntry>, lastTrack: Track, looping: bool, seedArtist: string)
      returns (pick: Option<Track>)
      requires forall k, xs :: multiset(shuffle(k, xs)) == multiset(xs)
      ensures pick.None? <==> NoneAcceptable(candidates, recent, lastTrack, looping, seedArtist)
      ensures pick.Some? ==> pick.value.info.Some? && !pick.value.isAutoplay && pick.value.info.value in candidates
                             && Acceptable(pick.value.info.value, recent, lastTrack, looping, seedArtist)
    {
      var order := shuffle(round, candidates);
      pick := FirstAcceptable(order, recent, lastTrack, looping, seedArtist);
      NoneAcceptableInAnyOrder(order, candidates, recent, lastTrack, looping, seedArtist);
      if pick.Some? {
        var i :| 0 <= i < |order| && pick.value == AsTrack(order[i])
                 && Acceptable(order[i], recent, lastTrack, looping, seedArtist);
        assert order[i] in multiset(candidates);
      }
    }

    /** The `for (const query of queries)` loop: each query is searched and
        its first 15 results tried in a shuffled order; a failed search
        gives no results. `at` is the query the pick came from. */
    static method SearchAll(queries: seq<string>, search: string -> seq<TrackInfo>,
                            shuffle: (nat, seq<TrackInfo>) -> seq<TrackInfo>,
                            recent: seq<RecentEntry>, lastTrack: Track, looping: bool, seedArtist: string)
      returns (pick: Option<Track>, ghost at: nat)
      requires forall k, xs :: multiset(shuffle(k, xs)) == multiset(xs)
      ensures pick.None? <==> forall i :: 0 <= i < |queries| ==>
                                NoneAcceptable(SearchResults(search, queries[i]), recent, lastTrack, looping, seedArtist)
      ensures pick.Some? ==> at < |queries| && pick.value.info.Some? && !pick.value.isAutoplay
                             && pick.value.info.value in SearchResults(search, queries[at])
                             && Acceptable(pick.value.info.value, recent, lastTrack, looping, seedArtist)
                             && forall i :: 0 <= i < at ==>
                                  NoneAcceptable(SearchResults(search, queries[i]), recent, lastTrack, looping, seedArtist)
    {
      at := 0;
      var i := 0;
      while i < |queries|
        invariant 0 <= i <= |queries|
        invariant forall k :: 0 <= k < i ==>
                    NoneAcceptable(SearchResults(search, queries[k]), recent, lastTrack, looping, seedArtist)
      {
        var result := search("ytsearch:" + queries[i]);
        if |result| == 0 {
          i := i + 1;
          continue;
        }
        var top := if |result| <= MAX_SEARCH_RESULTS then result else result[..MAX_SEARCH_RESULTS];
        pick := PickAmong(top, i + 1, shuffle, recent, lastTrack, looping, seedArtist);
        if pick.Some? {
          at := i;
          return;
        }
        i := i + 1;
      }
      pick := None;
    }

    /** `findNextTrack(player, lastTrack)`. `connected` is `node.connected`;
        `search` answers Lavalink searches and `shuffle` the random sorts.
        `trace` records how the round went. */
    method FindNextTrack(g: GuildId, lastTrack: Track, connected: bool, now: int,
                         search: string -> seq<TrackInfo>, shuffle: (nat, seq<TrackInfo>) -> seq<TrackInfo>,
                         reply: string -> LastFmReply, draws: seq<real>)
      returns (next: Option<Track>, ghost trace: RoundTrace)
      requires Valid()
      requires |draws| >= MAX_SIMILAR - 1 && AllDraws(draws)
      requires forall k, xs :: multiset(shuffle(k, xs)) == multiset(xs)
      modifies this
      ensures Valid()
      ensures autoplayInProgress == old(autoplayInProgress)
      ensures NextTrackOutcome(g, lastTrack, connected, hasApiKey, now, search, reply,
                               old(recentTracks), old(preferredSeed), old(similarArtistsCache),
                               recentTracks, preferredSeed, similarArtistsCache, next, trace)
    {
      trace := RoundTrace(false, [], [], 0);
      if lastTrack.info.None? {
        return None, trace;
      }
      var seed := TakeSeed(g, lastTrack);
      AddToRecentTracks(g, lastTrack);
      if !connected {
        return None, trace;
      }
      var seedTrack := if seed == lastTrack.info.value then lastTrack else Track(Some(seed), false);
      next, trace := PickNext(g, seed, seedTrack, lastTrack, now, search, shuffle, reply, draws);
    }

    /** The seed step of `findNextTrack`: a saved preferred seed is used
        once, otherwise a track autoplay did not queue restarts the history. */
    method TakeSeed(g: GuildId, lastTrack: Track) returns (seed: TrackInfo)
      requires Valid() && lastTrack.info.Some?
      modifies this
      ensures Valid()
      ensures seed == SeedOf(old(preferredSeed), g, lastTrack.info.value)
      ensures preferredSeed == old(preferredSeed) - {g}
      ensures recentTracks == HistoryForRound(old(recentTracks), old(preferredSeed), g, lastTrack)
      ensures similarArtistsCache == old(similarArtistsCache) && autoplayInProgress == old(autoplayInProgress)
    {
      seed := lastTrack.info.value;
      if g in preferredSeed {
        seed := preferredSeed[g];
        preferredSeed := preferredSeed - {g};
      } else if !lastTrack.isAutoplay {
        recentTracks := recentTracks - {g};
      }
    }

    /** The part of `findNextTrack` after the node check. */
    method PickNext(g: GuildId, seed: TrackInfo, seedTrack: Track, lastTrack: Track, now: int,
                    search: string -> seq<TrackInfo>, shuffle: (nat, seq<TrackInfo>) -> seq<TrackInfo>,
                    reply: string -> LastFmReply, draws: seq<real>)
      returns (next: Option<Track>, ghost trace: RoundTrace)
      requires Valid() && lastTrack.info.Some? && seedTrack.info == Some(seed)
      requires |draws| >= MAX_SIMILAR - 1 && AllDraws(draws)
      requires forall k, xs :: multiset(shuffle(k, xs)) == multiset(xs)
      modifies this
      ensures Valid()
      ensures recentTracks == old(recentTracks) && preferredSeed == old(preferredSeed)
      ensures autoplayInProgress == old(autoplayInProgress)
      ensures next.Some? ==> next.value.info.Some? && !next.value.isAutoplay
      ensures RoundOutcome(seed, lastTrack, RecentOf(recentTracks, g), old(similarArtistsCache), similarArtistsCache,
                           hasApiKey, now, search, reply, next, trace)
    {
      trace := RoundTrace(false, [], [], 0);
      var recent := RecentOf(recentTracks, g);
      var seedArtist := ArtistName(seed.title, seed.author);
      var looping := Overplayed(recent, seedArtist);
      var radio := RadioMix(search, seed.identifier);
      var candidates := RadioCandidates(radio, seed.identifier, lastTrack.info.value.identifier);
      next := PickAmong(candidates, 0, shuffle, recent, lastTrack, looping, seedArtist);
      if next.Some? {
        trace := trace.(fromRadio := true);
        return;
      }
      var queries;
      ghost var picked, at;
      queries, picked := BuildSearchQueries(seedTrack, g, now, reply, draws);
      next, at := SearchAll(queries, search, shuffle, recent, lastTrack, looping, seedArtist);
      trace := RoundTrace(false, queries, picked, at);
    }

    /** `handleAutoplay(player, lastTrack)`: `ok` is its result and `played`
        says whether it calls `player.play()`. `next` is what
        `findNextTrack` returned, and `trace` how its round went. The guild
        is marked in progress only while the next track is looked for. */
    method HandleAutoplay(player: Player, lastTrack: Track, connected: bool, now: int,
                          search: string -> seq<TrackInfo>, shuffle: (nat, seq<TrackInfo>) -> seq<TrackInfo>,
                          reply: string -> LastFmReply, draws: seq<real>)
      returns (ok: bool, played: bool, ghost next: Option<Track>, ghost trace: RoundTrace)
      requires Valid()
      requires |draws| >= MAX_SIMILAR - 1 && AllDraws(draws)
      requires forall k, xs :: multiset(shuffle(k, xs)) == multiset(xs)
      modifies this, configs, player
      ensures Valid()
      ensures autoplayInProgress == old(autoplayInProgress)
      ensures configs.store == GuildConfig.StoreAfterGet(old(configs.store), player.guildId)
      ensures player.current == old(player.current) && player.playing == old(player.playing)
      ensures player.paused == old(player.paused)
      ensures !Startable(AutoplayOn(GuildConfig.ConfigOf(old(configs.store), player.guildId)), old(player.queue),
                         player.current, player.playing, player.guildId in old(autoplayInProgress)) ==>
                && !ok && next == None && player.queue == old(player.queue)
                && recentTracks == old(recentTracks) && preferredSeed == old(preferredSeed)
                && similarArtistsCache == old(similarArtistsCache)
      ensures Startable(AutoplayOn(GuildConfig.ConfigOf(old(configs.store), player.guildId)), old(player.queue),
                        player.current, player.playing, player.guildId in old(autoplayInProgress)) ==>
                && NextTrackOutcome(player.guildId, lastTrack, connected, hasApiKey, now, search, reply,
                                    old(recentTracks), old(preferredSeed), old(similarArtistsCache),
                                    recentTracks, preferredSeed, similarArtistsCache, next, trace)
                && (ok <==> next.Some?)
                && (ok ==> player.queue == [Track(next.value.info, true)])
                && (!ok ==> player.queue == old(player.queue))
      ensures played <==> ok && !player.playing && !player.paused
    {
      ok, played, next, trace := false, false, None, RoundTrace(false, [], [], 0);
      var go := MayStart(player);
      if !go {
        return;
      }
      ok, next, trace := QueueNext(player, lastTrack, connected, now, search, shuffle, reply, draws);
      played := ok && !player.playing && !player.paused;
    }

    /** The early returns of `handleAutoplay`: autoplay must be on, the queue
        empty, nothing playing, and no other round running for the guild. */
    method MayStart(player: Player) returns (go: bool)
      modifies configs
      ensures go <==> Startable(AutoplayOn(GuildConfig.ConfigOf(old(configs.store), player.guildId)), player.queue,
                                player.current, player.playing, player.guildId in autoplayInProgress)
      ensures configs.store == GuildConfig.StoreAfterGet(old(configs.store), player.guildId)
    {
      var enabled := IsAutoplayEnabled(player.guildId);
      go := enabled && |player.queue| == 0 && !(player.current.Some? && player.playing)
            && player.guildId !in autoplayInProgress;
    }

    /** The `try … finally` of `handleAutoplay`: the track found is queued
        flagged as an autoplay pick. */
    method QueueNext(player: Player, lastTrack: Track, connected: bool, now: int,
                     search: string -> seq<TrackInfo>, shuffle: (nat, seq<TrackInfo>) -> seq<TrackInfo>,
                     reply: string -> LastFmReply, draws: seq<real>)
      returns (ok: bool, ghost next: Option<Track>, ghost trace: RoundTrace)
      requires Valid() && player.guildId !in autoplayInProgress
      requires |draws| >= MAX_SIMILAR - 1 && AllDraws(draws)
      requires forall k, xs :: multiset(shuffle(k, xs)) == multiset(xs)
      modifies this, player
      ensures Valid()
      ensures autoplayInProgress == old(autoplayInProgress)
      ensures player.current == old(player.current) && player.playing == old(player.playing)
      ensures player.paused == old(player.paused)
      ensures NextTrackOutcome(player.guildId, lastTrack, connected, hasApiKey, now, search, reply,
                               old(recentTracks), old(preferredSeed), old(similarArtistsCache),
                               recentTracks, preferredSeed, similarArtistsCache, next, trace)
      ensures ok <==> next.Some?
      ensures ok ==> player.queue == old(player.queue) + [Track(next.value.info, true)]
      ensures !ok ==> player.queue == old(player.queue)
    {
      ghost var r0, s0, c0 := recentTracks, preferredSeed, similarArtistsCache;
      var found;
      found, trace := LookForNext(player.guildId, lastTrack, connected, now, search, shuffle, reply, draws);
      next := found;
      ghost var r1, s1, c1 := recentTracks, preferredSeed, similarArtistsCache;
      assert NextTrackOutcome(player.guildId, lastTrack, connected, hasApiKey, now, search, reply,
                              r0, s0, c0, r1, s1, c1, next, trace);
      if found.None? {
        return false, next, trace;
      }
      player.Add(Track(found.value.info, true));
      assert recentTracks == r1 && preferredSeed == s1 && similarArtistsCache == c1;
      ok := true;
    }

    /** `findNextTrack` run with the guild marked in progress, the mark
        removed again afterwards. */
    method LookForNext(g: GuildId, lastTrack: Track, connected: bool, now: int,
                       search: string -> seq<TrackInfo>, shuffle: (nat, seq<TrackInfo>) -> seq<TrackInfo>,
                       reply: string -> LastFmReply, draws: seq<real>)
      returns (next: Option<Track>, ghost trace: RoundTrace)
      requires Valid() && g !in autoplayInProgress
      requires |draws| >= MAX_SIMILAR - 1 && AllDraws(draws)
      requires forall k, xs :: multiset(shuffle(k, xs)) == multiset(xs)
      modifies this
      ensures Valid()
      ensures autoplayInProgress == old(autoplayInProgress)
      ensures NextTrackOutcome(g, lastTrack, connected, hasApiKey, now, search, reply,
                               old(recentTracks), old(preferredSeed), old(similarArtistsCache),
                               recentTracks, preferredSeed, similarArtistsCache, next, trace)
    {
      autoplayInProgress := autoplayInProgress + {g};
      next, trace := FindNextTrack(g, lastTrack, connected, now, search, shuffle, reply, draws);
      autoplayInProgress := autoplayInProgress - {g};
    }
  }

  /** A prefix of a sequence is part of its multiset. */
  lemma PrefixInMultiset<T>(s: seq<T>, k: nat)
    requires k <= |s|
    ensures multiset(s[..k]) <= multiset(s)
  {
    assert s == s[..k] + s[k..];
  }
}

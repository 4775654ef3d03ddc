/** The rules of the autoplay engine that are plain functions of its state:
    the per-guild history of recent tracks, the suitability of a candidate,
    the artist-looping detector, the similar-artist cache and the search
    queries built from it. The engine that changes this state is in module
    `Autoplay`. */
module AutoplayRules {
  import opened Wrappers
  import opened Strings
  import opened ArtistNames

  type GuildId = string

  const MAX_RECENT_TRACKS: nat := 30
  const MAX_RECENT_ARTISTS: nat := 10
  const MAX_SAME_ARTIST_IN_ROW: nat := 2
  /** How many recent entries the looping detector looks at. */
  const LOOP_WINDOW: nat := 5
  /** How many of the last recent artists suppress the seed artist's query. */
  const SEED_WINDOW: nat := 3
  const CACHE_TTL: int := 24 * 60 * 60 * 1000
  /** Similar artists kept from a Last.fm answer, and search results kept per query. */
  const MAX_SIMILAR: nat := 15
  const MAX_SEARCH_RESULTS: nat := 15
  /** Similar artists searched per seed. */
  const MAX_SIMILAR_QUERIES: nat := 4
  const MIN_TRACK_LENGTH: int := 60000
  const MAX_TRACK_LENGTH: int := 720000

  const TITLE_BLACKLIST: seq<string> := [
    "remix", "cover", "karaoke", "instrumental", "acoustic version",
    "live", "concert", "reaction", "tutorial", "lesson", "how to",
    "slowed", "reverb", "sped up", "nightcore", "8d audio", "bass boosted",
    "lyrics", "lyric video", "letra", "t\U{0142}umaczenie", "napisy", "set",
    "podcast", "interview", "vlog", "challenge", "compilation", "best of",
    "top 10", "top 5", "review", "unboxing", "trailer", "teaser",
    "behind the scenes", "making of", "explained", "breakdown"
  ]

  /** A Lavalink track's `info`; a missing identifier, title or author is
      `""` and a missing length is 0. */
  datatype TrackInfo = TrackInfo(identifier: string, title: string, author: string, length: int)

  /** A track as the player hands it over: `info` may be missing, and
      `isAutoplay` marks tracks the engine queued itself. */
  datatype Track = Track(info: Option<TrackInfo>, isAutoplay: bool)

  /** A search result, before the engine marks it. */
  function AsTrack(info: TrackInfo): Track {
    Track(Some(info), false)
  }

  datatype RecentEntry = RecentEntry(title: string, author: string, identifier: string, artistName: string)

  /** The entry `addToRecentTracks` records. */
  function EntryOf(info: TrackInfo): RecentEntry {
    RecentEntry(info.title, info.author, info.identifier, ArtistName(info.title, info.author))
  }

  /** `array.slice(-k)`: the last `k` elements, or all of them. */
  function Last<T>(s: seq<T>, k: nat): (r: seq<T>)
    ensures |r| <= k && |r| <= |s|
    ensures r == s[|s| - |r|..]
    ensures |s| <= k ==> r == s
  {
    if |s| <= k then s else s[|s| - k..]
  }

  // ---------------------------------------------------------------- recent tracks

  /** `recentTracks.get(guildId) ?? []`. */
  function RecentOf(m: map<GuildId, seq<RecentEntry>>, g: GuildId): seq<RecentEntry> {
    if g in m then m[g] else []
  }

  predicate Recorded(recent: seq<RecentEntry>, id: string) {
    exists i :: 0 <= i < |recent| && recent[i].identifier == id
  }

  predicate DistinctIds(recent: seq<RecentEntry>) {
    forall i, j :: 0 <= i < j < |recent| ==> recent[i].identifier != recent[j].identifier
  }

  /** What every guild's history satisfies. */
  predicate RecentOk(recent: seq<RecentEntry>) {
    |recent| <= MAX_RECENT_TRACKS && DistinctIds(recent)
  }

  /** `push`, then `shift` once the list is over the limit. */
  function Pushed(recent: seq<RecentEntry>, e: RecentEntry): seq<RecentEntry> {
    var r := recent + [e];
    if |r| > MAX_RECENT_TRACKS then r[1..] else r
  }

  /** The history after `addToRecentTracks(g, track)`. */
  function AddRecent(m: map<GuildId, seq<RecentEntry>>, g: GuildId, track: Track): map<GuildId, seq<RecentEntry>> {
    if track.info.None? || Recorded(RecentOf(m, g), track.info.value.identifier) then m
    else m[g := Pushed(RecentOf(m, g), EntryOf(track.info.value))]
  }

  /** Adding keeps a history within 30 entries with distinct identifiers,
      and touches no other guild. */
  lemma AddRecentKeepsOk(m: map<GuildId, seq<RecentEntry>>, g: GuildId, track: Track)
    requires RecentOk(RecentOf(m, g))
    ensures RecentOk(RecentOf(AddRecent(m, g, track), g))
    ensures forall h :: h != g ==> RecentOf(AddRecent(m, g, track), h) == RecentOf(m, h)
    ensures forall h :: h != g ==> (h in AddRecent(m, g, track) <==> h in m)
  {
    if track.info.Some? && !Recorded(RecentOf(m, g), track.info.value.identifier) {
      PushedOk(RecentOf(m, g), EntryOf(track.info.value));
    }
  }

  lemma PushedOk(recent: seq<RecentEntry>, e: RecentEntry)
    requires RecentOk(recent) && !Recorded(recent, e.identifier)
    ensures RecentOk(Pushed(recent, e))
  {
    var r := recent + [e];
    assert DistinctIds(r) by {
      forall i, j | 0 <= i < j < |r| ensures r[i].identifier != r[j].identifier {
        assert r[i] == recent[i];
        if j < |recent| {
          assert r[j] == recent[j];
        }
      }
    }
    if |r| > MAX_RECENT_TRACKS {
      var t := r[1..];
      forall i, j | 0 <= i < j < |t| ensures t[i].identifier != t[j].identifier {
        assert t[i] == r[i + 1] && t[j] == r[j + 1];
      }
    }
  }

  /** After adding a track that has `info`, its identifier is in the history:
      either it was already there or it is now the newest entry. */
  lemma AddRecentRecords(m: map<GuildId, seq<RecentEntry>>, g: GuildId, track: Track)
    requires track.info.Some?
    ensures Recorded(RecentOf(AddRecent(m, g, track), g), track.info.value.identifier)
  {
    var recent := RecentOf(m, g);
    if !Recorded(recent, track.info.value.identifier) {
      var p := Pushed(recent, EntryOf(track.info.value));
      assert p[|p| - 1] == EntryOf(track.info.value);
    }
  }

  /** Entries stay in insertion order: the new history is a suffix of the
      old one followed by the new entry, and drops at most the oldest. */
  lemma AddRecentOrder(m: map<GuildId, seq<RecentEntry>>, g: GuildId, track: Track)
    requires track.info.Some? && !Recorded(RecentOf(m, g), track.info.value.identifier)
    ensures var r := RecentOf(m, g) + [EntryOf(track.info.value)];
            var after := RecentOf(AddRecent(m, g, track), g);
            after == r[|r| - |after|..] && |r| - |after| <= 1
            && (|after| < |r| <==> |RecentOf(m, g)| >= MAX_RECENT_TRACKS)
  {
  }

  // ---------------------------------------------------------------- looping

  predicate SameArtist(e: RecentEntry, artistName: string) {
    Lower(e.artistName) == Lower(artistName)
  }

  function CountArtist(entries: seq<RecentEntry>, artistName: string): (n: nat)
    ensures n <= |entries|
    decreases |entries|
  {
    if entries == [] then 0
    else CountArtist(entries[..|entries| - 1], artistName) + (if SameArtist(entries[|entries| - 1], artistName) then 1 else 0)
  }

  /** `isArtistOverplayed(guildId, artistName)`. */
  predicate Overplayed(recent: seq<RecentEntry>, artistName: string) {
    artistName != "" && CountArtist(Last(recent, LOOP_WINDOW), artistName) >= MAX_SAME_ARTIST_IN_ROW
  }

  /** At least two entries with the artist, counted, is two entries with it. */
  lemma {:induction false} CountAtLeastTwo(entries: seq<RecentEntry>, a: string)
    ensures CountArtist(entries, a) >= 2 <==>
            exists i, j :: 0 <= i < j < |entries| && SameArtist(entries[i], a) && SameArtist(entries[j], a)
    decreases |entries|
  {
    if entries != [] {
      var init := entries[..|entries| - 1];
      var n := |entries| - 1;
      CountAtLeastTwo(init, a);
      CountAtLeastOne(init, a);
      if CountArtist(entries, a) >= 2 {
        if CountArtist(init, a) >= 2 {
          var i, j :| 0 <= i < j < |init| && SameArtist(init[i], a) && SameArtist(init[j], a);
          assert entries[i] == init[i] && entries[j] == init[j];
        } else {
          var i :| 0 <= i < |init| && SameArtist(init[i], a);
          assert entries[i] == init[i];
          assert SameArtist(entries[n], a);
        }
      }
    }
  }

  lemma {:induction false} CountAtLeastOne(entries: seq<RecentEntry>, a: string)
    ensures CountArtist(entries, a) >= 1 <==> exists i :: 0 <= i < |entries| && SameArtist(entries[i], a)
    decreases |entries|
  {
    if entries != [] {
      var init := entries[..|entries| - 1];
      CountAtLeastOne(init, a);
      if exists i :: 0 <= i < |init| && SameArtist(init[i], a) {
        var i :| 0 <= i < |init| && SameArtist(init[i], a);
        assert entries[i] == init[i];
      }
      if exists i :: 0 <= i < |entries| && SameArtist(entries[i], a) {
        var i :| 0 <= i < |entries| && SameArtist(entries[i], a);
        if i < |init| { assert entries[i] == init[i]; }
      }
    }
  }

  /** The artist is looping exactly when it is named and two of the last five
      entries carry it, ignoring case. */
  lemma OverplayedIff(recent: seq<RecentEntry>, a: string)
    ensures Overplayed(recent, a) <==> a != "" && TwoInWindow(recent, a)
  {
    var w := Last(recent, LOOP_WINDOW);
    var off := |recent| - |w|;
    CountAtLeastTwo(w, a);
    if TwoInWindow(recent, a) {
      var i, j :| |recent| - LOOP_WINDOW <= i < j < |recent| && 0 <= i
                  && SameArtist(recent[i], a) && SameArtist(recent[j], a);
      ArtistIntoWindow(recent, w, a, i);
      ArtistIntoWindow(recent, w, a, j);
      assert 0 <= i - off < j - off < |w|;
    }
    if CountArtist(w, a) >= 2 {
      var i, j :| 0 <= i < j < |w| && SameArtist(w[i], a) && SameArtist(w[j], a);
      ArtistOutOfWindow(recent, w, a, i);
      ArtistOutOfWindow(recent, w, a, j);
      assert |recent| - LOOP_WINDOW <= i + off < j + off < |recent|;
    }
  }

  /** An entry among the last five is in the window. */
  lemma ArtistIntoWindow(recent: seq<RecentEntry>, w: seq<RecentEntry>, a: string, i: int)
    requires w == Last(recent, LOOP_WINDOW)
    requires |recent| - LOOP_WINDOW <= i < |recent| && 0 <= i && SameArtist(recent[i], a)
    ensures 0 <= i - (|recent| - |w|) < |w| && SameArtist(w[i - (|recent| - |w|)], a)
  {
    assert w[i - (|recent| - |w|)] == recent[i];
  }

  /** An entry of the window is among the last five. */
  lemma ArtistOutOfWindow(recent: seq<RecentEntry>, w: seq<RecentEntry>, a: string, i: int)
    requires w == Last(recent, LOOP_WINDOW)
    requires 0 <= i < |w| && SameArtist(w[i], a)
    ensures |recent| - LOOP_WINDOW <= i + (|recent| - |w|) < |recent|
    ensures SameArtist(recent[i + (|recent| - |w|)], a)
  {
    assert recent[i + (|recent| - |w|)] == w[i];
  }

  /** Two entries among the last five carry the artist. */
  predicate TwoInWindow(recent: seq<RecentEntry>, a: string) {
    exists i, j :: |recent| - LOOP_WINDOW <= i < j < |recent| && 0 <= i
                   && SameArtist(recent[i], a) && SameArtist(recent[j], a)
  }

  // ---------------------------------------------------------------- suitability

  /** `isBlacklisted(title)`: the lower-cased title contains a listed term. */
  predicate IsBlacklisted(title: string) {
    title != "" && exists i :: 0 <= i < |TITLE_BLACKLIST| && Contains(Lower(title), TITLE_BLACKLIST[i])
  }

  lemma {:induction false} ContainsAfterPrefix(x: string, s: string, p: string)
    requires Contains(s, p)
    ensures Contains(x + s, p)
    decreases |x|
  {
    if x != [] {
      ContainsAfterPrefix(x[1..], s, p);
      assert (x + s)[1..] == x[1..] + s;
    } else {
      assert x + s == s;
    }
  }

  lemma {:induction false} ContainsBeforeSuffix(s: string, y: string, p: string)
    requires Contains(s, p)
    ensures Contains(s + y, p)
    decreases |s|
  {
    if StartsWith(s, p) {
      assert (s + y)[..|p|] == s[..|p|];
    } else {
      ContainsBeforeSuffix(s[1..], y, p);
      assert (s + y)[1..] == s[1..] + y;
    }
  }

  lemma LowerConcat(a: string, b: string)
    ensures Lower(a + b) == Lower(a) + Lower(b)
  {
  }

  /** A blacklisted title stays blacklisted whatever surrounds it, and the
      test ignores ASCII case. */
  lemma BlacklistInContext(x: string, title: string, y: string)
    requires IsBlacklisted(title)
    ensures IsBlacklisted(x + title + y)
    ensures IsBlacklisted(Lower(title))
  {
    var i :| 0 <= i < |TITLE_BLACKLIST| && Contains(Lower(title), TITLE_BLACKLIST[i]);
    LowerConcat(x, title);
    LowerConcat(x + title, y);
    ContainsAfterPrefix(Lower(x), Lower(title), TITLE_BLACKLIST[i]);
    ContainsBeforeSuffix(Lower(x) + Lower(title), Lower(y), TITLE_BLACKLIST[i]);
    LowerOfLower(Lower(title));
  }

  /** `isTrackRecent(guildId, track)`: the same identifier, or the same
      title and author, is in the history. */
  predicate IsTrackRecent(recent: seq<RecentEntry>, track: Track) {
    && track.info.Some? && track.info.value.identifier != ""
    && exists i :: 0 <= i < |recent| &&
         (recent[i].identifier == track.info.value.identifier
          || (recent[i].title == track.info.value.title && recent[i].author == track.info.value.author))
  }

  /** `lastTrack?.info?.identifier`. */
  function LastIdentifier(lastTrack: Track): string {
    if lastTrack.info.Some? then lastTrack.info.value.identifier else ""
  }

  /** `isTrackSuitable(track, guildId, lastTrack)`. */
  predicate IsTrackSuitable(recent: seq<RecentEntry>, track: Track, lastTrack: Track) {
    if track.info.None? then false
    else if track.info.value.identifier == LastIdentifier(lastTrack) then false
    else if IsTrackRecent(recent, track) then false
    else if IsBlacklisted(track.info.value.title) then false
    else if track.info.value.length != 0 && track.info.value.length < MIN_TRACK_LENGTH then false
    else if track.info.value.length != 0 && track.info.value.length > MAX_TRACK_LENGTH then false
    else true
  }

  /** A candidate is suitable exactly when it has info, is not the last
      track, is not blacklisted, runs one to twelve minutes unless its length
      is unknown, and, when it has an identifier, no history entry shares
      that identifier or both its title and its author. */
  lemma SuitableMeans(recent: seq<RecentEntry>, track: Track, lastTrack: Track)
    ensures IsTrackSuitable(recent, track, lastTrack) <==>
              && track.info.Some?
              && track.info.value.identifier != LastIdentifier(lastTrack)
              && !IsBlacklisted(track.info.value.title)
              && (track.info.value.length == 0 || MIN_TRACK_LENGTH <= track.info.value.length <= MAX_TRACK_LENGTH)
              && (track.info.value.identifier == "" ||
                  forall i :: 0 <= i < |recent| ==>
                    && recent[i].identifier != track.info.value.identifier
                    && (recent[i].title != track.info.value.title || recent[i].author != track.info.value.author))
  {
  }

  /** Once a track is in the history it is no longer suitable: the engine
      never picks a track it remembers. */
  lemma RecordedNotSuitable(m: map<GuildId, seq<RecentEntry>>, g: GuildId, track: Track, lastTrack: Track)
    requires track.info.Some? && track.info.value.identifier != ""
    ensures !IsTrackSuitable(RecentOf(AddRecent(m, g, track), g), track, lastTrack)
  {
    AddRecentRecords(m, g, track);
  }

  /** A candidate the engine accepts: suitable and, while the seed artist is
      looping, by another artist. */
  predicate Acceptable(info: TrackInfo, recent: seq<RecentEntry>, lastTrack: Track, looping: bool, seedArtist: string) {
    && !(looping && Lower(ArtistName(info.title, info.author)) == Lower(seedArtist))
    && IsTrackSuitable(recent, AsTrack(info), lastTrack)
  }

  /** One more rejected candidate extends a rejected prefix. */
  lemma RejectedPrefixExtends(c: seq<TrackInfo>, i: nat, recent: seq<RecentEntry>, lastTrack: Track, looping: bool, seedArtist: string)
    requires i < |c|
    requires forall j :: 0 <= j < i ==> !Acceptable(c[j], recent, lastTrack, looping, seedArtist)
    requires !Acceptable(c[i], recent, lastTrack, looping, seedArtist)
    ensures forall j :: 0 <= j <= i ==> !Acceptable(c[j], recent, lastTrack, looping, seedArtist)
  {
  }

  /** The radio mix without the seed and the last track. */
  function RadioCandidates(radio: seq<TrackInfo>, seedId: string, lastId: string): (r: seq<TrackInfo>)
    ensures forall t :: t in r <==> t in radio && t.identifier != seedId && t.identifier != lastId
    decreases |radio|
  {
    if radio == [] then []
    else
      var rest := RadioCandidates(radio[1..], seedId, lastId);
      assert forall t :: t in radio <==> t == radio[0] || t in radio[1..];
      if radio[0].identifier != seedId && radio[0].identifier != lastId then [radio[0]] + rest else rest
  }

  /** `array.slice(0, k)`. */
  function First<T>(s: seq<T>, k: nat): (r: seq<T>)
    ensures |r| <= k && |r| <= |s|
    ensures r == s[..|r|]
    ensures |s| <= k ==> r == s
  {
    if |s| <= k then s else s[..k]
  }

  /** The radio mix address of a video. */
  function RadioUrl(videoId: string): string {
    "https://www.youtube.com/watch?v=" + videoId + "&list=RD" + videoId
  }

  /** `getYouTubeRadioMix(node, videoId)` on a connected node; `search`
      answers a Lavalink query, an empty answer standing for a failure or a
      timeout. */
  function RadioMix(search: string -> seq<TrackInfo>, videoId: string): seq<TrackInfo> {
    if videoId == "" then [] else search(RadioUrl(videoId))
  }

  /** The first results of the `ytsearch:` search for one query. */
  function SearchResults(search: string -> seq<TrackInfo>, query: string): seq<TrackInfo> {
    First(search("ytsearch:" + query), MAX_SEARCH_RESULTS)
  }

  predicate NoneAcceptable(candidates: seq<TrackInfo>, recent: seq<RecentEntry>, lastTrack: Track, looping: bool, seedArtist: string) {
    forall t :: t in candidates ==> !Acceptable(t, recent, lastTrack, looping, seedArtist)
  }

  /** Whether some candidate is accepted does not depend on the order the
      candidates are tried in. */
  lemma NoneAcceptableInAnyOrder(order: seq<TrackInfo>, candidates: seq<TrackInfo>, recent: seq<RecentEntry>,
                                 lastTrack: Track, looping: bool, seedArtist: string)
    requires multiset(order) == multiset(candidates)
    ensures NoneAcceptable(candidates, recent, lastTrack, looping, seedArtist) <==>
              forall i :: 0 <= i < |order| ==> !Acceptable(order[i], recent, lastTrack, looping, seedArtist)
  {
    forall t
      ensures t in order <==> t in candidates
    {
      assert t in order <==> t in multiset(order);
      assert t in candidates <==> t in multiset(candidates);
    }
  }

  /** What a round of `findNextTrack` leaves besides its pick: whether the
      pick came from the radio mix, the Last.fm queries built, the similar
      artists drawn for them, and the query the pick came from. */
  datatype RoundTrace = RoundTrace(fromRadio: bool, queries: seq<string>, picked: seq<string>, at: nat)

  /** What a connected round of `findNextTrack` picks, from `seed` and the
      history `recent`. An acceptable track from the radio mix comes first.
      Otherwise the queries are those of `buildSearchQueries` (up to four
      names drawn from the pool, then the seed artist's own query), and the
      pick comes from the first query whose results hold an acceptable
      track. The similar-artist cache goes from `cache0` to `cache1` and
      changes only when the queries are built. */
  predicate RoundOutcome(seed: TrackInfo, lastTrack: Track, recent: seq<RecentEntry>,
                         cache0: map<string, CacheEntry>, cache1: map<string, CacheEntry>, hasApiKey: bool,
                         now: int, search: string -> seq<TrackInfo>, reply: string -> LastFmReply,
                         next: Option<Track>, t: RoundTrace)
    requires lastTrack.info.Some?
  {
    var artist := ArtistName(seed.title, seed.author);
    var looping := Overplayed(recent, artist);
    var radio := RadioCandidates(RadioMix(search, seed.identifier), seed.identifier, lastTrack.info.value.identifier);
    var recentArtists := RecentArtists(recent);
    var pool := Pool(FetchResult(cache0, hasApiKey, artist, now, reply), recentArtists);
    && (next.Some? ==> next.value.info.Some? && !next.value.isAutoplay
                       && Acceptable(next.value.info.value, recent, lastTrack, looping, artist))
    && (t.fromRadio <==> !NoneAcceptable(radio, recent, lastTrack, looping, artist))
    && (t.fromRadio ==> next.Some? && next.value.info.value in radio && cache1 == cache0)
    && (!t.fromRadio && artist == "" ==> t.queries == [] && cache1 == cache0)
    && (!t.fromRadio && artist != "" ==>
          && t.queries == QueriesFor(t.picked) + SeedQuery(artist, recentArtists)
          && |t.picked| == (if |pool| <= MAX_SIMILAR_QUERIES then |pool| else MAX_SIMILAR_QUERIES)
          && multiset(t.picked) <= multiset(pool)
          && cache1 == CacheAfterFetch(cache0, hasApiKey, artist, now, reply))
    && (!t.fromRadio ==>
          && (next.None? <==> forall i :: 0 <= i < |t.queries| ==>
                                NoneAcceptable(SearchResults(search, t.queries[i]), recent, lastTrack, looping, artist))
          && (next.Some? ==> && t.at < |t.queries|
                             && next.value.info.value in SearchResults(search, t.queries[t.at])
                             && forall i :: 0 <= i < t.at ==>
                                  NoneAcceptable(SearchResults(search, t.queries[i]), recent, lastTrack, looping, artist)))
  }

  /** The queries of a round are at most five, each ending in ` music`. */
  lemma RoundQueries(seed: TrackInfo, lastTrack: Track, recent: seq<RecentEntry>,
                     cache0: map<string, CacheEntry>, cache1: map<string, CacheEntry>, hasApiKey: bool,
                     now: int, search: string -> seq<TrackInfo>, reply: string -> LastFmReply,
                     next: Option<Track>, t: RoundTrace)
    requires lastTrack.info.Some?
    requires RoundOutcome(seed, lastTrack, recent, cache0, cache1, hasApiKey, now, search, reply, next, t)
    requires !t.fromRadio
    ensures |t.queries| <= MAX_SIMILAR_QUERIES + 1
    ensures forall i :: 0 <= i < |t.queries| ==> EndsWith(t.queries[i], " music")
  {
    var artist := ArtistName(seed.title, seed.author);
    if artist != "" {
      QueriesEndInMusic(t.picked, artist, RecentArtists(recent));
    }
  }

  /** The whole of `findNextTrack` for guild `g`: the history, saved seeds
      and cache go from `recent0`, `seeds0`, `cache0` to `recent1`, `seeds1`,
      `cache1`. A last track without info gives nothing and changes nothing.
      Otherwise the saved seed is used up, the history is restarted for a
      track the user chose and the last track is recorded; a disconnected
      node then gives nothing and leaves the cache alone, and a connected
      one plays a round from the seed against the updated history. */
  predicate NextTrackOutcome(g: GuildId, lastTrack: Track, connected: bool, hasApiKey: bool, now: int,
                             search: string -> seq<TrackInfo>, reply: string -> LastFmReply,
                             recent0: map<GuildId, seq<RecentEntry>>, seeds0: map<GuildId, TrackInfo>,
                             cache0: map<string, CacheEntry>,
                             recent1: map<GuildId, seq<RecentEntry>>, seeds1: map<GuildId, TrackInfo>,
                             cache1: map<string, CacheEntry>,
                             next: Option<Track>, t: RoundTrace)
  {
    && (lastTrack.info.None? ==> next == None && recent1 == recent0 && seeds1 == seeds0 && cache1 == cache0)
    && (lastTrack.info.Some? ==>
          && seeds1 == seeds0 - {g}
          && recent1 == AddRecent(HistoryForRound(recent0, seeds0, g, lastTrack), g, lastTrack))
    && (!connected ==> next == None && cache1 == cache0)
    && (next.Some? ==> lastTrack.info.Some? && connected && next.value.info.Some? && !next.value.isAutoplay)
    && (lastTrack.info.Some? && connected ==>
          RoundOutcome(SeedOf(seeds0, g, lastTrack.info.value), lastTrack, RecentOf(recent1, g),
                       cache0, cache1, hasApiKey, now, search, reply, next, t))
  }

  /** The seed of a round: the preferred seed when one is saved, otherwise
      the last track. */
  function SeedOf(preferred: map<GuildId, TrackInfo>, g: GuildId, last: TrackInfo): TrackInfo {
    if g in preferred then preferred[g] else last
  }

  /** The history a round starts from: a last track that autoplay did not
      queue, with no preferred seed saved, makes a new seed and clears it. */
  function HistoryForRound(m: map<GuildId, seq<RecentEntry>>, preferred: map<GuildId, TrackInfo>, g: GuildId,
                           lastTrack: Track): map<GuildId, seq<RecentEntry>> {
    if g in preferred || lastTrack.isAutoplay then m else m - {g}
  }

  /** A track the user chose starts a fresh history holding only that track;
      other guilds keep theirs. */
  lemma NewSeedStartsFresh(m: map<GuildId, seq<RecentEntry>>, preferred: map<GuildId, TrackInfo>, g: GuildId, lastTrack: Track)
    requires g !in preferred && !lastTrack.isAutoplay && lastTrack.info.Some?
    ensures RecentOf(AddRecent(HistoryForRound(m, preferred, g, lastTrack), g, lastTrack), g) == [EntryOf(lastTrack.info.value)]
    ensures forall h :: h != g ==> RecentOf(AddRecent(HistoryForRound(m, preferred, g, lastTrack), g, lastTrack), h) == RecentOf(m, h)
  {
  }

  // ---------------------------------------------------------------- similar artists

  datatype CacheEntry = CacheEntry(artists: seq<string>, timestamp: int)

  /** What a cached list satisfies: at most 15 lower-case names. */
  predicate CachedOk(e: CacheEntry) {
    |e.artists| <= MAX_SIMILAR && forall i :: 0 <= i < |e.artists| ==> IsLower(e.artists[i])
  }

  /** The outcome of the Last.fm request: a non-ok status, a thrown error or
      timeout, or a JSON body with its `error` field and the
      `similarartists.artist` names when that array is present. */
  datatype LastFmReply = NotOk | Failed | Body(error: bool, artists: Option<seq<string>>)

  function LowerAll(names: seq<string>): (r: seq<string>)
    ensures |r| == |names| && forall i :: 0 <= i < |r| ==> r[i] == Lower(names[i]) && IsLower(r[i])
  {
    seq(|names|, i requires 0 <= i < |names| => Lower(names[i]))
  }

  /** `similarArtists` from a reply, if it is one that gets cached. */
  function Fetched(reply: LastFmReply): (r: Option<seq<string>>)
    ensures r.Some? ==> CachedOk(CacheEntry(r.value, 0))
    ensures r.Some? <==> reply.Body? && !reply.error && reply.artists.Some?
  {
    match reply
    case Body(false, Some(names)) =>
      var all := LowerAll(names);
      Some(if |all| <= MAX_SIMILAR then all else all[..MAX_SIMILAR])
    case _ => None
  }

  /** `artist?.toLowerCase().trim()`, the cache key. */
  function CacheKey(artist: string): string {
    Trim(Lower(artist))
  }

  predicate Fresh(cache: map<string, CacheEntry>, key: string, now: int) {
    key in cache && now - cache[key].timestamp < CACHE_TTL
  }

  /** Whether the lookup goes out to Last.fm at all. */
  predicate Fetches(cache: map<string, CacheEntry>, hasApiKey: bool, artist: string, now: int) {
    hasApiKey && CacheKey(artist) != "" && !Fresh(cache, CacheKey(artist), now)
  }

  /** The list `fetchSimilarArtistsFromLastFm(artist)` returns; `reply`
      answers a request for a cache key. */
  function FetchResult(cache: map<string, CacheEntry>, hasApiKey: bool, artist: string, now: int,
                       reply: string -> LastFmReply): seq<string>
  {
    var key := CacheKey(artist);
    if !hasApiKey || key == "" then []
    else if Fresh(cache, key, now) then cache[key].artists
    else match Fetched(reply(key))
      case Some(a) => a
      case None => []
  }

  /** The cache after that call. */
  function CacheAfterFetch(cache: map<string, CacheEntry>, hasApiKey: bool, artist: string, now: int,
                           reply: string -> LastFmReply): map<string, CacheEntry>
  {
    if Fetches(cache, hasApiKey, artist, now) && Fetched(reply(CacheKey(artist))).Some? then
      cache[CacheKey(artist) := CacheEntry(Fetched(reply(CacheKey(artist))).value, now)]
    else cache
  }

  predicate CacheOk(cache: map<string, CacheEntry>) {
    forall k :: k in cache ==> CachedOk(cache[k])
  }

  /** Every list the lookup returns has at most 15 lower-case names, and the
      cache keeps that shape. */
  lemma FetchShape(cache: map<string, CacheEntry>, hasApiKey: bool, artist: string, now: int, reply: string -> LastFmReply)
    requires CacheOk(cache)
    ensures CachedOk(CacheEntry(FetchResult(cache, hasApiKey, artist, now, reply), now))
    ensures CacheOk(CacheAfterFetch(cache, hasApiKey, artist, now, reply))
  {
    var key := CacheKey(artist);
    if !hasApiKey || key == "" {
    } else if Fresh(cache, key, now) {
      assert CachedOk(cache[key]);
    } else {
      var f := Fetched(reply(key));
      if f.Some? {
        assert CachedOk(CacheEntry(f.value, 0));
        var after := cache[key := CacheEntry(f.value, now)];
        assert CachedOk(after[key]);
        assert forall k :: k in after && k != key ==> after[k] == cache[k];
      }
    }
  }

  /** A fresh entry answers without a request: the result and the cache do
      not depend on Last.fm's reply. */
  lemma FreshNeedsNoRequest(cache: map<string, CacheEntry>, hasApiKey: bool, artist: string, now: int,
                            reply1: string -> LastFmReply, reply2: string -> LastFmReply)
    requires hasApiKey && CacheKey(artist) != "" && Fresh(cache, CacheKey(artist), now)
    ensures FetchResult(cache, hasApiKey, artist, now, reply1) == cache[CacheKey(artist)].artists
    ensures FetchResult(cache, hasApiKey, artist, now, reply1) == FetchResult(cache, hasApiKey, artist, now, reply2)
    ensures CacheAfterFetch(cache, hasApiKey, artist, now, reply1) == cache
  {
  }

  /** What one lookup stores, a later lookup within 24 hours returns with no
      request of its own. */
  lemma StoredThenHit(cache: map<string, CacheEntry>, hasApiKey: bool, artist: string, now: int, later: int,
                      reply: string -> LastFmReply, reply2: string -> LastFmReply)
    requires Fetches(cache, hasApiKey, artist, now) && Fetched(reply(CacheKey(artist))).Some?
    requires now <= later < now + CACHE_TTL
    ensures var after := CacheAfterFetch(cache, hasApiKey, artist, now, reply);
            FetchResult(after, hasApiKey, artist, later, reply2) == FetchResult(cache, hasApiKey, artist, now, reply)
  {
  }

  /** Only an ok reply that carries the artist array is cached; an empty
      array is cached too. */
  lemma OnlyUsableRepliesCached(cache: map<string, CacheEntry>, hasApiKey: bool, artist: string, now: int,
                                reply: string -> LastFmReply)
    ensures CacheAfterFetch(cache, hasApiKey, artist, now, reply) != cache ==>
              Fetches(cache, hasApiKey, artist, now) && reply(CacheKey(artist)).Body?
              && !reply(CacheKey(artist)).error && reply(CacheKey(artist)).artists.Some?
  {
  }

  /** The hourly sweep's result: entries older than 24 hours are gone. */
  function Swept(cache: map<string, CacheEntry>, now: int): (r: map<string, CacheEntry>)
    ensures forall k :: k in r <==> k in cache && now - cache[k].timestamp <= CACHE_TTL
    ensures forall k :: k in r ==> r[k] == cache[k]
  {
    map k | k in cache && now - cache[k].timestamp <= CACHE_TTL :: cache[k]
  }

  /** The sweep never removes an entry a lookup would use, and an entry
      exactly 24 hours old is kept by the sweep although no lookup uses it. */
  lemma SweepKeepsFresh(cache: map<string, CacheEntry>, key: string, now: int)
    ensures Fresh(cache, key, now) ==> Fresh(Swept(cache, now), key, now)
    ensures key in cache && now - cache[key].timestamp == CACHE_TTL ==>
              key in Swept(cache, now) && !Fresh(cache, key, now)
  {
  }

  // ---------------------------------------------------------------- queries

  /** `recent.slice(-10).map(r => r.artistName?.toLowerCase()).filter(Boolean)`. */
  function NamesOf(entries: seq<RecentEntry>): (r: seq<string>)
    ensures forall x :: x in r <==> x != "" && exists i :: 0 <= i < |entries| && Lower(entries[i].artistName) == x
    decreases |entries|
  {
    if entries == [] then []
    else
      var rest := NamesOf(entries[1..]);
      assert forall i :: 1 <= i < |entries| ==> entries[i] == entries[1..][i - 1];
      var n := Lower(entries[0].artistName);
      if n != "" then [n] + rest else rest
  }

  function RecentArtists(recent: seq<RecentEntry>): seq<string> {
    NamesOf(Last(recent, MAX_RECENT_ARTISTS))
  }

  /** `similarArtists.filter(a => !recentArtists.includes(a.toLowerCase()))`. */
  function Available(similar: seq<string>, recentArtists: seq<string>): (r: seq<string>)
    ensures forall a :: a in r <==> a in similar && Lower(a) !in recentArtists
    ensures multiset(r) <= multiset(similar) && |r| <= |similar|
    decreases |similar|
  {
    if similar == [] then []
    else
      var rest := Available(similar[1..], recentArtists);
      assert similar == [similar[0]] + similar[1..];
      if Lower(similar[0]) !in recentArtists then [similar[0]] + rest else rest
  }

  /** The names the queries are drawn from: the available ones, or all of
      them when every one is recent. */
  function Pool(similar: seq<string>, recentArtists: seq<string>): seq<string> {
    var available := Available(similar, recentArtists);
    if |available| > 0 then available else similar
  }

  /** The pool is part of the similar list; it avoids the recent artists
      unless every similar artist is recent, and then it is the whole list. */
  lemma PoolChoice(similar: seq<string>, recentArtists: seq<string>)
    ensures multiset(Pool(similar, recentArtists)) <= multiset(similar)
    ensures |Pool(similar, recentArtists)| <= |similar|
    ensures |Pool(similar, recentArtists)| == 0 <==> |similar| == 0
    ensures (exists a :: a in similar && Lower(a) !in recentArtists) ==>
              forall a :: a in Pool(similar, recentArtists) ==> Lower(a) !in recentArtists
    ensures (forall a :: a in similar ==> Lower(a) in recentArtists) ==> Pool(similar, recentArtists) == similar
  {
    var available := Available(similar, recentArtists);
    if |available| > 0 {
      assert available[0] in similar && Lower(available[0]) !in recentArtists;
    }
    if exists a :: a in similar && Lower(a) !in recentArtists {
      var a :| a in similar && Lower(a) !in recentArtists;
      assert a in available;
    }
  }

  /** `${artist} music` for each name. */
  function QueriesFor(artists: seq<string>): (q: seq<string>)
    ensures |q| == |artists| && forall i :: 0 <= i < |q| ==> q[i] == artists[i] + " music"
  {
    seq(|artists|, i requires 0 <= i < |artists| => artists[i] + " music")
  }

  /** The seed artist's own query, unless it is among the last 3 recent
      artist names. */
  function SeedQuery(artistName: string, recentArtists: seq<string>): seq<string> {
    if Lower(artistName) !in Last(recentArtists, SEED_WINDOW) then [artistName + " music"] else []
  }

  /** Every query built from names ends in ` music` and gives its name back
      once that suffix is dropped. */
  lemma QueriesEndInMusic(names: seq<string>, artistName: string, recentArtists: seq<string>)
    ensures var q := QueriesFor(names) + SeedQuery(artistName, recentArtists);
            && |q| <= |names| + 1
            && (forall i :: 0 <= i < |q| ==> EndsWith(q[i], " music"))
            && (forall i :: 0 <= i < |names| ==> q[i][..|q[i]| - 6] == names[i])
            && (|q| > |names| ==> q[|names|][..|q[|names|]| - 6] == artistName)
  {
    var q := QueriesFor(names) + SeedQuery(artistName, recentArtists);
    forall i | 0 <= i < |q|
      ensures EndsWith(q[i], " music")
    {
      var n := if i < |names| then names[i] else artistName;
      assert q[i] == n + " music";
      assert q[i][|q[i]| - 6..] == " music";
    }
    forall i | 0 <= i < |names|
      ensures q[i][..|q[i]| - 6] == names[i]
    {
      assert q[i] == names[i] + " music";
    }
  }
}

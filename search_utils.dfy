/** Normalisation of what a user types into `/play`: a plain query gets the
    YouTube search prefix, links and explicit `<source>search:` queries are
    passed through, and only YouTube inputs are accepted. */
module SearchUtils {
  import opened Wrappers
  import opened Strings

  const YOUTUBE_PREFIX: string := "ytsearch"

  const EMPTY_QUERY_ERROR: string := "Please provide a song name or a YouTube link."
  const NOT_YOUTUBE_LINK_ERROR: string := "Supported inputs: YouTube video links, YouTube playlists, or plain text YouTube searches."
  const INVALID_LINK_ERROR: string := "Please provide a valid YouTube link or just type what to search on YouTube."
  const OTHER_SEARCH_ERROR: string := "Only YouTube search is supported right now. Use plain text or YouTube links."

  /** The class `[a-z]` (with `alnum`, `[a-z0-9]`) under the `i` flag. */
  predicate InClass(c: char, alnum: bool) {
    IsAsciiLetter(c) || (alnum && IsDigit(c))
  }

  /** Length of the longest prefix of `s` whose characters are in the class. */
  function ClassRun(s: string, alnum: bool): (n: nat)
    ensures n <= |s|
    ensures forall i :: 0 <= i < n ==> InClass(s[i], alnum)
    ensures n < |s| ==> !InClass(s[n], alnum)
  {
    if |s| > 0 && InClass(s[0], alnum) then 1 + ClassRun(s[1..], alnum) else 0
  }

  /** The six letters of "search", in either case. */
  predicate IsSearchWord(w: string) {
    Lower(w) == "search"
  }

  /** `/^[a-z]+search:/i` (letters) or `/^([a-z0-9]+search):/i` (alnum): the
      class run must end in "search" and be followed by a colon, since the
      colon is outside the class and "search" is inside it. */
  predicate HasSearchPrefix(s: string, alnum: bool) {
    var n := ClassRun(s, alnum);
    n >= 7 && n < |s| && s[n] == ':' && IsSearchWord(s[n - 6..n])
  }

  /** What the regular expression engine accepts: one or more class
      characters, then "search" in any case, then a colon. */
  predicate SearchPrefixMatchesAt(s: string, alnum: bool, k: nat) {
    && 1 <= k && k + 7 <= |s|
    && (forall i :: 0 <= i < k ==> InClass(s[i], alnum))
    && IsSearchWord(s[k..k + 6]) && s[k + 6] == ':'
  }

  lemma SearchWordInClass(w: string, alnum: bool)
    requires |w| == 6 && IsSearchWord(w)
    ensures forall i :: 0 <= i < 6 ==> InClass(w[i], alnum)
  {
    forall i | 0 <= i < 6 ensures InClass(w[i], alnum) {
      assert Lower(w)[i] == LowerChar(w[i]);
    }
  }

  /** The run characterisation agrees with the regular expression: a match
      exists iff `HasSearchPrefix`, and the match then ends at the run. */
  lemma SearchPrefixIsRegex(s: string, alnum: bool)
    ensures HasSearchPrefix(s, alnum) ==> SearchPrefixMatchesAt(s, alnum, ClassRun(s, alnum) - 6)
    ensures forall k: nat :: SearchPrefixMatchesAt(s, alnum, k) ==> HasSearchPrefix(s, alnum) && k == ClassRun(s, alnum) - 6
  {
    var n := ClassRun(s, alnum);
    forall k: nat | SearchPrefixMatchesAt(s, alnum, k)
      ensures HasSearchPrefix(s, alnum) && k == n - 6
    {
      SearchWordInClass(s[k..k + 6], alnum);
      assert forall i :: k <= i < k + 6 ==> InClass(s[i], alnum) by {
        forall i | k <= i < k + 6 ensures InClass(s[i], alnum) {
          assert s[k..k + 6][i - k] == s[i];
        }
      }
      assert n >= k + 6;
      assert !InClass(s[k + 6], alnum);
      assert n <= k + 6;
    }
  }

  /** `/^https?:\/\//i`. */
  predicate IsHttpUrl(s: string) {
    StartsWith(Lower(s), "http://") || StartsWith(Lower(s), "https://")
  }

  /** `resolveYouTubePrefix`: any candidate, string or not, resolves to the
      YouTube prefix, because no other provider is supported. */
  function ResolveYouTubePrefix(candidate: Option<string>): (prefix: string)
    ensures prefix == YOUTUBE_PREFIX
  {
    match candidate
    case None => YOUTUBE_PREFIX
    case Some(c) => if Lower(c) == YOUTUBE_PREFIX then YOUTUBE_PREFIX else YOUTUBE_PREFIX
  }

  /** `applyPreferredSource(query, guildConfig, defaultSource)`; the `??`
      chain picks the candidate, `None` standing for a value that is not a
      string. */
  function ApplyPreferredSource(query: string, preferredSource: Option<string>,
                                defaultSource: Option<string> := Some(YOUTUBE_PREFIX)): (r: string)
    ensures Trim(query) == "" ==> r == ""
    ensures Trim(query) != "" && (IsHttpUrl(Trim(query)) || HasSearchPrefix(Trim(query), false))
            ==> r == Trim(query)
    ensures Trim(query) != "" && !IsHttpUrl(Trim(query)) && !HasSearchPrefix(Trim(query), false)
            ==> r == YOUTUBE_PREFIX + ":" + Trim(query)
  {
    var trimmed := Trim(query);
    if trimmed == "" then trimmed
    else if IsHttpUrl(trimmed) || HasSearchPrefix(trimmed, false) then trimmed
    else
      var candidate := if preferredSource.Some? then preferredSource else defaultSource;
      ResolveYouTubePrefix(candidate) + ":" + trimmed
  }

  /** A class run followed by a character outside the class is the whole run. */
  lemma {:induction false} ClassRunOfConcat(a: string, b: string, alnum: bool)
    requires forall i :: 0 <= i < |a| ==> InClass(a[i], alnum)
    requires |b| > 0 && !InClass(b[0], alnum)
    ensures ClassRun(a + b, alnum) == |a|
  {
    if |a| > 0 {
      assert (a + b)[1..] == a[1..] + b;
      ClassRunOfConcat(a[1..], b, alnum);
    }
  }

  /** "ytsearch:" followed by anything has the eight letters as its class run. */
  lemma PrefixedRun(t: string, alnum: bool)
    ensures ClassRun(YOUTUBE_PREFIX + ":" + t, alnum) == 8
  {
    assert YOUTUBE_PREFIX + ":" + t == YOUTUBE_PREFIX + (":" + t);
    ClassRunOfConcat(YOUTUBE_PREFIX, ":" + t, alnum);
  }

  /** "ytsearch:" followed by anything carries an explicit search prefix,
      whose captured name is "ytsearch". */
  lemma PrefixedHasSearchPrefix(t: string, alnum: bool)
    ensures HasSearchPrefix(YOUTUBE_PREFIX + ":" + t, alnum)
    ensures (YOUTUBE_PREFIX + ":" + t)[..8] == YOUTUBE_PREFIX
  {
    var s := YOUTUBE_PREFIX + ":" + t;
    PrefixedRun(t, alnum);
    assert s[2..8] == "search";
    assert s[..8] == YOUTUBE_PREFIX;
  }

  /** "ytsearch:" followed by anything is not a link. */
  lemma PrefixedNotUrl(t: string)
    ensures !IsHttpUrl(YOUTUBE_PREFIX + ":" + t)
  {
    var s := YOUTUBE_PREFIX + ":" + t;
    assert Lower(s)[0] == 'y';
  }

  /** Prefixing trimmed text keeps it trimmed. */
  lemma PrefixedTrimmed(t: string)
    requires t != "" && Trim(t) == t
    ensures Trim(YOUTUBE_PREFIX + ":" + t) == YOUTUBE_PREFIX + ":" + t
  {
    var s := YOUTUBE_PREFIX + ":" + t;
    assert s[|s| - 1] == t[|t| - 1];
    TrimOfTrimmed(s);
  }

  /** Trimming twice is trimming once. */
  lemma TrimIdempotent(s: string)
    ensures Trim(Trim(s)) == Trim(s)
  {
    TrimOfTrimmed(Trim(s));
  }

  /** A trimmed link or explicit search is passed through unchanged. */
  lemma ApplyToRoutable(s: string, p: Option<string>, d: Option<string>)
    requires Trim(s) == s && (s == "" || IsHttpUrl(s) || HasSearchPrefix(s, false))
    ensures ApplyPreferredSource(s, p, d) == s
  {
  }

  /** Normalising a normalised query changes nothing. */
  lemma ApplyPreferredSourceIdempotent(query: string, p: Option<string>, d: Option<string>,
                                      p2: Option<string>, d2: Option<string>)
    ensures ApplyPreferredSource(ApplyPreferredSource(query, p, d), p2, d2) == ApplyPreferredSource(query, p, d)
  {
    var r := ApplyPreferredSource(query, p, d);
    ApplyPreferredSourceRoutable(query, p, d);
    ApplyPreferredSourceTrimmed(query, p, d);
    ApplyToRoutable(r, p2, d2);
  }

  /** Every result is trimmed. */
  lemma ApplyPreferredSourceTrimmed(query: string, p: Option<string>, d: Option<string>)
    ensures Trim(ApplyPreferredSource(query, p, d)) == ApplyPreferredSource(query, p, d)
  {
    var t := Trim(query);
    TrimIdempotent(query);
    if t != "" && !IsHttpUrl(t) && !HasSearchPrefix(t, false) {
      PrefixedTrimmed(t);
    }
  }

  /** Every non-empty result is routable: a link or an explicit search. */
  lemma ApplyPreferredSourceRoutable(query: string, p: Option<string>, d: Option<string>)
    ensures var r := ApplyPreferredSource(query, p, d);
            r == "" || IsHttpUrl(r) || HasSearchPrefix(r, false)
  {
    var t := Trim(query);
    if t != "" && !IsHttpUrl(t) && !HasSearchPrefix(t, false) {
      PrefixedHasSearchPrefix(t, false);
    }
  }

  /** `isYouTubeHost(hostname)`. */
  predicate IsYouTubeHost(hostname: string) {
    var h := Lower(hostname);
    h == "youtu.be" || h == "youtube.com" || EndsWith(h, ".youtube.com")
  }

  /** The host test ignores ASCII case and accepts every subdomain of
      `youtube.com`, but only after a dot: a longer host that merely ends in
      `youtube.com` is refused. */
  lemma YouTubeHosts(hostname: string, sub: string, x: string)
    ensures IsYouTubeHost(hostname) <==> IsYouTubeHost(Lower(hostname))
    ensures IsYouTubeHost(sub + ".youtube.com")
    ensures x != "" && x[|x| - 1] != '.' ==> !IsYouTubeHost(x + "youtube.com")
  {
    LowerOfLower(Lower(hostname));
    var dotted := sub + ".youtube.com";
    assert Lower(dotted)[|dotted| - 12..] == ".youtube.com";
    if x != "" && x[|x| - 1] != '.' {
      var h := Lower(x + "youtube.com");
      assert h[|x| - 1] == LowerChar(x[|x| - 1]) != '.';
      assert h[|h| - 12..][0] == h[|x| - 1];
      assert |h| > |"youtube.com"| && |"youtu.be"| < |h|;
    }
  }

  /** `getYouTubeOnlyQueryError(rawQuery)`, with `None` for `null`. Parsing
      the link is outside the model: `urlHost` is the host that `new URL`
      yields, `None` when it throws. */
  function YouTubeOnlyQueryError(rawQuery: string, urlHost: Option<string>): (err: Option<string>)
    ensures Trim(rawQuery) == "" <==> err == Some(EMPTY_QUERY_ERROR)
    ensures Trim(rawQuery) != "" && IsHttpUrl(Trim(rawQuery)) ==>
              err == (match urlHost
                      case None => Some(INVALID_LINK_ERROR)
                      case Some(h) => if IsYouTubeHost(h) then None else Some(NOT_YOUTUBE_LINK_ERROR))
    ensures Trim(rawQuery) != "" && !IsHttpUrl(Trim(rawQuery)) ==>
              (err.Some? <==> HasSearchPrefix(Trim(rawQuery), true)
                              && Lower(Trim(rawQuery)[..ClassRun(Trim(rawQuery), true)]) != YOUTUBE_PREFIX)
    ensures err.Some? ==> err.value in {EMPTY_QUERY_ERROR, NOT_YOUTUBE_LINK_ERROR, INVALID_LINK_ERROR, OTHER_SEARCH_ERROR}
  {
    var trimmed := Trim(rawQuery);
    if trimmed == "" then Some(EMPTY_QUERY_ERROR)
    else if IsHttpUrl(trimmed) then
      match urlHost
      case None => Some(INVALID_LINK_ERROR)
      case Some(h) => if IsYouTubeHost(h) then None else Some(NOT_YOUTUBE_LINK_ERROR)
    else if HasSearchPrefix(trimmed, true) && Lower(trimmed[..ClassRun(trimmed, true)]) != YOUTUBE_PREFIX then
      Some(OTHER_SEARCH_ERROR)
    else None
  }

  /** Plain text with no colon is always accepted as a YouTube search. */
  lemma PlainTextAccepted(rawQuery: string, urlHost: Option<string>)
    requires Trim(rawQuery) != "" && ':' !in Trim(rawQuery)
    ensures YouTubeOnlyQueryError(rawQuery, urlHost) == None
  {
    var t := Trim(rawQuery);
    NoColonNotUrl(t);
    NoColonNoSearchPrefix(t);
  }

  lemma NoColonNotUrl(t: string)
    requires ':' !in t
    ensures !IsHttpUrl(t)
  {
    if |t| >= 7 {
      assert Lower(t)[4] == LowerChar(t[4]) && Lower(t)[5] == LowerChar(t[5]);
      assert t[4] != ':' && t[5] != ':';
    }
  }

  lemma NoColonNoSearchPrefix(t: string)
    requires ':' !in t
    ensures !HasSearchPrefix(t, true)
  {
    var n := ClassRun(t, true);
    if n < |t| {
      assert t[n] in t;
    }
  }

  /** A query normalised for YouTube search passes the YouTube-only check. */
  lemma NormalisedQueryAccepted(t: string, urlHost: Option<string>)
    requires t != "" && Trim(t) == t && !IsHttpUrl(t) && !HasSearchPrefix(t, false)
    ensures YouTubeOnlyQueryError(ApplyPreferredSource(t, None), urlHost) == None
  {
    var s := YOUTUBE_PREFIX + ":" + t;
    PrefixedTrimmed(t);
    PrefixedNotUrl(t);
    PrefixedRun(t, true);
    PrefixedHasSearchPrefix(t, true);
    PrefixedAccepted(s, urlHost);
  }

  lemma PrefixedAccepted(s: string, urlHost: Option<string>)
    requires s != "" && Trim(s) == s && !IsHttpUrl(s) && ClassRun(s, true) == 8 && s[..8] == YOUTUBE_PREFIX
    ensures YouTubeOnlyQueryError(s, urlHost) == None
  {
    var run := ClassRun(s, true);
    assert s[..run] == YOUTUBE_PREFIX;
    PrefixIsLower();
  }

  /** The prefix is already lower case. */
  lemma PrefixIsLower()
    ensures Lower(YOUTUBE_PREFIX) == YOUTUBE_PREFIX
  {
    var p := YOUTUBE_PREFIX;
    assert forall i :: 0 <= i < |p| ==> 'a' <= p[i] <= 'z';
    LowerOfLower(p);
  }
}

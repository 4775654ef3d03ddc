/** How the autoplay engine guesses an artist from a track's title and author
    (`extractArtistName` and `cleanArtistName`). Each regular expression is
    modelled by the way a backtracking matcher treats that one pattern: the
    leftmost start position wins, a greedy `\s*` takes the whole run of white
    space, a lazy group stops at the first place the rest matches, and `.`
    stops at line terminators. Matching ignores ASCII case, which is all the
    `i` flag changes for these patterns.

    The featuring pattern `\s*(ft\.?|feat\.?|featuring|x|&|,).*$` has no word
    boundaries, so it also cuts at the `x` of "Max" or the `ft` of "Swift".
    `bounded == false` is that pattern as written; `bounded == true` asks for
    white space before a marker word and no letter or digit after it, which
    is what the pattern is plainly for. The rest of the model uses the
    bounded form. */
module ArtistNames {
  import opened Wrappers
  import opened Strings

  /** Length of the run of white space at the start of `s`: what a greedy
      `\s*` consumes. */
  function WsRun(s: string): (n: nat)
    ensures n <= |s|
    ensures forall i :: 0 <= i < n ==> IsSpace(s[i])
    ensures n < |s| ==> !IsSpace(s[n])
    decreases |s|
  {
    if |s| > 0 && IsSpace(s[0]) then 1 + WsRun(s[1..]) else 0
  }

  // ---------------------------------------------------------------- featuring

  /** Marker `m` (lower case) at position `q` of `s`, ignoring case, with the
      rest of the line after it for `.*$`. */
  predicate MarkerAt(s: string, q: nat, m: string)
    requires q <= |s|
  {
    q + |m| <= |s| && Lower(s[q..q + |m|]) == m && NoLineTerminator(s[q + |m|..])
  }

  /** A marker word (`ft`, `feat`, `featuring`, `x`) that, in the bounded
      form, starts after white space and is not followed by a letter or digit. */
  predicate WordMarkerAt(s: string, q: nat, m: string, bounded: bool)
    requires q <= |s|
  {
    && MarkerAt(s, q, m)
    && (bounded ==> q > 0 && IsSpace(s[q - 1]) && (q + |m| == |s| || !IsAsciiAlnum(s[q + |m|])))
  }

  /** One of the six alternatives starts at `q`. */
  predicate AnyMarkerAt(s: string, q: nat, bounded: bool)
    requires q <= |s|
  {
    || WordMarkerAt(s, q, "ft.", bounded) || WordMarkerAt(s, q, "ft", bounded)
    || WordMarkerAt(s, q, "feat.", bounded) || WordMarkerAt(s, q, "feat", bounded)
    || WordMarkerAt(s, q, "featuring", bounded) || WordMarkerAt(s, q, "x", bounded)
    || MarkerAt(s, q, "&") || MarkerAt(s, q, ",")
  }

  /** The featuring pattern matches from position `p`: white space, then a
      marker, then the rest of the line. */
  predicate FeatMatchAt(s: string, p: nat, bounded: bool)
    requires p <= |s|
  {
    AnyMarkerAt(s, MarkerPos(s, p), bounded)
  }

  /** Where the marker starts when the match is tried from `p`. */
  function MarkerPos(s: string, p: nat): (q: nat)
    requires p <= |s|
    ensures p <= q <= |s|
  {
    p + WsRun(s[p..])
  }

  /** The leftmost start at or after `p` of a match, or `|s|` when there is none. */
  function FirstFeat(s: string, p: nat, bounded: bool): (k: nat)
    requires p <= |s|
    ensures p <= k <= |s|
    ensures forall j :: p <= j < k ==> !FeatMatchAt(s, j, bounded)
    ensures k < |s| ==> FeatMatchAt(s, k, bounded)
    decreases |s| - p
  {
    if p == |s| then p
    else if FeatMatchAt(s, p, bounded) then p
    else FirstFeat(s, p + 1, bounded)
  }

  /** `s.replace(featuringPattern, '')`: the match runs to the end of the
      string, so what remains is the text before the leftmost match. */
  function FeaturingCut(s: string, bounded: bool): (r: string)
    ensures |r| <= |s| && r == s[..|r|]
    ensures forall j :: 0 <= j < |r| ==> !FeatMatchAt(s, j, bounded)
    ensures |r| < |s| ==> FeatMatchAt(s, |r|, bounded)
  {
    s[..FirstFeat(s, 0, bounded)]
  }

  /** The bounded cut never falls inside a word: the first character removed
      is white space, `&` or `,`. */
  lemma BoundedCutAtWordEdge(s: string)
    ensures var r := FeaturingCut(s, true);
            |r| < |s| ==> !IsAsciiAlnum(s[|r|])
  {
    var k := |FeaturingCut(s, true)|;
    if k < |s| {
      CutEdge(s, k);
    }
  }

  /** A leftmost bounded match starts at white space or at `&` or `,`. */
  lemma CutEdge(s: string, k: nat)
    requires k < |s| && FeatMatchAt(s, k, true)
    requires k > 0 ==> !FeatMatchAt(s, k - 1, true)
    ensures !IsAsciiAlnum(s[k])
  {
    var q := k + WsRun(s[k..]);
    if q > k {
      assert s[k..][0] == s[k];
    } else if MarkerAt(s, q, "&") {
      MarkerStart(s, q, "&");
    } else if MarkerAt(s, q, ",") {
      MarkerStart(s, q, ",");
    } else {
      WordMatchStartsEarlier(s, k);
      assert false;
    }
  }

  /** A word marker matched with no white space before it also matches one
      character earlier, from the space the bounded form demands. */
  lemma WordMatchStartsEarlier(s: string, k: nat)
    requires k < |s| && FeatMatchAt(s, k, true) && WsRun(s[k..]) == 0
    requires !MarkerAt(s, k, "&") && !MarkerAt(s, k, ",")
    ensures k > 0 && FeatMatchAt(s, k - 1, true)
  {
    WordAfterSpace(s, k);
    FirstFeatClean(s, k - 1);
  }

  /** In the bounded form a marker word comes after white space. */
  lemma WordAfterSpace(s: string, q: nat)
    requires q <= |s| && AnyMarkerAt(s, q, true) && !MarkerAt(s, q, "&") && !MarkerAt(s, q, ",")
    ensures q > 0 && IsSpace(s[q - 1])
  {
  }

  /** A leftmost match cannot be preceded by white space that could have
      started it. */
  lemma FirstFeatClean(s: string, j: nat)
    requires j < |s| && IsSpace(s[j])
    requires j + 1 <= |s| && FeatMatchAt(s, j + 1, true)
    ensures FeatMatchAt(s, j, true)
  {
    WsRunAfterSpace(s, j);
  }

  /** The white space run from a space goes on to the marker the run after it reaches. */
  lemma WsRunAfterSpace(s: string, j: nat)
    requires j < |s| && IsSpace(s[j])
    ensures MarkerPos(s, j) == MarkerPos(s, j + 1)
  {
    assert s[j..][1..] == s[j + 1..];
  }

  // ---------------------------------------------------------------- parentheses

  /** The lazy `.*?\)`: the first `)` at or after `k`, if no line terminator
      comes before it. */
  function CloseFrom(s: string, k: nat): (c: Option<nat>)
    requires k <= |s|
    ensures c.Some? ==> k <= c.value < |s| && s[c.value] == ')' && NoLineTerminator(s[k..c.value])
    decreases |s| - k
  {
    if k == |s| then None
    else if s[k] == ')' then Some(k)
    else if IsLineTerminator(s[k]) then None
    else match CloseFrom(s, k + 1)
      case None => None
      case Some(c) =>
        assert forall i :: k <= i < c ==> s[i] == s[k..c][i - k];
        Some(c)
  }

  /** Where `\s*\(.*?\)` matches when started at `p`: the end of the match. */
  function ParenMatchAt(s: string, p: nat): (e: Option<nat>)
    requires p <= |s|
    ensures e.Some? ==> p < e.value <= |s| && s[e.value - 1] == ')'
  {
    var q := p + WsRun(s[p..]);
    if q < |s| && s[q] == '(' then
      match CloseFrom(s, q + 1)
      case None => None
      case Some(c) => Some(c + 1)
    else None
  }

  /** The leftmost match at or after `p`, as (start, end). */
  function FirstParen(s: string, p: nat): (m: Option<(nat, nat)>)
    requires p <= |s|
    ensures m.Some? ==> p <= m.value.0 < m.value.1 <= |s| && ParenMatchAt(s, m.value.0) == Some(m.value.1)
    ensures m.None? ==> forall j :: p <= j <= |s| ==> ParenMatchAt(s, j).None?
    decreases |s| - p
  {
    match ParenMatchAt(s, p)
    case Some(e) => Some((p, e))
    case None => if p == |s| then None else FirstParen(s, p + 1)
  }

  /** `s.replace(/\s*\(.*?\)/g, '')`: every match, left to right, removed. */
  function StripParens(s: string): (r: string)
    ensures |r| <= |s|
    ensures r == s <==> FirstParen(s, 0).None?
    decreases |s|
  {
    match FirstParen(s, 0)
    case None => s
    case Some((p, e)) => s[..p] + StripParens(s[e..])
  }

  // ---------------------------------------------------------------- title pattern

  /** The class `[A-Za-z0-9\s&]`. */
  predicate InTitleClass(c: char) {
    IsAsciiAlnum(c) || IsSpace(c) || c == '&'
  }

  /** After the group: `\s*` and then one of `(`, `'`, `"`. */
  predicate QuoteFollows(s: string, n: nat)
    requires n <= |s|
  {
    var q := n + WsRun(s[n..]);
    q < |s| && (s[q] == '(' || s[q] == '\'' || s[q] == '"')
  }

  /** The lazy group `^([A-Za-z0-9\s&]+?)`: its shortest length from `n` on
      that is followed by an opening quote or parenthesis. */
  function LazyGroupEnd(s: string, n: nat): (e: Option<nat>)
    requires 1 <= n
    ensures e.Some? ==> n <= e.value <= |s| && QuoteFollows(s, e.value)
    ensures e.Some? ==> forall i :: n - 1 <= i < e.value ==> InTitleClass(s[i])
    ensures e.Some? ==> forall m :: n <= m < e.value ==> !QuoteFollows(s, m)
    decreases |s| + 1 - n
  {
    if n > |s| || !InTitleClass(s[n - 1]) then None
    else if QuoteFollows(s, n) then Some(n)
    else LazyGroupEnd(s, n + 1)
  }

  /** `title.match(/^([A-Za-z0-9\s&]+?)(?:\s*[('"]|\s*\()/i)[1]`. */
  function TitleGroup(title: string): (g: Option<string>)
    ensures g.Some? ==> 1 <= |g.value| <= |title| && g.value == title[..|g.value|]
    ensures g.Some? ==> (forall i :: 0 <= i < |g.value| ==> InTitleClass(title[i])) && QuoteFollows(title, |g.value|)
  {
    match LazyGroupEnd(title, 1)
    case None => None
    case Some(n) => Some(title[..n])
  }

  // ---------------------------------------------------------------- label suffix

  /** The words `cleanArtistName` strips from the end of an author. */
  predicate IsLabelWord(w: string) {
    w == "topic" || w == "vevo" || w == "official" || w == "music"
    || w == "records" || w == "label" || w == "entertainment"
  }

  /** `\s*[-]?\s*(topic|…|entertainment)$` matches from `p` to the end. */
  predicate LabelMatchAt(s: string, p: nat)
    requires p <= |s|
  {
    var r1 := s[p + WsRun(s[p..])..];
    var r2 := if |r1| > 0 && r1[0] == '-' then r1[1..] else r1;
    IsLabelWord(Lower(r2[WsRun(r2)..]))
  }

  function FirstLabel(s: string, p: nat): (k: nat)
    requires p <= |s|
    ensures p <= k <= |s|
    ensures forall j :: p <= j < k ==> !LabelMatchAt(s, j)
    ensures k < |s| ==> LabelMatchAt(s, k)
    decreases |s| - p
  {
    if p == |s| then p
    else if LabelMatchAt(s, p) then p
    else FirstLabel(s, p + 1)
  }

  /** The label suffix removed: the text before the leftmost match. */
  function LabelCut(s: string): (r: string)
    ensures |r| <= |s| && r == s[..|r|]
    ensures |r| < |s| ==> LabelMatchAt(s, |r|)
  {
    s[..FirstLabel(s, 0)]
  }

  // ---------------------------------------------------------------- names

  const SEPARATORS: seq<string> := [" - ", " \U{2013} ", " \U{2014} ", " | "]

  /** Trimming a lower-case string leaves it lower case. */
  lemma TrimLower(s: string)
    requires IsLower(s)
    ensures IsLower(Trim(s))
  {
    var a := SkipSpaces(s, 0);
    LowerSlice(s, a, SkipSpacesBack(s, a, |s|));
  }

  lemma LowerSlice(s: string, a: nat, b: nat)
    requires IsLower(s) && a <= b <= |s|
    ensures IsLower(s[a..b])
  {
    assert forall i :: 0 <= i < b - a ==> s[a..b][i] == s[a + i];
  }

  /** The separator branch: the first separator, in order, whose text before
      it cleans up to a name of 2 to 39 characters. */
  function SeparatorArtist(title: string, i: nat, bounded: bool): (a: Option<string>)
    requires i <= |SEPARATORS|
    ensures a.Some? ==> 2 <= |a.value| <= 39 && IsLower(a.value)
    decreases |SEPARATORS| - i
  {
    if i == |SEPARATORS| then None
    else if Contains(title, SEPARATORS[i]) then
      var artist := Lower(Trim(StripParens(FeaturingCut(BeforeFirst(title, SEPARATORS[i]), bounded))));
      if artist != [] && 1 < |artist| < 40 then Some(artist)
      else SeparatorArtist(title, i + 1, bounded)
    else SeparatorArtist(title, i + 1, bounded)
  }

  /** The title branch: the lower-cased group, when it is 2 to 29 characters. */
  function TitleArtist(title: string): (a: Option<string>)
    ensures a.Some? ==> 2 <= |a.value| <= 29 && IsLower(a.value)
    ensures a.Some? ==> TitleGroup(title).Some? && a.value == Lower(Trim(TitleGroup(title).value))
  {
    if title == [] then None
    else match TitleGroup(title)
      case None => None
      case Some(g) =>
        var artist := Lower(Trim(g));
        if 1 < |artist| < 30 then Some(artist) else None
  }

  /** `cleanArtistName(author)`: lower-cased, label suffix and featuring part
      removed, trimmed; `""` for a missing author. */
  function CleanArtistName(author: string, bounded: bool): (r: string)
    ensures IsLower(r)
    ensures |r| <= |author|
  {
    if author == [] then []
    else
      var low := Lower(author);
      var cut := FeaturingCut(LabelCut(low), bounded);
      LowerSlice(low, 0, |LabelCut(low)|);
      LowerSlice(LabelCut(low), 0, |cut|);
      TrimLower(cut);
      Trim(cut)
  }

  /** `extractArtistName(title, author)`; a missing title or author is `""`. */
  function ExtractArtistName(title: string, author: string, bounded: bool): (r: string)
    ensures IsLower(r)
    ensures SeparatorArtist(title, 0, bounded).Some? ==> r == SeparatorArtist(title, 0, bounded).value
    ensures SeparatorArtist(title, 0, bounded).None? && TitleArtist(title).Some? ==> r == TitleArtist(title).value
    ensures SeparatorArtist(title, 0, bounded).None? && TitleArtist(title).None? ==> r == CleanArtistName(author, bounded)
  {
    match SeparatorArtist(title, 0, bounded)
    case Some(a) => a
    case None =>
      match TitleArtist(title)
      case Some(a) => a
      case None => CleanArtistName(author, bounded)
  }

  /** The name the rest of the model uses. */
  function ArtistName(title: string, author: string): (r: string)
    ensures IsLower(r) && r == ExtractArtistName(title, author, true)
  {
    ExtractArtistName(title, author, true)
  }

  /** The source's own extraction, with the unbounded featuring pattern. */
  function ArtistNameAsWritten(title: string, author: string): (r: string)
    ensures IsLower(r) && r == ExtractArtistName(title, author, false)
  {
    ExtractArtistName(title, author, false)
  }

  /** Any name the extraction gives is lower case, and the two title branches
      keep their length windows: so an artist from a title is never a single
      letter and never longer than 39 characters. */
  lemma ExtractedNameShape(title: string, author: string, bounded: bool)
    ensures var r := ExtractArtistName(title, author, bounded);
            IsLower(r) && (r == CleanArtistName(author, bounded) || 2 <= |r| <= 39)
  {
  }

  // ---------------------------------------------------------------- the finding

  /** A marker starts with the lower-cased character it is found at. */
  lemma MarkerStart(s: string, q: nat, m: string)
    requires q <= |s| && |m| >= 1 && MarkerAt(s, q, m)
    ensures q < |s| && LowerChar(s[q]) == m[0]
  {
    assert Lower(s[q..q + |m|])[0] == LowerChar(s[q]);
  }

  /** No alternative starts at a character other than `f`, `x`, `&`, `,`. */
  lemma NoMarkerAt(s: string, q: nat, bounded: bool)
    requires q < |s| && LowerChar(s[q]) != 'f' && LowerChar(s[q]) != 'x' && s[q] != '&' && s[q] != ','
    ensures !AnyMarkerAt(s, q, bounded)
  {
    if AnyMarkerAt(s, q, bounded) {
      if MarkerAt(s, q, "ft.") { MarkerStart(s, q, "ft."); }
      else if MarkerAt(s, q, "ft") { MarkerStart(s, q, "ft"); }
      else if MarkerAt(s, q, "feat.") { MarkerStart(s, q, "feat."); }
      else if MarkerAt(s, q, "feat") { MarkerStart(s, q, "feat"); }
      else if MarkerAt(s, q, "featuring") { MarkerStart(s, q, "featuring"); }
      else if MarkerAt(s, q, "x") { MarkerStart(s, q, "x"); }
      else if MarkerAt(s, q, "&") { MarkerStart(s, q, "&"); }
      else { MarkerStart(s, q, ","); }
    }
  }

  /** A match cannot start at a character that is neither white space nor
      the first character of an alternative. */
  lemma NoFeatAt(s: string, p: nat, bounded: bool)
    requires p < |s| && !IsSpace(s[p])
    requires LowerChar(s[p]) != 'f' && LowerChar(s[p]) != 'x' && s[p] != '&' && s[p] != ','
    ensures !FeatMatchAt(s, p, bounded)
  {
    assert s[p..][0] == s[p];
    NoMarkerAt(s, p, bounded);
  }

  /** Moving past a position where no match starts. */
  lemma FirstFeatSkip(s: string, p: nat, bounded: bool)
    requires p < |s| && !FeatMatchAt(s, p, bounded)
    ensures FirstFeat(s, p, bounded) == FirstFeat(s, p + 1, bounded)
  {
  }

  /** "Max": the cut as written keeps "Ma". */
  lemma MaxCutAsWritten(s: string)
    requires s == "Max"
    ensures FeaturingCut(s, false) == s[..2]
  {
    NoFeatAt(s, 0, false);
    NoFeatAt(s, 1, false);
    XMatches(s);
    FirstFeatSkip(s, 0, false);
    FirstFeatSkip(s, 1, false);
  }

  lemma XMatches(s: string)
    requires s == "Max"
    ensures FeatMatchAt(s, 2, false)
  {
    assert s[2..][0] == 'x';
    assert WsRun(s[2..]) == 0;
    assert Lower(s[2..3]) == "x";
    assert NoLineTerminator(s[3..]);
    assert MarkerAt(s, 2, "x");
  }

  /** "Max": the bounded cut keeps all of it. */
  lemma MaxCutBounded(s: string)
    requires s == "Max"
    ensures FeaturingCut(s, true) == s
  {
    NoFeatAt(s, 0, true);
    NoFeatAt(s, 1, true);
    XNotAWord(s);
    FirstFeatSkip(s, 0, true);
    FirstFeatSkip(s, 1, true);
    FirstFeatSkip(s, 2, true);
  }

  lemma XNotAWord(s: string)
    requires s == "Max"
    ensures !FeatMatchAt(s, 2, true)
  {
    assert s[2..][0] == 'x';
    assert WsRun(s[2..]) == 0;
    OnlyXAt(s, 2, true);
  }

  /** At an `x` only the marker `x` can start. */
  lemma OnlyXAt(s: string, q: nat, bounded: bool)
    requires q < |s| && LowerChar(s[q]) == 'x'
    ensures AnyMarkerAt(s, q, bounded) ==> WordMarkerAt(s, q, "x", bounded)
  {
    if MarkerAt(s, q, "ft.") { MarkerStart(s, q, "ft."); }
    if MarkerAt(s, q, "ft") { MarkerStart(s, q, "ft"); }
    if MarkerAt(s, q, "feat.") { MarkerStart(s, q, "feat."); }
    if MarkerAt(s, q, "feat") { MarkerStart(s, q, "feat"); }
    if MarkerAt(s, q, "featuring") { MarkerStart(s, q, "featuring"); }
    if MarkerAt(s, q, "&") { MarkerStart(s, q, "&"); }
    if MarkerAt(s, q, ",") { MarkerStart(s, q, ","); }
  }

  /** The separator branch on "Max - Song": "ma" as written, "max" bounded. */
  lemma MaxSeparator(title: string, bounded: bool)
    requires title == "Max - Song"
    ensures SeparatorArtist(title, 0, bounded) == Some(if bounded then "max" else "ma")
  {
    SeparatorFound(title, "Max");
    MaxName("Max", bounded);
  }

  lemma MaxName(s: string, bounded: bool)
    requires s == "Max"
    ensures Lower(Trim(StripParens(FeaturingCut(s, bounded)))) == if bounded then "max" else "ma"
  {
    var t := if bounded then s else s[..2];
    var low: string := if bounded then "max" else "ma";
    if bounded { MaxCutBounded(s); } else { MaxCutAsWritten(s); }
    assert FeaturingCut(s, bounded) == t;
    CleanName(t, low);
  }

  /** A name with no parenthesis and no outer white space is only lower-cased. */
  lemma CleanName(t: string, low: string)
    requires t == "Max" || t == "Ma"
    requires low == Lower(t)
    ensures Lower(Trim(StripParens(t))) == low
    ensures t == "Max" ==> low == "max"
    ensures t == "Ma" ==> low == "ma"
  {
    NoParens(t);
    TrimOfTrimmed(t);
    assert low[0] == LowerChar('M') == 'm' && low[1] == 'a';
    if |t| == 3 { assert low[2] == 'x'; }
  }

  /** As written, "Max - Song" yields "ma": the `x` of "Max" starts a match. */
  lemma MaxAsWritten()
    ensures ArtistNameAsWritten("Max - Song", "") == "ma"
  {
    MaxSeparator("Max - Song", false);
  }

  /** Bounded, the same title yields "max". */
  lemma MaxBounded()
    ensures ArtistName("Max - Song", "") == "max"
  {
    MaxSeparator("Max - Song", true);
  }

  /** The bounded pattern still removes a real featuring part. */
  lemma FeatBounded(s: string)
    requires s == "A ft. B"
    ensures FeaturingCut(s, true) == "A"
  {
    NoFeatAt(s, 0, true);
    FirstFeatSkip(s, 0, true);
    FtMatches(s);
    assert s[..1] == "A";
  }

  lemma FtMatches(s: string)
    requires s == "A ft. B"
    ensures FeatMatchAt(s, 1, true)
  {
    WsRunAfterSpace(s, 1);
    assert s[2..][0] == 'f';
    assert MarkerPos(s, 2) == 2;
    FtWord(s);
  }

  lemma FtWord(s: string)
    requires s == "A ft. B"
    ensures WordMarkerAt(s, 2, "ft.", true)
  {
    assert Lower(s[2..5]) == "ft.";
    assert NoLineTerminator(s[5..]);
  }

  /** " - " first occurs after `artist` and so splits off `artist`. */
  lemma SeparatorFound(title: string, artist: string)
    requires title == "Max - Song" && artist == "Max"
    ensures Contains(title, SEPARATORS[0]) && BeforeFirst(title, SEPARATORS[0]) == artist
  {
    forall j | 0 <= j < 3 ensures !StartsWith(title[j..], " - ") {
      assert title[j..][0] == title[j];
    }
    IndexOfAt(title, " - ", 3);
  }

  /** A string without `(` has nothing for the parenthesis pattern. */
  lemma NoParens(s: string)
    requires '(' !in s
    ensures StripParens(s) == s
  {
    forall j | 0 <= j <= |s| ensures ParenMatchAt(s, j).None? {
      var q := j + WsRun(s[j..]);
      if q < |s| { assert s[q] in s; }
    }
    FirstParenNone(s, 0);
  }

  lemma {:induction false} FirstParenNone(s: string, p: nat)
    requires p <= |s|
    requires forall j :: p <= j <= |s| ==> ParenMatchAt(s, j).None?
    ensures FirstParen(s, p).None?
    decreases |s| - p
  {
    if p < |s| {
      FirstParenNone(s, p + 1);
    }
  }
}

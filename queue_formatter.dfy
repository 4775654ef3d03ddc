/** The arithmetic behind the `/queue` view: how the queue is cut into pages,
    the estimated time until each listed track starts, the total duration,
    and the pagination buttons with their custom ids. */
module QueueFormatter {
  import opened Wrappers
  import opened Strings
  import opened Time

  const PAGE_SIZE: nat := 10
  const QUEUE_BUTTON_PREFIX: string := "queue"

  /** A queued track, reduced to its `info.duration` (missing when `None`). */
  datatype QueuedTrack = QueuedTrack(duration: Option<int>)

  /** `track.info.duration ?? 0`. */
  function DurationOf(t: QueuedTrack): int {
    t.duration.GetOr(0)
  }

  /** The durations of `ts` added up, each missing one as 0. */
  function SumDurations(ts: seq<QueuedTrack>): int
    decreases |ts|
  {
    if |ts| == 0 then 0 else SumDurations(ts[..|ts| - 1]) + DurationOf(ts[|ts| - 1])
  }

  lemma SumDurationsPrefixStep(ts: seq<QueuedTrack>, i: nat)
    requires i < |ts|
    ensures SumDurations(ts[..i + 1]) == SumDurations(ts[..i]) + DurationOf(ts[i])
  {
    assert ts[..i + 1][..i] == ts[..i];
  }

  lemma {:induction false} SumDurationsFront(ts: seq<QueuedTrack>)
    requires |ts| > 0
    ensures SumDurations(ts) == DurationOf(ts[0]) + SumDurations(ts[1..])
    decreases |ts|
  {
    if |ts| > 1 {
      var init := ts[..|ts| - 1];
      SumDurationsFront(init);
      assert init[1..] == ts[1..][..|ts[1..]| - 1];
    } else {
      assert ts[..0] == [] && ts[1..] == [];
    }
  }

  /** `tracks.reduce((total, track) => total + (track.info.duration ?? 0), acc)`. */
  function ReduceDurations(ts: seq<QueuedTrack>, acc: int): int
    decreases |ts|
  {
    if |ts| == 0 then acc else ReduceDurations(ts[1..], acc + DurationOf(ts[0]))
  }

  /** The fold adds exactly the durations of the queue to its start value. */
  lemma {:induction false} ReduceDurationsIsSum(ts: seq<QueuedTrack>, acc: int)
    ensures ReduceDurations(ts, acc) == acc + SumDurations(ts)
    decreases |ts|
  {
    if |ts| > 0 {
      ReduceDurationsIsSum(ts[1..], acc + DurationOf(ts[0]));
      SumDurationsFront(ts);
    }
  }

  /** With no negative durations the sum of a prefix never exceeds the sum of the whole. */
  lemma {:induction false} SumDurationsPrefixBound(ts: seq<QueuedTrack>, i: nat)
    requires i <= |ts|
    requires forall j :: 0 <= j < |ts| ==> DurationOf(ts[j]) >= 0
    ensures SumDurations(ts[..i]) <= SumDurations(ts)
    decreases |ts| - i
  {
    if i < |ts| {
      SumDurationsPrefixStep(ts, i);
      SumDurationsPrefixBound(ts, i + 1);
      if i + 1 == |ts| {
        assert ts[..i + 1] == ts;
      }
    } else {
      assert ts[..i] == ts;
    }
  }

  /** `Math.max(1, Math.ceil(Math.max(1, n) / pageSize))`: the fewest pages of
      `pageSize` tracks that hold the queue, and at least one. */
  function TotalPages(n: nat, pageSize: nat): (t: nat)
    requires pageSize >= 1
    ensures t >= 1
    ensures (t - 1) * pageSize < (if n < 1 then 1 else n) <= t * pageSize
  {
    var m := if n < 1 then 1 else n;
    (m + pageSize - 1) / pageSize
  }

  /** `Math.min(Math.max(page, 0), totalPages - 1)`. */
  function ClampPage(page: int, totalPages: nat): (p: nat)
    requires totalPages >= 1
    ensures p < totalPages
    ensures 0 <= page < totalPages ==> p == page
    ensures page < 0 ==> p == 0
    ensures page >= totalPages ==> p == totalPages - 1
  {
    if page < 0 then 0 else if page > totalPages - 1 then totalPages - 1 else page
  }

  /** What is left of the current track: `Math.max(0, (duration ?? 0) - (position ?? 0))`,
      or 0 when nothing is playing. */
  function CurrentRemaining(current: Option<QueuedTrack>, position: Option<int>): (r: nat)
    ensures current.None? ==> r == 0
    ensures current.Some? ==> r >= DurationOf(current.value) - position.GetOr(0)
    ensures r > 0 ==> r == DurationOf(current.value) - position.GetOr(0)
  {
    match current
    case None => 0
    case Some(t) =>
      var left := DurationOf(t) - position.GetOr(0);
      if left < 0 then 0 else left
  }

  /** The first listed track is inside the queue, or the queue is empty. */
  lemma PageStartInRange(n: nat, page: int, pageSize: nat)
    requires pageSize >= 1
    ensures var p := ClampPage(page, TotalPages(n, pageSize));
            p * pageSize <= n && (n > 0 ==> p * pageSize < n)
  {
    var t := TotalPages(n, pageSize);
    var p := ClampPage(page, t);
    assert p <= t - 1;
    assert p * pageSize <= (t - 1) * pageSize;
  }

  /** Every queued track is on a page that the view can show. */
  lemma EveryTrackOnSomePage(n: nat, pageSize: nat, i: nat)
    requires pageSize >= 1 && i < n
    ensures var p := i / pageSize;
            ClampPage(p, TotalPages(n, pageSize)) == p && p * pageSize <= i < p * pageSize + pageSize
  {
    var t := TotalPages(n, pageSize);
    var p := i / pageSize;
    var r := i % pageSize;
    assert i == p * pageSize + r && 0 <= r < pageSize;
    assert i < t * pageSize;
    if p >= t {
      MulMonotone(t, p, pageSize);
      assert false;
    }
  }

  lemma MulMonotone(a: nat, b: nat, c: nat)
    requires a <= b
    ensures a * c <= b * c
  {
  }

  /** One listed line: the position in the queue (from 1), the estimated
      time until the track starts and the track's length; the line shows
      the last two as `formatDuration` text. */
  datatype Entry = Entry(number: nat, eta: int, length: int) {
    function EtaText(): string { FormatDuration(eta) }
    function LengthText(): string { FormatDuration(length) }
  }

  /** The line for the track at index `i` of the queue, given the remaining
      time of the current track. */
  function ExpectedEntry(tracks: seq<QueuedTrack>, remaining: nat, i: nat): Entry
    requires i < |tracks|
  {
    MakeEntry(i + 1, remaining + SumDurations(tracks[..i]), tracks[i])
  }

  /** The line numbered `number` for `track`, starting `eta` from now. */
  function MakeEntry(number: nat, eta: int, track: QueuedTrack): Entry {
    Entry(number, eta, DurationOf(track))
  }

  lemma MakeEntryIsExpected(tracks: seq<QueuedTrack>, remaining: nat, i: nat, eta: int)
    requires i < |tracks| && eta == remaining + SumDurations(tracks[..i])
    ensures MakeEntry(i + 1, eta, tracks[i]) == ExpectedEntry(tracks, remaining, i)
  {
  }

  /** What `buildQueueEmbed` computes; the rendering into an embed is left out. */
  datatype QueuePage = QueuePage(page: nat, totalPages: nat, entries: seq<Entry>,
                                 totalDuration: int, totalText: string)

  /** The ETA of the first listed track: the `etaBase +=` loop over the
      tracks before the page. */
  method EtaBase(tracks: seq<QueuedTrack>, remaining: nat, startIndex: nat) returns (etaBase: int)
    requires startIndex <= |tracks|
    ensures etaBase == remaining + SumDurations(tracks[..startIndex])
  {
    etaBase := remaining;
    var i := 0;
    while i < startIndex
      invariant 0 <= i <= startIndex
      invariant etaBase == remaining + SumDurations(tracks[..i])
    {
      SumDurationsPrefixStep(tracks, i);
      etaBase := etaBase + DurationOf(tracks[i]);
      i := i + 1;
    }
  }

  /** Appending the line for index `startIndex + |entries|` keeps every line
      the expected one. */
  lemma EntriesExtend(tracks: seq<QueuedTrack>, remaining: nat, startIndex: nat,
                      entries: seq<Entry>, entry: Entry)
    requires startIndex + |entries| < |tracks|
    requires forall k :: 0 <= k < |entries| ==> entries[k] == ExpectedEntry(tracks, remaining, startIndex + k)
    requires entry == ExpectedEntry(tracks, remaining, startIndex + |entries|)
    ensures forall k :: 0 <= k < |entries| + 1 ==>
              (entries + [entry])[k] == ExpectedEntry(tracks, remaining, startIndex + k)
  {
  }

  /** The `slice.forEach` loop: one line per track of the page, the running
      ETA growing by each track's duration. */
  method PageEntries(tracks: seq<QueuedTrack>, remaining: nat, startIndex: nat, stop: nat, etaBase: int)
    returns (entries: seq<Entry>)
    requires startIndex <= stop <= |tracks|
    requires etaBase == remaining + SumDurations(tracks[..startIndex])
    ensures |entries| == stop - startIndex
    ensures forall k :: 0 <= k < |entries| ==> entries[k] == ExpectedEntry(tracks, remaining, startIndex + k)
  {
    entries := [];
    var runningEta := etaBase;
    var i := startIndex;
    while i < stop
      invariant startIndex <= i <= stop
      invariant |entries| == i - startIndex
      invariant runningEta == remaining + SumDurations(tracks[..i])
      invariant forall k :: 0 <= k < |entries| ==> entries[k] == ExpectedEntry(tracks, remaining, startIndex + k)
    {
      var track := tracks[i];
      var entry := MakeEntry(i + 1, runningEta, track);
      MakeEntryIsExpected(tracks, remaining, i, runningEta);
      EntriesExtend(tracks, remaining, startIndex, entries, entry);
      entries := entries + [entry];
      SumDurationsPrefixStep(tracks, i);
      runningEta := runningEta + DurationOf(track);
      i := i + 1;
    }
  }

  /** The first index of page `page` of a queue of `n` tracks. */
  function PageStart(page: nat, pageSize: nat): nat {
    page * pageSize
  }

  /** The page that is shown and the slice `[start, stop)` of the queue it lists:
      a whole page of `pageSize` tracks, or what is left on the last page. */
  method PageRange(n: nat, page: int, pageSize: nat) returns (p: nat, start: nat, stop: nat)
    requires pageSize >= 1
    ensures p == ClampPage(page, TotalPages(n, pageSize))
    ensures start == PageStart(p, pageSize) <= stop <= n
    ensures stop - start == (if n - start < pageSize then n - start else pageSize)
  {
    p := ClampPage(page, TotalPages(n, pageSize));
    start := p * pageSize;
    PageStartInRange(n, page, pageSize);
    stop := if start + pageSize < n then start + pageSize else n;
  }

  /** `buildQueueEmbed(player, page, pageSize)`: the page is clamped, the
      listed tracks are those of that page, each ETA is the remaining time of
      the current track plus every earlier queued duration, and the total is
      the remaining time plus the whole queue. */
  method BuildQueuePage(tracks: seq<QueuedTrack>, current: Option<QueuedTrack>, position: Option<int>,
                        page: int, pageSize: nat := PAGE_SIZE) returns (v: QueuePage)
    requires pageSize >= 1
    ensures v.totalPages == TotalPages(|tracks|, pageSize)
    ensures v.page == ClampPage(page, v.totalPages)
    ensures PageStart(v.page, pageSize) <= |tracks|
    ensures |v.entries| == (if |tracks| - PageStart(v.page, pageSize) < pageSize
                            then |tracks| - PageStart(v.page, pageSize) else pageSize)
    ensures forall k :: 0 <= k < |v.entries| ==>
              v.entries[k] == ExpectedEntry(tracks, CurrentRemaining(current, position), PageStart(v.page, pageSize) + k)
    ensures v.totalDuration == CurrentRemaining(current, position) + SumDurations(tracks)
    ensures v.totalText == FormatDuration(v.totalDuration)
  {
    var totalPages := TotalPages(|tracks|, pageSize);
    var clampedPage, startIndex, stop := PageRange(|tracks|, page, pageSize);
    var remaining := CurrentRemaining(current, position);
    var etaBase := EtaBase(tracks, remaining, startIndex);
    var entries := PageEntries(tracks, remaining, startIndex, stop, etaBase);
    var remainingQueueDuration := ReduceDurations(tracks, 0);
    ReduceDurationsIsSum(tracks, 0);
    var totalDuration := remaining + remainingQueueDuration;
    v := QueuePage(clampedPage, totalPages, entries, totalDuration, FormatDuration(totalDuration));
  }

  /** Each ETA is the previous one plus the previous track's duration, and
      with no negative durations no ETA passes the total. */
  lemma EtaFacts(tracks: seq<QueuedTrack>, current: Option<QueuedTrack>, position: Option<int>, i: nat)
    requires i < |tracks|
    requires forall j :: 0 <= j < |tracks| ==> DurationOf(tracks[j]) >= 0
    ensures var rem := CurrentRemaining(current, position);
            && rem + SumDurations(tracks[..i + 1]) == rem + SumDurations(tracks[..i]) + DurationOf(tracks[i])
            && rem + SumDurations(tracks[..i]) + DurationOf(tracks[i]) <= rem + SumDurations(tracks)
  {
    SumDurationsPrefixStep(tracks, i);
    SumDurationsPrefixBound(tracks, i + 1);
  }

  /** A pagination button: its custom id, its caption and whether it is disabled. */
  datatype Button = Button(customId: string, caption: string, disabled: bool)

  /** `queue:<action>:<guildId>:<page>:<userId>`. */
  function QueueButtonId(action: string, guildId: string, page: int, userId: string): string {
    Join([QUEUE_BUTTON_PREFIX, action, guildId, IntToString(page), userId], ':')
  }

  /** `buildQueueComponents(guildId, page, totalPages, userId)`: Previous,
      Next, Close and Clear Queue; Previous is disabled on the first page and
      Next on the last, Close and Clear never. */
  function QueueComponents(guildId: string, page: int, totalPages: int, userId: string): (row: seq<Button>)
    ensures |row| == 4
    ensures row[0].disabled <==> page <= 0
    ensures row[1].disabled <==> page >= totalPages - 1
    ensures !row[2].disabled && !row[3].disabled
    ensures forall k :: 0 <= k < 4 ==>
              row[k].customId == QueueButtonId(["prev", "next", "close", "clear"][k], guildId, page, userId)
  {
    [ Button(QueueButtonId("prev", guildId, page, userId), "Previous", page <= 0),
      Button(QueueButtonId("next", guildId, page, userId), "Next", page >= totalPages - 1),
      Button(QueueButtonId("close", guildId, page, userId), "Close", false),
      Button(QueueButtonId("clear", guildId, page, userId), "Clear Queue", false) ]
  }

  /** The button handler splits the id on ':' and finds the action, guild,
      page and owner again, as long as none of them holds a colon. */
  lemma QueueButtonIdRoundTrip(action: string, guildId: string, page: int, userId: string)
    requires ':' !in action && ':' !in guildId && ':' !in userId
    ensures Split(QueueButtonId(action, guildId, page, userId), ':')
            == [QUEUE_BUTTON_PREFIX, action, guildId, IntToString(page), userId]
  {
    var fields := [QUEUE_BUTTON_PREFIX, action, guildId, IntToString(page), userId];
    assert ':' !in IntToString(page);
    assert forall i :: 0 <= i < |fields| ==> ':' !in fields[i];
    SplitJoin(fields, ':');
  }
}

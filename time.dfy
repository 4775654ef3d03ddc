/** Clock text for track positions: `formatDuration` renders milliseconds as
    `m:ss` or `h:mm:ss`, and `parseTimecode` reads such text back. */
module Time {
  import opened Wrappers
  import opened Strings

  const MS_PER_SECOND := 1000
  const MS_PER_HOUR := 3600 * 1000

  /** The hour, minute and second fields that a duration is shown with. */
  datatype Clock = Clock(hours: nat, minutes: nat, seconds: nat)

  /** A negative duration reads as 0 and sub-second milliseconds are dropped;
      minutes and seconds are the remainders below an hour and a minute. */
  function ClockOf(ms: int): (c: Clock)
    ensures c.minutes < 60 && c.seconds < 60
    ensures (c.hours * 3600 + c.minutes * 60 + c.seconds) * MS_PER_SECOND
            == (if ms < 0 then 0 else ms) / MS_PER_SECOND * MS_PER_SECOND
    ensures c.hours > 0 <==> ms >= MS_PER_HOUR
  {
    var m := if ms < 0 then 0 else ms;
    var total := m / MS_PER_SECOND;
    Clock(total / 3600, (total % 3600) / 60, total % 60)
  }

  /** `formatDuration(ms, { forceHours })`. Non-finite numbers are not modelled. */
  function FormatDuration(ms: int, forceHours: bool := false): (r: string)
    ensures |r| >= 4 && IsDigit(r[0]) && IsDigit(r[|r| - 1])
  {
    var c := ClockOf(ms);
    var showHours := forceHours || c.hours > 0;
    var mm := if showHours then PadStart2(NatToString(c.minutes)) else NatToString(c.minutes);
    var ss := PadStart2(NatToString(c.seconds));
    if showHours then NatToString(c.hours) + ":" + mm + ":" + ss else mm + ":" + ss
  }

  /** The groups that formatDuration shows: hours (when shown), minutes and
      two-digit seconds; minutes have two digits when hours are shown. */
  function Fields(ms: int, forceHours: bool): (parts: seq<string>)
    ensures |parts| == (if forceHours || ms >= MS_PER_HOUR then 3 else 2)
  {
    var c := ClockOf(ms);
    var ss := PadStart2(NatToString(c.seconds));
    if forceHours || c.hours > 0 then [NatToString(c.hours), PadStart2(NatToString(c.minutes)), ss]
    else [NatToString(c.minutes), ss]
  }

  /** The text is the fields joined by colons. */
  lemma FormatDurationSplit(ms: int, forceHours: bool)
    ensures Split(FormatDuration(ms, forceHours), ':') == Fields(ms, forceHours)
  {
    var c := ClockOf(ms);
    var ss := PadStart2(NatToString(c.seconds));
    if forceHours || c.hours > 0 {
      var hh := NatToString(c.hours);
      var mm := PadStart2(NatToString(c.minutes));
      assert FormatDuration(ms, forceHours) == hh + [':'] + mm + [':'] + ss;
      SplitThree(hh, mm, ss, ':');
    } else {
      var mm := NatToString(c.minutes);
      assert FormatDuration(ms, forceHours) == mm + [':'] + ss;
      SplitTwo(mm, ss, ':');
    }
  }

  /** The fields are digit groups; seconds always have two digits, and so do
      minutes when hours are shown; each reads back as its clock value. */
  lemma FieldsShape(ms: int, forceHours: bool)
    ensures var parts := Fields(ms, forceHours);
            var c := ClockOf(ms);
            && (forall i :: 0 <= i < |parts| ==> |parts[i]| >= 1 && AllDigits(parts[i]))
            && |parts[|parts| - 1]| == 2
            && DigitsValue(parts[|parts| - 1]) == c.seconds
            && (|parts| == 3 ==> |parts[1]| == 2 && DigitsValue(parts[0]) == c.hours
                                 && DigitsValue(parts[1]) == c.minutes
                                 && (c.hours < 100 ==> |parts[0]| <= 2))
            && (|parts| == 2 ==> |parts[0]| <= 2 && DigitsValue(parts[0]) == c.minutes)
  {
    var c := ClockOf(ms);
    PadStart2Value(NatToString(c.seconds));
    PadStart2Value(NatToString(c.minutes));
    NatToStringValue(c.seconds);
    NatToStringValue(c.minutes);
    NatToStringValue(c.hours);
  }

  /** One group of a timecode: one or two ASCII digits (`\d{1,2}`). */
  predicate IsTimecodeGroup(g: string) {
    1 <= |g| <= 2 && AllDigits(g)
  }

  /** `/^\d{1,2}(:\d{1,2}){0,2}$/`: one to three colon-separated groups. */
  predicate IsTimecode(s: string) {
    IsTimecodeGroups(Split(s, ':'))
  }

  /** One to three groups, each one or two digits. */
  predicate IsTimecodeGroups(g: seq<string>) {
    1 <= |g| <= 3 && forall i :: 0 <= i < |g| ==> IsTimecodeGroup(g[i])
  }

  /** The seconds that one to three groups stand for, as `h:m:s`, `m:s` or `s`. */
  function GroupsSeconds(g: seq<string>): nat
    requires 1 <= |g| <= 3 && forall i :: 0 <= i < |g| ==> AllDigits(g[i])
  {
    if |g| == 3 then DigitsValue(g[0]) * 3600 + DigitsValue(g[1]) * 60 + DigitsValue(g[2])
    else if |g| == 2 then DigitsValue(g[0]) * 60 + DigitsValue(g[1])
    else DigitsValue(g[0])
  }

  /** `parseTimecode(input)`: the thrown error becomes `Err`. The third check of
      the source (a group that `Number` cannot read) cannot fire once the
      pattern has matched, so it has no branch here. */
  function ParseTimecode(input: string): (r: Result<nat, string>)
    ensures r.Ok? <==> input != "" && IsTimecode(Trim(input))
    ensures r.Ok? ==> r.value % MS_PER_SECOND == 0
    ensures r.Ok? ==> r.value <= (99 * 3600 + 99 * 60 + 99) * MS_PER_SECOND
  {
    if input == "" then Err("Invalid time format.")
    else
      var normalized := Trim(input);
      if !IsTimecode(normalized) then Err("Use mm:ss or hh:mm:ss format.")
      else
        var seconds := GroupsSeconds(Split(normalized, ':'));
        GroupsSecondsBounded(Split(normalized, ':'));
        WholeSeconds(seconds);
        Ok(seconds * MS_PER_SECOND)
  }

  /** Groups of at most two digits stand for at most 99:99:99. */
  lemma GroupsSecondsBounded(g: seq<string>)
    requires IsTimecodeGroups(g)
    ensures GroupsSeconds(g) <= 99 * 3600 + 99 * 60 + 99
  {
    assert forall i :: 0 <= i < |g| ==> DigitsValue(g[i]) <= 99;
  }

  lemma WholeSeconds(seconds: nat)
    ensures (seconds * MS_PER_SECOND) % MS_PER_SECOND == 0
  {
  }

  /** Text that is already trimmed and well formed is read group by group. */
  lemma ParseTimecodeOfGroups(text: string)
    requires text != "" && Trim(text) == text && IsTimecode(text)
    ensures ParseTimecode(text) == Ok(GroupsSeconds(Split(text, ':')) * MS_PER_SECOND)
  {
  }

  /** Text that trims to two groups of at most two digits reads as minutes
      and seconds; neither is checked against 60, so "1:75" is 135 s. */
  lemma ParseTimecodeUncheckedFields(text: string, minutes: string, seconds: string)
    requires text != "" && Split(Trim(text), ':') == [minutes, seconds]
    requires 1 <= |minutes| <= 2 && 1 <= |seconds| <= 2 && AllDigits(minutes) && AllDigits(seconds)
    ensures ParseTimecode(text) == Ok((DigitsValue(minutes) * 60 + DigitsValue(seconds)) * MS_PER_SECOND)
  {
    TwoGroupsTimecode(Trim(text), minutes, seconds);
    ParseTimecodeOfTimecode(text, DigitsValue(minutes) * 60 + DigitsValue(seconds));
  }

  /** Text that trims to a timecode worth `seconds` reads as that many seconds. */
  lemma ParseTimecodeOfTimecode(text: string, seconds: nat)
    requires text != "" && IsTimecode(Trim(text)) && GroupsSeconds(Split(Trim(text), ':')) == seconds
    ensures ParseTimecode(text) == Ok(seconds * MS_PER_SECOND)
  {
  }

  /** Two groups of one or two digits form a timecode worth `m * 60 + s`. */
  lemma TwoGroupsTimecode(s: string, a: string, b: string)
    requires Split(s, ':') == [a, b]
    requires 1 <= |a| <= 2 && 1 <= |b| <= 2 && AllDigits(a) && AllDigits(b)
    ensures IsTimecode(s)
    ensures GroupsSeconds(Split(s, ':')) == DigitsValue(a) * 60 + DigitsValue(b)
  {
    assert IsTimecodeGroups([a, b]);
  }

  /** Formatted text starts and ends with a digit, so trimming keeps it. */
  lemma FormatDurationTrimmed(ms: int, forceHours: bool)
    ensures var text := FormatDuration(ms, forceHours); text != "" && Trim(text) == text
  {
    TrimOfTrimmed(FormatDuration(ms, forceHours));
  }

  /** Below 100 hours every field is a timecode group of one or two digits. */
  lemma FieldsTimecode(ms: int, forceHours: bool)
    requires ms < 100 * MS_PER_HOUR
    ensures var parts := Fields(ms, forceHours); var c := ClockOf(ms);
            && 2 <= |parts| <= 3 && (forall i :: 0 <= i < |parts| ==> IsTimecodeGroup(parts[i]))
            && GroupsSeconds(parts) == c.hours * 3600 + c.minutes * 60 + c.seconds
  {
    FieldsShape(ms, forceHours);
    var c := ClockOf(ms);
    assert c.hours < 100;
  }

  /** Below 100 hours the formatted text is a well-formed timecode whose
      groups stand for the clock's seconds. */
  lemma FormatDurationIsTimecode(ms: int, forceHours: bool)
    requires ms < 100 * MS_PER_HOUR
    ensures var text := FormatDuration(ms, forceHours);
            var c := ClockOf(ms);
            && text != "" && Trim(text) == text && IsTimecode(text)
            && GroupsSeconds(Split(text, ':')) == c.hours * 3600 + c.minutes * 60 + c.seconds
  {
    FormatDurationTrimmed(ms, forceHours);
    FormatDurationSplit(ms, forceHours);
    FieldsTimecode(ms, forceHours);
  }

  /** Round trip: below 100 hours, reading back the formatted text gives the
      duration with negatives clamped and sub-second milliseconds dropped. */
  lemma FormatParseRoundTrip(ms: int, forceHours: bool)
    requires ms < 100 * MS_PER_HOUR
    ensures ParseTimecode(FormatDuration(ms, forceHours))
            == Ok((if ms < 0 then 0 else ms) / MS_PER_SECOND * MS_PER_SECOND)
  {
    FormatDurationIsTimecode(ms, forceHours);
    ParseTimecodeOfGroups(FormatDuration(ms, forceHours));
  }
}

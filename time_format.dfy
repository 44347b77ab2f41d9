/**
 * The player's elapsed and total time display: `TimeSpan.ToString` with the
 * custom formats "hh\:mm\:ss" (at least one hour in all) and "mm\:ss"
 * (otherwise), over whole, non-negative seconds. "hh" is the hours-of-day
 * component, so whole days are not shown.
 */
module TimeFormat {
  import opened Wrappers
  import opened Numbers

  const SecondsPerMinute: nat := 60
  const SecondsPerHour: nat := 3600
  const SecondsPerDay: nat := 86400

  /** A two-digit, zero-padded component. */
  function Pad2(n: nat): (s: string)
    requires n < 100
    ensures |s| == 2 && IsDigit(s[0]) && IsDigit(s[1])
    ensures DigitValue(s[0]) * 10 + DigitValue(s[1]) == n
  {
    [DigitChar(n / 10), DigitChar(n % 10)]
  }

  function FormatTime(seconds: nat): string
  {
    var hours := (seconds / SecondsPerHour) % 24;
    var minutes := (seconds / SecondsPerMinute) % 60;
    var secs := seconds % SecondsPerMinute;
    if seconds >= SecondsPerHour then Pad2(hours) + ":" + Pad2(minutes) + ":" + Pad2(secs)
    else Pad2(minutes) + ":" + Pad2(secs)
  }

  /** The value of a two-digit component starting at position `k` of `s`. */
  function ComponentAt(s: string, k: nat): Option<nat>
  {
    if k + 2 <= |s| && IsDigit(s[k]) && IsDigit(s[k + 1]) then Some(DigitValue(s[k]) * 10 + DigitValue(s[k + 1]))
    else None
  }

  /**
   * Reads a clock display back: "mm:ss" or "hh:mm:ss" to the seconds it names,
   * with hours below 24 and minutes and seconds below 60.
   */
  function ClockSeconds(s: string): Option<nat>
  {
    if |s| == 5 && s[2] == ':' && ComponentAt(s, 0).Some? && ComponentAt(s, 3).Some?
       && ComponentAt(s, 0).value < 60 && ComponentAt(s, 3).value < 60 then
      Some(ComponentAt(s, 0).value * 60 + ComponentAt(s, 3).value)
    else if |s| == 8 && s[2] == ':' && s[5] == ':' && ComponentAt(s, 0).Some? && ComponentAt(s, 3).Some?
            && ComponentAt(s, 6).Some? && ComponentAt(s, 0).value < 24 && ComponentAt(s, 3).value < 60
            && ComponentAt(s, 6).value < 60 then
      Some(ComponentAt(s, 0).value * 3600 + ComponentAt(s, 3).value * 60 + ComponentAt(s, 6).value)
    else None
  }

  /** The time a display names: the time itself below one hour, the time of day from one hour on. */
  function ShownSeconds(seconds: nat): nat
  {
    if seconds >= SecondsPerHour then seconds % SecondsPerDay else seconds
  }

  lemma DayDecomposition(seconds: nat)
    ensures ((seconds / 3600) % 24) * 3600 + ((seconds / 60) % 60) * 60 + seconds % 60 == seconds % 86400
    ensures seconds < 3600 ==> (seconds / 60) % 60 == seconds / 60
  {
    var h := seconds / 3600;
    var r := seconds % 3600;
    assert seconds == h * 3600 + r;
    assert r / 60 < 60;
    assert seconds / 60 == h * 60 + r / 60;
    assert (seconds / 60) % 60 == r / 60;
    assert seconds % 60 == r % 60;
    assert r == (r / 60) * 60 + r % 60;
    assert seconds == (h / 24) * 86400 + (h % 24) * 3600 + r;
    assert (h % 24) * 3600 + r < 86400;
  }

  /**
   * The display has five characters below one hour and eight from one hour on,
   * and it names the time exactly below one hour and the time of day from one
   * hour on.
   */
  lemma FormatTimeReadsBack(seconds: nat)
    ensures |FormatTime(seconds)| == (if seconds >= SecondsPerHour then 8 else 5)
    ensures ClockSeconds(FormatTime(seconds)) == Some(ShownSeconds(seconds))
  {
    DayDecomposition(seconds);
    var s := FormatTime(seconds);
    var hours := (seconds / SecondsPerHour) % 24;
    var minutes := (seconds / SecondsPerMinute) % 60;
    var secs := seconds % SecondsPerMinute;
    if seconds >= SecondsPerHour {
      assert s[0..2] == Pad2(hours) && s[3..5] == Pad2(minutes) && s[6..8] == Pad2(secs);
      assert ComponentAt(s, 0) == Some(hours);
      assert ComponentAt(s, 3) == Some(minutes);
      assert ComponentAt(s, 6) == Some(secs);
    } else {
      assert s[0..2] == Pad2(minutes) && s[3..5] == Pad2(secs);
      assert ComponentAt(s, 0) == Some(minutes);
      assert ComponentAt(s, 3) == Some(secs);
    }
  }

  /** A component out of its clock range is no reading: "00:90" names no time. */
  lemma OutOfRangeIsNoTime()
    ensures ClockSeconds("00:90") == None
    ensures ClockSeconds("24:00:00") == None
  {
    assert ComponentAt("00:90", 3) == Some(90);
    assert ComponentAt("24:00:00", 0) == Some(24);
  }

  /** A day later, the hours of day are the same. */
  lemma HoursOfDayLater(seconds: nat)
    ensures ((seconds + 86400) / 3600) % 24 == (seconds / 3600) % 24
  {
    var h, r := seconds / 3600, seconds % 3600;
    assert seconds + 86400 == (h + 24) * 3600 + r;
    assert (seconds + 86400) / 3600 == h + 24;
  }

  /** A day later, the minutes and the seconds are the same. */
  lemma MinutesLater(seconds: nat)
    ensures ((seconds + 86400) / 60) % 60 == (seconds / 60) % 60
    ensures (seconds + 86400) % 60 == seconds % 60
  {
    var m, r := seconds / 60, seconds % 60;
    assert seconds + 86400 == (m + 1440) * 60 + r;
    assert (seconds + 86400) / 60 == m + 1440;
  }

  /** The "hh" component drops whole days: a time and the same time a day later look alike. */
  lemma FormatTimeDropsDays(seconds: nat)
    requires seconds >= SecondsPerHour
    ensures FormatTime(seconds + SecondsPerDay) == FormatTime(seconds)
  {
    HoursOfDayLater(seconds);
    MinutesLater(seconds);
  }
}

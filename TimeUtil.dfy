/** `formatMillis`: a duration in milliseconds shown as `H:MM:SS` from one
    hour on and as `MM:SS` below it; zero and negative durations show as
    `00:00`. */
module TimeUtil {
  import opened Domain
  import opened JvmLib

  /** The hours, minutes and seconds fields of a positive duration. */
  datatype Clock = Clock(hours: nat, minutes: nat, seconds: nat)

  /** The three fields `formatMillis` computes for `millis > 0`: sub-second
      remainders are dropped and minutes and seconds stay below 60. */
  function ClockOf(millis: int): (c: Clock)
    requires millis > 0
    ensures c.minutes < 60 && c.seconds < 60
    ensures c.hours * 3600 + c.minutes * 60 + c.seconds == millis / 1000
  {
    var totalSeconds := millis / 1000;
    SecondsSplit(totalSeconds);
    Clock(totalSeconds / 3600, (totalSeconds / 60) % 60, totalSeconds % 60)
  }

  /** A count of seconds is its hours, its minutes within the hour and its
      seconds within the minute. */
  lemma SecondsSplit(t: nat)
    ensures (t / 60) % 60 < 60 && t % 60 < 60
    ensures (t / 3600) * 3600 + ((t / 60) % 60) * 60 + t % 60 == t
  {
    var m := t / 60;
    assert t == m * 60 + t % 60;
    assert m == (m / 60) * 60 + m % 60;
    assert m / 60 == t / 3600;
  }

  function FormatMillis(millis: int): string
  {
    if millis <= 0 then "00:00" else ClockText(ClockOf(millis))
  }

  /** `"%d:%02d:%02d"` when there are hours, `"%02d:%02d"` otherwise. */
  function ClockText(c: Clock): string
  {
    if c.hours > 0 then IntToString(c.hours) + ":" + Pad2(c.minutes) + ":" + Pad2(c.seconds)
    else Pad2(c.minutes) + ":" + Pad2(c.seconds)
  }

  /** Reads a clock string back into whole seconds: `MM:SS` or `H...:MM:SS`,
      every field made of digits. The partner of `FormatMillis`. */
  function ClockSeconds(s: string): Option<nat>
  {
    if |s| < 5 || s[|s| - 3] != ':' then None
    else
      var ss := s[|s| - 2..];
      var mm := s[|s| - 5..|s| - 3];
      if !AllDigits(ss) || !AllDigits(mm) then None
      else if |s| == 5 then Some(DigitsValue(mm) * 60 + DigitsValue(ss))
      else if |s| == 6 || s[|s| - 6] != ':' || !AllDigits(s[..|s| - 6]) then None
      else Some(DigitsValue(s[..|s| - 6]) * 3600 + DigitsValue(mm) * 60 + DigitsValue(ss))
  }

  /** A non-positive duration always shows as `00:00`. */
  lemma FormatNonPositive(millis: int)
    requires millis <= 0
    ensures FormatMillis(millis) == "00:00"
  {
  }

  /** Two durations in the same whole second show alike: the text depends
      only on `millis / 1000`. */
  lemma FormatDependsOnWholeSeconds(a: int, b: int)
    requires a > 0 && b > 0 && a / 1000 == b / 1000
    ensures FormatMillis(a) == FormatMillis(b)
  {
  }

  /** Under one hour the text is exactly `MM:SS`; from one hour on it ends in
      `:MM:SS` after an unpadded hour count. */
  lemma {:induction false} FormatShape(millis: int)
    requires millis > 0
    ensures var s := FormatMillis(millis);
      && (millis / 1000 < 3600 <==> |s| == 5)
      && s[|s| - 3] == ':'
      && (millis / 1000 >= 3600 ==> s[|s| - 6] == ':' && s[..|s| - 6] == NatToString(millis / 1000 / 3600))
  {
    var c := ClockOf(millis);
    Pad2TwoDigits(c.minutes);
    Pad2TwoDigits(c.seconds);
    var tail := Pad2(c.minutes) + ":" + Pad2(c.seconds);
    if c.hours > 0 {
      var s := IntToString(c.hours) + ":" + tail;
      assert s[..|s| - 6] == NatToString(c.hours);
      assert s[|s| - 6] == ':';
    }
  }

  /** `ClockSeconds` reads the `MM:SS` layout field by field. */
  lemma ClockSecondsShort(mm: string, ss: string)
    requires |mm| == 2 && |ss| == 2 && AllDigits(mm) && AllDigits(ss)
    ensures ClockSeconds(mm + ":" + ss) == Some(DigitsValue(mm) * 60 + DigitsValue(ss))
  {
    var t := mm + ":" + ss;
    assert |t| == 5 && t[2] == ':';
    assert t[3..] == ss by { assert t == (mm + ":") + ss; }
    assert t[..2] == mm by { assert t == mm + (":" + ss); }
  }

  /** Where the three fields of an `H:MM:SS` string sit. */
  lemma LongLayout(h: string, mm: string, ss: string)
    requires |mm| == 2 && |ss| == 2
    ensures var s := h + ":" + mm + ":" + ss;
      && |s| == |h| + 6
      && s[|s| - 2..] == ss && s[|s| - 5..|s| - 3] == mm && s[..|s| - 6] == h
      && s[|s| - 6] == ':' && s[|s| - 3] == ':'
  {
    var s := h + ":" + mm + ":" + ss;
    assert s[|s| - 2..] == ss by { assert s == (h + ":" + mm + ":") + ss; }
    assert s[|s| - 5..|s| - 3] == mm by { assert s == (h + ":") + mm + (":" + ss); }
    assert s[..|s| - 6] == h by { assert s == h + (":" + mm + ":" + ss); }
  }

  /** `ClockSeconds` reads the fields of a string laid out as `H:MM:SS`. */
  lemma ClockSecondsOfLayout(s: string, h: string, mm: string, ss: string)
    requires |h| >= 1 && |mm| == 2 && |ss| == 2 && AllDigits(h) && AllDigits(mm) && AllDigits(ss)
    requires |s| == |h| + 6
    requires s[|s| - 2..] == ss && s[|s| - 5..|s| - 3] == mm && s[..|s| - 6] == h
    requires s[|s| - 6] == ':' && s[|s| - 3] == ':'
    ensures ClockSeconds(s) == Some(DigitsValue(h) * 3600 + DigitsValue(mm) * 60 + DigitsValue(ss))
  {
  }

  /** `ClockSeconds` reads the `H:MM:SS` layout field by field. */
  lemma ClockSecondsLong(h: string, mm: string, ss: string)
    requires |h| >= 1 && |mm| == 2 && |ss| == 2 && AllDigits(h) && AllDigits(mm) && AllDigits(ss)
    ensures ClockSeconds(h + ":" + mm + ":" + ss)
         == Some(DigitsValue(h) * 3600 + DigitsValue(mm) * 60 + DigitsValue(ss))
  {
    LongLayout(h, mm, ss);
    ClockSecondsOfLayout(h + ":" + mm + ":" + ss, h, mm, ss);
  }

  /** Round trip: reading the text back gives the whole seconds of the
      duration (and zero for a non-positive one). */
  lemma {:induction false} FormatMillisRoundTrip(millis: int)
    ensures ClockSeconds(FormatMillis(millis)) == Some(if millis <= 0 then 0 else millis / 1000)
  {
    if millis <= 0 {
      ClockTextRoundTrip(Clock(0, 0, 0));
      assert FormatMillis(millis) == ClockText(Clock(0, 0, 0));
    } else {
      ClockTextRoundTrip(ClockOf(millis));
    }
  }

  /** The text of one clock reads back as its total seconds. */
  lemma ClockTextRoundTrip(c: Clock)
    requires c.minutes < 60 && c.seconds < 60
    ensures ClockSeconds(ClockText(c)) == Some(c.hours * 3600 + c.minutes * 60 + c.seconds)
  {
    Pad2TwoDigits(c.minutes);
    Pad2TwoDigits(c.seconds);
    if c.hours > 0 {
      var h := IntToString(c.hours);
      NatToStringRoundTrip(c.hours);
      assert DigitsValue(h) == c.hours;
      ClockSecondsLong(h, Pad2(c.minutes), Pad2(c.seconds));
    } else {
      ClockSecondsShort(Pad2(c.minutes), Pad2(c.seconds));
    }
  }
}

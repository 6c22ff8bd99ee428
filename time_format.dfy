/** `formatTimeAgo`: how long ago a post was made, in the largest whole unit
    that fits (minutes, hours, days, weeks), or "just now" under a minute. */
module TimeFormat {
  import opened Text

  const MINUTE := 60
  const HOUR := 3600
  const DAY := 86400
  const WEEK := 604800

  /** The bucket and the count shown. */
  datatype Ago = JustNow | MinutesAgo(n: nat) | HoursAgo(n: nat) | DaysAgo(n: nat) | WeeksAgo(n: nat)

  /** `n` whole units of `unit` seconds fit in `s`, and one more does not. */
  predicate Counts(n: nat, unit: nat, s: int)
  {
    n * unit <= s < (n + 1) * unit
  }

  /** The bucketing of `formatTimeAgo`, for a post created at `timestamp` seen at
      `now` (both in whole seconds). Under a minute, including a timestamp in the
      future, is "just now"; otherwise the count is the number of whole units
      elapsed, which stays within the range its bucket implies. */
  function TimeAgo(now: int, timestamp: int): (r: Ago)
    ensures var s := now - timestamp;
      (r.JustNow? <==> s < MINUTE) &&
      (r.MinutesAgo? <==> MINUTE <= s < HOUR) &&
      (r.HoursAgo? <==> HOUR <= s < DAY) &&
      (r.DaysAgo? <==> DAY <= s < WEEK) &&
      (r.WeeksAgo? <==> WEEK <= s)
    ensures var s := now - timestamp;
      (r.MinutesAgo? ==> 1 <= r.n <= 59 && Counts(r.n, MINUTE, s)) &&
      (r.HoursAgo? ==> 1 <= r.n <= 23 && Counts(r.n, HOUR, s)) &&
      (r.DaysAgo? ==> 1 <= r.n <= 6 && Counts(r.n, DAY, s)) &&
      (r.WeeksAgo? ==> 1 <= r.n && Counts(r.n, WEEK, s))
  {
    var s := now - timestamp;
    if s < MINUTE then JustNow
    else if s < HOUR then MinutesAgo(s / MINUTE)
    else if s < DAY then HoursAgo(s / HOUR)
    else if s < WEEK then DaysAgo(s / DAY)
    else WeeksAgo(s / WEEK)
  }

  /** The text `formatTimeAgo` returns: "just now" exactly under a minute; otherwise
      a count, the letter of its unit and " ago". */
  function FormatTimeAgo(now: int, timestamp: int): (text: string)
    ensures text == "just now" <==> now - timestamp < MINUTE
    ensures now - timestamp >= MINUTE ==> |text| > 5 && text[|text| - 4..] == " ago"
    ensures var s := now - timestamp;
      (MINUTE <= s < HOUR ==> text[|text| - 5] == 'm') &&
      (HOUR <= s < DAY ==> text[|text| - 5] == 'h') &&
      (DAY <= s < WEEK ==> text[|text| - 5] == 'd') &&
      (WEEK <= s ==> text[|text| - 5] == 'w')
  {
    match TimeAgo(now, timestamp)
    case JustNow => "just now"
    case MinutesAgo(n) => Counted(n, 'm')
    case HoursAgo(n) => Counted(n, 'h')
    case DaysAgo(n) => Counted(n, 'd')
    case WeeksAgo(n) => Counted(n, 'w')
  }

  /** A count followed by its unit letter and " ago"; never "just now". */
  function Counted(n: nat, unit: char): (text: string)
    ensures |text| > 5 && text[..|text| - 5] == Decimal(n)
    ensures text[|text| - 5..] == [unit] + " ago"
    ensures text != "just now"
  {
    var text := Decimal(n) + [unit] + " ago";
    assert text[|text| - 1] == 'o' != "just now"[7];
    text
  }

  /** Past a minute, the characters before the unit letter are a numeral without
      a leading zero that denotes the bucket's count. */
  lemma FormatTimeAgoText(now: int, timestamp: int)
    ensures var text := FormatTimeAgo(now, timestamp);
      now - timestamp >= MINUTE ==>
        (forall k :: 0 <= k < |text| - 5 ==> IsDigit(text[k])) &&
        text[0] != '0' &&
        DecimalValue(text[..|text| - 5]) == TimeAgo(now, timestamp).n
  {
    var r := TimeAgo(now, timestamp);
    if !r.JustNow? {
      DecimalRoundTrip(r.n);
    }
  }
}

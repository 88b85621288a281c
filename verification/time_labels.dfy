/**
 * The two pieces of the home feed's post card that are arithmetic: the
 * relative-time text of a post and its like-count text. The clock reading
 * and the locale date formatter are inputs.
 */
module TimeLabels {
  import opened Outcome

  const MinuteMillis := 60000
  const HourMillis := 3600000
  const DayMillis := 86400000
  const WeekMillis := 604800000

  predicate AllDigits(s: string)
  {
    forall i :: 0 <= i < |s| ==> '0' <= s[i] <= '9'
  }

  /** No leading zero: a single digit, or digits that start with 1 to 9. */
  predicate NoLeadingZero(s: string)
  {
    |s| == 1 || (|s| > 1 && s[0] != '0')
  }

  function DigitChar(d: nat): (c: char)
    requires d < 10
    ensures '0' <= c <= '9' && c as int - '0' as int == d
  {
    ('0' as int + d) as char
  }

  /** Kotlin's decimal rendering of a non-negative number. */
  function DecimalString(n: nat): (s: string)
    ensures |s| >= 1 && AllDigits(s)
    ensures (s[0] == '0') <==> n == 0
    ensures NoLeadingZero(s)
    decreases n
  {
    if n < 10 then [DigitChar(n)] else DecimalString(n / 10) + [DigitChar(n % 10)]
  }

  /** The number a string of decimal digits denotes. */
  function DigitsValue(s: string): nat
    requires AllDigits(s)
  {
    if s == [] then 0 else DigitsValue(s[..|s| - 1]) * 10 + (s[|s| - 1] as int - '0' as int)
  }

  /** Reading back a rendered number gives the number. */
  lemma {:induction false} DigitsValueOfDecimalString(n: nat)
    ensures DigitsValue(DecimalString(n)) == n
    decreases n
  {
    var s := DecimalString(n);
    if n >= 10 {
      DigitsValueOfDecimalString(n / 10);
      assert s[..|s| - 1] == DecimalString(n / 10);
    }
  }

  /** Which of the five labels a time difference gets: 0 "Just now", 1 minutes, 2 hours, 3 days, 4 a date. */
  function Bucket(diff: int): (b: nat)
    ensures b <= 4
  {
    if diff < MinuteMillis then 0
    else if diff < HourMillis then 1
    else if diff < DayMillis then 2
    else if diff < WeekMillis then 3
    else 4
  }

  /** An older post never lands in an earlier bucket. */
  lemma BucketMonotone(d1: int, d2: int)
    requires d1 <= d2
    ensures Bucket(d1) <= Bucket(d2)
  {
  }

  /**
   * `text` is a count followed by `unit`, and the count is the number of whole
   * `size`-long units in `diff`, between 1 and `most`.
   */
  predicate ShowsWholeUnits(text: string, unit: char, size: nat, most: nat, diff: int)
  {
    && |text| >= 2 && text[|text| - 1] == unit
    && AllDigits(text[..|text| - 1]) && NoLeadingZero(text[..|text| - 1])
    && var n := DigitsValue(text[..|text| - 1]);
       1 <= n <= most && n * size <= diff < (n + 1) * size
  }

  /** A count of `size`-long units followed by `unit`. */
  function UnitsLabel(diff: int, size: nat, unit: char): string
    requires size > 0 && diff >= 0
  {
    DecimalString(diff / size) + [unit]
  }

  /** The digits before the unit read back as the number of whole units. */
  lemma UnitsLabelReadsBack(diff: int, size: nat, unit: char)
    requires size > 0 && diff >= 0
    ensures var text := UnitsLabel(diff, size, unit);
      && |text| >= 2 && text[|text| - 1] == unit
      && AllDigits(text[..|text| - 1]) && NoLeadingZero(text[..|text| - 1])
      && DigitsValue(text[..|text| - 1]) == diff / size
  {
    var text := UnitsLabel(diff, size, unit);
    assert text[..|text| - 1] == DecimalString(diff / size);
    DigitsValueOfDecimalString(diff / size);
  }

  /**
   * `formatTimestamp(timestamp)` read at clock time `now`; `monthDay` is the
   * locale "MMM dd" rendering of `timestamp`, used only for posts a week old
   * or more.
   */
  function FormatTimestamp(timestamp: int, now: int, monthDay: string): (r: string)
    ensures Bucket(now - timestamp) == 0 ==> r == "Just now"
    ensures Bucket(now - timestamp) == 1 ==> ShowsWholeUnits(r, 'm', MinuteMillis, 59, now - timestamp)
    ensures Bucket(now - timestamp) == 2 ==> ShowsWholeUnits(r, 'h', HourMillis, 23, now - timestamp)
    ensures Bucket(now - timestamp) == 3 ==> ShowsWholeUnits(r, 'd', DayMillis, 6, now - timestamp)
    ensures Bucket(now - timestamp) == 4 ==> r == monthDay
  {
    var diff := now - timestamp;
    if diff < MinuteMillis then "Just now"
    else if diff < HourMillis then
      UnitsLabelReadsBack(diff, MinuteMillis, 'm');
      UnitsLabel(diff, MinuteMillis, 'm')
    else if diff < DayMillis then
      UnitsLabelReadsBack(diff, HourMillis, 'h');
      UnitsLabel(diff, HourMillis, 'h')
    else if diff < WeekMillis then
      UnitsLabelReadsBack(diff, DayMillis, 'd');
      UnitsLabel(diff, DayMillis, 'd')
    else monthDay
  }

  /** A timestamp in the future (a negative difference) shows "Just now". */
  lemma FutureTimestampIsJustNow(timestamp: int, now: int, monthDay: string)
    requires timestamp > now
    ensures FormatTimestamp(timestamp, now, monthDay) == "Just now"
  {
  }

  predicate EndsWith(s: string, suffix: string)
  {
    |suffix| <= |s| && s[|s| - |suffix|..] == suffix
  }

  /** The like-count line of a post card: absent unless the count is positive. */
  function LikeLabel(likeCount: int): (r: Option<string>)
    ensures r.Some? <==> likeCount > 0
    ensures r.Some? ==> |DecimalString(likeCount)| < |r.value|
    ensures r.Some? ==> |r.value| == |DecimalString(likeCount)| + (if likeCount == 1 then 5 else 6)
    ensures r.Some? ==>
      (AllDigits(r.value[..|DecimalString(likeCount)|]) && NoLeadingZero(r.value[..|DecimalString(likeCount)|]) &&
       DigitsValue(r.value[..|DecimalString(likeCount)|]) == likeCount)
    ensures r.Some? ==> (EndsWith(r.value, " like") <==> likeCount == 1)
    ensures r.Some? ==> (EndsWith(r.value, " likes") <==> likeCount != 1)
  {
    if likeCount > 0 then
      var digits := DecimalString(likeCount);
      DigitsValueOfDecimalString(likeCount);
      var text := digits + if likeCount == 1 then " like" else " likes";
      assert text[..|digits|] == digits;
      assert text[|text| - 1] == if likeCount == 1 then 'e' else 's';
      assert likeCount == 1 ==> text[|text| - 5..] == " like";
      assert likeCount != 1 ==> text[|text| - 6..] == " likes";
      Some(text)
    else None
  }
}

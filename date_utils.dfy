/**
 * Date display helpers. Parsing the server's ISO 8601 timestamps and
 * rendering calendar dates are done by the platform date formatter; here
 * they are parameters (`parse`, `format`), as is the current time.
 * What is modelled is the decision logic around them: the guards and
 * fallbacks, and the relative-time buckets of comment dates.
 */
module DateUtils {
  import opened Wrappers
  import opened KotlinInt
  import opened Decimal

  /** What parsing a timestamp string gives: milliseconds since the epoch, null, or an exception. */
  datatype ParseResult = Parsed(millis: int) | ParsedNull | ParseThrows

  const MillisPerMinute: int := 1000 * 60
  const MillisPerHour: int := MillisPerMinute * 60
  const MillisPerDay: int := MillisPerHour * 24
  const MillisPerWeek: int := MillisPerDay * 7

  /** The five outcomes of the `when` on the elapsed minutes, hours and days. */
  datatype RelativeTime = JustNow | MinutesAgo(minutes: nat) | HoursAgo(hours: nat) | DaysAgo(days: nat) | OlderThanAWeek

  /** For a non-negative elapsed time, dividing step by step is dividing once by the whole unit. */
  lemma SuccessiveDivisions(diffInMillis: int)
    ensures diffInMillis >= 0 ==>
      && TruncDiv(TruncDiv(diffInMillis, MillisPerMinute), 60) == diffInMillis / MillisPerHour
      && TruncDiv(TruncDiv(TruncDiv(diffInMillis, MillisPerMinute), 60), 24) == diffInMillis / MillisPerDay
  {
  }

  /**
   * Minutes, hours and days by successive truncating divisions of the
   * elapsed milliseconds, then the first threshold that applies. Each
   * bucket is exactly a range of elapsed time, so exactly one applies, and
   * the count it shows stays inside that range.
   */
  function Bucket(diffInMillis: int): (b: RelativeTime)
    ensures b.JustNow? <==> diffInMillis < MillisPerMinute
    ensures b.MinutesAgo? <==> MillisPerMinute <= diffInMillis < MillisPerHour
    ensures b.HoursAgo? <==> MillisPerHour <= diffInMillis < MillisPerDay
    ensures b.DaysAgo? <==> MillisPerDay <= diffInMillis < MillisPerWeek
    ensures b.OlderThanAWeek? <==> MillisPerWeek <= diffInMillis
    ensures b.MinutesAgo? ==> b.minutes == diffInMillis / MillisPerMinute && 1 <= b.minutes <= 59
    ensures b.HoursAgo? ==> b.hours == diffInMillis / MillisPerHour && 1 <= b.hours <= 23
    ensures b.DaysAgo? ==> b.days == diffInMillis / MillisPerDay && 1 <= b.days <= 6
  {
    var diffInMinutes := TruncDiv(diffInMillis, MillisPerMinute);
    var diffInHours := TruncDiv(diffInMinutes, 60);
    var diffInDays := TruncDiv(diffInHours, 24);
    SuccessiveDivisions(diffInMillis);
    if diffInMinutes < 1 then JustNow
    else if diffInMinutes < 60 then MinutesAgo(diffInMinutes)
    else if diffInHours < 24 then HoursAgo(diffInHours)
    else if diffInDays < 7 then DaysAgo(diffInDays)
    else OlderThanAWeek
  }

  /** The label of a bucket; `dayMonth` is the "dd/MM" rendering used past a week. */
  function Label(b: RelativeTime, dayMonth: string): (l: string)
    ensures b.JustNow? ==> l == "Ora"
    ensures b.OlderThanAWeek? ==> l == dayMonth
    ensures b.MinutesAgo? ==> |l| >= 2 && l[|l| - 1] == 'm'
    ensures b.HoursAgo? ==> |l| >= 2 && l[|l| - 1] == 'h'
    ensures b.DaysAgo? ==> |l| >= 2 && l[|l| - 1] == 'g'
  {
    match b
    case JustNow => "Ora"
    case MinutesAgo(m) => NatToString(m) + "m"
    case HoursAgo(h) => NatToString(h) + "h"
    case DaysAgo(d) => NatToString(d) + "g"
    case OlderThanAWeek => dayMonth
  }

  /** The count before the unit letter is the elapsed time in that unit, and reads back as such. */
  lemma {:induction false} LabelReadsBack(diffInMillis: int, dayMonth: string)
    requires MillisPerMinute <= diffInMillis < MillisPerWeek
    ensures var l := Label(Bucket(diffInMillis), dayMonth);
      var unit := if diffInMillis < MillisPerHour then MillisPerMinute
                  else if diffInMillis < MillisPerDay then MillisPerHour else MillisPerDay;
      && |l| >= 2
      && l[|l| - 1] == (if unit == MillisPerMinute then 'm' else if unit == MillisPerHour then 'h' else 'g')
      && (forall i :: 0 <= i < |l| - 1 ==> IsDigit(l[i]))
      && StringToNat(l[..|l| - 1]) == diffInMillis / unit
  {
    var b := Bucket(diffInMillis);
    var n := if b.MinutesAgo? then b.minutes else if b.HoursAgo? then b.hours else b.days;
    var l := Label(b, dayMonth);
    assert l[..|l| - 1] == NatToString(n);
    NatToStringRoundTrip(n);
  }

  /** A timestamp in the future (negative elapsed time) is shown as "Ora". */
  lemma FutureIsNow(diffInMillis: int, dayMonth: string)
    requires diffInMillis < 0
    ensures Label(Bucket(diffInMillis), dayMonth) == "Ora"
  {
  }

  /** Older timestamps never land in a more recent bucket. */
  function Rank(b: RelativeTime): nat
  {
    match b
    case JustNow => 0
    case MinutesAgo(_) => 1
    case HoursAgo(_) => 2
    case DaysAgo(_) => 3
    case OlderThanAWeek => 4
  }

  lemma BucketMonotone(d1: int, d2: int)
    requires d1 <= d2
    ensures Rank(Bucket(d1)) <= Rank(Bucket(d2))
  {
  }

  /**
   * `formatDate`: "Data non disponibile" for a null or empty string, the
   * input itself when parsing throws, else the formatted date (the current
   * time when parsing gives null).
   */
  function FormatDate(dateString: Option<string>, parse: string -> ParseResult, format: int -> string, nowMillis: int): (r: string)
    ensures dateString == None || dateString == Some("") ==> r == "Data non disponibile"
    ensures dateString.Some? && dateString.value != "" ==>
      match parse(dateString.value)
      case ParseThrows => r == dateString.value
      case ParsedNull => r == format(nowMillis)
      case Parsed(t) => r == format(t)
  {
    if dateString.None? || dateString.value == "" then "Data non disponibile"
    else
      match parse(dateString.value)
      case ParseThrows => dateString.value
      case ParsedNull => format(nowMillis)
      case Parsed(t) => format(t)
  }

  /**
   * `formatCommentDate`: "Ora" for a null or empty string and when parsing
   * throws, the input itself when parsing gives null, else the label of
   * the time elapsed until `nowMillis`.
   */
  function FormatCommentDate(dateString: Option<string>, parse: string -> ParseResult, dayMonth: int -> string, nowMillis: int): (r: string)
    ensures dateString == None || dateString == Some("") ==> r == "Ora"
    ensures dateString.Some? && dateString.value != "" ==>
      match parse(dateString.value)
      case ParseThrows => r == "Ora"
      case ParsedNull => r == dateString.value
      case Parsed(t) => r == Label(Bucket(nowMillis - t), dayMonth(t))
  {
    if dateString.None? || dateString.value == "" then "Ora"
    else
      match parse(dateString.value)
      case ParseThrows => "Ora"
      case ParsedNull => dateString.value
      case Parsed(t) => Label(Bucket(nowMillis - t), dayMonth(t))
  }

  function FixedParse(s: string): ParseResult
  {
    if s == "2024-05-01T10:00:00.000Z" then Parsed(1714557600000) else ParseThrows
  }

  function NoDate(t: int): string
  {
    "01/05"
  }

  /** Ninety minutes after the post, its comment label is "1h"; two minutes after, "2m". */
  lemma CommentDateScenarios()
    ensures FormatCommentDate(Some("2024-05-01T10:00:00.000Z"), FixedParse, NoDate, 1714557600000 + 90 * 60000) == "1h"
    ensures FormatCommentDate(Some("2024-05-01T10:00:00.000Z"), FixedParse, NoDate, 1714557600000 + 2 * 60000) == "2m"
    ensures FormatCommentDate(Some("ieri"), FixedParse, NoDate, 0) == "Ora"
  {
    assert NatToString(1) == "1";
    assert NatToString(2) == "2";
  }
}

/**
 * Helpers of the Raspberry Pi client (src/raspi/utils.py): a short duration
 * text, string truncation with a suffix, and attribute reading with a default.
 * Python's float `//` and `%` floor; they are written out on exact reals.
 */
module RaspiUtils {
  import opened Values
  import Text

  /** Python's x // d for a positive divisor: the floor of the quotient. */
  function FloorDiv(x: real, d: real): int
    requires d > 0.0
  {
    (x / d).Floor
  }

  /** Python's x % d for a positive divisor: what is left after FloorDiv whole divisors. */
  function FloorMod(x: real, d: real): real
    requires d > 0.0
  {
    x - FloorDiv(x, d) as real * d
  }

  /** The whole hours and the remaining whole minutes that format_duration shows. */
  function HoursMinutes(seconds: real): (int, int) {
    (FloorDiv(seconds, 3600.0), FloorDiv(FloorMod(seconds, 3600.0), 60.0))
  }

  /** format_duration: "{h}h {m}m" when there is at least an hour, else "{m}m". */
  function FormatDuration(seconds: real): (r: string)
    ensures HoursMinutes(seconds).0 > 0 ==>
      r == Text.IntToString(HoursMinutes(seconds).0) + "h " + Text.IntToString(HoursMinutes(seconds).1) + "m"
    ensures HoursMinutes(seconds).0 <= 0 ==> r == Text.IntToString(HoursMinutes(seconds).1) + "m"
  {
    var (hours, minutes) := HoursMinutes(seconds);
    if hours > 0 then Text.IntToString(hours) + "h " + Text.IntToString(minutes) + "m"
    else Text.IntToString(minutes) + "m"
  }

  /**
   * The minutes are always 0..59, and hours and minutes account for the
   * duration to within the dropped seconds, which are never shown.
   */
  lemma HoursMinutesBounds(seconds: real)
    ensures var (h, m) := HoursMinutes(seconds);
      0 <= m < 60 && (h * 3600 + m * 60) as real <= seconds < (h * 3600 + m * 60 + 60) as real
  {
    var h := FloorDiv(seconds, 3600.0);
    assert h as real <= seconds / 3600.0 < h as real + 1.0;
    var rest := FloorMod(seconds, 3600.0);
    assert 0.0 <= rest < 3600.0;
    var m := FloorDiv(rest, 60.0);
    assert m as real <= rest / 60.0 < m as real + 1.0;
    assert seconds == h as real * 3600.0 + rest;
  }

  /** 3725 seconds read "1h 2m"; 59 seconds read "0m", not a clock time as the docstring says. */
  lemma FormatDurationExamples()
    ensures FormatDuration(3725.0) == "1h 2m"
    ensures FormatDuration(59.0) == "0m"
  {
    assert FloorDiv(3725.0, 3600.0) == 1;
    assert FloorMod(3725.0, 3600.0) == 125.0;
    assert FloorDiv(125.0, 60.0) == 2;
    assert FloorDiv(59.0, 3600.0) == 0;
    assert FloorMod(59.0, 3600.0) == 59.0;
    assert FloorDiv(59.0, 60.0) == 0;
  }

  /** truncate_string: text[:max_length - len(suffix)] + suffix for a text that is too long. */
  function TruncateString(text: string, maxLength: int, suffix: string): string {
    if |text| <= maxLength then text else Text.SliceTo(text, maxLength - |suffix|) + suffix
  }

  /** A text that fits comes back unchanged; a longer one is cut to exactly max_length, suffix included. */
  lemma TruncateStringLength(text: string, maxLength: int, suffix: string)
    ensures |text| <= maxLength ==> TruncateString(text, maxLength, suffix) == text
    ensures |text| > maxLength >= |suffix| ==>
      TruncateString(text, maxLength, suffix) == text[..maxLength - |suffix|] + suffix
      && |TruncateString(text, maxLength, suffix)| == maxLength
  {
  }

  /**
   * With a max_length shorter than the suffix the slice bound is negative and
   * counts from the end, so the result can be longer than max_length.
   */
  lemma TruncateStringShortLimit(text: string, maxLength: int, suffix: string)
    requires |text| > maxLength && maxLength < |suffix|
    ensures var k := |text| + maxLength - |suffix|;
      TruncateString(text, maxLength, suffix) == (if k >= 0 then text[..k] else []) + suffix
  {
  }

  /** Truncating twice with the same limit is truncating once. */
  lemma TruncateStringIdempotent(text: string, maxLength: int, suffix: string)
    requires maxLength >= |suffix|
    ensures TruncateString(TruncateString(text, maxLength, suffix), maxLength, suffix)
         == TruncateString(text, maxLength, suffix)
  {
    TruncateStringLength(text, maxLength, suffix);
  }

  /** An object's attributes: name to value. */
  type Attributes = map<string, Value>

  /** safe_getattr: the attribute's value, or the default when it is missing or None. */
  function SafeGetattr(obj: Attributes, attr: string, default: Value): (r: Value)
    ensures attr in obj && obj[attr] != PyNone ==> r == obj[attr]
    ensures attr !in obj || obj[attr] == PyNone ==> r == default
    ensures r == PyNone ==> default == PyNone
  {
    var value := if attr in obj then obj[attr] else default;
    if value != PyNone then value else default
  }
}

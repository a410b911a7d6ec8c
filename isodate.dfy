/** The string handling around dates: `_parse_iso_date` (python/icloudbridge.py:583-593)
    and `_format_iso_date` (python/icloudbridge.py:596-598). The two library parsers
    `datetime.fromisoformat` and `datetime.strptime` are not modelled; they are
    passed in as a `DateLib`. */
module IsoDates {
  import opened Wrappers
  import opened JsonValues
  import opened Errors

  type Year = y: int | 1 <= y <= 9999 witness 1
  type Month = m: int | 1 <= m <= 12 witness 1
  type Day = d: int | 1 <= d <= 31 witness 1
  type Hour = h: int | 0 <= h < 24
  type Minute = m: int | 0 <= m < 60
  type Second = s: int | 0 <= s < 60
  type Microsecond = u: int | 0 <= u < 1000000
  /** A `utcoffset()` in minutes: Python keeps it strictly inside one day. */
  type Offset = m: int | -1440 < m < 1440

  /** A Python `datetime`: its fields within their ranges, and the UTC offset in minutes
      for an aware value (`None` for a naive one). */
  datatype DateTime = DateTime(
    year: Year, month: Month, day: Day,
    hour: Hour, minute: Minute, second: Second,
    microsecond: Microsecond,
    utcOffsetMinutes: Option<Offset>)

  /** The two library parsers `_parse_iso_date` relies on; `None` is a `ValueError`.
      `strptime` is the one applied with the format `%Y-%m-%dT%H:%M:%S`. */
  datatype DateLib = DateLib(fromIsoFormat: string -> Option<DateTime>, strptime: string -> Option<DateTime>)

  /** `s.replace("Z", "+00:00")`: every `Z`, not only a trailing one, becomes `+00:00`. */
  function ReplaceZ(s: string): (r: string)
    ensures |r| >= |s|
    ensures |r| == |s| <==> 'Z' !in s
  {
    if s == [] then []
    else
      assert s == [s[0]] + s[1..];
      (if s[0] == 'Z' then "+00:00" else [s[0]]) + ReplaceZ(s[1..])
  }

  lemma {:induction false} ReplaceZRemovesZ(s: string)
    ensures 'Z' !in ReplaceZ(s)
  {
    if s != [] {
      ReplaceZRemovesZ(s[1..]);
    }
  }

  lemma {:induction false} ReplaceZWithoutZ(s: string)
    requires 'Z' !in s
    ensures ReplaceZ(s) == s
  {
    if s != [] {
      ReplaceZWithoutZ(s[1..]);
    }
  }

  lemma {:induction false} ReplaceZAppend(a: string, b: string)
    ensures ReplaceZ(a + b) == ReplaceZ(a) + ReplaceZ(b)
  {
    if a == [] {
      assert a + b == b;
    } else {
      assert (a + b)[1..] == a[1..] + b;
      ReplaceZAppend(a[1..], b);
    }
  }

  /** A timestamp with a trailing `Z` and no other `Z` is handed to the parser with an
      explicit `+00:00` offset instead. */
  lemma TrailingZIsUtc(p: string)
    requires 'Z' !in p
    ensures ReplaceZ(p + "Z") == p + "+00:00"
  {
    ReplaceZAppend(p, "Z");
    ReplaceZWithoutZ(p);
  }

  /** `s.split(".")[0]`: the text before the first `.`, or all of `s` when it has none. */
  function BeforeFirstDot(s: string): (r: string)
    ensures '.' !in r
    ensures r <= s
    ensures |r| < |s| ==> s[|r|] == '.'
    ensures '.' !in s ==> r == s
  {
    if s == [] || s[0] == '.' then [] else [s[0]] + BeforeFirstDot(s[1..])
  }

  /** `_parse_iso_date`: normalise `Z`, try `fromisoformat`, and on its `ValueError` fall
      back to `strptime` on the text before the first `.`. */
  function ParseIsoDate(s: string, lib: DateLib): (r: Result<DateTime, Error>)
    ensures lib.fromIsoFormat(ReplaceZ(s)).Some? ==> r == Success(lib.fromIsoFormat(ReplaceZ(s)).value)
    ensures lib.fromIsoFormat(ReplaceZ(s)).None? && lib.strptime(BeforeFirstDot(ReplaceZ(s))).Some? ==>
              r == Success(lib.strptime(BeforeFirstDot(ReplaceZ(s))).value)
    ensures r.Failure? <==> lib.fromIsoFormat(ReplaceZ(s)).None? && lib.strptime(BeforeFirstDot(ReplaceZ(s))).None?
    ensures r.Failure? ==> r.error == ValueError
  {
    var t := ReplaceZ(s);
    match lib.fromIsoFormat(t)
    case Some(d) => Success(d)
    case None =>
      var fallback := if '.' in t then BeforeFirstDot(t) else t;
      match lib.strptime(fallback)
      case Some(d) => Success(d)
      case None => Failure(ValueError)
  }

  /** A date value taken from JSON: a string goes to `_parse_iso_date`; anything else has
      no `replace` method. */
  function ParseDateValue(v: Json, lib: DateLib): (r: Result<DateTime, Error>)
    ensures !v.JString? ==> r == Failure(AttributeError)
    ensures v.JString? ==> r == ParseIsoDate(v.s, lib)
  {
    if v.JString? then ParseIsoDate(v.s, lib) else Failure(AttributeError)
  }

  // ---- formatting ----

  function Pow10(w: nat): (p: nat)
    ensures p >= 1
  {
    if w == 0 then 1 else 10 * Pow10(w - 1)
  }

  function DigitChar(d: int): char
    requires 0 <= d < 10
  {
    (48 + d) as char
  }

  predicate IsDigit(c: char) {
    '0' <= c <= '9'
  }

  function DigitValue(c: char): int
    requires IsDigit(c)
  {
    c as int - 48
  }

  /** The last `w` decimal digits of `n`, zero-padded (`%02d`, `%04d`). */
  function Padded(n: nat, w: nat): (r: string)
    ensures |r| == w
    ensures forall i :: 0 <= i < |r| ==> IsDigit(r[i])
  {
    if w == 0 then [] else Padded(n / 10, w - 1) + [DigitChar(n % 10)]
  }

  /** The number a string of decimal digits spells. */
  function ReadDecimal(s: string): nat
    requires forall i :: 0 <= i < |s| ==> IsDigit(s[i])
  {
    if s == [] then 0 else 10 * ReadDecimal(s[..|s| - 1]) + DigitValue(s[|s| - 1])
  }

  lemma {:induction false} ReadPadded(n: nat, w: nat)
    requires n < Pow10(w)
    ensures ReadDecimal(Padded(n, w)) == n
  {
    if w > 0 {
      var p := Padded(n, w);
      assert p[..|p| - 1] == Padded(n / 10, w - 1);
      assert n / 10 < Pow10(w - 1) by {
        assert n < 10 * Pow10(w - 1);
      }
      ReadPadded(n / 10, w - 1);
    }
  }

  /** `dt.strftime("%Y-%m-%d")` and `dt.strftime("%H:%M:%S")` joined by `T`. */
  function WallText(dt: DateTime): (r: string)
    ensures |r| == 19
  {
    Padded(dt.year, 4) + "-" + Padded(dt.month, 2) + "-" + Padded(dt.day, 2) + "T"
    + Padded(dt.hour, 2) + ":" + Padded(dt.minute, 2) + ":" + Padded(dt.second, 2)
  }

  /** `_format_iso_date`: `dt.strftime("%Y-%m-%dT%H:%M:%SZ")`. The `Z` is a literal: the
      fields are printed as they are, microseconds and any UTC offset are dropped and
      nothing is converted to UTC. */
  function FormatIsoDate(dt: DateTime): (r: string)
    ensures |r| == 20 && r[19] == 'Z'
    ensures 'Z' !in r[..19] && '.' !in r
  {
    var w := WallText(dt);
    assert forall i :: 0 <= i < 19 ==> IsDigit(w[i]) || w[i] in "-T:";
    w + "Z"
  }

  /** The fields a formatted timestamp keeps. */
  datatype WallClock = WallClock(year: int, month: int, day: int, hour: int, minute: int, second: int)

  function WallClockOf(dt: DateTime): WallClock {
    WallClock(dt.year, dt.month, dt.day, dt.hour, dt.minute, dt.second)
  }

  predicate AllDigits(s: string) {
    forall i :: 0 <= i < |s| ==> IsDigit(s[i])
  }

  /** Reads back a `YYYY-MM-DDTHH:MM:SSZ` timestamp; `None` for any other text. */
  function ReadTimestamp(s: string): Option<WallClock>
  {
    if |s| == 20 && s[4] == '-' && s[7] == '-' && s[10] == 'T' && s[13] == ':' && s[16] == ':' && s[19] == 'Z'
       && AllDigits(s[0..4]) && AllDigits(s[5..7]) && AllDigits(s[8..10])
       && AllDigits(s[11..13]) && AllDigits(s[14..16]) && AllDigits(s[17..19])
    then Some(WallClock(ReadDecimal(s[0..4]), ReadDecimal(s[5..7]), ReadDecimal(s[8..10]),
                        ReadDecimal(s[11..13]), ReadDecimal(s[14..16]), ReadDecimal(s[17..19])))
    else None
  }

  /** Formatting keeps every field down to the second: reading the text back gives them. */
  lemma ReadFormatted(dt: DateTime)
    ensures ReadTimestamp(FormatIsoDate(dt)) == Some(WallClockOf(dt))
  {
    var s := FormatIsoDate(dt);
    assert s[0..4] == Padded(dt.year, 4);
    assert s[5..7] == Padded(dt.month, 2);
    assert s[8..10] == Padded(dt.day, 2);
    assert s[11..13] == Padded(dt.hour, 2);
    assert s[14..16] == Padded(dt.minute, 2);
    assert s[17..19] == Padded(dt.second, 2);
    ReadPadded(dt.year, 4);
    ReadPadded(dt.month, 2);
    ReadPadded(dt.day, 2);
    ReadPadded(dt.hour, 2);
    ReadPadded(dt.minute, 2);
    ReadPadded(dt.second, 2);
  }

  /** The normalisation is lossy in exactly one way: two dates format alike precisely
      when they agree down to the second, whatever their microseconds and offsets. */
  lemma FormatIdentifiesWallClock(a: DateTime, b: DateTime)
    ensures FormatIsoDate(a) == FormatIsoDate(b) <==> WallClockOf(a) == WallClockOf(b)
  {
    ReadFormatted(a);
    ReadFormatted(b);
  }

  /** A formatted date read back by `_parse_iso_date` reaches both library parsers as the
      same text: the printed fields with an explicit `+00:00` offset. */
  lemma ParseFormatted(dt: DateTime, lib: DateLib)
    ensures ParseIsoDate(FormatIsoDate(dt), lib) ==
      match lib.fromIsoFormat(WallText(dt) + "+00:00")
      case Some(d) => Success(d)
      case None => match lib.strptime(WallText(dt) + "+00:00")
        case Some(d) => Success(d)
        case None => Failure(ValueError)
  {
    var s := FormatIsoDate(dt);
    assert s == WallText(dt) + "Z";
    TrailingZIsUtc(WallText(dt));
    var t := WallText(dt) + "+00:00";
    assert '.' !in t by {
      assert forall i :: 0 <= i < 19 ==> t[i] == s[i];
    }
  }
}

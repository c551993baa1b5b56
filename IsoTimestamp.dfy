/** The relay's 14-character timestamp (server.js:51-54): the current instant
    rendered by `Date.prototype.toISOString`, with every `-`, `:`, `T`, `Z`
    and `.` deleted, cut to its first 14 characters.

    The clock is not modelled: the instant comes in as its UTC calendar fields. */
module IsoTimestamp {
  import opened Text

  /** The UTC fields of an instant, as `toISOString` reads them. */
  datatype UtcFields = UtcFields(
    year: int, month: int, day: int,
    hour: int, minute: int, second: int, millisecond: int)

  /** The years a JavaScript time value can hold (plus or minus 10^8 days around 1970). */
  const MinYear: int := -271821
  const MaxYear: int := 275760

  predicate Valid(d: UtcFields) {
    && MinYear <= d.year <= MaxYear
    && 1 <= d.month <= 12 && 1 <= d.day <= 31
    && 0 <= d.hour < 24 && 0 <= d.minute < 60 && 0 <= d.second < 60
    && 0 <= d.millisecond < 1000
  }

  /** Four digits for years 0 to 9999; otherwise a sign and six digits
      (ECMAScript's expanded-year form). */
  function YearText(y: int): (s: string)
    requires MinYear <= y <= MaxYear
  {
    if 0 <= y <= 9999 then Digits(y, 4)
    else if y < 0 then "-" + Digits(-y, 6)
    else "+" + Digits(y, 6)
  }

  /** `YYYY-MM-DDTHH:mm:ss.sssZ` */
  function IsoString(d: UtcFields): string
    requires Valid(d)
  {
    YearText(d.year) + "-" + Digits(d.month, 2) + "-" + Digits(d.day, 2)
    + "T" + Digits(d.hour, 2) + ":" + Digits(d.minute, 2) + ":" + Digits(d.second, 2)
    + "." + Digits(d.millisecond, 3) + "Z"
  }

  /** The characters of the pattern `/[-:TZ.]/g`. */
  predicate IsSeparator(c: char) {
    c == '-' || c == ':' || c == 'T' || c == 'Z' || c == '.'
  }

  /** `.replace(/[-:TZ.]/g, "")` */
  function StripSeparators(s: string): (r: string)
    ensures forall i :: 0 <= i < |r| ==> !IsSeparator(r[i])
  {
    Filter(s, c => !IsSeparator(c))
  }

  /** `.slice(0, n)`: the first `n` characters, or all of them if fewer. */
  function SliceTo(s: string, n: nat): (r: string)
    ensures |r| == if |s| < n then |s| else n
    ensures r <= s
  {
    if |s| < n then s else s[..n]
  }

  /** The `Timestamp` field of the payload, and the tail of the password input. */
  function GatewayTimestamp(d: UtcFields): string
    requires Valid(d)
  {
    SliceTo(StripSeparators(IsoString(d)), 14)
  }

  // ---------------------------------------------------------------------------

  lemma StripAppend(a: string, b: string)
    ensures StripSeparators(a + b) == StripSeparators(a) + StripSeparators(b)
  {
    FilterAppend(a, b, c => !IsSeparator(c));
  }

  lemma StripDigits(s: string)
    requires AllDigits(s)
    ensures StripSeparators(s) == s
  {
    FilterKeepsAll(s, c => !IsSeparator(c));
  }

  lemma StripSeparator(c: char)
    requires IsSeparator(c)
    ensures StripSeparators([c]) == []
  {
    FilterDropsAll([c], c => !IsSeparator(c));
  }

  /** Deleting separators leaves the digits of every field, in order, with the
      year as `YearText` renders it less any minus sign. */
  lemma {:induction false} StrippedIso(d: UtcFields)
    requires Valid(d)
    ensures StripSeparators(IsoString(d))
         == StripSeparators(YearText(d.year)) + Digits(d.month, 2) + Digits(d.day, 2)
          + Digits(d.hour, 2) + Digits(d.minute, 2) + Digits(d.second, 2)
          + Digits(d.millisecond, 3)
  {
    var y, mo, dd := YearText(d.year), Digits(d.month, 2), Digits(d.day, 2);
    var h, mi, s, ms := Digits(d.hour, 2), Digits(d.minute, 2), Digits(d.second, 2), Digits(d.millisecond, 3);
    var q1 := y + "-" + mo;
    var q2 := q1 + "-" + dd;
    var q3 := q2 + "T" + h;
    var q4 := q3 + ":" + mi;
    var q5 := q4 + ":" + s;
    var q6 := q5 + "." + ms;
    assert IsoString(d) == q6 + "Z";
    StripField(y, '-', mo);
    StripField(q1, '-', dd);
    StripField(q2, 'T', h);
    StripField(q3, ':', mi);
    StripField(q4, ':', s);
    StripField(q5, '.', ms);
    StripAppend(q6, "Z");
    StripSeparator('Z');
  }

  /** One separator and the digits after it. */
  lemma StripField(pre: string, sep: char, field: string)
    requires IsSeparator(sep) && AllDigits(field)
    ensures StripSeparators(pre + [sep] + field) == StripSeparators(pre) + field
  {
    StripAppend(pre + [sep], field);
    StripAppend(pre, [sep]);
    StripSeparator(sep);
    StripDigits(field);
  }

  /** For the years 0 to 9999 the timestamp is `YYYYMMDDHHmmss`: exactly 14
      decimal digits, the milliseconds cut off. */
  lemma TimestampIsCompact(d: UtcFields)
    requires Valid(d) && 0 <= d.year <= 9999
    ensures GatewayTimestamp(d)
         == Digits(d.year, 4) + Digits(d.month, 2) + Digits(d.day, 2)
          + Digits(d.hour, 2) + Digits(d.minute, 2) + Digits(d.second, 2)
    ensures |GatewayTimestamp(d)| == 14 && AllDigits(GatewayTimestamp(d))
  {
    StrippedIso(d);
    StripDigits(Digits(d.year, 4));
    var head := Digits(d.year, 4) + Digits(d.month, 2) + Digits(d.day, 2)
              + Digits(d.hour, 2) + Digits(d.minute, 2) + Digits(d.second, 2);
    assert (head + Digits(d.millisecond, 3))[..14] == head;
  }

  /** For a year after 9999 the `+` sign survives, so the timestamp is not
      all digits. */
  lemma TimestampAfterYear9999(d: UtcFields)
    requires Valid(d) && d.year > 9999
    ensures |GatewayTimestamp(d)| == 14 && GatewayTimestamp(d)[0] == '+'
  {
    StrippedIso(d);
    var y := YearText(d.year);
    assert y == ['+'] + Digits(d.year, 6);
    StripAppend(['+'], Digits(d.year, 6));
    StripDigits(Digits(d.year, 6));
    assert StripSeparators(['+']) == ['+'];
  }

  /** For a year before 0 the minus sign is deleted with the separators and the
      six year digits push the seconds out: the timestamp is `YYYYYYMMDDHHmm`. */
  lemma TimestampBeforeYear0(d: UtcFields)
    requires Valid(d) && d.year < 0
    ensures GatewayTimestamp(d)
         == Digits(-d.year, 6) + Digits(d.month, 2) + Digits(d.day, 2)
          + Digits(d.hour, 2) + Digits(d.minute, 2)
  {
    StrippedIso(d);
    var y6 := Digits(-d.year, 6);
    assert YearText(d.year) == "-" + y6;
    StripAppend("-", y6);
    StripSeparator('-');
    StripDigits(y6);
    assert StripSeparators(YearText(d.year)) == y6;
    var head := Digits(-d.year, 6) + Digits(d.month, 2) + Digits(d.day, 2)
              + Digits(d.hour, 2) + Digits(d.minute, 2);
    var full := head + Digits(d.second, 2) + Digits(d.millisecond, 3);
    assert StripSeparators(IsoString(d)) == full;
    assert |head| == 14;
    assert full[..14] == head;
  }

  // ---------------------------------------------------------------------------
  // Reading a timestamp back with the format `yyyyMMddHHmmss`

  datatype Fields6 = Fields6(year: nat, month: nat, day: nat, hour: nat, minute: nat, second: nat)

  function ParseTimestamp(t: string): (r: Option<Fields6>)
    ensures r.Some? <==> |t| == 14 && AllDigits(t)
  {
    if |t| == 14 && AllDigits(t) then
      Some(Fields6(ParseDigits(t[0..4]), ParseDigits(t[4..6]), ParseDigits(t[6..8]),
                   ParseDigits(t[8..10]), ParseDigits(t[10..12]), ParseDigits(t[12..14])))
    else None
  }

  /** The timestamp round-trips through a parser of its format: it names the
      instant's year, month, day, hour, minute and second. */
  lemma TimestampRoundTrip(d: UtcFields)
    requires Valid(d) && 0 <= d.year <= 9999
    ensures ParseTimestamp(GatewayTimestamp(d))
         == Some(Fields6(d.year, d.month, d.day, d.hour, d.minute, d.second))
  {
    TimestampIsCompact(d);
    FieldSlices(Digits(d.year, 4), Digits(d.month, 2), Digits(d.day, 2),
                Digits(d.hour, 2), Digits(d.minute, 2), Digits(d.second, 2));
    DigitsRoundTrip(d.year, 4);
    DigitsRoundTrip(d.month, 2);
    DigitsRoundTrip(d.day, 2);
    DigitsRoundTrip(d.hour, 2);
    DigitsRoundTrip(d.minute, 2);
    DigitsRoundTrip(d.second, 2);
  }

  /** Where the six fields sit in `yyyyMMddHHmmss`. */
  lemma FieldSlices(y: string, mo: string, dd: string, h: string, mi: string, s: string)
    requires |y| == 4 && |mo| == 2 && |dd| == 2 && |h| == 2 && |mi| == 2 && |s| == 2
    ensures var t := y + mo + dd + h + mi + s;
      t[0..4] == y && t[4..6] == mo && t[6..8] == dd && t[8..10] == h && t[10..12] == mi && t[12..14] == s
  {
  }
}

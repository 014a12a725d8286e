/** Readings of the wall clock and the ways the server writes them out.
    A reading is a parameter wherever the server asks for the current
    time. */
module Clock {
  import opened Common

  datatype Moment = Moment(year: nat, month: nat, day: nat, hour: nat, minute: nat, second: nat)

  /** A reading the calendar can produce, with a four-digit year. */
  predicate Valid(m: Moment) {
    1 <= m.year <= 9999 && 1 <= m.month <= 12 && 1 <= m.day <= 31
    && m.hour < 24 && m.minute < 60 && m.second < 60
  }

  /** A field written as two digits, as `%m`, `%d`, `%H`, `%M`, `%S`. */
  function Two(n: nat): (r: string)
    ensures |r| == 2 && IsDigit(r[0]) && IsDigit(r[1])
    ensures n < 100 ==> DecimalValue(r) == n
  {
    var r := [DigitChar(n / 10 % 10), DigitChar(n % 10)];
    DecimalPush([], r[0]);
    DecimalPush([r[0]], r[1]);
    assert [r[0]] + [r[1]] == r;
    r
  }

  /** The year written as four digits, as `%Y`. */
  function Four(n: nat): (r: string)
    ensures |r| == 4 && forall i :: 0 <= i < 4 ==> IsDigit(r[i])
    ensures n < 10000 ==> DecimalValue(r) == n
  {
    var hi, lo := Two(n / 100), Two(n % 100);
    DecimalPush(hi, lo[0]);
    DecimalPush(hi + [lo[0]], lo[1]);
    assert hi + [lo[0]] + [lo[1]] == hi + lo;
    DecimalPush([], lo[0]);
    DecimalPush([lo[0]], lo[1]);
    assert [lo[0]] + [lo[1]] == lo;
    hi + lo
  }

  /** `%Y-%m-%d`. */
  function Date(m: Moment): string {
    Four(m.year) + "-" + Two(m.month) + "-" + Two(m.day)
  }

  /** `%H:%M:%S`, the time written in front of every log line. */
  function TimeOfDay(m: Moment): (r: string)
    ensures |r| == 8 && r[2] == ':' && r[5] == ':'
  {
    Two(m.hour) + ":" + Two(m.minute) + ":" + Two(m.second)
  }

  /** `%Y-%m-%d %H:%M:%S`, the processing date of a result row. */
  function RowStamp(m: Moment): (r: string)
    ensures |r| == 19 && r[4] == '-' && r[7] == '-' && r[10] == ' ' && r[13] == ':' && r[16] == ':'
  {
    Date(m) + " " + TimeOfDay(m)
  }

  /** `%Y-%m-%d %H:%M%S`, the processing date written on a row for a
      record whose handling raised: the colon between minutes and seconds
      is missing. */
  function RowStampAsWritten(m: Moment): (r: string)
    ensures |r| == 18
  {
    Date(m) + " " + Two(m.hour) + ":" + Two(m.minute) + Two(m.second)
  }

  /** `%Y%m%d_%H%M%S`, the stamp in the name of the result file. */
  function FileStamp(m: Moment): (r: string)
    ensures |r| == 15 && r[8] == '_'
  {
    Four(m.year) + Two(m.month) + Two(m.day) + "_" + Two(m.hour) + Two(m.minute) + Two(m.second)
  }

  /** Reading a processing date back: the five separators in place and
      digits everywhere else. */
  function ParseRowStamp(s: string): (r: Option<Moment>)
    ensures r.Some? ==> |s| == 19 && s[13] == ':' && s[16] == ':'
  {
    if |s| == 19 && s[4] == '-' && s[7] == '-' && s[10] == ' ' && s[13] == ':' && s[16] == ':'
       && (forall i :: 0 <= i < 19 && i !in {4, 7, 10, 13, 16} ==> IsDigit(s[i]))
    then
      Some(Moment(DecimalValue(s[..4]), DecimalValue(s[5..7]), DecimalValue(s[8..10]),
                  DecimalValue(s[11..13]), DecimalValue(s[14..16]), DecimalValue(s[17..])))
    else None
  }

  /** The processing date round-trips through its reader. */
  lemma RowStampRoundTrip(m: Moment)
    requires Valid(m)
    ensures ParseRowStamp(RowStamp(m)) == Some(m)
  {
    var s := RowStamp(m);
    var y, mo, d, h, mi, se := Four(m.year), Two(m.month), Two(m.day), Two(m.hour), Two(m.minute), Two(m.second);
    assert s == y + "-" + mo + "-" + d + " " + h + ":" + mi + ":" + se;
    assert s[..4] == y && s[5..7] == mo && s[8..10] == d;
    assert s[11..13] == h && s[14..16] == mi && s[17..] == se;
  }

  /** The date written on a row whose handling raised is never read back
      as a processing date, whatever the reading. */
  lemma CriticalStampUnreadable(m: Moment)
    ensures ParseRowStamp(RowStampAsWritten(m)) == None
    ensures RowStampAsWritten(m) != RowStamp(m)
  {
  }

  /** What the format evidently meant: the regular processing date with
      the colon restored. */
  lemma CriticalStampDropsColon(m: Moment)
    ensures RowStampAsWritten(m) == RowStamp(m)[..16] + RowStamp(m)[17..]
  {
    var s := RowStamp(m);
    assert s == Date(m) + " " + Two(m.hour) + ":" + Two(m.minute) + ":" + Two(m.second);
  }
}

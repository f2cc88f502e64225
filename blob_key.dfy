/** `safe_s3_key` of lambdas/fetch_city_data/package/app.py: the blob-store
    key `prefix/city/YYYYmmddTHHMMSSZ.json` for a UTC instant. The stamp is
    the `strftime("%Y%m%dT%H%M%SZ")` text, written out digit by digit, and
    `ParseStamp` reads it back. */
module BlobKey {
  import opened JsonValue

  /** The calendar fields of a UTC `datetime` that `%Y%m%dT%H%M%S` prints. */
  datatype UtcTime = UtcTime(year: int, month: int, day: int, hour: int, minute: int, second: int)

  /** The ranges a Python `datetime` guarantees for these fields. */
  predicate ValidTime(t: UtcTime)
  {
    && 1 <= t.year <= 9999
    && 1 <= t.month <= 12
    && 1 <= t.day <= 31
    && 0 <= t.hour <= 23
    && 0 <= t.minute <= 59
    && 0 <= t.second <= 59
  }

  function Pow10(width: nat): (p: nat)
    ensures p >= 1
  {
    if width == 0 then 1 else 10 * Pow10(width - 1)
  }

  predicate IsDigit(c: char)
  {
    '0' <= c <= '9'
  }

  predicate AllDigits(s: string)
  {
    forall i :: 0 <= i < |s| ==> IsDigit(s[i])
  }

  /** `n` in decimal, zero-padded on the left to `width` digits. */
  function Padded(n: nat, width: nat): (s: string)
    requires n < Pow10(width)
    ensures |s| == width && AllDigits(s)
  {
    if width == 0 then ""
    else
      Padded(n / 10, width - 1) + [(('0' as int) + n % 10) as char]
  }

  /** The number a string of decimal digits denotes. */
  function DigitsValue(s: string): nat
    requires AllDigits(s)
  {
    if s == [] then 0
    else DigitsValue(s[..|s| - 1]) * 10 + (s[|s| - 1] as int - '0' as int)
  }

  /** Reading back a zero-padded number gives the number. */
  lemma {:induction false} PaddedRoundTrip(n: nat, width: nat)
    requires n < Pow10(width)
    ensures DigitsValue(Padded(n, width)) == n
  {
    if width > 0 {
      PaddedRoundTrip(n / 10, width - 1);
      var s := Padded(n, width);
      assert s[..|s| - 1] == Padded(n / 10, width - 1);
    }
  }

  /** The 16-character `%Y%m%dT%H%M%SZ` stamp. */
  function Stamp(t: UtcTime): (ts: string)
    requires ValidTime(t)
    ensures |ts| == 16 && ts[8] == 'T' && ts[15] == 'Z'
    ensures AllDigits(ts[..8]) && AllDigits(ts[9..15])
  {
    var date := Padded(t.year, 4) + Padded(t.month, 2) + Padded(t.day, 2);
    var time := Padded(t.hour, 2) + Padded(t.minute, 2) + Padded(t.second, 2);
    assert date + "T" + time + "Z" == date + ['T'] + time + ['Z'];
    assert (date + "T" + time + "Z")[..8] == date;
    assert (date + "T" + time + "Z")[9..15] == time;
    date + "T" + time + "Z"
  }

  /** Reads a stamp back into its fields; None for any other text. */
  function ParseStamp(ts: string): Option<UtcTime>
  {
    if |ts| == 16 && ts[8] == 'T' && ts[15] == 'Z' && AllDigits(ts[..8]) && AllDigits(ts[9..15]) then
      assert forall i :: 0 <= i < 8 ==> IsDigit(ts[..8][i]);
      assert forall i :: 9 <= i < 15 ==> ts[i] == ts[9..15][i - 9];
      Some(UtcTime(DigitsValue(ts[0..4]), DigitsValue(ts[4..6]), DigitsValue(ts[6..8]),
                   DigitsValue(ts[9..11]), DigitsValue(ts[11..13]), DigitsValue(ts[13..15])))
    else None
  }

  /** The stamp determines the instant: parsing it gives the fields back. */
  lemma StampRoundTrip(t: UtcTime)
    requires ValidTime(t)
    ensures ParseStamp(Stamp(t)) == Some(t)
  {
    var y, mo, d := Padded(t.year, 4), Padded(t.month, 2), Padded(t.day, 2);
    var h, mi, s := Padded(t.hour, 2), Padded(t.minute, 2), Padded(t.second, 2);
    var ts := Stamp(t);
    assert ts == y + mo + d + "T" + h + mi + s + "Z";
    assert ts[0..4] == y && ts[4..6] == mo && ts[6..8] == d;
    assert ts[9..11] == h && ts[11..13] == mi && ts[13..15] == s;
    PaddedRoundTrip(t.year, 4);
    PaddedRoundTrip(t.month, 2);
    PaddedRoundTrip(t.day, 2);
    PaddedRoundTrip(t.hour, 2);
    PaddedRoundTrip(t.minute, 2);
    PaddedRoundTrip(t.second, 2);
  }

  /** `safe_s3_key(prefix, city, dt)`. */
  function SafeS3Key(prefix: string, city: string, t: UtcTime): (key: string)
    requires ValidTime(t)
    ensures |key| == |prefix| + |city| + 23
    ensures key[..|prefix|] == prefix && key[|key| - 5..] == ".json"
  {
    prefix + "/" + city + "/" + Stamp(t) + ".json"
  }

  /** The key is the prefix, `/`, the city, `/`, the stamp and `.json`, and
      the stamp inside it reads back to the instant it was made from. */
  lemma SafeS3KeyLayout(prefix: string, city: string, t: UtcTime)
    requires ValidTime(t)
    ensures var key := SafeS3Key(prefix, city, t);
            var at := |prefix| + |city| + 2;
            && |key| == |prefix| + |city| + 23
            && key[..|prefix|] == prefix
            && key[|prefix|] == '/'
            && key[|prefix| + 1..|prefix| + 1 + |city|] == city
            && key[|prefix| + 1 + |city|] == '/'
            && ParseStamp(key[at..at + 16]) == Some(t)
            && key[at + 16..] == ".json"
  {
    var key := SafeS3Key(prefix, city, t);
    var at := |prefix| + |city| + 2;
    assert key == prefix + ['/'] + city + ['/'] + Stamp(t) + ".json";
    assert key[at..at + 16] == Stamp(t);
    StampRoundTrip(t);
  }

  /** Two different instants in the same prefix and city never share a
      key, so one invocation's blob cannot overwrite another's from a
      different second. */
  lemma SafeS3KeyInjective(prefix: string, city: string, t1: UtcTime, t2: UtcTime)
    requires ValidTime(t1) && ValidTime(t2)
    requires SafeS3Key(prefix, city, t1) == SafeS3Key(prefix, city, t2)
    ensures t1 == t2
  {
    SafeS3KeyLayout(prefix, city, t1);
    SafeS3KeyLayout(prefix, city, t2);
  }

  /** The stamp of the source's example key
      `raw/Bengaluru/20251119T060056Z.json`. */
  lemma {:induction false} StampExample()
    ensures Stamp(UtcTime(2025, 11, 19, 6, 0, 56)) == "20251119T060056Z"
  {
    YearExample();
    TwoDigitExamples();
    var ts := Stamp(UtcTime(2025, 11, 19, 6, 0, 56));
    assert ts == "2025" + "11" + "19" + "T" + "06" + "00" + "56" + "Z";
    assert "2025" + "11" + "19" + "T" + "06" + "00" + "56" + "Z" == "20251119T060056Z";
  }

  lemma {:induction false} TwoDigitExamples()
    ensures Padded(11, 2) == "11" && Padded(19, 2) == "19"
    ensures Padded(6, 2) == "06" && Padded(0, 2) == "00" && Padded(56, 2) == "56"
  {
    assert Padded(1, 1) == "1" && Padded(5, 1) == "5" && Padded(0, 1) == "0";
  }

  lemma {:induction false} YearExample()
    ensures Padded(2025, 4) == "2025"
  {
    assert Padded(2, 1) == "2";
    assert Padded(20, 2) == "20";
    assert Padded(202, 3) == "202";
  }
}

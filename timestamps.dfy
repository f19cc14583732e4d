/** The gateway timestamp and the merchant reference code built from it.

    Both payment engines take the clock reading as an ISO-8601 string
    ("YYYY-MM-DDTHH:mm:ss.sssZ", what `Date.prototype.toISOString` returns
    for years 0 to 9999) and derive a fourteen-character timestamp for the
    gateway request.  The code as written strips '-', ':' and '.' and keeps
    the first fourteen characters (`CompactTimestamp`), which keeps the 'T'
    and loses the last digit of the seconds.  The payment engines use that
    value, as the code does; `GatewayTimestamp` is the intended
    YYYYMMDDHHmmss form, kept as the correction. */
module Timestamps {
  import opened Common

  predicate IsSeparatorPosition(i: int) {
    i == 4 || i == 7 || i == 10 || i == 13 || i == 16 || i == 19 || i == 23
  }

  predicate IsIsoInstant(s: string) {
    && |s| == 24
    && s[4] == '-' && s[7] == '-' && s[10] == 'T'
    && s[13] == ':' && s[16] == ':' && s[19] == '.' && s[23] == 'Z'
    && forall i :: 0 <= i < 24 && !IsSeparatorPosition(i) ==> IsDigit(s[i])
  }

  /** A clock reading rendered by `toISOString()`. */
  type IsoInstant = s: string | IsIsoInstant(s) witness "2000-01-01T00:00:00.000Z"

  /** The characters of `s` that satisfy `keep`, in order. */
  function Filter(s: string, keep: char -> bool): (r: string)
    ensures |r| <= |s|
    ensures forall i :: 0 <= i < |r| ==> keep(r[i])
  {
    if s == [] then []
    else (if keep(s[0]) then [s[0]] else []) + Filter(s[1..], keep)
  }

  lemma {:induction false} FilterAppend(a: string, b: string, keep: char -> bool)
    ensures Filter(a + b, keep) == Filter(a, keep) + Filter(b, keep)
  {
    if a == [] {
      assert a + b == b;
    } else {
      assert (a + b)[1..] == a[1..] + b;
      FilterAppend(a[1..], b, keep);
    }
  }

  lemma {:induction false} FilterKeepsAll(s: string, keep: char -> bool)
    requires forall i :: 0 <= i < |s| ==> keep(s[i])
    ensures Filter(s, keep) == s
  {
    if s != [] {
      FilterKeepsAll(s[1..], keep);
    }
  }

  /** A run of kept characters passes through unchanged. */
  lemma FilterRun(s: string, i: nat, j: nat, keep: char -> bool)
    requires i <= j <= |s|
    requires forall m :: i <= m < j ==> keep(s[m])
    ensures Filter(s[i..], keep) == s[i..j] + Filter(s[j..], keep)
  {
    assert s[i..] == s[i..j] + s[j..];
    FilterAppend(s[i..j], s[j..], keep);
    FilterKeepsAll(s[i..j], keep);
  }

  /** A dropped character disappears. */
  lemma FilterDrop(s: string, i: nat, keep: char -> bool)
    requires i < |s| && !keep(s[i])
    ensures Filter(s[i..], keep) == Filter(s[i + 1..], keep)
  {
    assert s[i..][1..] == s[i + 1..];
  }

  predicate NotSeparator(c: char) {
    c != '-' && c != ':' && c != '.'
  }

  /** `iso.replace(/[-:.]/g, "")`. */
  function StripSeparators(s: string): string {
    Filter(s, NotSeparator)
  }

  /** `iso.replace(/[-:.]/g, "").slice(0, 14)`: the timestamp as written. */
  function CompactTimestamp(iso: string): (r: string)
    ensures |r| <= 14
    ensures forall i :: 0 <= i < |r| ==> NotSeparator(r[i])
  {
    var t := StripSeparators(iso);
    if |t| <= 14 then t else t[..14]
  }

  /** The intended gateway timestamp: year, month, day, hours, minutes and
      seconds, fourteen digits. */
  function GatewayTimestamp(iso: IsoInstant): (r: string)
    ensures |r| == 14 && AllDigits(r)
  {
    iso[..4] + iso[5..7] + iso[8..10] + iso[11..13] + iso[14..16] + iso[17..19]
  }

  /** The digits of a clock reading, segment by segment. */
  lemma DigitsOfIso(iso: IsoInstant)
    ensures Filter(iso, IsDigit)
         == iso[0..4] + (iso[5..7] + (iso[8..10] + (iso[11..13] + (iso[14..16]
            + (iso[17..19] + Filter(iso[19..], IsDigit))))))
  {
    var k := IsDigit;
    calc {
      Filter(iso, k);
      { assert iso[0..] == iso; }
      Filter(iso[0..], k);
      { FilterRun(iso, 0, 4, k); }
      iso[0..4] + Filter(iso[4..], k);
      { FilterDrop(iso, 4, k); FilterRun(iso, 5, 7, k); }
      iso[0..4] + (iso[5..7] + Filter(iso[7..], k));
      { FilterDrop(iso, 7, k); FilterRun(iso, 8, 10, k); }
      iso[0..4] + (iso[5..7] + (iso[8..10] + Filter(iso[10..], k)));
      { FilterDrop(iso, 10, k); FilterRun(iso, 11, 13, k); }
      iso[0..4] + (iso[5..7] + (iso[8..10] + (iso[11..13] + Filter(iso[13..], k))));
      { FilterDrop(iso, 13, k); FilterRun(iso, 14, 16, k); }
      iso[0..4] + (iso[5..7] + (iso[8..10] + (iso[11..13] + (iso[14..16] + Filter(iso[16..], k)))));
      { FilterDrop(iso, 16, k); FilterRun(iso, 17, 19, k); }
      iso[0..4] + (iso[5..7] + (iso[8..10] + (iso[11..13] + (iso[14..16]
        + (iso[17..19] + Filter(iso[19..], k))))));
    }
  }

  /** A dropped character followed by a run of kept ones. */
  lemma FilterDropRun(s: string, i: nat, j: nat, keep: char -> bool)
    requires i < j <= |s| && !keep(s[i])
    requires forall m :: i < m < j ==> keep(s[m])
    ensures Filter(s[i..], keep) == s[i + 1..j] + Filter(s[j..], keep)
  {
    FilterDrop(s, i, keep);
    FilterRun(s, i + 1, j, keep);
  }

  /** A clock reading with '-', ':' and '.' removed, segment by segment. */
  lemma StrippedIso(iso: IsoInstant)
    ensures StripSeparators(iso)
         == iso[0..4] + (iso[5..7] + (iso[8..13] + (iso[14..16]
            + (iso[17..19] + Filter(iso[19..], NotSeparator)))))
  {
    var k := NotSeparator;
    assert forall m :: 0 <= m < 24 && !IsSeparatorPosition(m) ==> k(iso[m]);
    assert iso[0..] == iso;
    FilterRun(iso, 0, 4, k);
    FilterDropRun(iso, 4, 7, k);
    FilterDropRun(iso, 7, 13, k);
    FilterDropRun(iso, 13, 16, k);
    FilterDropRun(iso, 16, 19, k);
  }

  /** Keeping only digits (`replace(/\D/g, "")`) and cutting at fourteen
      gives exactly `GatewayTimestamp`. */
  lemma GatewayTimestampIsLeadingDigits(iso: IsoInstant)
    ensures |Filter(iso, IsDigit)| >= 14
    ensures GatewayTimestamp(iso) == Filter(iso, IsDigit)[..14]
  {
    DigitsOfIso(iso);
  }

  /** What the code as written produces: the 'T' survives at index 8 and only
      the tens digit of the seconds is kept, so the result is not the
      fourteen-digit timestamp. */
  lemma CompactTimestampKeepsT(iso: IsoInstant)
    ensures CompactTimestamp(iso)
         == iso[..4] + iso[5..7] + iso[8..10] + "T" + iso[11..13] + iso[14..16] + [iso[17]]
    ensures |CompactTimestamp(iso)| == 14 && CompactTimestamp(iso)[8] == 'T'
    ensures !AllDigits(CompactTimestamp(iso))
    ensures CompactTimestamp(iso) != GatewayTimestamp(iso)
  {
    StrippedIso(iso);
    var expected := iso[..4] + iso[5..7] + iso[8..10] + "T" + iso[11..13] + iso[14..16] + [iso[17]];
    assert StripSeparators(iso)[..14] == expected;
    assert expected[8] == 'T';
    assert GatewayTimestamp(iso)[8] == iso[11];
  }

  /** `DS<timestamp><Math.floor(Math.random() * 1000)>`. */
  function ReferenceCode(timestamp: string, draw: Draw): string {
    "DS" + timestamp + DecimalString(ScaledDraw(draw, 1000))
  }

  /** A reference code as the engines build it is "DS", the timestamp as
      written (eight date digits, 'T', hours, minutes and the tens digit of
      the seconds), then one to three digits that read back as the draw's
      number in [0, 999]. */
  lemma ReferenceCodeShape(now: IsoInstant, draw: Draw)
    ensures var r := ReferenceCode(CompactTimestamp(now), draw);
      && 17 <= |r| <= 19
      && r[..2] == "DS"
      && r[2..16] == CompactTimestamp(now)
      && AllDigits(r[2..10]) && r[10] == 'T' && AllDigits(r[11..])
      && ParseDecimal(r[16..]) == ScaledDraw(draw, 1000) < 1000
  {
    var ts := CompactTimestamp(now);
    var n := ScaledDraw(draw, 1000);
    var r := ReferenceCode(ts, draw);
    CompactTimestampKeepsT(now);
    DecimalStringShort(n);
    DecimalRoundTrip(n);
    assert r[16..] == DecimalString(n);
    assert r[2..10] == now[..4] + now[5..7] + now[8..10];
    assert r[11..] == now[11..13] + now[14..16] + [now[17]] + DecimalString(n);
  }

  /** Two readings that agree up to the tens digit of the seconds give the
      same timestamp as written, hence the same reference for the same draw:
      the code's references change only every ten seconds. */
  lemma CompactTimestampTenSeconds(a: IsoInstant, b: IsoInstant, draw: Draw)
    requires a[..18] == b[..18]
    ensures CompactTimestamp(a) == CompactTimestamp(b)
    ensures ReferenceCode(CompactTimestamp(a), draw) == ReferenceCode(CompactTimestamp(b), draw)
  {
    CompactTimestampKeepsT(a);
    CompactTimestampKeepsT(b);
    assert a[..4] == a[..18][..4] && b[..4] == b[..18][..4];
    assert a[5..7] == a[..18][5..7] && b[5..7] == b[..18][5..7];
    assert a[8..10] == a[..18][8..10] && b[8..10] == b[..18][8..10];
    assert a[11..13] == a[..18][11..13] && b[11..13] == b[..18][11..13];
    assert a[14..16] == a[..18][14..16] && b[14..16] == b[..18][14..16];
    assert a[17] == a[..18][17] && b[17] == b[..18][17];
  }

  /** The corrected timestamp tells apart any two readings that differ in
      their date or time to the second. */
  lemma GatewayTimestampSeparatesSeconds(a: IsoInstant, b: IsoInstant)
    requires a[..19] != b[..19]
    ensures GatewayTimestamp(a) != GatewayTimestamp(b)
  {
    if GatewayTimestamp(a) == GatewayTimestamp(b) {
      var ga, gb := GatewayTimestamp(a), GatewayTimestamp(b);
      forall i | 0 <= i < 19
        ensures a[i] == b[i]
      {
        if i < 4 { assert a[i] == ga[i] && b[i] == gb[i]; }
        else if i < 7 && i != 4 { assert a[i] == ga[i - 1] && b[i] == gb[i - 1]; }
        else if 7 < i < 10 { assert a[i] == ga[i - 2] && b[i] == gb[i - 2]; }
        else if 10 < i < 13 { assert a[i] == ga[i - 3] && b[i] == gb[i - 3]; }
        else if 13 < i < 16 { assert a[i] == ga[i - 4] && b[i] == gb[i - 4]; }
        else if 16 < i { assert a[i] == ga[i - 5] && b[i] == gb[i - 5]; }
      }
      assert false;
    }
  }

  /** The example that shows the discrepancy: any reading taken at
      2024-01-15 10:30:45 UTC. */
  lemma CompactTimestampExample(iso: IsoInstant)
    requires iso[..4] == "2024" && iso[5..7] == "01" && iso[8..10] == "15"
    requires iso[11..13] == "10" && iso[14..16] == "30" && iso[17..19] == "45"
    ensures CompactTimestamp(iso) == "20240115T10304"
    ensures GatewayTimestamp(iso) == "20240115103045"
  {
    CompactTimestampKeepsT(iso);
    assert iso[17] == iso[17..19][0];
  }
}

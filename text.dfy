/** Decimal digits and the two `strftime` layouts the Merkle export uses. */
module Text {

  predicate IsDigit(c: char)
  {
    '0' <= c <= '9'
  }

  predicate AllDigits(s: string)
  {
    forall i :: 0 <= i < |s| ==> IsDigit(s[i])
  }

  function DigitChar(d: nat): (c: char)
    requires d < 10
    ensures IsDigit(c) && c as int - '0' as int == d
  {
    ('0' as int + d) as char
  }

  function DigitValue(c: char): nat
    requires IsDigit(c)
  {
    c as int - '0' as int
  }

  function Pow10(n: nat): nat
  {
    if n == 0 then 1 else 10 * Pow10(n - 1)
  }

  /** The number a string of decimal digits denotes (leading zeros allowed). */
  function Value(s: string): nat
    requires AllDigits(s)
  {
    if s == [] then 0 else 10 * Value(s[..|s| - 1]) + DigitValue(s[|s| - 1])
  }

  /** `n` written with exactly `width` digits, zero-padded on the left (`%02d`, `%04d`). */
  function Fixed(n: nat, width: nat): (r: string)
    ensures |r| == width && AllDigits(r)
  {
    if width == 0 then "" else Fixed(n / 10, width - 1) + [DigitChar(n % 10)]
  }

  lemma {:induction false} FixedValue(n: nat, width: nat)
    requires n < Pow10(width)
    ensures Value(Fixed(n, width)) == n
  {
    if width > 0 {
      var r := Fixed(n, width);
      FixedValue(n / 10, width - 1);
      assert r[..|r| - 1] == Fixed(n / 10, width - 1);
    }
  }

  /** Python's `str()` of a natural number: no leading zeros. */
  function Decimal(n: nat): (r: string)
    ensures 1 <= |r| && AllDigits(r)
    ensures |r| > 1 ==> r[0] != '0'
  {
    if n < 10 then [DigitChar(n)] else Decimal(n / 10) + [DigitChar(n % 10)]
  }

  lemma {:induction false} DecimalValue(n: nat)
    ensures Value(Decimal(n)) == n
  {
    if n >= 10 {
      var r := Decimal(n);
      DecimalValue(n / 10);
      assert r[..|r| - 1] == Decimal(n / 10);
    }
  }

  /** Python's `str()` of an integer. */
  function IntToString(i: int): (r: string)
    ensures i >= 0 ==> AllDigits(r) && Value(r) == i
    ensures i >= 0 ==> |r| >= 1 && (|r| > 1 ==> r[0] != '0')
    ensures i < 0 ==> |r| >= 2 && r[0] == '-' && AllDigits(r[1..]) && Value(r[1..]) == -i
    ensures i < 0 ==> r[1] != '0'
  {
    if i < 0 then
      DecimalValue(-i);
      assert ("-" + Decimal(-i))[1..] == Decimal(-i);
      "-" + Decimal(-i)
    else
      DecimalValue(i);
      Decimal(i)
  }

  /** A reading of `datetime.now()`, down to the second. */
  datatype DateTime = DateTime(year: nat, month: nat, day: nat, hour: nat, minute: nat, second: nat)
  {
    /** The ranges `datetime` guarantees; years before 1000 are not modelled. */
    predicate Valid()
    {
      1000 <= year <= 9999 && 1 <= month <= 12 && 1 <= day <= 31
      && hour < 24 && minute < 60 && second < 60
    }
  }

  /** `strftime("%Y%m%d%H%M%S")`. */
  function Compact(t: DateTime): (r: string)
    requires t.Valid()
    ensures |r| == 14 && AllDigits(r)
  {
    Fixed(t.year, 4) + Fixed(t.month, 2) + Fixed(t.day, 2)
    + Fixed(t.hour, 2) + Fixed(t.minute, 2) + Fixed(t.second, 2)
  }

  /** Reads a `%Y%m%d%H%M%S` stamp back. */
  function ParseCompact(s: string): DateTime
    requires |s| == 14 && AllDigits(s)
  {
    DateTime(Value(s[0..4]), Value(s[4..6]), Value(s[6..8]),
             Value(s[8..10]), Value(s[10..12]), Value(s[12..14]))
  }

  /** The six fields of a `%Y%m%d%H%M%S` stamp sit at fixed offsets. */
  lemma CompactFields(y: string, mo: string, d: string, h: string, mi: string, se: string)
    requires |y| == 4 && |mo| == 2 && |d| == 2 && |h| == 2 && |mi| == 2 && |se| == 2
    ensures var s := y + mo + d + h + mi + se;
      s[0..4] == y && s[4..6] == mo && s[6..8] == d && s[8..10] == h && s[10..12] == mi && s[12..14] == se
  {
    var s := y + mo + d + h + mi + se;
    assert s == ((((y + mo) + d) + h) + mi) + se;
    assert s[..12] == y + mo + d + h + mi;
    assert s[..10] == y + mo + d + h;
    assert s[..8] == y + mo + d;
    assert s[..6] == y + mo;
  }

  lemma CompactRoundTrip(t: DateTime)
    requires t.Valid()
    ensures ParseCompact(Compact(t)) == t
  {
    CompactFields(Fixed(t.year, 4), Fixed(t.month, 2), Fixed(t.day, 2),
                  Fixed(t.hour, 2), Fixed(t.minute, 2), Fixed(t.second, 2));
    FixedValue(t.year, 4);
    FixedValue(t.month, 2);
    FixedValue(t.day, 2);
    FixedValue(t.hour, 2);
    FixedValue(t.minute, 2);
    FixedValue(t.second, 2);
  }

  /** The layout `%Y-%m-%dT%H:%M:%S` produces: digit groups between fixed separators. */
  predicate IsoShaped(s: string)
  {
    |s| == 19 && s[4] == '-' && s[7] == '-' && s[10] == 'T' && s[13] == ':' && s[16] == ':'
    && AllDigits(s[0..4]) && AllDigits(s[5..7]) && AllDigits(s[8..10])
    && AllDigits(s[11..13]) && AllDigits(s[14..16]) && AllDigits(s[17..19])
  }

  /** `strftime("%Y-%m-%dT%H:%M:%S")`. */
  function Iso(t: DateTime): (r: string)
    requires t.Valid()
    ensures IsoShaped(r)
  {
    var r := Fixed(t.year, 4) + "-" + Fixed(t.month, 2) + "-" + Fixed(t.day, 2)
      + "T" + Fixed(t.hour, 2) + ":" + Fixed(t.minute, 2) + ":" + Fixed(t.second, 2);
    assert r[0..4] == Fixed(t.year, 4);
    assert r[5..7] == Fixed(t.month, 2);
    assert r[8..10] == Fixed(t.day, 2);
    assert r[11..13] == Fixed(t.hour, 2);
    assert r[14..16] == Fixed(t.minute, 2);
    assert r[17..19] == Fixed(t.second, 2);
    r
  }

  /** Reads a `%Y-%m-%dT%H:%M:%S` stamp back. */
  function ParseIso(s: string): DateTime
    requires IsoShaped(s)
  {
    DateTime(Value(s[0..4]), Value(s[5..7]), Value(s[8..10]),
             Value(s[11..13]), Value(s[14..16]), Value(s[17..19]))
  }

  lemma IsoRoundTrip(t: DateTime)
    requires t.Valid()
    ensures ParseIso(Iso(t)) == t
  {
    var s := Iso(t);
    var y, mo, d := Fixed(t.year, 4), Fixed(t.month, 2), Fixed(t.day, 2);
    var h, mi, se := Fixed(t.hour, 2), Fixed(t.minute, 2), Fixed(t.second, 2);
    assert s == y + "-" + mo + "-" + d + "T" + h + ":" + mi + ":" + se;
    assert s[0..4] == Fixed(t.year, 4);
    assert s[5..7] == Fixed(t.month, 2);
    assert s[8..10] == Fixed(t.day, 2);
    assert s[11..13] == Fixed(t.hour, 2);
    assert s[14..16] == Fixed(t.minute, 2);
    assert s[17..19] == Fixed(t.second, 2);
    FixedValue(t.year, 4);
    FixedValue(t.month, 2);
    FixedValue(t.day, 2);
    FixedValue(t.hour, 2);
    FixedValue(t.minute, 2);
    FixedValue(t.second, 2);
  }
}

/**
 * The cache key of `fetch_data_with_cache`: each timestamp is rendered
 * as Python's `str(datetime)` does, cut at its first space (the date
 * part), and the key is `stock + "_" + start + "_" + end`.
 */
module CacheKeys {

  /** A naive `datetime.datetime` value; `Valid` is the range the type enforces. */
  datatype Timestamp = Timestamp(year: int, month: int, day: int,
                                 hour: int, minute: int, second: int, microsecond: int)
  {
    predicate Valid() {
      && 1 <= year <= 9999 && 1 <= month <= 12 && 1 <= day <= 31
      && 0 <= hour < 24 && 0 <= minute < 60 && 0 <= second < 60
      && 0 <= microsecond < 1000000
    }
  }

  /** Two timestamps fall on the same calendar date. */
  predicate SameDate(t: Timestamp, u: Timestamp) {
    t.year == u.year && t.month == u.month && t.day == u.day
  }

  function Pow10(w: nat): (p: nat)
    ensures p >= 1
  {
    if w == 0 then 1 else 10 * Pow10(w - 1)
  }

  predicate IsDigit(c: char) {
    '0' <= c <= '9'
  }

  function DigitChar(d: nat): (c: char)
    requires d < 10
    ensures IsDigit(c)
    ensures c as int - '0' as int == d
  {
    ('0' as int + d) as char
  }

  /** `n` written in decimal, zero-padded to `width` digits (the `%0Nd` format). */
  function Digits(n: nat, width: nat): (s: string)
    requires n < Pow10(width)
    ensures |s| == width
    ensures forall i :: 0 <= i < |s| ==> IsDigit(s[i])
  {
    if width == 0 then "" else Digits(n / 10, width - 1) + [DigitChar(n % 10)]
  }

  /** Zero-padded rendering loses nothing: different numbers give different text. */
  lemma {:induction false} DigitsInjective(n: nat, m: nat, width: nat)
    requires n < Pow10(width) && m < Pow10(width)
    requires Digits(n, width) == Digits(m, width)
    ensures n == m
  {
    if width > 0 {
      var s, t := Digits(n, width), Digits(m, width);
      assert s[..width - 1] == Digits(n / 10, width - 1);
      assert t[..width - 1] == Digits(m / 10, width - 1);
      assert s[width - 1] == DigitChar(n % 10) && t[width - 1] == DigitChar(m % 10);
      DigitsInjective(n / 10, m / 10, width - 1);
    }
  }

  /** The `YYYY-MM-DD` part of `str(datetime)`. */
  function DateText(t: Timestamp): (s: string)
    requires t.Valid()
    ensures |s| == 10 && ' ' !in s
    ensures s[4] == '-' && s[7] == '-'
  {
    Digits(t.year, 4) + "-" + Digits(t.month, 2) + "-" + Digits(t.day, 2)
  }

  /** The time part of `str(datetime)`: `HH:MM:SS`, then `.ffffff` unless the microseconds are zero. */
  function TimeText(t: Timestamp): (s: string)
    requires t.Valid()
    ensures |s| == (if t.microsecond == 0 then 8 else 15)
    ensures s[2] == ':' && s[5] == ':'
    ensures t.microsecond != 0 ==> s[8] == '.'
    ensures ' ' !in s
  {
    Digits(t.hour, 2) + ":" + Digits(t.minute, 2) + ":" + Digits(t.second, 2)
    + (if t.microsecond != 0 then "." + Digits(t.microsecond, 6) else "")
  }

  /**
   * `str(t)` for a naive datetime: the date, one space, the time. The text
   * is 19 characters, or 26 with microseconds, and its only space is the
   * separator, so cutting at the first space leaves exactly the date.
   */
  function Str(t: Timestamp): (s: string)
    requires t.Valid()
    ensures |s| == (if t.microsecond == 0 then 19 else 26)
    ensures s[10] == ' ' && s[..10] == DateText(t) && s[11..] == TimeText(t)
    ensures DatePart(s) == DateText(t)
  {
    DatePartOfJoin(DateText(t), TimeText(t));
    DateText(t) + " " + TimeText(t)
  }

  /**
   * `s.split(' ')[0]`: everything before the first space, or all of `s`
   * when it has none. The three postconditions determine the result.
   */
  function DatePart(s: string): (r: string)
    ensures r <= s
    ensures ' ' !in r
    ensures |r| < |s| ==> s[|r|] == ' '
  {
    if s == [] || s[0] == ' ' then [] else [s[0]] + DatePart(s[1..])
  }

  /** Cutting at the first space gives back the text before it. */
  lemma DatePartOfJoin(a: string, b: string)
    requires ' ' !in a
    ensures DatePart(a + " " + b) == a
  {
    var s := a + " " + b;
    var r := DatePart(s);
    assert s[|a|] == ' ';
    assert |r| == |a| by {
      assert forall i :: 0 <= i < |a| ==> s[i] == a[i] != ' ';
    }
    assert r == s[..|a|] == a;
  }

  /** The key string whose MD5 digest names the cache file. */
  function CacheKey(stock: string, start: Timestamp, end: Timestamp): (k: string)
    requires start.Valid() && end.Valid()
    ensures k == stock + "_" + DateText(start) + "_" + DateText(end)
  {
    stock + "_" + DatePart(Str(start)) + "_" + DatePart(Str(end))
  }

  /** The date text identifies the calendar date. */
  lemma DateTextInjective(t: Timestamp, u: Timestamp)
    requires t.Valid() && u.Valid()
    ensures DateText(t) == DateText(u) <==> SameDate(t, u)
  {
    if DateText(t) == DateText(u) {
      var s, v := DateText(t), DateText(u);
      assert s[..4] == Digits(t.year, 4) && v[..4] == Digits(u.year, 4);
      assert s[5..7] == Digits(t.month, 2) && v[5..7] == Digits(u.month, 2);
      assert s[8..] == Digits(t.day, 2) && v[8..] == Digits(u.day, 2);
      DigitsInjective(t.year, u.year, 4);
      DigitsInjective(t.month, u.month, 2);
      DigitsInjective(t.day, u.day, 2);
    }
  }

  /** Joining with `_` around two fixed-width fields can be undone. */
  lemma JoinInjective(a1: string, b1: string, c1: string, a2: string, b2: string, c2: string)
    requires |b1| == |b2| == 10 && |c1| == |c2| == 10
    requires a1 + "_" + b1 + "_" + c1 == a2 + "_" + b2 + "_" + c2
    ensures a1 == a2 && b1 == b2 && c1 == c2
  {
    var k1, k2 := a1 + "_" + b1 + "_" + c1, a2 + "_" + b2 + "_" + c2;
    var n := |a1|;
    assert |a2| == n;
    assert k1[..n] == a1 && k2[..n] == a2;
    assert k1[n + 1..n + 11] == b1 && k2[n + 1..n + 11] == b2;
    assert k1[n + 12..] == c1 && k2[n + 12..] == c2;
  }

  /**
   * Two requests share a cache key exactly when they name the same stock
   * and the same start and end calendar dates; the time of day never matters.
   */
  lemma KeyIdentifiesRequest(stock1: string, start1: Timestamp, end1: Timestamp,
                             stock2: string, start2: Timestamp, end2: Timestamp)
    requires start1.Valid() && end1.Valid() && start2.Valid() && end2.Valid()
    ensures CacheKey(stock1, start1, end1) == CacheKey(stock2, start2, end2)
            <==> stock1 == stock2 && SameDate(start1, start2) && SameDate(end1, end2)
  {
    DateTextInjective(start1, start2);
    DateTextInjective(end1, end2);
    if CacheKey(stock1, start1, end1) == CacheKey(stock2, start2, end2) {
      JoinInjective(stock1, DateText(start1), DateText(end1), stock2, DateText(start2), DateText(end2));
    }
  }
}

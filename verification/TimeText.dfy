/**
 The two-stage window filter over time stamps stored as text (section 5.1 of RFC 3339): where text order
 and time order agree, and exactly where they do not.
 */
module TimeText {

  /** A UTC time; for the fields in their ranges, the order of the fields is the order in time. */
  datatype Stamp = Stamp(year: nat, month: nat, day: nat, hour: nat, minute: nat, second: nat, nanos: nat)

  predicate InRange(t: Stamp) {
    && t.year < 10_000 && 1 <= t.month <= 12 && 1 <= t.day <= 31
    && t.hour < 24 && t.minute < 60 && t.second < 60 && t.nanos < 1_000_000_000
  }

  predicate EarlierSecond(a: Stamp, b: Stamp) {
    || a.year < b.year
    || (a.year == b.year && (a.month < b.month
        || (a.month == b.month && (a.day < b.day
            || (a.day == b.day && (a.hour < b.hour
                || (a.hour == b.hour && (a.minute < b.minute
                    || (a.minute == b.minute && a.second < b.second)))))))))
  }

  predicate SameSecond(a: Stamp, b: Stamp) {
    a.(nanos := 0) == b.(nanos := 0)
  }

  predicate Earlier(a: Stamp, b: Stamp) {
    EarlierSecond(a, b) || (SameSecond(a, b) && a.nanos < b.nanos)
  }

  // ---------------------------------------------------------------- text

  function Digit(n: nat): char
    requires n < 10
  {
    "0123456789"[n]
  }

  function Pow10(n: nat): nat {
    if n == 0 then 1 else 10 * Pow10(n - 1)
  }

  /** `n` in decimal, zero-padded to `width`. */
  function Pad(n: nat, width: nat): (s: string)
    requires n < Pow10(width)
    ensures |s| == width
    ensures forall i | 0 <= i < |s| :: '0' <= s[i] <= '9'
    decreases width
  {
    if width == 0 then "" else Pad(n / 10, width - 1) + [Digit(n % 10)]
  }

  function TrimZeros(s: string): string {
    if s != [] && s[|s| - 1] == '0' then TrimZeros(s[..|s| - 1]) else s
  }

  lemma Widths()
    ensures Pow10(2) == 100 && Pow10(4) == 10_000 && Pow10(9) == 1_000_000_000
  {
    assert Pow10(3) == 1000 && Pow10(6) == 1_000_000;
  }

  /** The first nineteen characters from field `i` on: the layout 2006-01-02T15:04:05. */
  function From(t: Stamp, i: nat): string
    requires InRange(t) && i <= 5
    decreases 5 - i
  {
    Widths();
    match i
    case 0 => Pad(t.year, 4) + ("-" + From(t, 1))
    case 1 => Pad(t.month, 2) + ("-" + From(t, 2))
    case 2 => Pad(t.day, 2) + ("T" + From(t, 3))
    case 3 => Pad(t.hour, 2) + (":" + From(t, 4))
    case 4 => Pad(t.minute, 2) + (":" + From(t, 5))
    case _ => Pad(t.second, 2)
  }

  function Seconds(t: Stamp): string
    requires InRange(t)
  {
    From(t, 0)
  }

  /** RFC3339Nano drops trailing zeros, and the point with them. */
  function Fraction(nanos: nat): string
    requires nanos < 1_000_000_000
  {
    Widths();
    if nanos == 0 then "" else "." + TrimZeros(Pad(nanos, 9))
  }

  function Text(t: Stamp): string
    requires InRange(t)
  {
    Seconds(t) + (Fraction(t.nanos) + "Z")
  }

  // ---------------------------------------------------------------- byte order

  predicate Less(s: string, t: string) {
    t != [] && (s == [] || s[0] < t[0] || (s[0] == t[0] && Less(s[1..], t[1..])))
  }

  lemma {:induction false} LessConcat(a: string, b: string, c: string, d: string)
    requires |a| == |b|
    ensures Less(a + c, b + d) <==> Less(a, b) || (a == b && Less(c, d))
  {
    if a == [] {
      assert a + c == c && b + d == d;
    } else {
      assert (a + c)[1..] == a[1..] + c && (b + d)[1..] == b[1..] + d;
      LessConcat(a[1..], b[1..], c, d);
      assert a == [a[0]] + a[1..] && b == [b[0]] + b[1..];
    }
  }

  lemma {:induction false} PadOrder(m: nat, n: nat, width: nat)
    requires m < Pow10(width) && n < Pow10(width)
    ensures Less(Pad(m, width), Pad(n, width)) <==> m < n
    ensures Pad(m, width) == Pad(n, width) <==> m == n
    decreases width
  {
    if width > 0 {
      PadOrder(m / 10, n / 10, width - 1);
      LessConcat(Pad(m / 10, width - 1), Pad(n / 10, width - 1), [Digit(m % 10)], [Digit(n % 10)]);
      DigitOrder(m % 10, n % 10);
      var a, b := Pad(m / 10, width - 1), Pad(n / 10, width - 1);
      assert Pad(m, width)[..width - 1] == a && Pad(n, width)[..width - 1] == b;
      assert Pad(m, width)[width - 1] == Digit(m % 10) && Pad(n, width)[width - 1] == Digit(n % 10);
    }
  }

  lemma DigitOrder(m: nat, n: nat)
    requires m < 10 && n < 10
    ensures Less([Digit(m)], [Digit(n)]) <==> m < n
    ensures Digit(m) == Digit(n) <==> m == n
  {
    assert forall k: nat | k < 10 :: Digit(k) as int == '0' as int + k;
  }

  /** One field and a separator before the rest. */
  lemma FieldOrder(m: nat, n: nat, width: nat, sep: string, c: string, d: string)
    requires m < Pow10(width) && n < Pow10(width)
    ensures Less(Pad(m, width) + (sep + c), Pad(n, width) + (sep + d)) <==> m < n || (m == n && Less(c, d))
    ensures Pad(m, width) + (sep + c) == Pad(n, width) + (sep + d) <==> m == n && c == d
  {
    PadOrder(m, n, width);
    LessConcat(Pad(m, width), Pad(n, width), sep + c, sep + d);
    LessConcat(sep, sep, c, d);
    Irreflexive(sep);
    var x, y := Pad(m, width) + (sep + c), Pad(n, width) + (sep + d);
    if x == y {
      assert Pad(m, width) == x[..width] && Pad(n, width) == y[..width];
      assert c == x[width + |sep|..] && d == y[width + |sep|..];
    }
  }

  lemma {:induction false} Irreflexive(s: string)
    ensures !Less(s, s)
  {
    if s != [] {
      Irreflexive(s[1..]);
    }
  }

  lemma ClockOrder(a: Stamp, b: Stamp)
    requires InRange(a) && InRange(b)
    ensures Less(From(a, 3), From(b, 3))
            <==> a.hour < b.hour || (a.hour == b.hour && (a.minute < b.minute || (a.minute == b.minute && a.second < b.second)))
    ensures From(a, 3) == From(b, 3) <==> a.hour == b.hour && a.minute == b.minute && a.second == b.second
  {
    Widths();
    PadOrder(a.second, b.second, 2);
    FieldOrder(a.minute, b.minute, 2, ":", From(a, 5), From(b, 5));
    FieldOrder(a.hour, b.hour, 2, ":", From(a, 4), From(b, 4));
  }

  /** Up to the second, text order is time order. */
  lemma SecondsOrder(a: Stamp, b: Stamp)
    requires InRange(a) && InRange(b)
    ensures Less(Seconds(a), Seconds(b)) <==> EarlierSecond(a, b)
    ensures Seconds(a) == Seconds(b) <==> SameSecond(a, b)
    ensures |Seconds(a)| == 19
  {
    Widths();
    ClockOrder(a, b);
    FieldOrder(a.day, b.day, 2, "T", From(a, 3), From(b, 3));
    FieldOrder(a.month, b.month, 2, "-", From(a, 2), From(b, 2));
    FieldOrder(a.year, b.year, 4, "-", From(a, 1), From(b, 1));
    LengthOf(a);
  }

  lemma LengthOf(t: Stamp)
    requires InRange(t)
    ensures |Seconds(t)| == 19
  {
    assert |From(t, 3)| == 8;
  }

  // ---------------------------------------------------------------- the filter

  /** The coarse bound: the text of `since`, cut to the second. */
  function Coarse(since: Stamp): string
    requires InRange(since)
  {
    Seconds(since)
  }

  /** Earlier as a clock sees it that counts in steps of `unit` nanoseconds within the second. */
  predicate EarlierBy(unit: nat, a: Stamp, b: Stamp)
    requires unit > 0
  {
    EarlierSecond(a, b) || (SameSecond(a, b) && a.nanos / unit < b.nanos / unit)
  }

  predicate Passes(unit: nat, t: Stamp, since: Stamp)
    requires unit > 0 && InRange(t) && InRange(since)
  {
    !Less(Text(t), Coarse(since)) && !EarlierBy(unit, t, since)
  }

  /** A row before the coarse bound is in an earlier second. */
  lemma CoarseIsSafe(t: Stamp, since: Stamp)
    requires InRange(t) && InRange(since)
    ensures Less(Text(t), Coarse(since)) <==> EarlierSecond(t, since)
  {
    SecondsOrder(t, since);
    SecondsOrder(since, since);
    LessConcat(Seconds(t), Seconds(since), Fraction(t.nanos) + "Z", "");
    assert Seconds(since) + "" == Seconds(since);
  }

  /**
   The two stages together are the exact filter, whatever the precision of the second, nanoseconds or the
   milliseconds of a Julian day: the first drops no row that the second keeps.
   */
  lemma FilterIsExact(unit: nat, t: Stamp, since: Stamp)
    requires unit > 0 && InRange(t) && InRange(since)
    ensures Passes(unit, t, since) <==> !EarlierBy(unit, t, since)
    ensures EarlierBy(1, t, since) <==> Earlier(t, since)
    ensures EarlierBy(unit, t, since) ==> Earlier(t, since)
  {
    CoarseIsSafe(t, since);
    if t.nanos >= since.nanos { QuotientMonotone(since.nanos, t.nanos, unit); }
  }

  lemma QuotientMonotone(m: nat, n: nat, unit: nat)
    requires m <= n && unit > 0
    ensures m / unit <= n / unit
  {
    var p, q := m / unit, n / unit;
    if q < p {
      StepsApart(q, p, unit);
    }
  }

  lemma {:induction false} StepsApart(q: nat, p: nat, unit: nat)
    requires q < p
    ensures unit * q + unit <= unit * p
    decreases p
  {
    OneStep(unit, p - 1);
    if q < p - 1 {
      StepsApart(q, p - 1, unit);
    }
  }

  lemma OneStep(unit: nat, n: nat)
    ensures unit * (n + 1) == unit * n + unit
  {
  }

  // ---------------------------------------------------------------- the full text

  predicate ProperPrefix(s: string, t: string) {
    |s| < |t| && t[..|s|] == s
  }

  lemma {:induction false} TrimIsPrefix(s: string)
    ensures var t := TrimZeros(s);
            && |t| <= |s| && s[..|t|] == t
            && (t != [] ==> t[|t| - 1] != '0')
            && forall i | |t| <= i < |s| :: s[i] == '0'
  {
    if s != [] && s[|s| - 1] == '0' {
      TrimIsPrefix(s[..|s| - 1]);
    }
  }

  /** Where two strings of digits of the same length first differ. */
  lemma {:induction false} FirstDifference(s: string, t: string) returns (i: nat)
    requires |s| == |t| && Less(s, t)
    ensures i < |s| && s[..i] == t[..i] && s[i] < t[i]
  {
    if s[0] < t[0] {
      i := 0;
    } else {
      var k := FirstDifference(s[1..], t[1..]);
      i := k + 1;
      assert s == [s[0]] + s[1..] && t == [t[0]] + t[1..];
      assert s[..i] == [s[0]] + s[1..][..k] && t[..i] == [t[0]] + t[1..][..k];
    }
  }

  lemma {:induction false} DecidedAt(s: string, t: string, i: nat)
    requires i < |s| && i < |t| && s[..i] == t[..i] && s[i] < t[i]
    ensures Less(s, t)
  {
    if i > 0 {
      assert s[0] == s[..i][0] && t[0] == t[..i][0];
      assert s[1..][..i - 1] == s[..i][1..] && t[1..][..i - 1] == t[..i][1..];
      DecidedAt(s[1..], t[1..], i - 1);
    }
  }

  /** Trimmed digits, closed by a letter: out of order exactly when the smaller is a proper prefix of the larger. */
  lemma TrimmedOrder(x: string, y: string)
    requires |x| == |y| && Less(x, y)
    requires forall i | 0 <= i < |y| :: '0' <= x[i] <= '9' && '0' <= y[i] <= '9'
    ensures Less(TrimZeros(x) + "Z", TrimZeros(y) + "Z") <==> !ProperPrefix(TrimZeros(x), TrimZeros(y))
  {
    var tx, ty := TrimZeros(x), TrimZeros(y);
    TrimIsPrefix(x);
    TrimIsPrefix(y);
    var i := FirstDifference(x, y);
    assert i < |ty|;
    assert ty == y[..|ty|];
    if i < |tx| {
      var sx, sy := tx + "Z", ty + "Z";
      assert sx[..i] == x[..i] && sy[..i] == y[..i];
      DecidedAt(sx, sy, i);
      assert |tx| < |ty| ==> ty[..|tx|][i] == y[i];
    } else {
      assert tx == x[..i][..|tx|] && ty[..|tx|] == y[..i][..|tx|];
      var sx, sy := tx + "Z", ty + "Z";
      assert sx[..|tx|] == sy[..|tx|] && sy[|tx|] == y[|tx|] && sx[|tx|] == 'Z';
      DecidedAt(sy, sx, |tx|);
      Asymmetric(sx, sy);
    }
  }

  lemma {:induction false} Asymmetric(s: string, t: string)
    requires Less(t, s)
    ensures !Less(s, t)
  {
    if s != [] && t != [] && s[0] == t[0] {
      Asymmetric(s[1..], t[1..]);
    }
  }

  lemma DigitsOrder(m: nat, n: nat, width: nat)
    requires m < n < Pow10(width)
    ensures var x, y := "." + TrimZeros(Pad(m, width)), "." + TrimZeros(Pad(n, width));
            Less(x + "Z", y + "Z") <==> !ProperPrefix(x, y)
  {
    var tm, tn := TrimZeros(Pad(m, width)), TrimZeros(Pad(n, width));
    PadOrder(m, n, width);
    TrimmedOrder(Pad(m, width), Pad(n, width));
    assert ("." + tm) + "Z" == "." + (tm + "Z") && ("." + tn) + "Z" == "." + (tn + "Z");
    LessConcat(".", ".", tm + "Z", tn + "Z");
    Irreflexive(".");
    PrefixWithin(".", tm, tn);
  }

  lemma FractionOrder(m: nat, n: nat)
    requires m < n < 1_000_000_000
    ensures Less(Fraction(m) + "Z", Fraction(n) + "Z") <==> !ProperPrefix(Fraction(m), Fraction(n))
  {
    Widths();
    if m == 0 {
      assert (Fraction(n) + "Z")[0] == '.';
    } else {
      DigitsOrder(m, n, 9);
    }
  }

  lemma PrefixWithin(p: string, s: string, t: string)
    ensures ProperPrefix(p + s, p + t) <==> ProperPrefix(s, t)
  {
    if |s| < |t| {
      assert (p + t)[..|p + s|] == p + t[..|s|];
      if p + s == p + t[..|s|] {
        assert s == (p + s)[|p|..] && t[..|s|] == (p + t[..|s|])[|p|..];
      }
    }
  }

  /** Of two times, the earlier has the smaller text unless both are in one second and its fraction is a proper prefix of the other's. */
  lemma TextOrderIff(a: Stamp, b: Stamp)
    requires InRange(a) && InRange(b) && Earlier(a, b)
    ensures Less(Text(a), Text(b)) <==> !(SameSecond(a, b) && ProperPrefix(Fraction(a.nanos), Fraction(b.nanos)))
  {
    SecondsOrder(a, b);
    SecondsOrder(b, a);
    LessConcat(Seconds(a), Seconds(b), Fraction(a.nanos) + "Z", Fraction(b.nanos) + "Z");
    if SameSecond(a, b) {
      Irreflexive(Seconds(a));
      FractionOrder(a.nanos, b.nanos);
    }
  }

  /** A whole second has a greater text than the half second after it. */
  lemma TextOrderFails()
    ensures var a := Stamp(2024, 1, 2, 3, 4, 5, 0);
            Earlier(a, a.(nanos := 500_000_000)) && !Less(Text(a), Text(a.(nanos := 500_000_000)))
  {
    var a := Stamp(2024, 1, 2, 3, 4, 5, 0);
    TextOrderIff(a, a.(nanos := 500_000_000));
  }
}

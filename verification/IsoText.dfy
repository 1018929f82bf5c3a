/** ISO texts of UTC instants compared as text, the way the artifact store's bulk query does. */
module IsoText {
  import opened Calendar

  /** Text order: character by character, a proper prefix first. */
  predicate TextLess(a: string, b: string) {
    if a == [] || b == [] then a == [] && b != []
    else if a[0] != b[0] then a[0] < b[0]
    else TextLess(a[1..], b[1..])
  }

  /** The last `width` decimal digits of `n`. */
  function Digits(n: nat, width: nat): (text: string)
    ensures |text| == width
  {
    if width == 0 then "" else Digits(n / 10, width - 1) + [('0' as int + n % 10) as char]
  }

  function Pow10(width: nat): nat {
    if width == 0 then 1 else 10 * Pow10(width - 1)
  }

  /** `isoformat`: no fraction at a whole second, six digits otherwise, then the UTC offset. */
  function Iso(m: Moment): string
    requires ValidMoment(m) && m.offset == 0
  {
    DateText(m.date) + "T" + ClockText(m.clock / SECOND) + Fraction(m.clock % SECOND)
  }

  function DateText(d: Date): (text: string)
    requires ValidDate(d)
    ensures |text| == 10
  {
    Digits(d.year, 4) + "-" + Digits(d.month, 2) + "-" + Digits(d.day, 2)
  }

  function ClockText(seconds: nat): (text: string)
    ensures |text| == 8
  {
    Digits(seconds / 3600, 2) + ":" + Digits(seconds / 60 % 60, 2) + ":" + Digits(seconds % 60, 2)
  }

  function Fraction(micros: nat): string {
    (if micros == 0 then "" else "." + Digits(micros, 6)) + "+00:00"
  }

  // ----- comparing piece by piece

  lemma {:induction false} TextSplit(a: string, b: string, x: string, y: string)
    requires |a| == |b|
    ensures TextLess(a + x, b + y) <==> TextLess(a, b) || (a == b && TextLess(x, y))
    ensures a + x == b + y <==> a == b && x == y
    decreases |a|
  {
    if a == [] {
      assert a + x == x && b + y == y;
    } else {
      assert (a + x)[1..] == a[1..] + x && (b + y)[1..] == b[1..] + y;
      TextSplit(a[1..], b[1..], x, y);
      assert a == [a[0]] + a[1..] && b == [b[0]] + b[1..];
      assert a + x == [a[0]] + (a[1..] + x) && b + y == [b[0]] + (b[1..] + y);
    }
  }

  lemma {:induction false} NotBoth(a: string, b: string)
    ensures !(TextLess(a, b) && TextLess(b, a)) && !TextLess(a, a)
    ensures TextLess(a, b) || TextLess(b, a) || a == b
    decreases |a|
  {
    if a != [] && b != [] {
      NotBoth(a[1..], b[1..]);
      assert a == [a[0]] + a[1..] && b == [b[0]] + b[1..];
    }
    if a != [] {
      NotBoth(a[1..], a[1..]);
    }
  }

  /** Equal-width numbers compare as text the way they compare as numbers. */
  lemma {:induction false} DigitsOrder(n: nat, m: nat, width: nat)
    requires n < Pow10(width) && m < Pow10(width)
    ensures TextLess(Digits(n, width), Digits(m, width)) <==> n < m
    ensures Digits(n, width) == Digits(m, width) <==> n == m
    decreases width
  {
    if width > 0 {
      DigitsOrder(n / 10, m / 10, width - 1);
      var x, y := [('0' as int + n % 10) as char], [('0' as int + m % 10) as char];
      TextSplit(Digits(n / 10, width - 1), Digits(m / 10, width - 1), x, y);
      assert TextLess(x, y) <==> n % 10 < m % 10;
    }
  }

  lemma Widths()
    ensures Pow10(2) == 100 && Pow10(4) == 10_000 && Pow10(6) == 1_000_000
  {
    assert Pow10(1) == 10;
    assert Pow10(2) == 10 * Pow10(1);
    assert Pow10(3) == 10 * Pow10(2);
    assert Pow10(4) == 10 * Pow10(3);
    assert Pow10(5) == 10 * Pow10(4);
  }

  /** Two texts with the same separator in the middle. */
  lemma Around(a: string, b: string, separator: char, x: string, y: string)
    requires |a| == |b|
    ensures TextLess(a + [separator] + x, b + [separator] + y) <==> TextLess(a, b) || (a == b && TextLess(x, y))
    ensures a + [separator] + x == b + [separator] + y <==> a == b && x == y
  {
    assert a + [separator] + x == a + ([separator] + x) && b + [separator] + y == b + ([separator] + y);
    TextSplit(a, b, [separator] + x, [separator] + y);
    TextSplit([separator], [separator], x, y);
    NotBoth([separator], [separator]);
  }

  lemma DateOrder(a: Date, b: Date)
    requires ValidDate(a) && ValidDate(b)
    ensures TextLess(DateText(a), DateText(b)) <==> DateBefore(a, b)
    ensures DateText(a) == DateText(b) <==> a == b
  {
    hide Digits, TextLess, Pow10;
    Widths();
    DigitsOrder(a.year, b.year, 4);
    DigitsOrder(a.month, b.month, 2);
    DigitsOrder(a.day, b.day, 2);
    var ym, ym' := Digits(a.year, 4) + "-" + Digits(a.month, 2), Digits(b.year, 4) + "-" + Digits(b.month, 2);
    Around(Digits(a.year, 4), Digits(b.year, 4), '-', Digits(a.month, 2), Digits(b.month, 2));
    Around(ym, ym', '-', Digits(a.day, 2), Digits(b.day, 2));
  }

  lemma ClockOrder(s: nat, t: nat)
    requires s < 86_400 && t < 86_400
    ensures TextLess(ClockText(s), ClockText(t)) <==> s < t
    ensures ClockText(s) == ClockText(t) <==> s == t
  {
    hide Digits, TextLess, Pow10;
    Widths();
    DigitsOrder(s / 3600, t / 3600, 2);
    DigitsOrder(s / 60 % 60, t / 60 % 60, 2);
    DigitsOrder(s % 60, t % 60, 2);
    var hm, hm' := Digits(s / 3600, 2) + ":" + Digits(s / 60 % 60, 2), Digits(t / 3600, 2) + ":" + Digits(t / 60 % 60, 2);
    Around(Digits(s / 3600, 2), Digits(t / 3600, 2), ':', Digits(s / 60 % 60, 2), Digits(t / 60 % 60, 2));
    Around(hm, hm', ':', Digits(s % 60, 2), Digits(t % 60, 2));
    SexagesimalOrder(s, t);
  }

  /** Hours, minutes and seconds determine and order the second of the day. */
  lemma SexagesimalOrder(s: nat, t: nat)
    ensures s < t <==>
              s / 3600 < t / 3600
              || (s / 3600 == t / 3600 && (s / 60 % 60 < t / 60 % 60 || (s / 60 % 60 == t / 60 % 60 && s % 60 < t % 60)))
    ensures s == t <==> s / 3600 == t / 3600 && s / 60 % 60 == t / 60 % 60 && s % 60 == t % 60
  {
    Split(s);
    Split(t);
  }

  lemma Split(s: nat)
    ensures s == 3600 * (s / 3600) + 60 * (s / 60 % 60) + s % 60 && s / 60 % 60 < 60 && s % 60 < 60
  {
    assert s / 60 / 60 == s / 3600;
  }

  /** A missing fraction comes before every other: '+' precedes '.'. */
  lemma FractionOrder(m: nat, n: nat)
    requires m < SECOND && n < SECOND
    ensures TextLess(Fraction(m), Fraction(n)) <==> m < n
    ensures Fraction(m) == Fraction(n) <==> m == n
  {
    hide Digits, Pow10;
    Widths();
    NotBoth(Fraction(m), Fraction(m));
    if m != 0 && n != 0 {
      hide TextLess;
      DigitsOrder(m, n, 6);
      assert Fraction(m) == ['.'] + (Digits(m, 6) + "+00:00") && Fraction(n) == ['.'] + (Digits(n, 6) + "+00:00");
      TextSplit(['.'], ['.'], Digits(m, 6) + "+00:00", Digits(n, 6) + "+00:00");
      TextSplit(Digits(m, 6), Digits(n, 6), "+00:00", "+00:00");
      NotBoth(['.'], ['.']);
      NotBoth("+00:00", "+00:00");
    } else if m == 0 && n != 0 {
      assert Fraction(0)[0] == '+' && Fraction(n)[0] == '.';
    } else if n == 0 && m != 0 {
      assert Fraction(0)[0] == '+' && Fraction(m)[0] == '.';
    }
  }

  /** For all UTC instants the order of their ISO texts is the order of time. */
  lemma TextOrderIsTimeOrder(a: Moment, b: Moment)
    requires ValidMoment(a) && ValidMoment(b) && a.offset == 0 && b.offset == 0
    ensures TextLess(Iso(a), Iso(b)) <==> Instant(a) < Instant(b)
    ensures Iso(a) == Iso(b) <==> a == b
  {
    hide Digits, TextLess, DateText, ClockText, Fraction, DateBefore, Instant;
    var s, t := a.clock / SECOND, b.clock / SECOND;
    SecondsOfDay(a.clock);
    SecondsOfDay(b.clock);
    DateOrder(a.date, b.date);
    ClockOrder(s, t);
    FractionOrder(a.clock % SECOND, b.clock % SECOND);
    var x, y := ClockText(s) + Fraction(a.clock % SECOND), ClockText(t) + Fraction(b.clock % SECOND);
    TextSplit(ClockText(s), ClockText(t), Fraction(a.clock % SECOND), Fraction(b.clock % SECOND));
    assert Iso(a) == DateText(a.date) + "T" + x && Iso(b) == DateText(b.date) + "T" + y;
    Around(DateText(a.date), DateText(b.date), 'T', x, y);
    InstantOrder(a, b);
    ClockParts(a.clock, b.clock);
  }

  lemma SecondsOfDay(clock: int)
    requires 0 <= clock < DAY
    ensures 0 <= clock / SECOND < 86_400 && 0 <= clock % SECOND < SECOND
  {
  }

  lemma ClockParts(a: int, b: int)
    requires 0 <= a && 0 <= b
    ensures a < b <==> a / SECOND < b / SECOND || (a / SECOND == b / SECOND && a % SECOND < b % SECOND)
    ensures a == b <==> a / SECOND == b / SECOND && a % SECOND == b % SECOND
  {
  }

  /** The bulk query of `expire`, which compares texts, selects exactly the rows whose parsed expiry has come. */
  lemma BulkQuerySelectsExpired(expires: Moment, now: Moment)
    requires ValidMoment(expires) && ValidMoment(now) && expires.offset == 0 && now.offset == 0
    ensures (TextLess(Iso(expires), Iso(now)) || Iso(expires) == Iso(now)) <==> Instant(expires) <= Instant(now)
  {
    TextOrderIsTimeOrder(expires, now);
    TextOrderIsTimeOrder(now, expires);
    NotBoth(Iso(expires), Iso(now));
  }
}

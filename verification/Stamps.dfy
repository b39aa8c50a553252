/**
 The text timestamps of the database: `utcnow_iso` and `_plus_days` write `YYYY-MM-DDTHH:MM:SSZ`,
 SQLite's `datetime` writes `YYYY-MM-DD HH:MM:SS`, and all of them are compared as text.

 An instant is the number of seconds since the first day of year 1.
 */
module Stamps {
  import opened Basics

  datatype Date = Date(year: nat, month: nat, day: nat)

  const DAY := 86400

  predicate Leap(year: nat) {
    year % 4 == 0 && (year % 100 != 0 || year % 400 == 0)
  }

  function DaysIn(year: nat, month: nat): nat {
    if month == 2 then (if Leap(year) then 29 else 28)
    else if month in {4, 6, 9, 11} then 30 else 31
  }

  predicate IsDate(d: Date) {
    1 <= d.year && 1 <= d.month <= 12 && 1 <= d.day <= DaysIn(d.year, d.month)
  }

  function NextDay(d: Date): Date {
    if d.day < DaysIn(d.year, d.month) then d.(day := d.day + 1)
    else if d.month < 12 then Date(d.year, d.month + 1, 1)
    else Date(d.year + 1, 1, 1)
  }

  /** The proleptic Gregorian date of a day number, as `datetime.date` counts them from 0. */
  function DateOf(n: nat): (d: Date)
    ensures IsDate(d)
  {
    if n == 0 then Date(1, 1, 1) else NextDay(DateOf(n - 1))
  }

  /** The leap years before a year: each fourth, but of the centuries only each fourth. */
  function LeapYearsBefore(year: nat): int
    requires year >= 1
  {
    (year - 1) / 4 - (year - 1) / 100 + (year - 1) / 400
  }

  const DAYS_BEFORE_MONTH: seq<int> := [0, 31, 59, 90, 120, 151, 181, 212, 243, 273, 304, 334]

  /** The day number of a date, in closed form. */
  function DayNumber(d: Date): int
    requires d.year >= 1 && 1 <= d.month <= 12
  {
    365 * (d.year - 1) + LeapYearsBefore(d.year) + DAYS_BEFORE_MONTH[d.month - 1] + d.day - 1
    + if d.month > 2 then LeapYearsBefore(d.year + 1) - LeapYearsBefore(d.year) else 0
  }

  lemma LeapAdds(year: nat)
    requires year >= 1
    ensures LeapYearsBefore(year + 1) - LeapYearsBefore(year) == if Leap(year) then 1 else 0
  {
    Multiples(year, 4);
    Multiples(year, 100);
    Multiples(year, 400);
    Centuries(year);
    LeapSum(year / 4, year / 100, year / 400, (year - 1) / 4, (year - 1) / 100, (year - 1) / 400,
            year % 4 == 0, year % 100 == 0, year % 400 == 0);
  }

  lemma Centuries(year: nat)
    ensures year % 400 == 0 ==> year % 100 == 0
    ensures year % 100 == 0 ==> year % 4 == 0
  {
    if year % 400 == 0 {
      DivIs(year, 100, 4 * (year / 400), 0);
    }
    if year % 100 == 0 {
      DivIs(year, 4, 25 * (year / 100), 0);
    }
  }

  lemma LeapSum(a: int, b: int, c: int, a': int, b': int, c': int, fourth: bool, century: bool, leapCentury: bool)
    requires a == a' + (if fourth then 1 else 0) && b == b' + (if century then 1 else 0)
    requires c == c' + (if leapCentury then 1 else 0)
    requires (leapCentury ==> century) && (century ==> fourth)
    ensures (a - b + c) - (a' - b' + c') == if fourth && (!century || leapCentury) then 1 else 0
  {
  }

  lemma Multiples(year: nat, n: nat)
    requires year >= 1 && n > 0
    ensures year / n == (year - 1) / n + if year % n == 0 then 1 else 0
  {
    var q, r := (year - 1) / n, (year - 1) % n;
    assert year - 1 == n * q + r;
    if r + 1 == n {
      DivIs(year, n, q + 1, 0);
    } else {
      DivIs(year, n, q, r + 1);
    }
  }

  lemma DivIs(m: int, n: int, q: int, r: int)
    requires n > 0 && m == n * q + r && 0 <= r < n
    ensures m / n == q && m % n == r
  {
    var gap: int := m / n - q;
    var rest: int := m % n;
    assert m == n * (m / n) + rest;
    assert n * gap == r - rest;
    NoMultiple(n, gap);
  }

  lemma NoMultiple(n: int, gap: int)
    requires -n < n * gap < n
    ensures gap == 0
  {
  }

  lemma NextIsNext(d: Date)
    requires IsDate(d)
    ensures DayNumber(NextDay(d)) == DayNumber(d) + 1
  {
    LeapAdds(d.year);
    hide Leap, LeapYearsBefore;
  }

  /** The calendar is the Gregorian one: the date of a day has that day's number in closed form. */
  lemma {:induction false} DateHasNumber(n: nat)
    ensures DayNumber(DateOf(n)) == n
  {
    if n > 0 {
      DateHasNumber(n - 1);
      NextIsNext(DateOf(n - 1));
    }
  }

  predicate Before(a: Date, b: Date) {
    a.year < b.year
    || (a.year == b.year && (a.month < b.month || (a.month == b.month && a.day < b.day)))
  }

  lemma {:induction false} DatesGrow(m: nat, n: nat)
    requires m < n
    ensures Before(DateOf(m), DateOf(n))
  {
    if m + 1 < n {
      DatesGrow(m, n - 1);
    }
    assert Before(DateOf(n - 1), NextDay(DateOf(n - 1)));
  }

  // ---------------------------------------------------------------------------------------------
  // Text

  /** SQLite's binary collation. */
  predicate Less(s: string, t: string) {
    if t == "" then false
    else if s == "" then true
    else s[0] < t[0] || (s[0] == t[0] && Less(s[1..], t[1..]))
  }

  function Digit(d: nat): char
    requires d < 10
  {
    (('0' as int) + d) as char
  }

  /** Decimal digits, zero-padded to a width. */
  function Pad(n: nat, width: nat): (text: string)
    ensures |text| == width
  {
    if width == 0 then "" else Pad(n / 10, width - 1) + [Digit(n % 10)]
  }

  function Pow10(k: nat): nat {
    if k == 0 then 1 else 10 * Pow10(k - 1)
  }

  lemma {:induction false} LessConcat(a: string, b: string, x: string, y: string)
    requires |a| == |b|
    ensures Less(a + x, b + y) <==> Less(a, b) || (a == b && Less(x, y))
  {
    if a == "" {
      assert a + x == x && b + y == y;
    } else {
      assert (a + x)[1..] == a[1..] + x && (b + y)[1..] == b[1..] + y;
      LessConcat(a[1..], b[1..], x, y);
      assert a == [a[0]] + a[1..] && b == [b[0]] + b[1..];
    }
  }

  lemma {:induction false} LessIrreflexive(a: string)
    ensures !Less(a, a)
  {
    if a != "" {
      LessIrreflexive(a[1..]);
    }
  }

  /** It is the order of a dictionary: total, and a text comes before what it begins. */
  lemma {:induction false} LessIsTotal(a: string, b: string)
    ensures a == b || Less(a, b) || Less(b, a)
    ensures !(Less(a, b) && Less(b, a))
    ensures a < b ==> Less(a, b)
  {
    if a != "" && b != "" {
      LessIsTotal(a[1..], b[1..]);
      assert a == [a[0]] + a[1..] && b == [b[0]] + b[1..];
    }
  }

  lemma LessDigit(c: nat, d: nat)
    requires c < 10 && d < 10
    ensures Less([Digit(c)], [Digit(d)]) <==> c < d
    ensures [Digit(c)] == [Digit(d)] <==> c == d
  {
    assert [Digit(c)][1..] == "" && [Digit(d)][1..] == "";
    assert [Digit(c)][0] == Digit(c) && [Digit(d)][0] == Digit(d);
  }

  /** Padded numbers of one width compare as the numbers do. */
  lemma {:induction false} PadOrder(m: nat, n: nat, width: nat)
    requires m < Pow10(width) && n < Pow10(width)
    ensures Less(Pad(m, width), Pad(n, width)) <==> m < n
    ensures Pad(m, width) == Pad(n, width) <==> m == n
  {
    if width > 0 {
      var p := Pow10(width - 1);
      assert m / 10 < p && n / 10 < p;
      PadOrder(m / 10, n / 10, width - 1);
      LessConcat(Pad(m / 10, width - 1), Pad(n / 10, width - 1), [Digit(m % 10)], [Digit(n % 10)]);
      LessDigit(m % 10, n % 10);
      var a, b := Pad(m, width), Pad(n, width);
      assert a[..width - 1] == Pad(m / 10, width - 1) && a[width - 1..] == [Digit(m % 10)];
      assert b[..width - 1] == Pad(n / 10, width - 1) && b[width - 1..] == [Digit(n % 10)];
    }
  }

  lemma EqualConcat(a: string, b: string, x: string, y: string)
    requires |a| == |b|
    ensures a + x == b + y <==> a == b && x == y
  {
    if a + x == b + y {
      assert (a + x)[..|a|] == a && (b + y)[..|b|] == b;
      assert (a + x)[|a|..] == x && (b + y)[|b|..] == y;
    }
  }

  /** Texts of one length followed by the same separator compare by those texts first. */
  lemma SeparatedOrder(a: string, b: string, sep: string, x: string, y: string)
    requires |a| == |b|
    ensures Less(a + sep + x, b + sep + y) <==> Less(a, b) || (a == b && Less(x, y))
    ensures a + sep + x == b + sep + y <==> a == b && x == y
  {
    assert a + sep + x == a + (sep + x) && b + sep + y == b + (sep + y);
    LessConcat(a, b, sep + x, sep + y);
    LessConcat(sep, sep, x, y);
    LessIrreflexive(sep);
    EqualConcat(a, b, sep + x, sep + y);
    EqualConcat(sep, sep, x, y);
  }

  /** A padded field, a separator and a rest compare by the field first. */
  lemma FieldOrder(m: nat, n: nat, width: nat, sep: string, x: string, y: string)
    requires m < Pow10(width) && n < Pow10(width)
    ensures Less(Pad(m, width) + sep + x, Pad(n, width) + sep + y) <==> m < n || (m == n && Less(x, y))
    ensures Pad(m, width) + sep + x == Pad(n, width) + sep + y <==> m == n && x == y
  {
    PadOrder(m, n, width);
    SeparatedOrder(Pad(m, width), Pad(n, width), sep, x, y);
  }

  function DateText(d: Date): (text: string)
    ensures |text| == 10
  {
    Pad(d.year, 4) + "-" + (Pad(d.month, 2) + "-" + Pad(d.day, 2))
  }

  function TimeText(second: nat): (text: string)
    ensures |text| == 8
  {
    Pad(second / 3600, 2) + ":" + (Pad(second / 60 % 60, 2) + ":" + Pad(second % 60, 2))
  }

  lemma DateTextOrder(a: Date, b: Date)
    requires IsDate(a) && IsDate(b) && a.year <= 9999 && b.year <= 9999
    ensures Less(DateText(a), DateText(b)) <==> Before(a, b)
    ensures DateText(a) == DateText(b) <==> a == b
  {
    var x, y := Pad(a.month, 2) + "-" + Pad(a.day, 2), Pad(b.month, 2) + "-" + Pad(b.day, 2);
    assert Pow10(2) == 100 && Pow10(4) == 10000;
    PadOrder(a.day, b.day, 2);
    FieldOrder(a.month, b.month, 2, "-", Pad(a.day, 2), Pad(b.day, 2));
    FieldOrder(a.year, b.year, 4, "-", x, y);
  }

  lemma TimeTextOrder(a: nat, b: nat)
    requires a < DAY && b < DAY
    ensures Less(TimeText(a), TimeText(b)) <==> a < b
    ensures TimeText(a) == TimeText(b) <==> a == b
  {
    var am, bm := a / 60 % 60, b / 60 % 60;
    var x, y := Pad(am, 2) + ":" + Pad(a % 60, 2), Pad(bm, 2) + ":" + Pad(b % 60, 2);
    assert Pow10(2) == 100;
    PadOrder(a % 60, b % 60, 2);
    FieldOrder(am, bm, 2, ":", Pad(a % 60, 2), Pad(b % 60, 2));
    FieldOrder(a / 3600, b / 3600, 2, ":", x, y);
    ClockOrder(a, b);
  }

  /** Hours, then minutes, then seconds order the seconds of a day. */
  lemma ClockOrder(a: nat, b: nat)
    ensures a < b <==>
      a / 3600 < b / 3600
      || (a / 3600 == b / 3600
          && (a / 60 % 60 < b / 60 % 60 || (a / 60 % 60 == b / 60 % 60 && a % 60 < b % 60)))
    ensures a == b <==> a / 3600 == b / 3600 && a / 60 % 60 == b / 60 % 60 && a % 60 == b % 60
  {
    assert a / 60 == 60 * (a / 3600) + a / 60 % 60;
    assert b / 60 == 60 * (b / 3600) + b / 60 % 60;
    assert a == 60 * (a / 60) + a % 60 && b == 60 * (b / 60) + b % 60;
  }

  // ---------------------------------------------------------------------------------------------
  // Stamps

  /** What four digits of a year can hold, which is also all that `datetime` can. */
  predicate InRange(t: nat) {
    DateOf(t / DAY).year <= 9999
  }

  /** `utcnow_iso` of an instant. */
  function Stamp(t: nat): string {
    DateText(DateOf(t / DAY)) + "T" + (TimeText(t % DAY) + "Z")
  }

  /** SQLite's `datetime` of an instant. */
  function SqliteStamp(t: nat): string {
    DateText(DateOf(t / DAY)) + " " + TimeText(t % DAY)
  }

  /** Text order is time order, and distinct instants have distinct stamps. */
  lemma StampOrder(a: nat, b: nat)
    requires InRange(a) && InRange(b)
    ensures Less(Stamp(a), Stamp(b)) <==> a < b
    ensures Stamp(a) == Stamp(b) <==> a == b
  {
    var p, q := TimeText(a % DAY), TimeText(b % DAY);
    DateTextOrder(DateOf(a / DAY), DateOf(b / DAY));
    DaysCompare(a / DAY, b / DAY);
    TimeTextOrder(a % DAY, b % DAY);
    LessConcat(p, q, "Z", "Z");
    EqualConcat(p, q, "Z", "Z");
    LessIrreflexive("Z");
    SeparatedOrder(DateText(DateOf(a / DAY)), DateText(DateOf(b / DAY)), "T", p + "Z", q + "Z");
  }

  /** What a number of the stamp reads as. */
  function ValueOf(text: string): int {
    if text == "" then 0 else 10 * ValueOf(text[..|text| - 1]) + (text[|text| - 1] as int - '0' as int)
  }

  lemma {:induction false} PadReads(n: nat, width: nat)
    requires n < Pow10(width)
    ensures ValueOf(Pad(n, width)) == n
  {
    if width > 0 {
      assert n / 10 < Pow10(width - 1);
      PadReads(n / 10, width - 1);
      assert Pad(n, width)[..width - 1] == Pad(n / 10, width - 1);
    }
  }

  lemma DateReads(d: Date)
    requires IsDate(d) && d.year <= 9999
    ensures var s := DateText(d);
      && s[4] == s[7] == '-'
      && ValueOf(s[..4]) == d.year && ValueOf(s[5..7]) == d.month && ValueOf(s[8..]) == d.day
  {
    assert Pow10(2) == 100 && Pow10(4) == 10000;
    PadReads(d.year, 4);
    PadReads(d.month, 2);
    PadReads(d.day, 2);
    hide Pad, ValueOf;
    ThreeParts(Pad(d.year, 4), "-", Pad(d.month, 2), "-", Pad(d.day, 2));
  }

  lemma TimeReads(second: nat)
    requires second < DAY
    ensures var s := TimeText(second);
      && s[2] == s[5] == ':'
      && 3600 * ValueOf(s[..2]) + 60 * ValueOf(s[3..5]) + ValueOf(s[6..]) == second
      && ValueOf(s[..2]) < 24 && ValueOf(s[3..5]) < 60 && ValueOf(s[6..]) < 60
  {
    hide ValueOf, Pad;
    ClockIs(second);
    ClockReads(second / 3600, second / 60 % 60, second % 60);
  }

  lemma ClockIs(second: nat)
    requires second < DAY
    ensures second == 3600 * (second / 3600) + 60 * (second / 60 % 60) + second % 60
    ensures second / 3600 < 24
  {
  }

  lemma ClockReads(h: nat, m: nat, s: nat)
    requires h < 100 && m < 100 && s < 100
    ensures var text := Pad(h, 2) + ":" + (Pad(m, 2) + ":" + Pad(s, 2));
      && text[2] == text[5] == ':'
      && ValueOf(text[..2]) == h && ValueOf(text[3..5]) == m && ValueOf(text[6..]) == s
  {
    assert Pow10(2) == 100;
    PadReads(h, 2);
    PadReads(m, 2);
    PadReads(s, 2);
    hide Pad, ValueOf;
    ThreeParts(Pad(h, 2), ":", Pad(m, 2), ":", Pad(s, 2));
  }

  lemma ThreeParts(a: string, x: string, b: string, y: string, c: string)
    requires |b| == 2 && |x| == |y| == 1
    ensures var text, n := a + x + (b + y + c), |a|;
      && text[..n] == a && text[n] == x[0] && text[n + 1..n + 3] == b && text[n + 3] == y[0] && text[n + 4..] == c
  {
  }

  /** The stamp spells the date and the time of the instant, in the form of RFC 3339. */
  lemma StampReads(t: nat)
    requires InRange(t)
    ensures var s, d := Stamp(t), DateOf(t / DAY);
      && |s| == 20 && s[4] == s[7] == '-' && s[10] == 'T' && s[13] == s[16] == ':' && s[19] == 'Z'
      && ValueOf(s[..4]) == d.year && ValueOf(s[5..7]) == d.month && ValueOf(s[8..10]) == d.day
      && 3600 * ValueOf(s[11..13]) + 60 * ValueOf(s[14..16]) + ValueOf(s[17..19]) == t % DAY
      && ValueOf(s[11..13]) < 24 && ValueOf(s[14..16]) < 60 && ValueOf(s[17..19]) < 60
    ensures SqliteStamp(t) == Stamp(t)[..10] + " " + Stamp(t)[11..19]
  {
    DateReads(DateOf(t / DAY));
    TimeReads(t % DAY);
    hide ValueOf, DateOf, DateText, TimeText;
    var date, time, s := DateText(DateOf(t / DAY)), TimeText(t % DAY), Stamp(t);
    assert s[..10] == date && s[11..19] == time;
    assert s[..4] == date[..4] && s[5..7] == date[5..7] && s[8..10] == date[8..];
    assert s[11..13] == time[..2] && s[14..16] == time[3..5] && s[17..19] == time[6..];
  }

  lemma DaysCompare(m: nat, n: nat)
    ensures Before(DateOf(m), DateOf(n)) <==> m < n
    ensures DateOf(m) == DateOf(n) <==> m == n
  {
    if m < n {
      DatesGrow(m, n);
    } else if n < m {
      DatesGrow(n, m);
    }
  }

  /**
   A stamp compared with SQLite's spelling of a cutoff: the `T` sorts after the space, so the stamp
   is below the cutoff exactly when its calendar date is an earlier one.
   */
  lemma CutoffOrder(t: nat, cutoff: nat)
    requires InRange(t) && InRange(cutoff)
    ensures Less(Stamp(t), SqliteStamp(cutoff)) <==> t / DAY < cutoff / DAY
  {
    DateTextOrder(DateOf(t / DAY), DateOf(cutoff / DAY));
    DaysCompare(t / DAY, cutoff / DAY);
    SeparatorDecides(DateText(DateOf(t / DAY)), DateText(DateOf(cutoff / DAY)),
                     TimeText(t % DAY) + "Z", TimeText(cutoff % DAY));
  }

  lemma SeparatorDecides(a: string, b: string, x: string, y: string)
    requires |a| == |b|
    ensures Less(a + "T" + x, b + " " + y) <==> Less(a, b)
  {
    assert a + "T" + x == a + ("T" + x) && b + " " + y == b + (" " + y);
    LessConcat(a, b, "T" + x, " " + y);
    assert ("T" + x)[0] == 'T' && (" " + y)[0] == ' ';
  }

  /** Hence a row is never removed early, and at most a day late. */
  lemma NeverEarlyAtMostADayLate(t: nat, cutoff: nat)
    requires InRange(t) && InRange(cutoff)
    ensures Less(Stamp(t), SqliteStamp(cutoff)) ==> t < cutoff
    ensures t + DAY <= cutoff ==> Less(Stamp(t), SqliteStamp(cutoff))
  {
    CutoffOrder(t, cutoff);
  }

  /** `_plus_days` on an instant; `None` where `datetime` overflows. */
  function PlusDays(t: nat, days: int): Option<nat> {
    var moved := t + DAY * days;
    if moved >= 0 && InRange(moved) then Some(moved) else None
  }

  /** Shifting by days keeps the time of day and moves the text by exactly that many dates. */
  lemma PlusDaysText(t: nat, days: int)
    requires InRange(t) && PlusDays(t, days).Some?
    ensures var moved := PlusDays(t, days).value;
      && Stamp(moved)[10..] == Stamp(t)[10..]
      && moved / DAY == t / DAY + days
      && (Less(Stamp(t), Stamp(moved)) <==> days > 0)
  {
    var moved := PlusDays(t, days).value;
    assert moved % DAY == t % DAY && moved / DAY == t / DAY + days;
    StampOrder(t, moved);
  }
}

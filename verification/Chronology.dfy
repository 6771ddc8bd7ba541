/** Times as moments: comparing two times field by field is comparing the nanoseconds that have
 * passed since the year 0, and comparing their cursor texts byte by byte.
 */
module Chronology {
  import opened Decimal
  import opened Cursor
  import opened RoomUsers
  import Presence

  // Days of a year before a month of it.
  function DaysBeforeMonth(month: nat, year: nat): nat {
    if month <= 1 then 0 else DaysBeforeMonth(month - 1, year) + DaysIn(month - 1, year)
  }

  // Days before a year, since the year 0.
  function DaysBeforeYear(year: nat): nat {
    if year == 0 then 0 else DaysBeforeYear(year - 1) + DaysBeforeMonth(13, year - 1)
  }

  function Day(t: Stamp): int { DaysBeforeYear(t.year) + DaysBeforeMonth(t.month, t.year) + t.day - 1 }

  function SecondOfDay(t: Stamp): int { (t.hour * 60 + t.minute) * 60 + t.second }

  // Nanoseconds since the year 0 began.
  function Instant(t: Stamp): int { (Day(t) * 86_400 + SecondOfDay(t)) * 1_000_000_000 + t.nanos }

  /// Field by field

  lemma {:induction false} MonthsAddUp(early: nat, late: nat, year: nat)
    requires 1 <= early < late
    ensures DaysBeforeMonth(early, year) + DaysIn(early, year) <= DaysBeforeMonth(late, year)
  {
    if early == late - 1 {
    } else {
      MonthsAddUp(early, late - 1, year);
    }
  }

  lemma {:induction false} YearsAddUp(early: nat, late: nat)
    requires early < late
    ensures DaysBeforeYear(early) + DaysBeforeMonth(13, early) <= DaysBeforeYear(late)
  {
    if early == late - 1 {
    } else {
      YearsAddUp(early, late - 1);
    }
  }

  predicate EarlierDate(a: Stamp, b: Stamp) {
    a.year < b.year || (a.year == b.year && (a.month < b.month || (a.month == b.month && a.day < b.day)))
  }

  lemma DaysFollowDates(a: Stamp, b: Stamp)
    requires a.Valid() && b.Valid() && EarlierDate(a, b)
    ensures Day(a) < Day(b)
  {
    if a.year < b.year {
      YearsAddUp(a.year, b.year);
      MonthsAddUp(a.month, 13, a.year);
    } else if a.month < b.month {
      MonthsAddUp(a.month, b.month, a.year);
    }
  }

  lemma EarlierIsSooner(a: Stamp, b: Stamp)
    requires a.Valid() && b.Valid() && Earlier(a, b)
    ensures Instant(a) < Instant(b)
  {
    if EarlierDate(a, b) { DaysFollowDates(a, b); }
  }

  // Of two times the one is earlier whose moment comes sooner.
  lemma EarlierIffSooner(a: Stamp, b: Stamp)
    requires a.Valid() && b.Valid()
    ensures Earlier(a, b) <==> Instant(a) < Instant(b)
    ensures a == b <==> Instant(a) == Instant(b)
  {
    EarlierIsStrictOrder(a, b, a);
    if Earlier(a, b) { EarlierIsSooner(a, b); }
    if Earlier(b, a) { EarlierIsSooner(b, a); }
  }

  /// Byte by byte

  lemma {:induction false} DigitsInOrder(a: string, x: string, b: string, y: string)
    requires AllDigits(a) && AllDigits(b) && |a| == |b|
    ensures Presence.Below(a + x, b + y) <==> Value(a) < Value(b) || (Value(a) == Value(b) && Presence.Below(x, y))
    decreases |a|
  {
    if a == "" {
      assert a + x == x && b + y == y;
    } else {
      var n := |a| - 1;
      DigitsInOrder(a[..n], [a[n]] + x, b[..n], [b[n]] + y);
      assert a[..n] + ([a[n]] + x) == a + x && b[..n] + ([b[n]] + y) == b + y;
      assert ([a[n]] + x)[1..] == x && ([b[n]] + y)[1..] == y;
      assert DigitValue(a[n]) < DigitValue(b[n]) <==> a[n] < b[n];
    }
  }

  lemma FieldInOrder(m: nat, n: nat, width: nat, x: string, y: string)
    requires m < Pow10(width) && n < Pow10(width)
    ensures Presence.Below(Padded(m, width) + x, Padded(n, width) + y) <==> m < n || (m == n && Presence.Below(x, y))
  {
    DigitsInOrder(Padded(m, width), x, Padded(n, width), y);
  }

  lemma SameStart(c: char, x: string, y: string)
    ensures Presence.Below([c] + x, [c] + y) <==> Presence.Below(x, y)
  {
    assert ([c] + x)[1..] == x && ([c] + y)[1..] == y;
  }

  lemma DatesInOrder(a: Stamp, b: Stamp, x: string, y: string)
    requires a.Valid() && b.Valid()
    ensures Presence.Below(FormatDate(a, x), FormatDate(b, y)) <==>
            EarlierDate(a, b)
            || (a.year == b.year && a.month == b.month && a.day == b.day && Presence.Below(x, y))
  {
    assert Pow10(2) == 100 && Pow10(4) == 10_000;
    var dayA, dayB := Padded(a.day, 2) + x, Padded(b.day, 2) + y;
    var monthA, monthB := Padded(a.month, 2) + ("-" + dayA), Padded(b.month, 2) + ("-" + dayB);
    FieldInOrder(a.year, b.year, 4, "-" + monthA, "-" + monthB);
    SameStart('-', monthA, monthB);
    FieldInOrder(a.month, b.month, 2, "-" + dayA, "-" + dayB);
    SameStart('-', dayA, dayB);
    FieldInOrder(a.day, b.day, 2, x, y);
  }

  lemma ClocksInOrder(a: Stamp, b: Stamp, x: string, y: string)
    requires a.Valid() && b.Valid()
    ensures Presence.Below(FormatClock(a, x), FormatClock(b, y)) <==>
            SecondOfDay(a) < SecondOfDay(b) || (SecondOfDay(a) == SecondOfDay(b) && Presence.Below(x, y))
  {
    assert Pow10(2) == 100;
    var secondA, secondB := Padded(a.second, 2) + x, Padded(b.second, 2) + y;
    var minuteA, minuteB := Padded(a.minute, 2) + (":" + secondA), Padded(b.minute, 2) + (":" + secondB);
    FieldInOrder(a.hour, b.hour, 2, ":" + minuteA, ":" + minuteB);
    SameStart(':', minuteA, minuteB);
    FieldInOrder(a.minute, b.minute, 2, ":" + secondA, ":" + secondB);
    SameStart(':', secondA, secondB);
    FieldInOrder(a.second, b.second, 2, x, y);
  }

  // Cursor texts sort as the moments they stand for.
  lemma CursorsSortByTime(a: Stamp, b: Stamp)
    requires a.Valid() && b.Valid()
    ensures Presence.Below(FormatStamp(a), FormatStamp(b)) <==> Instant(a) < Instant(b)
  {
    assert Pow10(9) == 1_000_000_000;
    var nanosA, nanosB := Padded(a.nanos, 9) + "Z", Padded(b.nanos, 9) + "Z";
    var clockA, clockB := FormatClock(a, "." + nanosA), FormatClock(b, "." + nanosB);
    DatesInOrder(a, b, "T" + clockA, "T" + clockB);
    SameStart('T', clockA, clockB);
    ClocksInOrder(a, b, "." + nanosA, "." + nanosB);
    SameStart('.', nanosA, nanosB);
    FieldInOrder(a.nanos, b.nanos, 9, "Z", "Z");
    if EarlierDate(a, b) { DaysFollowDates(a, b); }
    if EarlierDate(b, a) { DaysFollowDates(b, a); }
  }
}

/** The keyset cursor `<time>_<id>` of list endpoints: how it is printed and how it is read back. */
module Cursor {
  import opened Wrappers
  import opened Decimal

  // A UTC time as its calendar fields.
  datatype Stamp = Stamp(year: nat, month: nat, day: nat, hour: nat, minute: nat, second: nat, nanos: nat)
  {
    predicate Valid() {
      && year <= 9999
      && 1 <= month <= 12
      && 1 <= day <= DaysIn(month, year)
      && hour < 24 && minute < 60 && second < 60
      && nanos < 1_000_000_000
    }
  }

  function DaysIn(month: nat, year: nat): nat {
    if month == 2 then
      if year % 4 == 0 && (year % 100 != 0 || year % 400 == 0) then 29 else 28
    else if month in {4, 6, 9, 11} then 30
    else 31
  }

  /// Printing

  function FormatStamp(t: Stamp): string
    requires t.Valid()
  {
    FormatDate(t, "T" + FormatClock(t, "." + (Padded(t.nanos, 9) + "Z")))
  }

  function FormatDate(t: Stamp, rest: string): string
    requires t.Valid()
  {
    Padded(t.year, 4) + ("-" + (Padded(t.month, 2) + ("-" + (Padded(t.day, 2) + rest))))
  }

  function FormatClock(t: Stamp, rest: string): string
    requires t.Valid()
  {
    Padded(t.hour, 2) + (":" + (Padded(t.minute, 2) + (":" + (Padded(t.second, 2) + rest))))
  }

  function EncodeCursor(t: Stamp, id: nat): string
    requires t.Valid()
  {
    FormatStamp(t) + "_" + Format(id)
  }

  /// Reading

  // The text before and after a field that has been read.
  datatype Read<+T> = Read(value: T, rest: string)

  function Skip(s: string, c: char): Option<string> {
    if s != "" && s[0] == c then Some(s[1..]) else None
  }

  // One or two digits; `fixed` insists on two.
  function TwoDigits(s: string, fixed: bool): Option<Read<nat>> {
    if |s| < 1 || !IsDigit(s[0]) then None
    else if |s| < 2 || !IsDigit(s[1]) then
      if fixed then None else Some(Read(DigitValue(s[0]), s[1..]))
    else Some(Read(10 * DigitValue(s[0]) + DigitValue(s[1]), s[2..]))
  }

  function InRange(r: Option<Read<nat>>, lo: nat, hi: nat): Option<Read<nat>> {
    if r.Some? && lo <= r.value.value < hi then r else None
  }

  function FourDigitYear(s: string): Option<Read<nat>> {
    if |s| >= 4 && AllDigits(s[..4]) then Some(Read(Value(s[..4]), s[4..])) else None
  }

  // The `time` package's own signed integer reader; it accepts a lone sign as zero.
  function Atoi(s: string): Option<int> {
    var signed := s != "" && s[0] in {'-', '+'};
    var digits := if signed then s[1..] else s;
    if !AllDigits(digits) then None
    else if signed && s[0] == '-' then Some(-(Value(digits) as int))
    else Some(Value(digits))
  }

  // A point or comma and nine more characters.
  function Fraction(s: string): Option<Read<nat>> {
    if |s| < 10 || s[0] !in {'.', ','} then None
    else
      var n :- Atoi(s[1..10]);
      if n < 0 then None else Some(Read(n as nat, s[10..]))
  }

  datatype Date = Date(year: nat, month: nat, day: nat)

  datatype Clock = Clock(hour: nat, minute: nat, second: nat)

  function ParseDate(s: string): Option<Read<Date>> {
    var year :- FourDigitYear(s);
    var s1 :- Skip(year.rest, '-');
    var month :- InRange(TwoDigits(s1, true), 1, 13);
    var s2 :- Skip(month.rest, '-');
    var day :- TwoDigits(s2, true);
    Some(Read(Date(year.value, month.value, day.value), day.rest))
  }

  function ParseClock(s: string): Option<Read<Clock>> {
    var hour :- InRange(TwoDigits(s, false), 0, 24);
    var s1 :- Skip(hour.rest, ':');
    var minute :- InRange(TwoDigits(s1, true), 0, 60);
    var s2 :- Skip(minute.rest, ':');
    var second :- InRange(TwoDigits(s2, true), 0, 60);
    Some(Read(Clock(hour.value, minute.value, second.value), second.rest))
  }

  // time.Parse with the cursor layout; the day is checked against its month last.
  function ParseStamp(s: string): Option<Stamp> {
    var date :- ParseDate(s);
    var s1 :- Skip(date.rest, 'T');
    var clock :- ParseClock(s1);
    var nanos :- Fraction(clock.rest);
    var end :- Skip(nanos.rest, 'Z');
    var d, c := date.value, clock.value;
    if end == "" && 1 <= d.day <= DaysIn(d.month, d.year)
    then Some(Stamp(d.year, d.month, d.day, c.hour, c.minute, c.second, nanos.value))
    else None
  }

  // strings.Split with a one-character separator
  function Split(s: string, sep: char): (parts: seq<string>)
    ensures parts != []
  {
    if s == "" then [""]
    else
      var tail := Split(s[1..], sep);
      if s[0] == sep then [""] + tail else [[s[0]] + tail[0]] + tail[1..]
  }

  datatype Position = Position(joinedAt: Stamp, id: nat)

  function Decode(cursor: string): Option<Position> {
    var parts := Split(cursor, '_');
    if |parts| != 2 then None
    else
      var joinedAt :- ParseStamp(parts[0]);
      var id :- ParseUint(parts[1]);
      Some(Position(joinedAt, id))
  }

  lemma {:induction false} ValueIsBounded(s: string)
    requires AllDigits(s)
    ensures Value(s) < Pow10(|s|)
  {
    if s == "" {
    } else {
      ValueIsBounded(s[..|s| - 1]);
    }
  }

  lemma YearIsBounded(s: string)
    ensures FourDigitYear(s).Some? ==> FourDigitYear(s).value.value <= 9999
  {
    if |s| >= 4 && AllDigits(s[..4]) {
      ValueIsBounded(s[..4]);
      assert Pow10(4) == 10_000;
    }
  }

  lemma FractionIsBounded(s: string)
    ensures Fraction(s).Some? ==> Fraction(s).value.value < 1_000_000_000
  {
    if |s| >= 10 {
      assert Pow10(9) == 1_000_000_000 && Pow10(8) == 100_000_000;
      var digits := s[1..10];
      if AllDigits(digits) { ValueIsBounded(digits); }
      if AllDigits(digits[1..]) { ValueIsBounded(digits[1..]); }
    }
  }

  // Whatever is read as a time is a time.
  lemma ParsedIsValid(s: string)
    ensures ParseStamp(s).Some? ==> ParseStamp(s).value.Valid()
  {
    YearIsBounded(s);
    var date := ParseDate(s);
    if date.Some? && Skip(date.value.rest, 'T').Some? {
      var clock := ParseClock(Skip(date.value.rest, 'T').value);
      if clock.Some? { FractionIsBounded(clock.value.rest); }
    }
  }

  lemma DecodedIsValid(cursor: string)
    ensures Decode(cursor).Some? ==> Decode(cursor).value.joinedAt.Valid()
  {
    ParsedIsValid(Split(cursor, '_')[0]);
  }

  /// The round trip

  lemma {:induction false} SplitWhole(s: string, sep: char)
    requires sep !in s
    ensures Split(s, sep) == [s]
  {
    if s == "" {
    } else {
      SplitWhole(s[1..], sep);
      assert [s[0]] + s[1..] == s;
    }
  }

  lemma {:induction false} SplitOnce(a: string, sep: char, b: string)
    requires sep !in a && sep !in b
    ensures Split(a + [sep] + b, sep) == [a, b]
  {
    var s := a + [sep] + b;
    if a == "" {
      assert s[1..] == b;
      SplitWhole(b, sep);
    } else {
      assert s[1..] == a[1..] + [sep] + b && s[0] == a[0];
      SplitOnce(a[1..], sep, b);
      assert [a[0]] + a[1..] == a;
    }
  }

  // No part of a text that has been split holds the separator.
  lemma {:induction false} PartsAreWhole(s: string, sep: char, i: nat)
    requires i < |Split(s, sep)|
    ensures sep !in Split(s, sep)[i]
  {
    if s == "" {
    } else if s[0] == sep {
      if i > 0 { PartsAreWhole(s[1..], sep, i - 1); }
    } else {
      PartsAreWhole(s[1..], sep, i);
    }
  }

  // The parts, if there are at most two, joined are the text.
  lemma {:induction false} PartsJoin(s: string, sep: char)
    ensures |Split(s, sep)| == 1 ==> s == Split(s, sep)[0]
    ensures |Split(s, sep)| == 2 ==> s == Split(s, sep)[0] + [sep] + Split(s, sep)[1]
  {
    if s == "" {
    } else {
      PartsJoin(s[1..], sep);
      var tail := Split(s[1..], sep);
      assert s == [s[0]] + s[1..];
      if s[0] == sep {
        assert Split(s, sep) == [""] + tail;
      } else if |tail| == 2 {
        assert Split(s, sep) == [[s[0]] + tail[0], tail[1]];
        assert [s[0]] + (tail[0] + [sep] + tail[1]) == [s[0]] + tail[0] + [sep] + tail[1];
      }
    }
  }

  // Which cursors are read, and as what: a time and a number on either side of the one separator.
  lemma DecodeIsExact(cursor: string, p: Position)
    ensures Decode(cursor) == Some(p) <==>
            exists time: string, id: string ::
              && cursor == time + ['_'] + id && '_' !in time && '_' !in id
              && ParseStamp(time) == Some(p.joinedAt) && ParseUint(id) == Some(p.id)
  {
    var parts := Split(cursor, '_');
    if Decode(cursor) == Some(p) {
      PartsAreWhole(cursor, '_', 0);
      PartsAreWhole(cursor, '_', 1);
      PartsJoin(cursor, '_');
      assert cursor == parts[0] + ['_'] + parts[1];
    }
    if time: string, id: string :| && cursor == time + ['_'] + id && '_' !in time && '_' !in id
                                   && ParseStamp(time) == Some(p.joinedAt) && ParseUint(id) == Some(p.id)
    {
      SplitOnce(time, '_', id);
    }
  }

  lemma TwoDigitsOfPadded(n: nat, rest: string, fixed: bool)
    requires n < 100
    ensures n < Pow10(2) && TwoDigits(Padded(n, 2) + rest, fixed) == Some(Read(n, rest))
  {
    var p := Padded(n, 2);
    assert Pow10(2) == 100 && Pow10(1) == 10;
    assert (p + rest)[2..] == rest;
    assert p[..1] == [p[0]] && [p[0]][..0] == "";
    assert Value([p[0]]) == DigitValue(p[0]);
  }

  lemma FractionOfPadded(n: nat, rest: string)
    requires n < 1_000_000_000
    ensures n < Pow10(9) && Fraction("." + (Padded(n, 9) + rest)) == Some(Read(n, rest))
  {
    assert Pow10(9) == 1_000_000_000;
    var p := Padded(n, 9);
    var s := "." + (p + rest);
    assert s[1..10] == p && s[10..] == rest;
    assert IsDigit(p[0]);
  }

  lemma YearOfPadded(n: nat, rest: string)
    requires n <= 9999
    ensures n < Pow10(4) && FourDigitYear(Padded(n, 4) + rest) == Some(Read(n, rest))
  {
    assert Pow10(4) == 10_000;
    var s := Padded(n, 4) + rest;
    assert s[..4] == Padded(n, 4) && s[4..] == rest;
  }

  lemma SkipFirst(c: char, rest: string)
    ensures Skip([c] + rest, c) == Some(rest)
  {
  }

  lemma DateRoundTrip(t: Stamp, rest: string)
    requires t.Valid()
    ensures ParseDate(FormatDate(t, rest)) == Some(Read(Date(t.year, t.month, t.day), rest))
  {
    var s2 := Padded(t.day, 2) + rest;
    var s1 := Padded(t.month, 2) + ("-" + s2);
    YearOfPadded(t.year, "-" + s1);
    SkipFirst('-', s1);
    TwoDigitsOfPadded(t.month, "-" + s2, true);
    SkipFirst('-', s2);
    TwoDigitsOfPadded(t.day, rest, true);
  }

  lemma ClockRoundTrip(t: Stamp, rest: string)
    requires t.Valid()
    ensures ParseClock(FormatClock(t, rest)) == Some(Read(Clock(t.hour, t.minute, t.second), rest))
  {
    var s2 := Padded(t.second, 2) + rest;
    var s1 := Padded(t.minute, 2) + (":" + s2);
    TwoDigitsOfPadded(t.hour, ":" + s1, false);
    SkipFirst(':', s1);
    TwoDigitsOfPadded(t.minute, ":" + s2, true);
    SkipFirst(':', s2);
    TwoDigitsOfPadded(t.second, rest, true);
  }

  lemma StampRoundTrip(t: Stamp)
    requires t.Valid()
    ensures ParseStamp(FormatStamp(t)) == Some(t)
  {
    var fraction := "." + (Padded(t.nanos, 9) + "Z");
    var clock := FormatClock(t, fraction);
    DateRoundTrip(t, "T" + clock);
    SkipFirst('T', clock);
    ClockRoundTrip(t, fraction);
    FractionOfPadded(t.nanos, "Z");
    SkipFirst('Z', "");
  }

  /// And back: what is read is what was written

  lemma {:induction false} PaddedOfValue(digits: string)
    requires AllDigits(digits)
    ensures Value(digits) < Pow10(|digits|) && Padded(Value(digits), |digits|) == digits
  {
    if digits == "" {
    } else {
      var n := |digits| - 1;
      PaddedOfValue(digits[..n]);
      assert digits == digits[..n] + [digits[n]];
      assert Value(digits) / 10 == Value(digits[..n]) && Value(digits) % 10 == DigitValue(digits[n]);
      assert Digit(DigitValue(digits[n])) == digits[n];
    }
  }

  lemma TwoDigitsAsWritten(s: string)
    requires |s| >= 2 && IsDigit(s[0]) && IsDigit(s[1])
    ensures var r := TwoDigits(s, true).value;
            && TwoDigits(s, true).Some? && TwoDigits(s, false) == TwoDigits(s, true)
            && r.value < Pow10(2) && s == Padded(r.value, 2) + r.rest
  {
    PaddedOfValue(s[..2]);
    assert s[..2][..1] == [s[0]] && [s[0]][..0] == "" && s == s[..2] + s[2..];
    assert Value([s[0]]) == DigitValue(s[0]);
  }

  predicate IsDate(s: string, date: Read<Date>) {
    && |s| >= 10 && date.rest == s[10..]
    && date.value.year < Pow10(4) && date.value.month < Pow10(2) && date.value.day < Pow10(2)
    && s == Padded(date.value.year, 4) + ("-" + (Padded(date.value.month, 2) + ("-" + (Padded(date.value.day, 2) +
            date.rest))))
  }

  lemma DateAsWritten(s: string, date: Read<Date>)
    requires ParseDate(s) == Some(date)
    ensures IsDate(s, date)
  {
    PaddedOfValue(s[..4]);
    assert s == s[..4] + s[4..] && s[4..] == "-" + s[5..];
    TwoDigitsAsWritten(s[5..]);
    assert s[5..][2..] == "-" + s[5..][3..];
    TwoDigitsAsWritten(s[5..][3..]);
  }

  predicate IsClock(s: string, clock: Read<Clock>) {
    && |s| >= 8 && clock.rest == s[8..]
    && clock.value.hour < Pow10(2) && clock.value.minute < Pow10(2) && clock.value.second < Pow10(2)
    && s == Padded(clock.value.hour, 2) + (":" + (Padded(clock.value.minute, 2) + (":" +
            (Padded(clock.value.second, 2) + clock.rest))))
  }

  // Only the hour may have one digit.
  lemma ClockAsWritten(s: string, clock: Read<Clock>)
    requires ParseClock(s) == Some(clock)
    ensures |s| == 7 + |clock.rest| || IsClock(s, clock)
  {
    var hour := TwoDigits(s, false).value;
    var s1 := hour.rest[1..];
    TwoDigitsAsWritten(s1);
    assert hour.rest == ":" + s1 && s1[2..] == ":" + s1[3..];
    TwoDigitsAsWritten(s1[3..]);
    if |s| == |hour.rest| + 2 { TwoDigitsAsWritten(s); }
  }

  lemma FractionAsWritten(s: string, nanos: Read<nat>)
    requires Fraction(s) == Some(nanos) && s[0] == '.' && AllDigits(s[1..10])
    ensures nanos.value < Pow10(9) && s == "." + (Padded(nanos.value, 9) + nanos.rest)
  {
    PaddedOfValue(s[1..10]);
    assert s == "." + (s[1..10] + s[10..]);
  }

  lemma PartsOfTime(s: string) returns (date: Read<Date>, clock: Read<Clock>, nanos: Read<nat>)
    requires ParseStamp(s).Some?
    ensures ParseDate(s) == Some(date) && date.rest != "" && date.rest[0] == 'T'
    ensures ParseClock(date.rest[1..]) == Some(clock) && Fraction(clock.rest) == Some(nanos)
    ensures nanos.rest == "Z" && |clock.rest| == 11
    ensures ParseStamp(s).value == Stamp(date.value.year, date.value.month, date.value.day, clock.value.hour,
                                         clock.value.minute, clock.value.second, nanos.value)
  {
    date := ParseDate(s).value;
    clock := ParseClock(date.rest[1..]).value;
    nanos := Fraction(clock.rest).value;
    assert nanos.rest == [nanos.rest[0]] + nanos.rest[1..];
  }

  // The parts put together again.
  lemma DateOfParts(s: string, t: Stamp, date: Read<Date>)
    requires t.Valid() && IsDate(s, date) && date.value == Date(t.year, t.month, t.day)
    ensures s == FormatDate(t, date.rest)
  {
  }

  lemma ClockOfParts(s: string, t: Stamp, clock: Read<Clock>)
    requires t.Valid() && IsClock(s, clock) && clock.value == Clock(t.hour, t.minute, t.second)
    ensures s == FormatClock(t, clock.rest)
  {
  }

  lemma TimeOfParts(s: string, t: Stamp, date: string, clock: string, nanos: string)
    requires t.Valid() && s == FormatDate(t, date) && date == "T" + FormatClock(t, clock)
    requires clock == "." + nanos && nanos == Padded(t.nanos, 9) + "Z"
    ensures s == FormatStamp(t)
  {
  }

  predicate IsFraction(s: string, nanos: Read<nat>) {
    && |s| == 11
    && (s[0] == '.' && AllDigits(s[1..10]) ==> nanos.value < Pow10(9) && s == "." + (Padded(nanos.value, 9) + "Z"))
  }

  function StampOf(date: Date, clock: Clock, nanos: nat): Stamp {
    Stamp(date.year, date.month, date.day, clock.hour, clock.minute, clock.second, nanos)
  }

  // What can be said of the text of a time that has been read.
  predicate IsTime(s: string, date: Read<Date>, clock: Read<Clock>, nanos: Read<nat>) {
    && IsDate(s, date) && date.rest != "" && date.rest[0] == 'T'
    && (|date.rest| == 8 + |clock.rest| || IsClock(date.rest[1..], clock))
    && IsFraction(clock.rest, nanos)
  }

  lemma TimeAsWritten(s: string) returns (date: Read<Date>, clock: Read<Clock>, nanos: Read<nat>)
    requires ParseStamp(s).Some?
    ensures IsTime(s, date, clock, nanos) && ParseStamp(s).value == StampOf(date.value, clock.value, nanos.value)
  {
    date, clock, nanos := PartsOfTime(s);
    DateAsWritten(s, date);
    ClockAsWritten(date.rest[1..], clock);
    if clock.rest[0] == '.' && AllDigits(clock.rest[1..10]) { FractionAsWritten(clock.rest, nanos); }
  }

  lemma Rewritten(s: string, t: Stamp, date: Read<Date>, clock: Read<Clock>, nanos: Read<nat>)
    requires IsTime(s, date, clock, nanos) && t == StampOf(date.value, clock.value, nanos.value) && t.Valid()
    requires |s| == 30 && s[19] == '.' && AllDigits(s[20..29])
    ensures s == FormatStamp(t)
  {
    assert IsClock(date.rest[1..], clock);
    EndsAlike(s, date.rest, clock.rest);
    DateOfParts(s, t, date);
    ClockOfParts(date.rest[1..], t, clock);
    assert date.rest == "T" + date.rest[1..];
    TimeOfParts(s, t, date.rest, clock.rest, Padded(t.nanos, 9) + "Z");
  }

  lemma EndsAlike(s: string, rest: string, tail: string)
    requires |s| == 30 && rest == s[10..] && |tail| == 11 && tail == rest[1..][8..]
    ensures tail[0] == s[19] && tail[1..10] == s[20..29]
  {
    assert tail == s[19..];
  }

  // A time in the layout's own form, with a two-digit hour and nine digits after a point, is read
  // only as the time it prints; nothing may follow it.
  lemma ReadAsWritten(s: string, t: Stamp)
    requires ParseStamp(s) == Some(t) && |s| == 30 && s[19] == '.' && AllDigits(s[20..29])
    ensures t.Valid() && s == FormatStamp(t)
  {
    ParsedIsValid(s);
    var date, clock, nanos := TimeAsWritten(s);
    Rewritten(s, t, date, clock, nanos);
  }

  lemma NoSeparatorInStamp(t: Stamp)
    requires t.Valid()
    ensures '_' !in FormatStamp(t)
  {
  }

  // Whatever position a page ends on, the next request starts from exactly that position.
  lemma CursorRoundTrip(t: Stamp, id: nat)
    requires t.Valid() && id < UINT64_LIMIT
    ensures Decode(EncodeCursor(t, id)) == Some(Position(t, id))
  {
    NoSeparatorInStamp(t);
    SplitOnce(FormatStamp(t), '_', Format(id));
    StampRoundTrip(t);
    ParseFormat(id);
  }
}

/**
 Shaping of the calendar view and the dashboard strip: the Monday-first month
 grid, the `YYYY-MM-DD` key of a calendar day, the five-slot treatment-day
 strip and the marker dots under a calendar day.
 */
module Calendar {

  import opened Wrappers
  import opened Digits
  import opened Entries

  /**
   Blank cells before day 1 in a Monday-first week, from `getDay()` of the
   first of the month (0 = Sunday). Moving one column right gives the next
   weekday, so column `offset` holds the weekday `(offset + 1) % 7`.
   */
  function StartOffset(firstDayIndex: nat): (offset: nat)
    requires firstDayIndex < 7
    ensures offset < 7
    ensures (offset + 1) % 7 == firstDayIndex
  {
    if firstDayIndex == 0 then 6 else firstDayIndex - 1
  }

  /**
   The cells of the month, as the two `push` loops build them: `None` for each
   leading blank, then the days 1..daysInMonth.
   */
  function MonthGrid(daysInMonth: nat, firstDayIndex: nat): (cells: seq<Option<nat>>)
    requires firstDayIndex < 7
    ensures |cells| == StartOffset(firstDayIndex) + daysInMonth
    ensures forall i :: 0 <= i < StartOffset(firstDayIndex) ==> cells[i] == None
    ensures forall i :: StartOffset(firstDayIndex) <= i < |cells| ==>
      cells[i] == Some(i - StartOffset(firstDayIndex) + 1)
  {
    seq(StartOffset(firstDayIndex), _ => None) + seq(daysInMonth, i => Some(i + 1))
  }

  /**
   Every day of the month appears in the grid once, in the column of its own
   weekday: the cell after `day - 1` further cells from the first of the month.
   */
  lemma DayFallsOnItsWeekday(daysInMonth: nat, firstDayIndex: nat, day: nat)
    requires firstDayIndex < 7 && 1 <= day <= daysInMonth
    ensures var g := MonthGrid(daysInMonth, firstDayIndex);
      var k := StartOffset(firstDayIndex) + day - 1;
      && k < |g| && g[k] == Some(day)
      && (forall j :: 0 <= j < |g| && g[j] == Some(day) ==> j == k)
      && (k % 7 + 1) % 7 == (firstDayIndex + day - 1) % 7
  {
    ColumnWeekday(StartOffset(firstDayIndex), firstDayIndex, day - 1);
  }

  /** Column `k % 7` holds weekday `(k % 7 + 1) % 7`, which steps with `k` from the first day's. */
  lemma ColumnWeekday(offset: nat, firstDayIndex: nat, n: nat)
    requires firstDayIndex < 7 && (offset + 1) % 7 == firstDayIndex
    ensures ((offset + n) % 7 + 1) % 7 == (firstDayIndex + n) % 7
  {
    var k := offset + n;
    var q, p := k / 7, (offset + 1) / 7;
    assert k == 7 * q + k % 7;
    assert offset + 1 == 7 * p + firstDayIndex;
    assert k % 7 + 1 == 7 * (p - q) + (firstDayIndex + n);
    ModShift(p - q, firstDayIndex + n);
  }

  lemma ModShift(q: int, r: int)
    ensures (7 * q + r) % 7 == r % 7
  {
  }

  /** `String(n).padStart(2, '0')`. */
  function TwoDigits(n: nat): string
  {
    PadStart(Decimal(n), 2, '0')
  }

  /**
   The `YYYY-MM-DD` key of a calendar day, from the year, the month index
   (0 = January) and the day. The key opens with the year's digits and a dash;
   `DateKeyReadsBack` (the value of each field), `DateKeyInjective` and
   `DateKeyIsIsoDate` state what the whole key keeps.
   */
  function DateKey(year: nat, monthIndex: nat, day: nat): (k: string)
    ensures |Decimal(year)| < |k| && k[..|Decimal(year)|] == Decimal(year) && k[|Decimal(year)|] == '-'
  {
    YearField(Decimal(year), TwoDigits(monthIndex + 1), TwoDigits(day));
    Decimal(year) + "-" + TwoDigits(monthIndex + 1) + "-" + TwoDigits(day)
  }

  lemma YearField(y: string, m: string, d: string)
    ensures (y + "-" + m + "-" + d)[..|y|] == y && (y + "-" + m + "-" + d)[|y|] == '-'
  {
    assert (y + "-" + m + "-" + d)[..|y|] == y;
  }

  lemma DashAfter(a: string, b: string)
    ensures (a + "-" + b)[|a|] == '-'
    ensures forall i :: 0 <= i < |a| ==> (a + "-" + b)[i] == a[i]
  {
  }

  /** A dash separates two digit strings in exactly one way. */
  lemma SplitAtDash(a: string, b: string, c: string, e: string)
    requires AllDigits(a) && AllDigits(c)
    requires a + "-" + b == c + "-" + e
    ensures a == c && b == e
  {
    var x := a + "-" + b;
    DashAfter(a, b);
    DashAfter(c, e);
    if |a| < |c| {
      assert false;
    } else if |c| < |a| {
      assert false;
    }
    assert a == x[..|a|];
    assert c == x[..|c|];
    assert b == x[|a| + 1..];
    assert e == x[|c| + 1..];
  }

  /** Three dash-separated digit fields are read back uniquely. */
  lemma SplitThreeFields(a: string, b: string, c: string, a': string, b': string, c': string)
    requires AllDigits(a) && AllDigits(b) && AllDigits(a') && AllDigits(b')
    requires a + "-" + b + "-" + c == a' + "-" + b' + "-" + c'
    ensures a == a' && b == b' && c == c'
  {
    assert a + "-" + b + "-" + c == a + "-" + (b + "-" + c);
    assert a' + "-" + b' + "-" + c' == a' + "-" + (b' + "-" + c');
    SplitAtDash(a, b + "-" + c, a', b' + "-" + c');
    SplitAtDash(b, c, b', c');
  }

  /** Different calendar days get different keys, so a key names one day. */
  lemma DateKeyInjective(y1: nat, m1: nat, d1: nat, y2: nat, m2: nat, d2: nat)
    ensures DateKey(y1, m1, d1) == DateKey(y2, m2, d2) ==> y1 == y2 && m1 == m2 && d1 == d2
  {
    if DateKey(y1, m1, d1) == DateKey(y2, m2, d2) {
      DateKeyFields(y1, m1, d1, y2, m2, d2);
    }
  }

  lemma DateKeyFields(y1: nat, m1: nat, d1: nat, y2: nat, m2: nat, d2: nat)
    requires DateKey(y1, m1, d1) == DateKey(y2, m2, d2)
    ensures y1 == y2 && m1 == m2 && d1 == d2
  {
    var a1, b1, c1 := Decimal(y1), TwoDigits(m1 + 1), TwoDigits(d1);
    var a2, b2, c2 := Decimal(y2), TwoDigits(m2 + 1), TwoDigits(d2);
    TwoDigitsValue(m1 + 1);
    TwoDigitsValue(m2 + 1);
    TwoDigitsValue(d1);
    TwoDigitsValue(d2);
    SplitThreeFields(a1, b1, c1, a2, b2, c2);
  }

  /** A two-digit rendering reads back as its number. */
  lemma TwoDigitsValue(n: nat)
    ensures AllDigits(TwoDigits(n)) && DigitsValue(TwoDigits(n)) == n
  {
    PaddedDecimalValue(n, 2);
  }

  /** A number below 100 is written as exactly two digits. */
  lemma TwoDigitsShape(n: nat)
    requires n < 100
    ensures |TwoDigits(n)| == 2 && AllDigits(TwoDigits(n)) && DigitsValue(TwoDigits(n)) == n
  {
    PaddedDecimalValue(n, 2);
    if n >= 10 {
      assert Pow10(1) == 10 && Pow10(2) == 100;
      DecimalLength(n, 1);
    }
  }

  /**
   For a four-digit year and a real day of the month the key has the shape of
   the date part of an ISO 8601 timestamp: ten characters, dashes at 4 and 7,
   digits elsewhere.
   */
  lemma DateKeyIsIsoDate(year: nat, monthIndex: nat, day: nat)
    requires 1000 <= year <= 9999 && monthIndex < 12 && 1 <= day <= 31
    ensures var k := DateKey(year, monthIndex, day);
      && |k| == 10 && k[4] == '-' && k[7] == '-'
      && forall i :: 0 <= i < 10 && i != 4 && i != 7 ==> IsDigit(k[i])
  {
    var y, m, d := Decimal(year), TwoDigits(monthIndex + 1), TwoDigits(day);
    assert Pow10(3) == 1000 && Pow10(4) == 10000;
    DecimalLength(year, 3);
    TwoDigitsShape(monthIndex + 1);
    TwoDigitsShape(day);
    FieldsShape(y, m, d);
  }

  /**
   For a four-digit year and a real month and day, the key's three fields read
   back as the year, the month number `monthIndex + 1` and the day.
   */
  lemma DateKeyReadsBack(year: nat, monthIndex: nat, day: nat)
    requires 1000 <= year <= 9999 && monthIndex < 12 && 1 <= day <= 31
    ensures var k := DateKey(year, monthIndex, day);
      && |k| == 10
      && AllDigits(k[..4]) && DigitsValue(k[..4]) == year
      && AllDigits(k[5..7]) && DigitsValue(k[5..7]) == monthIndex + 1
      && AllDigits(k[8..10]) && DigitsValue(k[8..10]) == day
  {
    var y, m, d := Decimal(year), TwoDigits(monthIndex + 1), TwoDigits(day);
    assert Pow10(3) == 1000 && Pow10(4) == 10000;
    DecimalLength(year, 3);
    TwoDigitsShape(monthIndex + 1);
    TwoDigitsShape(day);
    FieldValues(y, m, d, year, monthIndex + 1, day);
  }

  lemma FieldValues(y: string, m: string, d: string, a: nat, b: nat, c: nat)
    requires |y| == 4 && |m| == 2 && |d| == 2 && AllDigits(y) && AllDigits(m) && AllDigits(d)
    requires DigitsValue(y) == a && DigitsValue(m) == b && DigitsValue(d) == c
    ensures var k := y + "-" + m + "-" + d;
      && |k| == 10
      && AllDigits(k[..4]) && DigitsValue(k[..4]) == a
      && AllDigits(k[5..7]) && DigitsValue(k[5..7]) == b
      && AllDigits(k[8..10]) && DigitsValue(k[8..10]) == c
  {
    var k := y + "-" + m + "-" + d;
    assert k[..4] == y;
    assert k[5..7] == m;
    assert k[8..10] == d;
  }

  /** The first of March 2024 (month index 2) is keyed `2024-03-01`. */
  lemma FirstOfMarchKey()
    ensures DateKey(2024, 2, 1) == "2024-03-01"
  {
    Decimal2024();
    PadOneDigit(3);
    PadOneDigit(1);
  }

  lemma Decimal2024()
    ensures Decimal(2024) == "2024"
  {
    assert Decimal(2) == "2";
    assert Decimal(20) == Decimal(2) + "0";
    assert Decimal(202) == Decimal(20) + "2";
    assert Decimal(2024) == Decimal(202) + "4";
  }

  lemma PadOneDigit(n: nat)
    requires n < 10
    ensures TwoDigits(n) == ['0', DigitChar(n)]
  {
    assert Decimal(n) == [DigitChar(n)];
    assert seq(1, _ => '0') == ['0'];
  }

  lemma FieldsShape(y: string, m: string, d: string)
    requires |y| == 4 && |m| == 2 && |d| == 2 && AllDigits(y) && AllDigits(m) && AllDigits(d)
    ensures var k := y + "-" + m + "-" + d;
      && |k| == 10 && k[4] == '-' && k[7] == '-'
      && forall i :: 0 <= i < 10 && i != 4 && i != 7 ==> IsDigit(k[i])
  {
    var k := y + "-" + m + "-" + d;
    assert forall i :: 0 <= i < 4 ==> k[i] == y[i];
    assert forall i :: 5 <= i < 7 ==> k[i] == m[i - 5];
    assert forall i :: 8 <= i < 10 ==> k[i] == d[i - 8];
  }

  /** How a strip slot is drawn. */
  datatype SlotState = Past | Today | Future

  /** One slot of the dashboard strip: its treatment day, state and caption. */
  datatype Slot = Slot(day: int, state: SlotState, caption: string)

  /** The first day of the strip: two days before the current one, but never before day 1. */
  function StripStart(current: int): int
  {
    if current - 2 < 1 then 1 else current - 2
  }

  /** The slot of treatment day `dayNum`, drawn against the current day. */
  function StripSlot(dayNum: nat, current: int): (s: Slot)
    ensures s.day == dayNum
    ensures s.state == Past <==> dayNum < current
    ensures s.state == Today <==> dayNum == current
    ensures s.state == Future <==> dayNum > current
    ensures s.caption == "Hoje" <==> s.state == Today
    ensures s.state != Today ==> s.caption == "Dia " + Decimal(dayNum)
  {
    assert ("Dia " + Decimal(dayNum))[0] == 'D';
    if dayNum < current then Slot(dayNum, Past, "Dia " + Decimal(dayNum))
    else if dayNum == current then Slot(dayNum, Today, "Hoje")
    else Slot(dayNum, Future, "Dia " + Decimal(dayNum))
  }

  /**
   The five consecutive treatment days around the current one, each marked
   past, today or future, captioned `Hoje` for today and `Dia n` otherwise.
   */
  function DayStrip(current: int): (slots: seq<Slot>)
    ensures |slots| == 5
    ensures forall i :: 0 <= i < 5 ==> slots[i].day == StripStart(current) + i && slots[i].day >= 1
    ensures forall i :: 0 <= i < 5 ==> (slots[i].state == Past <==> slots[i].day < current)
    ensures forall i :: 0 <= i < 5 ==> (slots[i].state == Today <==> slots[i].day == current)
    ensures forall i :: 0 <= i < 5 ==> (slots[i].state == Future <==> slots[i].day > current)
    ensures forall i :: 0 <= i < 5 ==> (slots[i].caption == "Hoje" <==> slots[i].state == Today)
    ensures forall i :: 0 <= i < 5 && slots[i].state != Today ==> slots[i].caption == "Dia " + Decimal(slots[i].day)
    ensures current >= 1 ==> 0 <= current - StripStart(current) <= 2
    ensures current >= 1 ==> forall i :: 0 <= i < 5 ==>
      (i < current - StripStart(current) ==> slots[i].state == Past) &&
      (i == current - StripStart(current) <==> slots[i].state == Today) &&
      (i > current - StripStart(current) ==> slots[i].state == Future)
  {
    var startDay := StripStart(current);
    var slots := seq(5, i requires 0 <= i => StripSlot(startDay + i, current));
    assert forall i :: 0 <= i < 5 ==> slots[i] == StripSlot(startDay + i, current);
    slots
  }

  /** The three dots under a calendar day: treatment taken, pain above 4, bleeding. */
  datatype Markers = Markers(daily: bool, pain: bool, bleeding: bool)

  /**
   The dots as the calendar computes them from `hasLog?.daily`,
   `hasLog?.pain > 4` and `hasLog?.bleeding !== 'none'`; on a day without a
   log the last test compares `undefined` with `'none'`.
   */
  function DayMarkersAsWritten(log: Option<LogEntry>): (m: Markers)
    ensures m.daily <==> log.Some? && log.value.daily
    ensures m.pain <==> log.Some? && log.value.pain > 4
    ensures m.bleeding <==> log.None? || log.value.bleeding != NoBleeding
  {
    match log
    case None => Markers(false, false, true)
    case Some(e) => Markers(e.daily, e.pain > 4, e.bleeding != NoBleeding)
  }

  /** As written, every day without a log shows the bleeding dot. */
  lemma UnloggedDayShowsBleedingDot()
    ensures DayMarkersAsWritten(None).bleeding
  {
  }

  /** The dots as intended: each one needs a log, and the bleeding dot needs bleeding. */
  function DayMarkers(log: Option<LogEntry>): (m: Markers)
    ensures m.daily <==> log.Some? && log.value.daily
    ensures m.pain <==> log.Some? && log.value.pain > 4
    ensures m.bleeding <==> log.Some? && log.value.bleeding != NoBleeding
    ensures log.None? ==> !m.daily && !m.pain && !m.bleeding
  {
    match log
    case None => Markers(false, false, false)
    case Some(e) => Markers(e.daily, e.pain > 4, e.bleeding != NoBleeding)
  }

  /** The correction changes nothing on days that have a log. */
  lemma MarkersAgreeOnLoggedDays(e: LogEntry)
    ensures DayMarkers(Some(e)) == DayMarkersAsWritten(Some(e))
    ensures DayMarkers(None) != DayMarkersAsWritten(None)
  {
  }
}

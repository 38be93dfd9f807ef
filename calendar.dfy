// Calendar arithmetic the week strip and the year view rely on.
//
// A date is a whole day number (no time of day), so "same calendar day"
// and equality of dates are the same thing. Day numbers are counted so
// that day 0 is a Sunday; the weekday of a date is its number modulo 7
// (0 = Sunday, 1 = Monday, ..., 6 = Saturday).

module Optional {

  datatype Option<T> = None | Some(value: T)
}

module Calendar {
  import opened Optional

  /** A calendar date as a day number; day 0 is a Sunday. */
  type Date = int

  /** The weekday a week begins on (style.startWeekDay). */
  datatype WeekStart = Sunday | Monday

  /** The kind of calendar screen the week strip belongs to. */
  datatype CalendarType = DayType | WeekType | MonthType | YearType | ListType

  function Weekday(d: Date): (w: int)
    ensures 0 <= w < 7
  {
    d % 7
  }

  function FirstWeekday(start: WeekStart): (w: int)
    ensures 0 <= w < 7
  {
    match start
    case Sunday => 0
    case Monday => 1
  }

  /** The first day of the week holding d (kvkStartSundayOfWeek / kvkStartMondayOfWeek). */
  function StartOfWeek(d: Date, start: WeekStart): (r: Date)
    ensures r <= d < r + 7
    ensures Weekday(r) == FirstWeekday(start)
  {
    var back := (d - FirstWeekday(start)) % 7;
    assert d - FirstWeekday(start) == 7 * ((d - FirstWeekday(start)) / 7) + back;
    d - back
  }

  /** Two week starts on the same weekday that both cover one date are the same day. */
  lemma UniqueWeekStart(a: Date, b: Date, e: Date)
    requires Weekday(a) == Weekday(b)
    requires a <= e < a + 7 && b <= e < b + 7
    ensures a == b
  {
    assert a == 7 * (a / 7) + a % 7;
    assert b == 7 * (b / 7) + b % 7;
    assert -7 < 7 * (a / 7 - b / 7) < 7;
  }

  /** Every day of a week has the same start of week. */
  lemma {:induction false} SameWeekSameStart(d: Date, e: Date, start: WeekStart)
    requires StartOfWeek(d, start) <= e < StartOfWeek(d, start) + 7
    ensures StartOfWeek(e, start) == StartOfWeek(d, start)
  {
    UniqueWeekStart(StartOfWeek(e, start), StartOfWeek(d, start), e);
  }

  /** Moving a date by one week moves its start of week by one week. */
  lemma {:induction false} NextWeekStart(d: Date, start: WeekStart)
    ensures StartOfWeek(d + 7, start) == StartOfWeek(d, start) + 7
  {
    var s := StartOfWeek(d, start);
    assert Weekday(s + 7) == Weekday(s);
    UniqueWeekStart(StartOfWeek(d + 7, start), s + 7, d + 7);
  }

  /** Start of week is idempotent: the start of a week starts its own week. */
  lemma {:induction false} StartOfWeekIdempotent(d: Date, start: WeekStart)
    ensures StartOfWeek(StartOfWeek(d, start), start) == StartOfWeek(d, start)
  {
    SameWeekSameStart(d, StartOfWeek(d, start), start);
  }

  /**
   * The calendar collaborator the year view uses: the year, month and day
   * components of a date, and the date built from components, which the
   * calendar may refuse (None).
   */
  datatype CalendarOps = CalendarOps(
    year: Date -> int,
    month: Date -> int,
    day: Date -> int,
    dateFrom: (int, int, int) -> Option<Date>)

  /** A calendar whose built dates carry the components they were built from. */
  ghost predicate Lawful(cal: CalendarOps)
  {
    forall y, m, dd :: cal.dateFrom(y, m, dd).Some? ==>
      var x := cal.dateFrom(y, m, dd).value;
      cal.year(x) == y && cal.month(x) == m && cal.day(x) == dd
  }

  /** Lawful at one set of components. */
  lemma LawfulAt(cal: CalendarOps, y: int, m: int, dd: int)
    ensures Lawful(cal) && cal.dateFrom(y, m, dd).Some? ==>
              var x := cal.dateFrom(y, m, dd).value;
              cal.year(x) == y && cal.month(x) == m && cal.day(x) == dd
  {
  }
}

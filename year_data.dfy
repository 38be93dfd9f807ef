// The year screen's data (YearData): the calendar's months grouped into one
// section per year, the page geometry constants, and the date picked when
// the user selects a month.

module YearGrouping {
  import opened Optional
  import opened Calendar

  /** A month of the calendar's data, known by the date it starts on. */
  datatype Month = Month(date: Date)

  /** One year's section: the date of its first month and its months. */
  datatype YearSection = YearSection(date: Date, months: seq<Month>)

  /** The months of ms whose year is y, in input order. */
  function MonthsOfYear(ms: seq<Month>, y: int, year: Date -> int): seq<Month>
  {
    if ms == [] then []
    else
      var last := ms[|ms| - 1];
      MonthsOfYear(ms[..|ms| - 1], y, year) + (if year(last.date) == y then [last] else [])
  }

  /** The years of ms, each once, in order of first appearance. */
  function Years(ms: seq<Month>, year: Date -> int): seq<int>
  {
    if ms == [] then []
    else
      var ys := Years(ms[..|ms| - 1], year);
      var y := year(ms[|ms| - 1].date);
      if y in ys then ys else ys + [y]
  }

  /**
   * secs holds one section per year of ms, in order of first appearance;
   * each holds that year's months in input order and is dated by the first.
   */
  ghost predicate GroupedBy(secs: seq<YearSection>, ms: seq<Month>, year: Date -> int)
  {
    var ys := Years(ms, year);
    |secs| == |ys| &&
    forall j :: 0 <= j < |secs| ==>
      year(secs[j].date) == ys[j] &&
      secs[j].months == MonthsOfYear(ms, ys[j], year) &&
      secs[j].months != [] && secs[j].date == secs[j].months[0].date
  }

  /** The number of months across all sections. */
  function TotalMonths(secs: seq<YearSection>): nat
  {
    if secs == [] then 0 else TotalMonths(secs[..|secs| - 1]) + |secs[|secs| - 1].months|
  }

  /** The index of the first section of year y, or None when there is none. */
  function FindSection(secs: seq<YearSection>, y: int, year: Date -> int): (r: Option<nat>)
    ensures r.Some? ==> r.value < |secs| && year(secs[r.value].date) == y
    ensures r.Some? ==> forall j :: 0 <= j < r.value ==> year(secs[j].date) != y
    ensures r.None? <==> forall j :: 0 <= j < |secs| ==> year(secs[j].date) != y
  {
    if secs == [] then None
    else if year(secs[0].date) == y then Some(0)
    else
      match FindSection(secs[1..], y, year)
      case None => None
      case Some(i) => Some(i + 1)
  }

  // ---- Facts about Years and MonthsOfYear ----

  lemma {:induction false} YearsDistinct(ms: seq<Month>, year: Date -> int)
    ensures forall i, j :: 0 <= i < j < |Years(ms, year)| ==> Years(ms, year)[i] != Years(ms, year)[j]
  {
    if ms != [] {
      YearsDistinct(ms[..|ms| - 1], year);
    }
  }

  /** A year is listed exactly when some month has it. */
  lemma {:induction false} YearsListed(ms: seq<Month>, y: int, year: Date -> int)
    ensures y in Years(ms, year) <==> exists k :: 0 <= k < |ms| && year(ms[k].date) == y
  {
    if ms != [] {
      var prefix := ms[..|ms| - 1];
      YearsListed(prefix, y, year);
      if exists k :: 0 <= k < |prefix| && year(prefix[k].date) == y {
        var k :| 0 <= k < |prefix| && year(prefix[k].date) == y;
        assert ms[k] == prefix[k];
      }
      if exists k :: 0 <= k < |ms| && year(ms[k].date) == y {
        var k :| 0 <= k < |ms| && year(ms[k].date) == y;
        if k < |prefix| {
          assert prefix[k] == ms[k];
        }
      }
    }
  }

  /** The years of a prefix of the months are a prefix of the years. */
  lemma {:induction false} YearsOfPrefix(ms: seq<Month>, p: nat, year: Date -> int)
    requires p <= |ms|
    ensures Years(ms[..p], year) <= Years(ms, year)
    decreases |ms|
  {
    if p < |ms| {
      var prefix := ms[..|ms| - 1];
      assert prefix[..p] == ms[..p];
      YearsOfPrefix(prefix, p, year);
    } else {
      assert ms[..p] == ms;
    }
  }

  lemma {:induction false} MonthsOfAbsentYear(ms: seq<Month>, y: int, year: Date -> int)
    requires y !in Years(ms, year)
    ensures MonthsOfYear(ms, y, year) == []
  {
    if ms != [] {
      MonthsOfAbsentYear(ms[..|ms| - 1], y, year);
    }
  }

  lemma {:induction false} MonthsOfYearHaveIt(ms: seq<Month>, y: int, year: Date -> int)
    ensures forall m :: m in MonthsOfYear(ms, y, year) ==> m in ms && year(m.date) == y
  {
    if ms != [] {
      MonthsOfYearHaveIt(ms[..|ms| - 1], y, year);
    }
  }

  /** Every month is among the months of its own year. */
  lemma {:induction false} MonthInItsYear(ms: seq<Month>, k: nat, year: Date -> int)
    requires k < |ms|
    ensures ms[k] in MonthsOfYear(ms, year(ms[k].date), year)
  {
    var prefix := ms[..|ms| - 1];
    if k < |prefix| {
      MonthInItsYear(prefix, k, year);
      assert prefix[k] == ms[k];
    }
  }

  /**
   * A listed year's months are not empty and start with the first month
   * of ms that has that year.
   */
  lemma {:induction false} FirstMonthOfYear(ms: seq<Month>, y: int, year: Date -> int)
    requires y in Years(ms, year)
    ensures MonthsOfYear(ms, y, year) != []
    ensures exists k :: 0 <= k < |ms| && MonthsOfYear(ms, y, year)[0] == ms[k] &&
                        year(ms[k].date) == y &&
                        forall p :: 0 <= p < k ==> year(ms[p].date) != y
  {
    var prefix := ms[..|ms| - 1];
    if y in Years(prefix, year) {
      FirstMonthOfYear(prefix, y, year);
      var k :| 0 <= k < |prefix| && MonthsOfYear(prefix, y, year)[0] == prefix[k] &&
               year(prefix[k].date) == y &&
               forall p :: 0 <= p < k ==> year(prefix[p].date) != y;
      assert ms[k] == prefix[k];
      assert forall p :: 0 <= p < k ==> ms[p] == prefix[p];
    } else {
      MonthsOfAbsentYear(prefix, y, year);
      YearsListed(prefix, y, year);
      var k := |ms| - 1;
      assert forall p :: 0 <= p < k ==> ms[p] == prefix[p];
    }
  }

  /**
   * Sections come in order of their year's first appearance: before the
   * first month of a later section there is a month of every earlier one.
   */
  lemma YearsInFirstAppearanceOrder(ms: seq<Month>, i: nat, j: nat, k: nat, year: Date -> int)
    requires i < j < |Years(ms, year)|
    requires k < |ms| && year(ms[k].date) == Years(ms, year)[j]
    ensures exists p :: 0 <= p < k && year(ms[p].date) == Years(ms, year)[i]
  {
    var ys := Years(ms, year);
    var upTo := ms[..k + 1];
    YearsOfPrefix(ms, k + 1, year);
    YearsListed(upTo, ys[j], year);
    assert upTo[k] == ms[k];
    var seen := Years(upTo, year);
    var jj :| 0 <= jj < |seen| && seen[jj] == ys[j];
    assert ys[jj] == ys[j];
    YearsDistinct(ms, year);
    assert jj == j;
    assert seen[i] == ys[i];
    YearsListed(upTo, ys[i], year);
    var p :| 0 <= p < |upTo| && year(upTo[p].date) == ys[i];
    assert upTo[p] == ms[p];
  }

  // ---- Counting ----

  /** How often y occurs in ys. */
  function Count(ys: seq<int>, y: int): nat
  {
    if ys == [] then 0 else Count(ys[..|ys| - 1], y) + (if ys[|ys| - 1] == y then 1 else 0)
  }

  /** The number of months of ms over the years ys. */
  function MonthsOver(ms: seq<Month>, ys: seq<int>, year: Date -> int): nat
  {
    if ys == [] then 0
    else MonthsOver(ms, ys[..|ys| - 1], year) + |MonthsOfYear(ms, ys[|ys| - 1], year)|
  }

  lemma {:induction false} CountDistinct(ys: seq<int>, y: int)
    requires forall i, j :: 0 <= i < j < |ys| ==> ys[i] != ys[j]
    ensures Count(ys, y) == if y in ys then 1 else 0
  {
    if ys != [] {
      var prefix := ys[..|ys| - 1];
      CountDistinct(prefix, y);
      assert ys == prefix + [ys[|ys| - 1]];
    }
  }

  lemma {:induction false} MonthsOverAppend(ms: seq<Month>, m: Month, ys: seq<int>, year: Date -> int)
    ensures MonthsOver(ms + [m], ys, year) == MonthsOver(ms, ys, year) + Count(ys, year(m.date))
  {
    assert (ms + [m])[..|ms|] == ms;
    if ys != [] {
      MonthsOverAppend(ms, m, ys[..|ys| - 1], year);
    }
  }

  /** Over its own years, every month of ms is counted exactly once. */
  lemma {:induction false} AllMonthsCounted(ms: seq<Month>, year: Date -> int)
    ensures MonthsOver(ms, Years(ms, year), year) == |ms|
  {
    if ms != [] {
      var prefix := ms[..|ms| - 1];
      var m := ms[|ms| - 1];
      var y := year(m.date);
      assert ms == prefix + [m];
      AllMonthsCounted(prefix, year);
      MonthsOverAppend(prefix, m, Years(prefix, year), year);
      YearsDistinct(prefix, year);
      CountDistinct(Years(prefix, year), y);
      if y !in Years(prefix, year) {
        MonthsOfAbsentYear(prefix, y, year);
        assert Years(ms, year)[..|Years(ms, year)| - 1] == Years(prefix, year);
      }
    }
  }

  lemma {:induction false} TotalOfSections(secs: seq<YearSection>, ms: seq<Month>, ys: seq<int>, year: Date -> int)
    requires |secs| == |ys|
    requires forall j :: 0 <= j < |secs| ==> secs[j].months == MonthsOfYear(ms, ys[j], year)
    ensures TotalMonths(secs) == MonthsOver(ms, ys, year)
  {
    if secs != [] {
      TotalOfSections(secs[..|secs| - 1], ms, ys[..|ys| - 1], year);
    }
  }

  // ---- The grouping fold ----

  /** A month found a section of its year: it joins that section. */
  lemma JoinSection(secs: seq<YearSection>, prefix: seq<Month>, m: Month, j: nat, year: Date -> int)
    requires GroupedBy(secs, prefix, year)
    requires j < |secs| && year(secs[j].date) == year(m.date)
    ensures GroupedBy(secs[j := secs[j].(months := secs[j].months + [m])], prefix + [m], year)
  {
    assert (prefix + [m])[..|prefix|] == prefix;
    YearsDistinct(prefix, year);
  }

  /** A month of a year without a section: it opens one. */
  lemma OpenSection(secs: seq<YearSection>, prefix: seq<Month>, m: Month, year: Date -> int)
    requires GroupedBy(secs, prefix, year)
    requires forall j :: 0 <= j < |secs| ==> year(secs[j].date) != year(m.date)
    ensures GroupedBy(secs + [YearSection(m.date, [m])], prefix + [m], year)
  {
    assert (prefix + [m])[..|prefix|] == prefix;
    assert year(m.date) !in Years(prefix, year);
    MonthsOfAbsentYear(prefix, year(m.date), year);
  }

  /**
   * YearData.init's reduce: each month joins the section of its year, or
   * opens a new section dated by it when no section has that year.
   */
  method GroupByYear(months: seq<Month>, year: Date -> int) returns (sections: seq<YearSection>)
    ensures GroupedBy(sections, months, year)
    ensures forall i, j :: 0 <= i < j < |sections| ==> year(sections[i].date) != year(sections[j].date)
    ensures TotalMonths(sections) == |months|
  {
    sections := [];
    var i := 0;
    while i < |months|
      invariant 0 <= i <= |months|
      invariant GroupedBy(sections, months[..i], year)
    {
      var m := months[i];
      assert months[..i + 1] == months[..i] + [m];
      var idx := FindSection(sections, year(m.date), year);
      match idx {
        case Some(j) =>
          JoinSection(sections, months[..i], m, j, year);
          sections := sections[j := sections[j].(months := sections[j].months + [m])];
        case None =>
          OpenSection(sections, months[..i], m, year);
          sections := sections + [YearSection(m.date, [m])];
      }
      i := i + 1;
    }
    assert months[..i] == months;
    YearsDistinct(months, year);
    TotalOfSections(sections, months, Years(months, year), year);
    AllMonthsCounted(months, year);
  }

  /** In a grouping, every month sits in the section of its own year. */
  lemma {:induction false} GroupedMonthPlaced(secs: seq<YearSection>, ms: seq<Month>, k: nat, year: Date -> int)
    requires GroupedBy(secs, ms, year)
    requires k < |ms|
    ensures exists j :: 0 <= j < |secs| && year(secs[j].date) == year(ms[k].date) && ms[k] in secs[j].months
  {
    var ys := Years(ms, year);
    YearsListed(ms, year(ms[k].date), year);
    MonthInItsYear(ms, k, year);
    var j :| 0 <= j < |ys| && ys[j] == year(ms[k].date);
    assert ms[k] in secs[j].months;
  }

  /**
   * In a grouping, a section holds only input months of its year, and is
   * dated by the first input month of that year.
   */
  lemma {:induction false} GroupedSectionDated(secs: seq<YearSection>, ms: seq<Month>, j: nat, year: Date -> int)
    requires GroupedBy(secs, ms, year)
    requires j < |secs|
    ensures forall m :: m in secs[j].months ==> m in ms && year(m.date) == year(secs[j].date)
    ensures exists k :: 0 <= k < |ms| && secs[j].date == ms[k].date &&
                        year(ms[k].date) == year(secs[j].date) &&
                        forall p :: 0 <= p < k ==> year(ms[p].date) != year(secs[j].date)
  {
    var ys := Years(ms, year);
    MonthsOfYearHaveIt(ms, ys[j], year);
    FirstMonthOfYear(ms, ys[j], year);
  }

  /**
   * The date picked when a month is selected: the given date's year and
   * month with the previous date's day, or the given date itself when the
   * calendar cannot build that date.
   */
  function SelectedDate(cal: CalendarOps, previous: Date, d: Date): (r: Date)
    ensures cal.dateFrom(cal.year(d), cal.month(d), cal.day(previous)).None? ==> r == d
    ensures cal.dateFrom(cal.year(d), cal.month(d), cal.day(previous)).Some? ==>
              cal.dateFrom(cal.year(d), cal.month(d), cal.day(previous)) == Some(r)
    ensures Lawful(cal) && cal.dateFrom(cal.year(d), cal.month(d), cal.day(previous)).Some? ==>
              cal.year(r) == cal.year(d) && cal.month(r) == cal.month(d) && cal.day(r) == cal.day(previous)
  {
    LawfulAt(cal, cal.year(d), cal.month(d), cal.day(previous));
    match cal.dateFrom(cal.year(d), cal.month(d), cal.day(previous))
    case Some(built) => built
    case None => d
  }

  /** Selecting twice with the same previous date is the same as selecting once. */
  lemma SelectedDateIdempotent(cal: CalendarOps, previous: Date, d: Date)
    requires Lawful(cal)
    ensures var r := SelectedDate(cal, previous, d);
            SelectedDate(cal, previous, r) == r
  {
  }

  class YearData {
    var date: Date
    var sections: seq<YearSection>
    const calendar: CalendarOps    // style.calendar
    const rowsInPage: int := 3
    const columnsInPage: int := 4

    constructor (months: seq<Month>, date: Date, calendar: CalendarOps)
      ensures this.date == date && this.calendar == calendar
      ensures GroupedBy(sections, months, calendar.year)
      ensures TotalMonths(sections) == |months|
    {
      var grouped := GroupByYear(months, calendar.year);
      this.date := date;
      this.calendar := calendar;
      sections := grouped;
    }

    /** Months shown on one page of the year screen. */
    function ItemsInPage(): (r: int)
      ensures r == rowsInPage * columnsInPage && r == 12
    {
      columnsInPage * rowsInPage
    }

    /** The middle position of a page. */
    function MiddleRowInPage(): (r: int)
      ensures 2 * r == ItemsInPage() && r == 6
    {
      (rowsInPage * columnsInPage) / 2
    }

    /** handleSelectedDate: keeps the day of the current date, takes d's year and month. */
    method HandleSelectedDate(d: Date)
      modifies this`date
      ensures date == SelectedDate(calendar, old(date), d)
    {
      date := SelectedDate(calendar, date, d);
    }
  }
}

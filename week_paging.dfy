// The grid of week pages and the pure lookups over it: which page holds a
// date (getIdxByDate, getDatesByDate), how many days one page advances
// (maxDays / isFullyWeek) and the date a page is anchored to
// (getScrollDate).

module WeekPaging {
  import opened Optional
  import opened Calendar

  /** One cell of a page; padding cells have no date. */
  datatype Day = Day(date: Option<Date>)

  /** Some cell of the week carries the date d. */
  predicate HoldsDate(week: seq<Day>, d: Date)
  {
    exists k :: 0 <= k < |week| && week[k].date == Some(d)
  }

  /** The index of the first week holding d, or None when no week holds it. */
  function IdxByDate(weeks: seq<seq<Day>>, d: Date): (r: Option<nat>)
    ensures r.Some? ==> r.value < |weeks| && HoldsDate(weeks[r.value], d)
    ensures r.Some? ==> forall j :: 0 <= j < r.value ==> !HoldsDate(weeks[j], d)
    ensures r.None? <==> forall j :: 0 <= j < |weeks| ==> !HoldsDate(weeks[j], d)
  {
    if weeks == [] then None
    else if HoldsDate(weeks[0], d) then Some(0)
    else
      match IdxByDate(weeks[1..], d)
      case None => None
      case Some(i) => Some(i + 1)
  }

  /** The first week holding d, or the empty sequence when no week holds it. */
  function DatesByDate(weeks: seq<seq<Day>>, d: Date): (r: seq<Day>)
    ensures r == [] <==> forall j :: 0 <= j < |weeks| ==> !HoldsDate(weeks[j], d)
    ensures r != [] ==> HoldsDate(r, d)
    ensures r != [] ==> exists i :: 0 <= i < |weeks| && weeks[i] == r &&
                          forall j :: 0 <= j < i ==> !HoldsDate(weeks[j], d)
  {
    match IdxByDate(weeks, d)
    case None => []
    case Some(i) => weeks[i]
  }

  /** No date sits in two different weeks of the grid. */
  ghost predicate DisjointWeeks(weeks: seq<seq<Day>>)
  {
    forall i, j, d :: 0 <= i < j < |weeks| && HoldsDate(weeks[i], d) ==> !HoldsDate(weeks[j], d)
  }

  /** In a grid without overlapping weeks, the week holding d is the one found. */
  lemma IdxOfHeldDate(weeks: seq<seq<Day>>, i: nat, d: Date)
    requires DisjointWeeks(weeks)
    requires i < |weeks| && HoldsDate(weeks[i], d)
    ensures IdxByDate(weeks, d) == Some(i)
  {
    var r := IdxByDate(weeks, d);
    if r.value < i {
      assert HoldsDate(weeks[r.value], d);
    }
  }

  /**
   * Days one page spans in ScrollableWeekView: only the week screen takes
   * the style's width; every other screen pages by a whole week.
   */
  function MaxDays(kind: CalendarType, weekMaxDays: int): (r: int)
    ensures kind == WeekType ==> r == weekMaxDays
    ensures kind != WeekType ==> r == 7
  {
    match kind
    case WeekType => weekMaxDays
    case _ => 7
  }

  /** Whether ScrollableWeekView's pages are whole calendar weeks: exactly when a page spans 7 days. */
  predicate IsFullyWeek(kind: CalendarType, weekMaxDays: int): (r: bool)
    ensures r <==> MaxDays(kind, weekMaxDays) == 7
  {
    match kind
    case WeekType => weekMaxDays == 7
    case _ => true
  }

  /**
   * The date a page is anchored to (getScrollDate): the start of the week
   * when pages are whole weeks, the date itself otherwise.
   */
  function ScrollDate(fullWeek: bool, start: WeekStart, d: Date): (r: Date)
    ensures !fullWeek ==> r == d
    ensures fullWeek ==> r <= d < r + 7 && Weekday(r) == FirstWeekday(start)
  {
    if fullWeek then StartOfWeek(d, start) else d
  }

  /** In whole-week mode all seven days of a week share one anchor. */
  lemma {:induction false} AnchorSharedByWeek(start: WeekStart, d: Date, e: Date)
    requires ScrollDate(true, start, d) <= e < ScrollDate(true, start, d) + 7
    ensures ScrollDate(true, start, e) == ScrollDate(true, start, d)
  {
    SameWeekSameStart(d, e, start);
  }

  /** Normalising an anchor again changes nothing. */
  lemma {:induction false} ScrollDateIdempotent(fullWeek: bool, start: WeekStart, d: Date)
    ensures ScrollDate(fullWeek, start, ScrollDate(fullWeek, start, d)) == ScrollDate(fullWeek, start, d)
  {
    if fullWeek {
      StartOfWeekIdempotent(d, start);
    }
  }

  /** Paging a whole week forward lands on the next week's anchor. */
  lemma {:induction false} AnchorOfNextWeek(start: WeekStart, d: Date)
    ensures ScrollDate(true, start, d + 7) == ScrollDate(true, start, d) + 7
  {
    NextWeekStart(d, start);
  }
}

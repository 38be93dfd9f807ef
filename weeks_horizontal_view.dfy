// The second UIKit surface (WeeksHorizontalView and its Coordinator): the
// same paging rules as ScrollableWeekView, but the page width is always the
// style's maxDays, a drag writes the owner's date binding directly, and no
// callbacks fire.

module WeeksHorizontal {
  import opened Optional
  import opened Calendar
  import opened WeekPaging
  import opened ScrollableWeek

  class Coordinator {
    const weeks: seq<seq<Day>>     // parent.weeks
    const maxDays: int             // parent.style.week.maxDays
    const startWeekDay: WeekStart  // parent.style.startWeekDay
    var date: Date                 // parent.date, the owner's binding
    var selectedDate: Date
    var lastContentOffset: int
    var log: seq<Event>            // commands given to the collection view

    constructor (weeks: seq<seq<Day>>, maxDays: int, startWeekDay: WeekStart, date: Date)
      ensures this.weeks == weeks && this.maxDays == maxDays && this.startWeekDay == startWeekDay
      ensures this.date == date && selectedDate == date
      ensures lastContentOffset == 0 && log == []
    {
      this.weeks := weeks;
      this.maxDays := maxDays;
      this.startWeekDay := startWeekDay;
      this.date := date;
      selectedDate := date;
      lastContentOffset := 0;
      log := [];
    }

    /** The page showing d: the first week holding d's anchor, if any. */
    function PageOf(d: Date): (r: Option<nat>)
      ensures var anchor := ScrollDate(maxDays == 7, startWeekDay, d);
              r.Some? ==> r.value < |weeks| && HoldsDate(weeks[r.value], anchor) &&
                          forall j :: 0 <= j < r.value ==> !HoldsDate(weeks[j], anchor)
      ensures var anchor := ScrollDate(maxDays == 7, startWeekDay, d);
              r.None? <==> forall j :: 0 <= j < |weeks| ==> !HoldsDate(weeks[j], anchor)
    {
      IdxByDate(weeks, ScrollDate(maxDays == 7, startWeekDay, d))
    }

    /** scrollToDate: scrolls to the page of the selected date, if some page holds it. */
    method ScrollToDate(animated: bool, isDelay: bool)
      modifies this`log
      ensures PageOf(selectedDate).None? ==> log == old(log)
      ensures PageOf(selectedDate).Some? ==> log == old(log) + [ScrollTo(PageOf(selectedDate).value, animated, isDelay)]
    {
      var page := PageOf(selectedDate);
      if page.Some? {
        log := log + [ScrollTo(page.value, animated, isDelay)];
      }
    }

    /** The delayed step of scrollToDate: the resting offset becomes the baseline. */
    method OffsetSettled(contentOffset: int)
      modifies this`lastContentOffset
      ensures lastContentOffset == contentOffset
    {
      lastContentOffset := contentOffset;
    }

    /**
     * updateUIView: takes the owner's date and reloads; a moment later it
     * schedules a delayed, animated scroll to that date.
     */
    method UpdateUIView()
      modifies this`selectedDate, this`log
      ensures selectedDate == date
      ensures PageOf(date).None? ==> log == old(log) + [Reload]
      ensures PageOf(date).Some? ==> log == old(log) + [Reload, ScrollTo(PageOf(date).value, true, true)]
    {
      selectedDate := date;
      log := log + [Reload];
      ScrollToDate(true, true);
    }

    /**
     * scrollViewWillEndDragging: below the baseline moves the owner's date
     * back by maxDays, above it forward; equal leaves it. The target becomes
     * the new baseline.
     */
    method WillEndDragging(target: int)
      modifies this`date, this`lastContentOffset
      ensures lastContentOffset == target
      ensures target == old(lastContentOffset) ==> date == old(date)
      ensures target < old(lastContentOffset) ==> date == old(date) - maxDays
      ensures target > old(lastContentOffset) ==> date == old(date) + maxDays
    {
      // An equal target only prints the pan translation.
      if target < lastContentOffset {
        date := date + -maxDays;
      } else if target > lastContentOffset {
        date := date + maxDays;
      }
      lastContentOffset := target;
    }

    /** didSelectItemAt: a dated cell becomes the owner's date; padding is ignored. */
    method DidSelectItemAt(section: nat, row: nat)
      requires section < |weeks| && row < |weeks[section]|
      modifies this`date
      ensures weeks[section][row].date.None? ==> date == old(date)
      ensures weeks[section][row].date.Some? ==> date == weeks[section][row].date.value
    {
      var cell := weeks[section][row].date;
      if cell.Some? {
        date := cell.value;
      }
    }
  }

  /**
   * On the week screen a ScrollableWeekView and a Coordinator over the same
   * grid and style show every date on the same page and move a drag by the
   * same number of days.
   */
  lemma SurfacesAgreeOnWeekScreen(a: ScrollableWeekView, b: Coordinator, d: Date)
    requires a.kind == WeekType
    requires a.weeks == b.weeks && a.weekMaxDays == b.maxDays && a.startWeekDay == b.startWeekDay
    ensures a.PageDays() == b.maxDays
    ensures a.PageOf(d) == b.PageOf(d)
  {
  }
}

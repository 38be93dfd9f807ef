// The SwiftUI week strip (ScrollableWeekNewView). The owner's `date`
// binding and the view's own `scrollingDate` are kept apart so that a
// change made by one side is not echoed back by the other: each onChange
// handler returns early when the new value already equals the other side.
// SwiftUI runs an onChange handler only when the observed value actually
// changes; the methods below spell that rule out.

module ScrollableWeekNew {
  import opened Optional
  import opened Calendar
  import opened WeekPaging

  /** The phases SwiftUI reports for a scroll view (ScrollPhase). */
  datatype ScrollPhase = Idle | Tracking | Interacting | Decelerating | Animating

  /** Writes the view makes: to its scroll position, or back to the owner's date. */
  datatype Update = ScrollIdSet(id: Option<nat>) | DateWritten(date: Date)

  class ScrollableWeekNewView {
    const weeks: seq<seq<Day>>
    var date: Date                  // the owner's binding
    var scrollingDate: Date         // @State: the date the user picked in the strip
    var scrollId: Option<nat>       // @State: the page the scroll view is positioned at
    var isScrolling: bool
    var updates: seq<Update>

    constructor (date: Date, weeks: seq<seq<Day>>)
      ensures this.date == date && scrollingDate == date && this.weeks == weeks
      ensures scrollId.None? && !isScrolling && updates == []
    {
      this.date := date;
      scrollingDate := date;
      this.weeks := weeks;
      scrollId := None;
      isScrolling := false;
      updates := [];
    }

    /** The date and the strip's picked date agree. */
    predicate Synced()
      reads this`date, this`scrollingDate
    {
      date == scrollingDate
    }

    /** .task: positions the strip at the first page holding the date. */
    method Appear()
      modifies this`scrollId, this`updates
      ensures scrollId == IdxByDate(weeks, date)
      ensures updates == old(updates) + [ScrollIdSet(scrollId)]
    {
      scrollId := IdxByDate(weeks, date);
      updates := updates + [ScrollIdSet(scrollId)];
    }

    /** The onChange(of: date) handler: scrolls unless the strip already picked that date. */
    method OnDateChange(newValue: Date)
      modifies this`scrollId, this`updates
      ensures newValue == scrollingDate ==> scrollId == old(scrollId) && updates == old(updates)
      ensures newValue != scrollingDate ==>
                scrollId == IdxByDate(weeks, newValue) && updates == old(updates) + [ScrollIdSet(scrollId)]
    {
      if scrollingDate == newValue {
        return;
      }
      scrollId := IdxByDate(weeks, newValue);
      updates := updates + [ScrollIdSet(scrollId)];
    }

    /**
     * The owner assigns `date`. Assigning the current date, or the date the
     * strip already picked, leaves the scroll position alone; the view
     * never writes the date back.
     */
    method DateChanged(newValue: Date)
      modifies this`date, this`scrollId, this`updates
      ensures date == newValue
      ensures newValue != old(date) ==> (Synced() <==> newValue == scrollingDate)
      ensures newValue == old(date) || newValue == scrollingDate ==>
                scrollId == old(scrollId) && updates == old(updates)
      ensures newValue != old(date) && newValue != scrollingDate ==>
                scrollId == IdxByDate(weeks, newValue) && updates == old(updates) + [ScrollIdSet(scrollId)]
    {
      if newValue != date {
        date := newValue;
        OnDateChange(newValue);
      }
    }

    /**
     * The onChange(of: scrollingDate) handler: writes the picked date back to
     * the owner unless it is the date already. The write re-enters the
     * onChange(of: date) handler, which returns at once, so the strip does
     * not scroll because of its own write.
     */
    method OnScrollingDateChange(newValue: Date)
      requires scrollingDate == newValue
      modifies this`date, this`scrollId, this`updates
      ensures scrollId == old(scrollId) && date == newValue
      ensures newValue == old(date) ==> updates == old(updates)
      ensures newValue != old(date) ==> updates == old(updates) + [DateWritten(newValue)]
    {
      if date == newValue {
        return;
      }
      date := newValue;
      updates := updates + [DateWritten(newValue)];
      OnDateChange(newValue);
    }

    /** Assigns scrollingDate; its handler runs only when the value changed. */
    method SetScrollingDate(v: Date)
      modifies this`scrollingDate, this`date, this`scrollId, this`updates
      ensures scrollingDate == v && scrollId == old(scrollId)
      ensures v == old(scrollingDate) || v == old(date) ==> date == old(date) && updates == old(updates)
      ensures v != old(scrollingDate) && v != old(date) ==>
                date == v && updates == old(updates) + [DateWritten(v)]
    {
      var before := scrollingDate;
      scrollingDate := v;
      if v != before {
        OnScrollingDateChange(v);
      }
    }

    /** The button of a cell: picks its date; padding cells have no button. */
    method TapDay(section: nat, row: nat)
      requires section < |weeks| && row < |weeks[section]|
      modifies this`scrollingDate, this`date, this`scrollId, this`updates
      ensures var cell := weeks[section][row].date;
              cell.None? ==> scrollingDate == old(scrollingDate) && date == old(date) &&
                             scrollId == old(scrollId) && updates == old(updates)
      ensures var cell := weeks[section][row].date;
              cell.Some? ==> scrollingDate == cell.value && scrollId == old(scrollId)
      ensures var cell := weeks[section][row].date;
              cell.Some? && (cell.value == old(scrollingDate) || cell.value == old(date)) ==>
                date == old(date) && updates == old(updates)
      ensures var cell := weeks[section][row].date;
              cell.Some? && cell.value != old(scrollingDate) && cell.value != old(date) ==>
                date == cell.value && updates == old(updates) + [DateWritten(cell.value)]
      ensures old(Synced()) && weeks[section][row].date.Some? ==> Synced() && date == weeks[section][row].date.value
    {
      var cell := weeks[section][row].date;
      if cell.Some? {
        SetScrollingDate(cell.value);
      }
    }

    /** onScrollPhaseChange: interacting starts a user scroll, animating ends it. */
    method PhaseChanged(phase: ScrollPhase)
      modifies this`isScrolling
      ensures phase == Interacting ==> isScrolling
      ensures phase == Animating ==> !isScrolling
      ensures phase != Interacting && phase != Animating ==> isScrolling == old(isScrolling)
    {
      match phase {
        case Interacting => isScrolling := true;
        case Animating => isScrolling := false;
        case _ =>
      }
    }

    /**
     * onScrollTargetVisibilityChange: while the user scrolls, the last
     * visible page `ids[|ids| - 1]` resolves to the date `resolved`
     * (getDateByScrollId). A page that resolves to nothing or to the
     * current date changes nothing; otherwise the strip picks that date
     * and positions itself at the page.
     */
    method VisibilityChanged(ids: seq<nat>, resolved: Option<Date>)
      modifies this`scrollingDate, this`date, this`scrollId, this`updates
      ensures !old(isScrolling) || ids == [] || resolved.None? || resolved.value == old(date) ==>
                scrollingDate == old(scrollingDate) && date == old(date) &&
                scrollId == old(scrollId) && updates == old(updates)
      ensures old(isScrolling) && ids != [] && resolved.Some? && resolved.value != old(date) ==>
                scrollingDate == resolved.value && scrollId == Some(ids[|ids| - 1])
      ensures old(isScrolling) && ids != [] && resolved.Some? && resolved.value != old(date) &&
              resolved.value != old(scrollingDate) ==>
                date == resolved.value &&
                updates == old(updates) + [ScrollIdSet(scrollId), DateWritten(resolved.value)]
      ensures old(isScrolling) && ids != [] && resolved.Some? && resolved.value != old(date) &&
              resolved.value == old(scrollingDate) ==>
                date == old(date) && updates == old(updates) + [ScrollIdSet(scrollId)]
    {
      if !isScrolling || ids == [] {
        return;
      }
      var id := ids[|ids| - 1];
      if resolved.None? || resolved.value == date {
        return;
      }
      var newDate := resolved.value;
      var before := scrollingDate;
      scrollingDate := newDate;
      scrollId := Some(id);
      updates := updates + [ScrollIdSet(scrollId)];
      if newDate != before {
        OnScrollingDateChange(newDate);
      }
    }

    /**
     * The owner assigns `date`, with a handler that also records the new
     * date as the strip's picked date, so the two never drift apart.
     */
    method DateChangedSynced(newValue: Date)
      modifies this`date, this`scrollingDate, this`scrollId, this`updates
      ensures date == newValue
      ensures newValue != old(date) || old(Synced()) ==> Synced()
      ensures newValue == old(date) ==> scrollingDate == old(scrollingDate)
      ensures newValue == old(date) || newValue == old(scrollingDate) ==>
                scrollId == old(scrollId) && updates == old(updates)
      ensures newValue != old(date) && newValue != old(scrollingDate) ==>
                scrollId == IdxByDate(weeks, newValue) && updates == old(updates) + [ScrollIdSet(scrollId)]
    {
      if newValue != date {
        date := newValue;
        OnDateChange(newValue);
        // The handler's write to scrollingDate re-enters onChange(of:
        // scrollingDate), which returns at once: the date is already newValue.
        scrollingDate := newValue;
      }
    }
  }

  /**
   * As written, an external date change leaves scrollingDate behind: the
   * user picks day 1, the owner moves the date back to day 0, and a second
   * tap on day 1 no longer changes scrollingDate, so its handler never runs
   * and the date stays 0.
   */
  method StaleTapIgnored() returns (tapped: Date, dateAfterTap: Date)
    ensures tapped != dateAfterTap
  {
    var v := new ScrollableWeekNewView(0, [[Day(Some(0)), Day(Some(1))]]);
    v.TapDay(0, 1);
    assert v.date == 1;
    v.DateChanged(0);
    v.TapDay(0, 1);
    tapped, dateAfterTap := 1, v.date;
  }

  /** With the synced handler the same sequence of events selects the tapped day. */
  method SyncedTapTakesEffect() returns (tapped: Date, dateAfterTap: Date)
    ensures tapped == dateAfterTap
  {
    var v := new ScrollableWeekNewView(0, [[Day(Some(0)), Day(Some(1))]]);
    v.TapDay(0, 1);
    v.DateChangedSynced(0);
    v.TapDay(0, 1);
    tapped, dateAfterTap := 1, v.date;
  }
}

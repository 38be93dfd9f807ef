// The UIKit week-strip header (ScrollableWeekView): its navigation state,
// the transitions driven by drags, taps and programmatic dates, and the
// time-zone menu action. Every callback the view fires and every command it
// gives its collection view is appended to an event log, so the order of
// effects is part of each transition's contract.

module ScrollableWeek {
  import opened Optional
  import opened Calendar
  import opened WeekPaging

  /** Direction of a page change (TimelinePageView.SwitchPageType). */
  datatype SwitchPageType = Previous | Next

  /** A time zone, compared by its identifier. */
  datatype Zone = Zone(identifier: string)

  /** What the view did, in the order it did it. */
  datatype Event =
    | ChangeDay(direction: SwitchPageType)            // didChangeDay
    | SelectDate(date: Date, kind: CalendarType)      // didSelectDate
    | TrackScrollOffset(translation: int, ended: bool) // didTrackScrollOffset
    | StyleUpdated(kind: CalendarType)                // didUpdateStyle
    | ScrollTo(page: nat, animated: bool, delayed: bool) // collectionView.scrollToItem, now or after a delay
    | Reload                                          // collectionView.reloadData

  /** The most time zones the menu keeps selected. */
  const MaxSelectedZones := 3

  /** Some selected zone has the identifier id (the menu's "already selected" mark). */
  predicate IsSelected(zones: seq<Zone>, id: string)
  {
    exists k :: 0 <= k < |zones| && zones[k].identifier == id
  }

  /** The zones without every entry whose identifier is id, in their order. */
  function RemoveZone(zones: seq<Zone>, id: string): (r: seq<Zone>)
    ensures forall k :: 0 <= k < |r| ==> r[k].identifier != id
    ensures !IsSelected(zones, id) ==> r == zones
  {
    if zones == [] then []
    else
      var rest := RemoveZone(zones[1..], id);
      if zones[0].identifier == id then rest else [zones[0]] + rest
  }

  /** Removal keeps every other zone, as often as it occurred. */
  lemma {:induction false} RemoveZoneKeepsOthers(zones: seq<Zone>, id: string, z: Zone)
    ensures multiset(RemoveZone(zones, id))[z] == if z.identifier == id then 0 else multiset(zones)[z]
  {
    if zones != [] {
      RemoveZoneKeepsOthers(zones[1..], id, z);
      assert zones == [zones[0]] + zones[1..];
    }
  }

  /** Removal keeps the order of the remaining zones: it works entry by entry from the front. */
  lemma {:induction false} RemoveZoneAppend(zones: seq<Zone>, z: Zone, id: string)
    ensures RemoveZone(zones + [z], id) == RemoveZone(zones, id) + (if z.identifier == id then [] else [z])
  {
    if zones != [] {
      assert (zones + [z])[1..] == zones[1..] + [z];
      RemoveZoneAppend(zones[1..], z, id);
    }
  }

  /** Removal shrinks the list exactly when the zone was selected. */
  lemma {:induction false} RemoveShrinksIffSelected(zones: seq<Zone>, id: string)
    ensures |RemoveZone(zones, id)| <= |zones|
    ensures |RemoveZone(zones, id)| < |zones| <==> IsSelected(zones, id)
  {
    if zones != [] {
      RemoveShrinksIffSelected(zones[1..], id);
      if IsSelected(zones[1..], id) {
        var k :| 0 <= k < |zones[1..]| && zones[1..][k].identifier == id;
        assert zones[k + 1].identifier == id;
      }
      if IsSelected(zones, id) && zones[0].identifier != id {
        var k :| 0 <= k < |zones| && zones[k].identifier == id;
        assert zones[1..][k - 1].identifier == id;
      }
    }
  }

  /** Appends z, then drops the first entry when the list grew past the cap. */
  function AppendCapped(zones: seq<Zone>, z: Zone): (r: seq<Zone>)
    ensures |r| == if |zones| + 1 > MaxSelectedZones then |zones| else |zones| + 1
    ensures r == (zones + [z])[|zones| + 1 - |r|..]
    ensures r[|r| - 1] == z
    ensures |zones| <= MaxSelectedZones ==> |r| <= MaxSelectedZones
  {
    var appended := zones + [z];
    if |appended| > MaxSelectedZones then appended[1..] else appended
  }

  class ScrollableWeekView {
    var weeks: seq<seq<Day>>
    var date: Date
    const kind: CalendarType
    var weekMaxDays: int          // style.week.maxDays
    var startWeekDay: WeekStart   // style.startWeekDay
    var shouldTrackScroll: bool   // style.headerScroll.shouldTimelineTrackScroll
    var timezone: Zone            // style.timezone
    var selectedTimeZones: seq<Zone>
    var isAnimate: bool
    var lastContentOffset: int
    var log: seq<Event>

    /**
     * init followed by setUI. No data source is attached yet, so setupViews
     * takes its regular branch and the grid is kept.
     */
    constructor (weeks: seq<seq<Day>>, date: Date, kind: CalendarType, weekMaxDays: int,
                 startWeekDay: WeekStart, shouldTrackScroll: bool,
                 timezone: Zone, selectedTimeZones: seq<Zone>)
      ensures this.weeks == weeks && this.date == date && this.kind == kind
      ensures this.weekMaxDays == weekMaxDays && this.startWeekDay == startWeekDay
      ensures this.shouldTrackScroll == shouldTrackScroll
      ensures this.timezone == timezone && this.selectedTimeZones == selectedTimeZones
      ensures !isAnimate && lastContentOffset == 0 && log == []
    {
      this.weeks := weeks;
      this.date := date;
      this.kind := kind;
      this.weekMaxDays := weekMaxDays;
      this.startWeekDay := startWeekDay;
      this.shouldTrackScroll := shouldTrackScroll;
      this.timezone := timezone;
      this.selectedTimeZones := selectedTimeZones;
      isAnimate := false;
      lastContentOffset := 0;
      log := [];
    }

    /** Days a drag moves the date by. */
    function PageDays(): int
      reads this`weekMaxDays
    {
      MaxDays(kind, weekMaxDays)
    }

    /** The page showing d: the first week holding d's anchor, if any. */
    function PageOf(d: Date): (r: Option<nat>)
      reads this`weeks, this`weekMaxDays, this`startWeekDay
      ensures var anchor := ScrollDate(IsFullyWeek(kind, weekMaxDays), startWeekDay, d);
              r.Some? ==> r.value < |weeks| && HoldsDate(weeks[r.value], anchor) &&
                          forall j :: 0 <= j < r.value ==> !HoldsDate(weeks[j], anchor)
      ensures var anchor := ScrollDate(IsFullyWeek(kind, weekMaxDays), startWeekDay, d);
              r.None? <==> forall j :: 0 <= j < |weeks| ==> !HoldsDate(weeks[j], anchor)
    {
      IdxByDate(weeks, ScrollDate(IsFullyWeek(kind, weekMaxDays), startWeekDay, d))
    }

    /** updateWeeks: replaces the grid wholesale. */
    method UpdateWeeks(newWeeks: seq<seq<Day>>)
      modifies this`weeks
      ensures weeks == newWeeks
    {
      weeks := newWeeks;
    }

    /**
     * scrollToDate: scrolls to the page of d's anchor, or does nothing when no
     * page holds it. A delayed scroll is recorded when it is scheduled. A
     * scroll marks the view so that later scrolls animate.
     */
    method ScrollToDate(d: Date, animated: bool, isDelay: bool)
      modifies this`isAnimate, this`log
      ensures PageOf(d).None? ==> isAnimate == old(isAnimate) && log == old(log)
      ensures PageOf(d).Some? ==> isAnimate && log == old(log) + [ScrollTo(PageOf(d).value, animated, isDelay)]
    {
      var page := PageOf(d);
      if page.None? {
        return;
      }
      log := log + [ScrollTo(page.value, animated, isDelay)];
      if !isAnimate {
        isAnimate := true;
      }
    }

    /**
     * setDate: an external assignment. It scrolls without animation until the
     * first scroll has happened, reloads, and never reports a selection.
     */
    method SetDate(d: Date, isDelay: bool)
      modifies this`date, this`isAnimate, this`log
      ensures date == d
      ensures PageOf(d).None? ==> isAnimate == old(isAnimate) && log == old(log) + [Reload]
      ensures PageOf(d).Some? ==>
                isAnimate && log == old(log) + [ScrollTo(PageOf(d).value, old(isAnimate), isDelay), Reload]
    {
      date := d;
      ScrollToDate(d, isAnimate, isDelay);
      log := log + [Reload];
    }

    /** calculateDateWithOffset: moves the date by offset days and reloads. */
    method CalculateDateWithOffset(offset: int, needScrollToDate: bool) returns (next: Date)
      modifies this`date, this`isAnimate, this`log
      ensures next == old(date) + offset && date == next
      ensures !needScrollToDate ==> isAnimate == old(isAnimate) && log == old(log) + [Reload]
      ensures needScrollToDate && PageOf(next).None? ==>
                isAnimate == old(isAnimate) && log == old(log) + [Reload]
      ensures needScrollToDate && PageOf(next).Some? ==>
                isAnimate && log == old(log) + [ScrollTo(PageOf(next).value, true, false), Reload]
    {
      next := date + offset;
      date := next;
      if needScrollToDate {
        ScrollToDate(date, true, false);
      }
      log := log + [Reload];
    }

    /**
     * scrollViewWillEndDragging: compares the settled target offset with the
     * baseline. Equal: no navigation. Below: one page back. Above: one page
     * forward. Either way the target becomes the new baseline.
     */
    method WillEndDragging(target: int, translation: int)
      modifies this`date, this`isAnimate, this`lastContentOffset, this`log
      ensures lastContentOffset == target && isAnimate == old(isAnimate)
      ensures target == old(lastContentOffset) ==> date == old(date)
      ensures target == old(lastContentOffset) ==>
                log == old(log) + (if shouldTrackScroll then [TrackScrollOffset(translation, true)] else [])
      ensures target < old(lastContentOffset) ==> date == old(date) - PageDays()
      ensures target < old(lastContentOffset) ==>
                log == old(log) + [ChangeDay(Previous), Reload, SelectDate(date, kind)]
      ensures target > old(lastContentOffset) ==> date == old(date) + PageDays()
      ensures target > old(lastContentOffset) ==>
                log == old(log) + [ChangeDay(Next), Reload, SelectDate(date, kind)]
    {
      if target == lastContentOffset {
        if shouldTrackScroll {
          log := log + [TrackScrollOffset(translation, true)];
        }
      } else if target < lastContentOffset {
        log := log + [ChangeDay(Previous)];
        var _ := CalculateDateWithOffset(-PageDays(), false);
        log := log + [SelectDate(date, kind)];
      } else {
        log := log + [ChangeDay(Next)];
        var _ := CalculateDateWithOffset(PageDays(), false);
        log := log + [SelectDate(date, kind)];
      }
      lastContentOffset := target;
    }

    /** scrollViewDidEndScrollingAnimation: the resting offset becomes the baseline. */
    method DidEndScrollingAnimation(contentOffset: int)
      modifies this`lastContentOffset
      ensures lastContentOffset == contentOffset
    {
      lastContentOffset := contentOffset;
    }

    /**
     * didSelectItemAt: a tap on a cell. Padding cells and, on the day screen,
     * the current date are ignored. The week screen moves to the tapped date;
     * other screens keep their date but still report the selection.
     */
    method DidSelectItemAt(section: nat, row: nat)
      requires section < |weeks| && row < |weeks[section]|
      modifies this`date, this`log
      ensures var cell := weeks[section][row].date;
              cell.None? || (kind == DayType && cell.value == old(date)) ==>
                date == old(date) && log == old(log)
      ensures var cell := weeks[section][row].date;
              cell.Some? && kind == DayType && cell.value != old(date) ==>
                date == cell.value && log == old(log) + [SelectDate(date, kind), Reload]
      ensures var cell := weeks[section][row].date;
              cell.Some? && kind == WeekType ==>
                date == cell.value && log == old(log) + [SelectDate(date, kind), Reload]
      ensures var cell := weeks[section][row].date;
              cell.Some? && kind != DayType && kind != WeekType ==>
                date == old(date) && log == old(log) + [SelectDate(date, kind), Reload]
    {
      var cell := weeks[section][row].date;
      if cell.None? {
        return;
      }
      var dateNew := cell.value;
      match kind {
        case DayType =>
          if date == dateNew {
            return;
          }
          date := dateNew;
        case WeekType =>
          date := dateNew;
        case _ =>
      }
      log := log + [SelectDate(date, kind), Reload];
    }

    /**
     * updateStyle: takes the whole new style (paging configuration and time
     * zones), rebuilds the view (setUI: a custom header view empties the
     * grid and reloads it) and schedules an animated scroll to the date.
     */
    method UpdateStyle(newWeekMaxDays: int, newStartWeekDay: WeekStart, newShouldTrackScroll: bool,
                       newTimezone: Zone, newSelectedTimeZones: seq<Zone>, customHeader: bool)
      modifies this`weeks, this`weekMaxDays, this`startWeekDay, this`shouldTrackScroll
      modifies this`timezone, this`selectedTimeZones, this`isAnimate, this`log
      ensures weekMaxDays == newWeekMaxDays && startWeekDay == newStartWeekDay
      ensures shouldTrackScroll == newShouldTrackScroll
      ensures timezone == newTimezone && selectedTimeZones == newSelectedTimeZones
      ensures customHeader ==> weeks == [] && isAnimate == old(isAnimate) && log == old(log) + [Reload]
      ensures !customHeader ==> weeks == old(weeks)
      ensures !customHeader && PageOf(date).None? ==> isAnimate == old(isAnimate) && log == old(log)
      ensures !customHeader && PageOf(date).Some? ==>
                isAnimate && log == old(log) + [ScrollTo(PageOf(date).value, true, true)]
    {
      weekMaxDays := newWeekMaxDays;
      startWeekDay := newStartWeekDay;
      shouldTrackScroll := newShouldTrackScroll;
      timezone := newTimezone;
      selectedTimeZones := newSelectedTimeZones;
      if customHeader {
        weeks := [];
        log := log + [Reload];
      }
      ScrollToDate(date, true, true);
    }

    /** A segment of the selected-zones control: makes that zone active and reports the style change. */
    method PickTimeZone(zone: Zone)
      modifies this`timezone, this`log
      ensures timezone == zone && log == old(log) + [StyleUpdated(kind)]
    {
      timezone := zone;
      log := log + [StyleUpdated(kind)];
    }

    /**
     * Deselecting `item`: drops every entry with that identifier and, when it
     * was the active zone, falls back to the last remaining one or `current`.
     */
    method DeselectTimeZone(item: string, current: Zone)
      modifies this`timezone, this`selectedTimeZones
      ensures selectedTimeZones == RemoveZone(old(selectedTimeZones), item)
      ensures |selectedTimeZones| <= |old(selectedTimeZones)|
      ensures old(timezone).identifier == item ==>
                timezone == if selectedTimeZones == [] then current
                            else selectedTimeZones[|selectedTimeZones| - 1]
      ensures old(timezone).identifier != item ==> timezone == old(timezone)
    {
      RemoveShrinksIffSelected(selectedTimeZones, item);
      selectedTimeZones := RemoveZone(selectedTimeZones, item);
      if timezone.identifier == item {
        timezone := if selectedTimeZones == [] then current
                    else selectedTimeZones[|selectedTimeZones| - 1];
      }
    }

    /** Selecting `zone`: makes it active and appends it, dropping the oldest past three. */
    method SelectTimeZone(zone: Zone)
      modifies this`timezone, this`selectedTimeZones
      ensures timezone == zone
      ensures selectedTimeZones == AppendCapped(old(selectedTimeZones), zone)
    {
      timezone := zone;
      selectedTimeZones := selectedTimeZones + [zone];
      if |selectedTimeZones| > MaxSelectedZones {
        selectedTimeZones := selectedTimeZones[1..];
      }
    }

    /**
     * The action of the time-zone menu item `item`. `alreadySelected` is the
     * mark computed when the menu was built and `resolved` is the zone the
     * system knows under that identifier (None: the action does nothing).
     * Either way the list stays within three entries if it was.
     */
    method ToggleTimeZone(item: string, alreadySelected: bool, resolved: Option<Zone>, current: Zone)
      modifies this`timezone, this`selectedTimeZones, this`log
      ensures resolved.None? ==>
                timezone == old(timezone) && selectedTimeZones == old(selectedTimeZones) && log == old(log)
      ensures resolved.Some? ==> log == old(log) + [StyleUpdated(kind)]
      ensures resolved.Some? && alreadySelected ==>
                selectedTimeZones == RemoveZone(old(selectedTimeZones), item)
      ensures resolved.Some? && alreadySelected && old(timezone).identifier == item ==>
                timezone == if selectedTimeZones == [] then current
                            else selectedTimeZones[|selectedTimeZones| - 1]
      ensures resolved.Some? && alreadySelected && old(timezone).identifier != item ==>
                timezone == old(timezone)
      ensures resolved.Some? && !alreadySelected ==>
                timezone == resolved.value &&
                selectedTimeZones == AppendCapped(old(selectedTimeZones), resolved.value)
      ensures |old(selectedTimeZones)| <= MaxSelectedZones ==> |selectedTimeZones| <= MaxSelectedZones
    {
      if resolved.None? {
        return;
      }
      if alreadySelected {
        DeselectTimeZone(item, current);
      } else {
        SelectTimeZone(resolved.value);
      }
      log := log + [StyleUpdated(kind)];
    }
  }
}

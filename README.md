# KVKCalendar week strip and year data, modelled in Dafny

This project models the paged week header of KVKCalendar and the data
of its year screen.

The week header is a horizontal strip of week pages above the timeline.
It comes in three forms:

- `ScrollableWeekView`, a UIKit view. Drags, taps and programmatic dates
  move it. It reports changes through callbacks (`didChangeDay`,
  `didSelectDate`, `didTrackScrollOffset`, `didUpdateStyle`). It also has
  a time-zone menu.
- `WeeksHorizontalView`, a UIKit surface wrapped for SwiftUI. Its
  `Coordinator` writes the owner's date binding directly.
- `ScrollableWeekNewView`, a SwiftUI view. It keeps the owner's `date`
  and its own `scrollingDate` apart, and each `onChange` handler returns
  early when the other side already holds the value.

`YearData` groups the calendar's months into one section per year. It
holds the page geometry of the year screen. It also picks the date used
when a month is selected.

Modelling choices:

- **Dates** are whole day numbers, and day 0 is a Sunday. "Same day" and
  date equality are therefore the same thing. The start of a week is the
  latest day at or before the date with the chosen first weekday. The
  source's `.now` carries a time of day, so there `onChange(of: date)` runs
  even when the day is already today; on day numbers `DateChanged` then
  does nothing.
- **Scroll offsets and pan translations** are integers. The modelled
  operations only compare them. The one subtraction, in
  `scrollHeaderByTransform` (line 616), is left out.
- **Views** are classes whose fields are the view's state. Every callback
  they fire and every collection-view command they issue (`scrollToItem`,
  `reloadData`) is appended to an event log field. So each method's
  contract fixes the order of its effects as well as its new state.
- **Delayed scrolls** (`DispatchQueue.main.asyncAfter`) are logged when
  they are scheduled, with a `delayed` flag.
- **`onChange` handlers**: SwiftUI runs one only when the value it
  observes actually changes. The SwiftUI view's methods spell that rule
  out.
- **The year screen's calendar** (`kvkYear`, `kvkMonth`, `kvkDay` and
  `calendar.date(from:)`) is a record of functions (`CalendarOps`). The
  calendar may refuse to build a date. A calendar is `Lawful` when every
  date it builds has the components it was built from. A lenient
  Foundation calendar is not lawful: it rolls over, so the components
  2024-02-31 build 2 March. The facts about `SelectedDate` that assume a
  lawful calendar therefore describe a strict calendar only; `SelectedDate`
  itself assumes nothing about the calendar.

Files:

- `calendar.dfy`: dates, weekdays, start of week, the calendar record.
- `week_paging.dfy`: the page lookups shared by the UIKit surfaces.
- `scrollable_week_view.dfy`: `ScrollableWeekView` and its time-zone menu.
- `weeks_horizontal_view.dfy`: the `Coordinator`.
- `scrollable_week_new_view.dfy`: `ScrollableWeekNewView`.
- `year_data.dfy`: `YearData`.

Two behaviours of the code worth knowing:

- On the day screen (and any screen other than the week screen),
  `ScrollableWeekView` pages by 7 days, and its pages are anchored to the
  start of the week (`maxDays` and `isFullyWeek`). Pages are not anchored
  to the current date there.
- The `Coordinator` decides whole-week anchoring from `maxDays == 7` alone,
  whatever the screen type.

## Model

| member | source | states |
|---|---|---|
| Calendar.StartOfWeek | Sources/KVKCalendar/ScrollableWeekView.swift:873 | the start of a date's week is at most 6 days before it, and falls on the chosen first weekday |
| Calendar.SameWeekSameStart | Sources/KVKCalendar/ScrollableWeekView.swift:868-874 | every day of a week has the same week start |
| Calendar.NextWeekStart | Sources/KVKCalendar/ScrollableWeekView.swift:868-874 | a date one week later has its week start one week later |
| Calendar.StartOfWeekIdempotent | Sources/KVKCalendar/ScrollableWeekView.swift:868-874 | a week start is its own week start |
| WeekPaging.IdxByDate | Sources/KVKCalendar/ScrollableWeekView.swift:594-598 | the result is the first week holding the date, and None means no week holds it |
| WeekPaging.DatesByDate | Sources/KVKCalendar/ScrollableWeekView.swift:600-604 | the result is empty exactly when no week holds the date; otherwise it is the first week that does |
| WeekPaging.IdxOfHeldDate | Sources/KVKCalendar/ScrollableWeekView.swift:594-598 | in a grid where no date sits in two weeks, the index found for a date is the index of the week holding it |
| WeekPaging.MaxDays | Sources/KVKCalendar/ScrollableWeekView.swift:546-553 | the week screen pages by the style's width; every other screen pages by 7 days |
| WeekPaging.IsFullyWeek | Sources/KVKCalendar/ScrollableWeekView.swift:555-562 | pages are whole weeks exactly when a page spans 7 days |
| WeekPaging.ScrollDate | Sources/KVKCalendar/ScrollableWeekView.swift:868-874 | without whole weeks the anchor is the date itself; with them it is the week start |
| WeekPaging.AnchorSharedByWeek | Sources/KVKCalendar/ScrollableWeekView.swift:868-874 | in whole-week mode all days of a week scroll to the same anchor |
| WeekPaging.ScrollDateIdempotent | Sources/KVKCalendar/ScrollableWeekView.swift:868-874 | anchoring an anchor changes nothing |
| WeekPaging.AnchorOfNextWeek | Sources/KVKCalendar/ScrollableWeekView.swift:935-942 | moving a whole week forward lands on the next week's anchor |
| ScrollableWeek.RemoveZone | Sources/KVKCalendar/ScrollableWeekView.swift:988 | no remaining zone has the removed identifier, and the list is unchanged when none had it |
| ScrollableWeek.RemoveZoneKeepsOthers | Sources/KVKCalendar/ScrollableWeekView.swift:988 | removal keeps every zone with another identifier as often as it occurred, and drops every zone with that identifier |
| ScrollableWeek.RemoveZoneAppend | Sources/KVKCalendar/ScrollableWeekView.swift:988 | removal keeps the remaining zones in their order: removing from a list with one more zone at the end gives the old result plus that zone, unless it has the identifier |
| ScrollableWeek.RemoveShrinksIffSelected | Sources/KVKCalendar/ScrollableWeekView.swift:982-988 | removal shrinks the list exactly when the zone was marked as selected |
| ScrollableWeek.AppendCapped | Sources/KVKCalendar/ScrollableWeekView.swift:994-997 | the new zone is last; the list is the tail of the old list plus the zone; its length grows by one up to the cap of three |
| ScrollableWeek.ScrollableWeekView.constructor | Sources/KVKCalendar/ScrollableWeekView.swift:584-588 | the view starts from its parameters, without animation, with baseline offset 0 |
| ScrollableWeek.ScrollableWeekView.PageOf | Sources/KVKCalendar/ScrollableWeekView.swift:658 | the page of a date is the first week holding the date's anchor, and None means no week holds it |
| ScrollableWeek.ScrollableWeekView.UpdateWeeks | Sources/KVKCalendar/ScrollableWeekView.swift:590-592 | the grid is replaced |
| ScrollableWeek.ScrollableWeekView.ScrollToDate | Sources/KVKCalendar/ScrollableWeekView.swift:657-673 | it scrolls to the page of the date's anchor, or does nothing when no page holds it; a scroll turns animation on for later scrolls |
| ScrollableWeek.ScrollableWeekView.SetDate | Sources/KVKCalendar/ScrollableWeekView.swift:619-623 | the date is set; it scrolls animated only if an earlier scroll happened, then reloads; no selection callback fires |
| ScrollableWeek.ScrollableWeekView.CalculateDateWithOffset | Sources/KVKCalendar/ScrollableWeekView.swift:625-636 | the date moves by the offset and is returned; an optional immediate animated scroll comes before the reload |
| ScrollableWeek.ScrollableWeekView.WillEndDragging | Sources/KVKCalendar/ScrollableWeekView.swift:925-946 | an equal target only reports the translation (when tracking is on); a smaller one moves one page back and a larger one one page forward, each reporting the direction, reloading and then reporting the new date; the target becomes the baseline |
| ScrollableWeek.ScrollableWeekView.DidEndScrollingAnimation | Sources/KVKCalendar/ScrollableWeekView.swift:948-950 | the resting offset becomes the baseline |
| ScrollableWeek.ScrollableWeekView.DidSelectItemAt | Sources/KVKCalendar/ScrollableWeekView.swift:952-968 | a padding cell is ignored, and so is the current date on the day screen; the day and week screens take the tapped date, other screens keep theirs; the selection is reported, then the view reloads |
| ScrollableWeek.ScrollableWeekView.UpdateStyle | Sources/KVKCalendar/ScrollableWeekView.swift:721-725 | the whole new style is taken, paging configuration and time zones alike; a custom header view empties the grid and reloads it; then a delayed, animated scroll goes to the page of the current date, if some page holds it |
| ScrollableWeek.ScrollableWeekView.PickTimeZone | Sources/KVKCalendar/ScrollableWeekView.swift:775-780 | a segment of the selected-zones control makes its zone active and reports the style change |
| ScrollableWeek.ScrollableWeekView.DeselectTimeZone | Sources/KVKCalendar/ScrollableWeekView.swift:987-991 | every zone with the identifier is removed; an active zone that was removed is replaced by the last remaining zone, or by the current zone when none remains |
| ScrollableWeek.ScrollableWeekView.SelectTimeZone | Sources/KVKCalendar/ScrollableWeekView.swift:992-998 | the zone becomes active and is appended, and the oldest zone is dropped past three |
| ScrollableWeek.ScrollableWeekView.ToggleTimeZone | Sources/KVKCalendar/ScrollableWeekView.swift:984-1000 | an unknown identifier changes nothing; otherwise the zone is deselected or selected as it was marked, the style update is reported, and a list of at most three stays at most three |
| WeeksHorizontal.Coordinator.constructor | Sources/KVKCalendar/ScrollableWeekView.swift:372-389 | the selected date starts at the owner's date, with baseline offset 0 |
| WeeksHorizontal.Coordinator.PageOf | Sources/KVKCalendar/ScrollableWeekView.swift:392 | the page of a date is the first week holding its anchor (whole weeks exactly when maxDays is 7), and None means no week holds it |
| WeeksHorizontal.Coordinator.ScrollToDate | Sources/KVKCalendar/ScrollableWeekView.swift:391-419 | it scrolls to the page of the selected date's anchor (whole weeks exactly when maxDays is 7), or does nothing when no page holds it |
| WeeksHorizontal.Coordinator.OffsetSettled | Sources/KVKCalendar/ScrollableWeekView.swift:402-404 | the resting offset becomes the baseline |
| WeeksHorizontal.Coordinator.UpdateUIView | Sources/KVKCalendar/ScrollableWeekView.swift:364-370 | the selected date becomes the owner's date; a reload comes before the delayed animated scroll to it |
| WeeksHorizontal.Coordinator.WillEndDragging | Sources/KVKCalendar/ScrollableWeekView.swift:480-498 | a smaller target moves the owner's date back by maxDays, a larger one forward, an equal one not at all; the target becomes the baseline |
| WeeksHorizontal.Coordinator.DidSelectItemAt | Sources/KVKCalendar/ScrollableWeekView.swift:456-460 | a dated cell becomes the owner's date; padding is ignored |
| WeeksHorizontal.SurfacesAgreeOnWeekScreen | Sources/KVKCalendar/ScrollableWeekView.swift:378-384 | a ScrollableWeekView on the week screen and a Coordinator over the same grid, page width and first weekday move a drag by the same number of days and show every date on the same page |
| ScrollableWeekNew.ScrollableWeekNewView.constructor | Sources/KVKCalendar/ScrollableWeekView.swift:40-51 | the picked date starts as the owner's date |
| ScrollableWeekNew.ScrollableWeekNewView.Appear | Sources/KVKCalendar/ScrollableWeekView.swift:70-75 | the scroll position becomes the first page holding the date |
| ScrollableWeekNew.ScrollableWeekNewView.OnDateChange | Sources/KVKCalendar/ScrollableWeekView.swift:55-65 | a date equal to the picked date changes nothing; any other moves the scroll position to its page |
| ScrollableWeekNew.ScrollableWeekNewView.DateChanged | Sources/KVKCalendar/ScrollableWeekView.swift:55-65 | the owner's new date is taken; the strip scrolls only when the value changed and differs from the picked date; the date is never written back; afterwards the two dates agree exactly when the new date is the picked one |
| ScrollableWeekNew.ScrollableWeekNewView.OnScrollingDateChange | Sources/KVKCalendar/ScrollableWeekView.swift:66-69 | a picked date differing from the owner's is written back once, without moving the scroll position (the re-entered date handler returns at once) |
| ScrollableWeekNew.ScrollableWeekNewView.SetScrollingDate | Sources/KVKCalendar/ScrollableWeekView.swift:66-69 | the picked date is set; the owner's date is written only when the picked date changed and differs from it |
| ScrollableWeekNew.ScrollableWeekNewView.TapDay | Sources/KVKCalendar/ScrollableWeekView.swift:185-190 | a dated cell becomes the picked date, and is written to the owner when both differ; padding cells do nothing; from agreeing dates a tap leaves both on the tapped day |
| ScrollableWeekNew.ScrollableWeekNewView.PhaseChanged | Sources/KVKCalendar/ScrollableWeekView.swift:160-169 | interacting starts a user scroll, animating ends it, other phases change nothing |
| ScrollableWeekNew.ScrollableWeekNewView.VisibilityChanged | Sources/KVKCalendar/ScrollableWeekView.swift:170-182 | outside a user scroll, with no visible page, or when the last page resolves to nothing or to the current date, nothing changes; otherwise that date is picked, the strip is positioned at the page, and the date is written back when it changed |
| ScrollableWeekNew.StaleTapIgnored | Sources/KVKCalendar/ScrollableWeekView.swift:55-69 | after the user picks day 1 and the owner moves the date to day 0, a second tap on day 1 leaves the date at 0 |
| ScrollableWeekNew.ScrollableWeekNewView.DateChangedSynced | Sources/KVKCalendar/ScrollableWeekView.swift:55-69 | like DateChanged, but the picked date follows the owner's date, so the two agree after every change |
| ScrollableWeekNew.SyncedTapTakesEffect | Sources/KVKCalendar/ScrollableWeekView.swift:55-69 | with the picked date kept in step, the same sequence of events ends on the tapped day |
| YearGrouping.FindSection | Sources/KVKCalendar/YearData.swift:44 | the result is the first section of the year, and None means no section has it |
| YearGrouping.GroupByYear | Sources/KVKCalendar/YearData.swift:41-50 | there is one section per year, in order of first appearance; each holds exactly that year's months in input order and is dated by the first; no two sections share a year; no month is lost or duplicated |
| YearGrouping.YearsDistinct | Sources/KVKCalendar/YearData.swift:44-45 | a year gets at most one section |
| YearGrouping.YearsListed | Sources/KVKCalendar/YearData.swift:44-45 | a year has a section exactly when some month has that year |
| YearGrouping.YearsInFirstAppearanceOrder | Sources/KVKCalendar/YearData.swift:44-45 | a later section's year first appears after a month of every earlier section's year |
| YearGrouping.MonthsOfYearHaveIt | Sources/KVKCalendar/YearData.swift:48 | a section holds only months of its own year |
| YearGrouping.MonthInItsYear | Sources/KVKCalendar/YearData.swift:44-48 | every month is among its year's months |
| YearGrouping.FirstMonthOfYear | Sources/KVKCalendar/YearData.swift:45 | a year's months begin with the first month of that year in the input |
| YearGrouping.AllMonthsCounted | Sources/KVKCalendar/YearData.swift:41-50 | over all years, every month is counted exactly once |
| YearGrouping.GroupedMonthPlaced | Sources/KVKCalendar/YearData.swift:41-50 | in the grouping every month sits in the section of its year |
| YearGrouping.GroupedSectionDated | Sources/KVKCalendar/YearData.swift:41-50 | in the grouping a section holds only input months of its year, and is dated by the first input month of that year |
| YearGrouping.SelectedDate | Sources/KVKCalendar/YearData.swift:53-57 | the date built from the components is used when the calendar can build it, otherwise the given date; with a lawful calendar a built date has the given date's year and month and the previous date's day |
| YearGrouping.SelectedDateIdempotent | Sources/KVKCalendar/YearData.swift:53-57 | with a lawful calendar, selecting the picked date again with the same previous date gives the same date |
| YearGrouping.YearData.constructor | Sources/KVKCalendar/YearData.swift:37-51 | the sections are the grouping of the months by year, and hold every month |
| YearGrouping.YearData.ItemsInPage | Sources/KVKCalendar/YearData.swift:27-35 | a page holds rows times columns, which is 12 months |
| YearGrouping.YearData.MiddleRowInPage | Sources/KVKCalendar/YearData.swift:27-35 | the middle position is half a page, which is 6 |
| YearGrouping.YearData.HandleSelectedDate | Sources/KVKCalendar/YearData.swift:53-57 | the date becomes the selected date built from the new date's year and month and the old date's day |

## Left out

- Layout, colours, fonts, cells, titles and the corner button: they are presentation only. The segmented control's action is `PickTimeZone`.
- `scrollViewDidScroll` and `trackingTranslation`: these are pan-gesture reporting while a drag is in progress. The translation at the end of a drag is a parameter of `WillEndDragging`.
- `scrollHeaderByTransform`, `getDateByPointX`, `reloadFrame` and the layout part of `setUI`: they depend on the collection view's geometry. The one state effect of `setUI`, a custom header view emptying the grid and reloading it, is part of `UpdateStyle`.
- Delays: a delayed scroll is logged when scheduled. The timing and interleaving of the delayed closures is not modelled.
- The `Coordinator`'s `calculateDateWithOffset` fallback: adding days to a day number cannot fail, so the fallback to the current date never applies. The same holds for `ScrollableWeekView.calculateDateWithOffset`.
- The Date extension (`kvkStartSundayOfWeek`, `kvkStartMondayOfWeek`, `kvkIsEqual`, `kvkYear`, `kvkMonth`, `kvkDay`) is not part of this model. Week starts and same-day comparison are defined on day numbers. Year, month and day come from the calendar record.
- `ScrollableWeekProtocol` is not part of this model. The SwiftUI view's page lookup is assumed to be the same first-week search as `getIdxByDate`. The date a visible page resolves to (`getDateByScrollId`) is a parameter of `VisibilityChanged`.
- The `Task`/`MainActor` hops in the SwiftUI view: each handler's effect is applied at once.
- The view's own "Today" button (`date = .now`, lines 91-93): it writes the owner's `date` binding, and that write is covered by `DateChanged`. The clock itself is not modelled.
- Weak `self` in the menu action: the case where the view is gone is not modelled.
- `TimeZone(identifier:)` and `TimeZone.current` are parameters of `ToggleTimeZone`: the zone the system resolves, and the current zone.
- The `Day` fields other than its date (type and events), and the months' content other than their date: no operation of the core reads them.
- The preview views: they are not part of the behaviour.

## Findings

| source | as written | input that shows it | evidently intended | confidence | as-written member | corrected member |
|---|---|---|---|---|---|---|
| Sources/KVKCalendar/ScrollableWeekView.swift:55-69 | `onChange(of: date)` scrolls but never updates `scrollingDate`, so after an owner-side date change the strip still holds the previously picked day | tap day 1, the owner sets the date to day 0, tap day 1 again: `scrollingDate` does not change, its handler does not run, and the date stays 0 | tapping a day always selects it, so the picked date follows external date changes | medium, not executed | ScrollableWeekNew.StaleTapIgnored | ScrollableWeekNew.ScrollableWeekNewView.DateChangedSynced |

# Date picker month grid and year list, modelled in Dafny

This project models the calendar arithmetic under the date picker of the
io.doist.datetimepicker library: the month list of `DayPickerView` and its two
month adapters (`SimpleMonthAdapter`, a list adapter, and `SimpleMonthAdapterR`,
a RecyclerView adapter), and the year list of `YearPickerView`.

- Dates are the three Calendar fields the code reads: YEAR, MONTH (0..11) and
  DAY_OF_MONTH. `CalendarDate.Date` only admits normalised dates, as a
  Calendar only holds those. Calendar comparison becomes the
  lexicographic order `CalendarDate.Before`. Months are compared through
  `MonthIndex(year, month) = 12 * year + month`.
- `MonthSlots` holds the slot arithmetic that the adapters and the view share:
  - the slot count `12*Δyear + Δmonth + 1`;
  - the month shown at a slot;
  - the clamped slot of a date;
  - the enabled day range of a month;
  - the selected-day-or-−1 value.
- `MonthMark` holds the five-way month mark (`NONE`, `ALL`, `UNTIL`, `AFTER`,
  `BEWEEN`, the source's spelling). Both adapters contain the same code for it,
  so it is modelled once. `MonthBinding.BindMonth` is what both adapters hand
  to a month view, so the two adapters bind every slot alike.
- The adapters, `DayPickerView`, `YearPickerView` and its `YearAdapter` are
  classes whose methods update their fields as the Java setters and click
  listeners do.
- `AccessibilityScroll` holds the month step of the accessibility scroll
  actions, as written and corrected (see Findings).

Behaviours of the code worth noting:
- The month holding the chronologically **later** endpoint gets `UNTIL` and the
  one holding the earlier endpoint gets `AFTER`.
- The two adapters' mark logic is identical.
- A month other than max's month is enabled up to the constant 31.
- `updateToAdapterData` creates its list with capacity `maxYear - minYear`, so
  a backwards year range throws `IllegalArgumentException`.
- The year list highlights the current year (`Calendar.getInstance()`).
- A tap changes the adapter's selection only. The view's own `mSelectedDay`
  (what `getDate` returns) is left alone by the tap path.

Clocks are parameters: every constructor takes `now`, and `YearPickerView.Init`
takes the current year. The layout manager's first visible position is a
parameter of `NextMonth`, `PrevMonth` and `PerformAccessibilityScroll`. The
scroll position is the last position requested from `scrollToPosition`.
Listeners are reduced to whether one is registered and what it receives.

## Model

| member | source | states |
|---|---|---|
| `MonthSlots.DiffMonths` | DateTimePickerLibrary/src/main/java/io/doist/datetimepicker/date/DayPickerView.java:145-149 | the signed month difference equals the difference of the two month indices |
| `MonthSlots.DiffMonthsLaws` | DateTimePickerLibrary/src/main/java/io/doist/datetimepicker/date/DayPickerView.java:145-149 | zero for the same month, negated when the arguments swap, additive along a chain |
| `CalendarDate.InMonth` | DateTimePickerLibrary/src/main/java/io/doist/datetimepicker/date/SimpleMonthAdapter.java:234-240 | for months in 0..11, a date lies in a month exactly when its month index is that month's index (isAnchorInMonth and isSelectedDayInMonth) |
| `MonthSlots.SlotCount` | DateTimePickerLibrary/src/main/java/io/doist/datetimepicker/date/SimpleMonthAdapter.java:116-120 | one slot per month from min's month to max's month inclusive; at least 1 when min's month is not after max's |
| `MonthSlots.SlotToMonth` | DateTimePickerLibrary/src/main/java/io/doist/datetimepicker/date/SimpleMonthAdapter.java:158-162 | slot `p` shows a month 0..11 exactly `p` months after min's month |
| `MonthSlots.FirstSlotIsMinMonth` | DateTimePickerLibrary/src/main/java/io/doist/datetimepicker/date/SimpleMonthAdapter.java:158-162 | slot 0 shows min's year and month |
| `MonthSlots.LastSlotIsMaxMonth` | DateTimePickerLibrary/src/main/java/io/doist/datetimepicker/date/SimpleMonthAdapter.java:158-162 | slot `getCount()-1` shows max's year and month |
| `MonthSlots.NextSlotIsNextMonth` | DateTimePickerLibrary/src/main/java/io/doist/datetimepicker/date/SimpleMonthAdapter.java:158-162 | consecutive slots show consecutive calendar months, carrying the year after December |
| `MonthSlots.Constrain` | DateTimePickerLibrary/src/main/java/io/doist/datetimepicker/date/DayPickerView.java:154 | the result lies in [low, high] when low <= high; values inside are kept, values below give low, values above give high |
| `MonthSlots.PositionFromDay` | DateTimePickerLibrary/src/main/java/io/doist/datetimepicker/date/DayPickerView.java:151-155 | for an ordered range the slot lies in [0, getCount()); months before min's give 0, months after max's give the last slot, months in between their offset from min's month |
| `MonthSlots.PositionThenSlotIsDayMonth` | DateTimePickerLibrary/src/main/java/io/doist/datetimepicker/date/DayPickerView.java:151-155 | for a date whose month is in range, the slot it scrolls to shows that month |
| `MonthSlots.SlotThenPositionIsSlot` | DateTimePickerLibrary/src/main/java/io/doist/datetimepicker/date/DayPickerView.java:151-155 | every date of the month a slot shows scrolls back to that slot |
| `MonthSlots.EnabledBounds` | DateTimePickerLibrary/src/main/java/io/doist/datetimepicker/date/SimpleMonthAdapter.java:174-186 | start is min's day in min's month and 1 elsewhere; end is max's day in max's month and 31 elsewhere |
| `MonthSlots.EnabledBoundsMatchTapGate` | DateTimePickerLibrary/src/main/java/io/doist/datetimepicker/date/SimpleMonthAdapter.java:242-244 | in every month of the range, a day is inside the enabled bounds exactly when the tap gate accepts it |
| `MonthSlots.SelectedDayValue` | DateTimePickerLibrary/src/main/java/io/doist/datetimepicker/date/SimpleMonthAdapter.java:163-168 | the value is not -1 exactly when the selection lies in the month, and is then the selection's day |
| `MonthSlots.IsCalendarInRange` | DateTimePickerLibrary/src/main/java/io/doist/datetimepicker/date/SimpleMonthAdapter.java:242-244 | an accepted date's month lies between min's and max's months, every date of a month strictly between them is accepted, and nothing is accepted when max is before min; SimpleMonthAdapterR.java:198-200 is the same test |
| `MonthMark.IsMonthInAnchorRange` | DateTimePickerLibrary/src/main/java/io/doist/datetimepicker/date/SimpleMonthAdapter.java:217-232 | true exactly when the month lies between the anchor's and the selection's months, inclusive, in either order |
| `MonthMark.MonthInAnchorRangeSymmetric` | DateTimePickerLibrary/src/main/java/io/doist/datetimepicker/date/SimpleMonthAdapterR.java:173-188 | swapping anchor and selection does not change the span test |
| `MonthMark.GetMonthMarkType` | DateTimePickerLibrary/src/main/java/io/doist/datetimepicker/date/SimpleMonthAdapter.java:201-215 | NONE exactly outside the span; BEWEEN exactly when the month holds both endpoints |
| `MonthMark.MarkIsSpanMark` | DateTimePickerLibrary/src/main/java/io/doist/datetimepicker/date/SimpleMonthAdapter.java:201-215 | the mark equals the reference classification of the chronologically ordered span: later endpoint's month UNTIL, earlier's AFTER, both BEWEEN, other months of the span ALL, outside NONE |
| `MonthMark.MarkSymmetric` | DateTimePickerLibrary/src/main/java/io/doist/datetimepicker/date/SimpleMonthAdapterR.java:157-171 | swapping anchor and selection never changes a month's mark |
| `MonthMark.JuneToAugustExample` | DateTimePickerLibrary/src/main/java/io/doist/datetimepicker/date/SimpleMonthAdapter.java:201-215 | selection 15 June 2022 and anchor 20 August 2022 mark June AFTER, July ALL, August UNTIL and September NONE |
| `MonthBinding.BindMonth` | DateTimePickerLibrary/src/main/java/io/doist/datetimepicker/date/SimpleMonthAdapter.java:158-195 | the view of slot `p` gets the month `p` months after min's, the selected-day value, the enabled bounds, the anchor's day only for the anchor's month, and a mark exactly when there is an anchor |
| `MonthBinding.BoundSlotsCoverRange` | DateTimePickerLibrary/src/main/java/io/doist/datetimepicker/date/SimpleMonthAdapter.java:174-186 | every slot's month lies in the range, and its enabled bounds admit exactly the days the tap gate accepts |
| `MonthAdapter.SimpleMonthAdapter.constructor` | DateTimePickerLibrary/src/main/java/io/doist/datetimepicker/date/SimpleMonthAdapter.java:36-50 | range and selection start at now, with no anchor and no listener |
| `MonthAdapter.SimpleMonthAdapter.SetRange` | DateTimePickerLibrary/src/main/java/io/doist/datetimepicker/date/SimpleMonthAdapter.java:52-57 | copies both bounds; nothing else changes |
| `MonthAdapter.SimpleMonthAdapter.SetAnchor` | DateTimePickerLibrary/src/main/java/io/doist/datetimepicker/date/SimpleMonthAdapter.java:59-61 | sets the anchor, or clears it; nothing else changes |
| `MonthAdapter.SimpleMonthAdapter.SetFirstDayOfWeek` | DateTimePickerLibrary/src/main/java/io/doist/datetimepicker/date/SimpleMonthAdapter.java:63-67 | sets the first day of week; nothing else changes |
| `MonthAdapter.SimpleMonthAdapter.SetSelectedDay` | DateTimePickerLibrary/src/main/java/io/doist/datetimepicker/date/SimpleMonthAdapter.java:78-82 | sets the selection with no range check; nothing else changes |
| `MonthAdapter.SimpleMonthAdapter.SetOnDaySelectedListener` | DateTimePickerLibrary/src/main/java/io/doist/datetimepicker/date/SimpleMonthAdapter.java:89-91 | registers or clears the listener; nothing else changes |
| `MonthAdapter.SimpleMonthAdapter.GetFirstDayOfWeek` | DateTimePickerLibrary/src/main/java/io/doist/datetimepicker/date/SimpleMonthAdapter.java:69-71 | returns the first day of week last set |
| `MonthAdapter.SimpleMonthAdapter.GetCount` | DateTimePickerLibrary/src/main/java/io/doist/datetimepicker/date/SimpleMonthAdapter.java:115-120 | the month count of the range, at least 1 for an ordered range |
| `MonthAdapter.SimpleMonthAdapter.GetItemId` | DateTimePickerLibrary/src/main/java/io/doist/datetimepicker/date/SimpleMonthAdapter.java:127-130 | an item's id is its position |
| `MonthAdapter.SimpleMonthAdapter.GetView` | DateTimePickerLibrary/src/main/java/io/doist/datetimepicker/date/SimpleMonthAdapter.java:137-199 | binds slot `p` from the adapter's current range, selection, anchor and first day of week |
| `MonthAdapter.SimpleMonthAdapter.OnDayClick` | DateTimePickerLibrary/src/main/java/io/doist/datetimepicker/date/SimpleMonthAdapter.java:246-257 | a null or out-of-range day changes nothing and notifies nobody; an in-range day becomes the selection and then reaches the listener if one is registered |
| `MonthAdapterR.SimpleMonthAdapterR.constructor` | DateTimePickerLibrary/src/main/java/io/doist/datetimepicker/date/SimpleMonthAdapterR.java:17-31 | range and selection start at now, with no anchor and no listener |
| `MonthAdapterR.SimpleMonthAdapterR.OnBindViewHolder` | DateTimePickerLibrary/src/main/java/io/doist/datetimepicker/date/SimpleMonthAdapterR.java:39-80 | binds slot `p` exactly as the list adapter does |
| `MonthAdapterR.SimpleMonthAdapterR.GetItemCount` | DateTimePickerLibrary/src/main/java/io/doist/datetimepicker/date/SimpleMonthAdapterR.java:82-87 | the same month count as the list adapter |
| `MonthAdapterR.SimpleMonthAdapterR.SetRange` | DateTimePickerLibrary/src/main/java/io/doist/datetimepicker/date/SimpleMonthAdapterR.java:89-94 | copies both bounds; nothing else changes |
| `MonthAdapterR.SimpleMonthAdapterR.SetAnchor` | DateTimePickerLibrary/src/main/java/io/doist/datetimepicker/date/SimpleMonthAdapterR.java:96-98 | sets the anchor, or clears it; nothing else changes |
| `MonthAdapterR.SimpleMonthAdapterR.SetFirstDayOfWeek` | DateTimePickerLibrary/src/main/java/io/doist/datetimepicker/date/SimpleMonthAdapterR.java:100-104 | sets the first day of week; nothing else changes |
| `MonthAdapterR.SimpleMonthAdapterR.SetSelectedDay` | DateTimePickerLibrary/src/main/java/io/doist/datetimepicker/date/SimpleMonthAdapterR.java:115-119 | sets the selection with no range check; nothing else changes |
| `MonthAdapterR.SimpleMonthAdapterR.SetOnDaySelectedListener` | DateTimePickerLibrary/src/main/java/io/doist/datetimepicker/date/SimpleMonthAdapterR.java:126-128 | registers or clears the listener; nothing else changes |
| `MonthAdapterR.SimpleMonthAdapterR.GetFirstDayOfWeek` | DateTimePickerLibrary/src/main/java/io/doist/datetimepicker/date/SimpleMonthAdapterR.java:106-108 | returns the first day of week last set |
| `MonthAdapterR.SimpleMonthAdapterR.GetItemId` | DateTimePickerLibrary/src/main/java/io/doist/datetimepicker/date/SimpleMonthAdapterR.java:152-155 | an item's id is its position |
| `MonthAdapterR.SimpleMonthAdapterR.OnDayClick` | DateTimePickerLibrary/src/main/java/io/doist/datetimepicker/date/SimpleMonthAdapterR.java:202-213 | a null or out-of-range day changes nothing and notifies nobody; an in-range day becomes the selection and then reaches the listener if one is registered |
| `DayPicker.DayPickerView.constructor` | DateTimePickerLibrary/src/main/java/io/doist/datetimepicker/date/DayPickerView.java:28-66 | view and adapter start at now with the same range; the proxy listener is installed on the adapter |
| `DayPicker.DayPickerView.GetDate` | DateTimePickerLibrary/src/main/java/io/doist/datetimepicker/date/DayPickerView.java:81-83 | returns the view's own selection (as a date rather than epoch milliseconds), which SetDate sets and a tap leaves alone |
| `DayPicker.DayPickerView.GoTo` | DateTimePickerLibrary/src/main/java/io/doist/datetimepicker/date/DayPickerView.java:179-193 | with setSelected the day becomes the view's and the adapter's selection, otherwise neither changes; the scroll position becomes the day's clamped slot |
| `DayPicker.DayPickerView.SetDate` | DateTimePickerLibrary/src/main/java/io/doist/datetimepicker/date/DayPickerView.java:73-79 | getDate() returns the day afterwards, with no range check; the scroll position is its clamped slot |
| `DayPicker.DayPickerView.OnRangeChanged` | DateTimePickerLibrary/src/main/java/io/doist/datetimepicker/date/DayPickerView.java:118-124 | the adapter takes the view's range; the selection is kept and the scroll position is its slot in the new range |
| `DayPicker.DayPickerView.SetMinDate` | DateTimePickerLibrary/src/main/java/io/doist/datetimepicker/date/DayPickerView.java:93-96 | only the lower bound changes; the selection stays and its slot is recomputed |
| `DayPicker.DayPickerView.SetMaxDate` | DateTimePickerLibrary/src/main/java/io/doist/datetimepicker/date/DayPickerView.java:102-105 | only the upper bound changes; the selection stays and its slot is recomputed |
| `DayPicker.DayPickerView.SetAnchorDate` | DateTimePickerLibrary/src/main/java/io/doist/datetimepicker/date/DayPickerView.java:111-113 | hands the anchor to the adapter |
| `DayPicker.DayPickerView.SetFirstDayOfWeek` | DateTimePickerLibrary/src/main/java/io/doist/datetimepicker/date/DayPickerView.java:85-87 | hands the first day of week to the adapter |
| `DayPicker.DayPickerView.SetOnDaySelectedListener` | DateTimePickerLibrary/src/main/java/io/doist/datetimepicker/date/DayPickerView.java:131-133 | registers or clears the caller's listener |
| `DayPicker.DayPickerView.OnDayTapped` | DateTimePickerLibrary/src/main/java/io/doist/datetimepicker/date/DayPickerView.java:400-407 | a tap is gated by the adapter and forwarded by the proxy listener; the view's own selection is unchanged |
| `DayPicker.DayPickerView.PerformAccessibilityScroll` | DateTimePickerLibrary/src/main/java/io/doist/datetimepicker/date/DayPickerView.java:350-390 | scrolls to the corrected one-month step from the first visible slot; the selection is unchanged |
| `DayPicker.DayPickerView.NextMonth` | DateTimePickerLibrary/src/main/java/io/doist/datetimepicker/date/DayPickerView.java:409-411 | requests the first visible position plus one, unclamped |
| `DayPicker.DayPickerView.PrevMonth` | DateTimePickerLibrary/src/main/java/io/doist/datetimepicker/date/DayPickerView.java:413-415 | requests the first visible position minus one, unclamped |
| `AccessibilityScroll.Step` | DateTimePickerLibrary/src/main/java/io/doist/datetimepicker/date/DayPickerView.java:364-384 | forward moves one month on; backward moves one month back only when the first view is fully visible |
| `AccessibilityScroll.VisibleMonthAsWritten` | DateTimePickerLibrary/src/main/java/io/doist/datetimepicker/date/DayPickerView.java:358-360 | as written, the first visible slot's month is counted from January of min's year |
| `AccessibilityScroll.VisibleMonthAsWrittenIsWrong` | DateTimePickerLibrary/src/main/java/io/doist/datetimepicker/date/DayPickerView.java:358-360 | unless min is in January, that month differs from the month the adapter shows at the slot |
| `AccessibilityScroll.ScrollTargetAsWritten` | DateTimePickerLibrary/src/main/java/io/doist/datetimepicker/date/DayPickerView.java:358-388 | as written, the slot scrolled to lies in [0, getCount()) for an ordered range |
| `AccessibilityScroll.ForwardScrollAsWrittenStuck` | DateTimePickerLibrary/src/main/java/io/doist/datetimepicker/date/DayPickerView.java:358-388 | with range March to December 2020, a forward scroll from slot 0 as written stays on slot 0 |
| `AccessibilityScroll.ScrollTarget` | DateTimePickerLibrary/src/main/java/io/doist/datetimepicker/date/DayPickerView.java:358-388 | corrected, the slot scrolled to lies in [0, getCount()) for an ordered range; ScrollTargetMovesOneSlot states which slot |
| `AccessibilityScroll.ScrollTargetMovesOneSlot` | DateTimePickerLibrary/src/main/java/io/doist/datetimepicker/date/DayPickerView.java:358-388 | corrected, a forward scroll moves one slot on and a backward scroll one slot back, clamped, and a partly visible first view stays put |
| `YearPicker.WithYear` | DateTimePickerLibrary/src/main/java/io/doist/datetimepicker/date/YearPickerView.java:77-79 | changing the year keeps month and day when they exist in that year; 29 February otherwise rolls to 1 March |
| `YearPicker.IndexOf` | DateTimePickerLibrary/src/main/java/io/doist/datetimepicker/date/YearPickerView.java:166 | the first position holding the year, or -1 exactly when it is absent |
| `YearPicker.IndexOfYearList` | DateTimePickerLibrary/src/main/java/io/doist/datetimepicker/date/YearPickerView.java:163-170 | in a year list, a year's position is its offset from the first year, and -1 outside the range |
| `YearPicker.YearListAscending` | DateTimePickerLibrary/src/main/java/io/doist/datetimepicker/date/YearPickerView.java:108-118 | the year list is strictly ascending |
| `YearPicker.YearAdapter.constructor` | DateTimePickerLibrary/src/main/java/io/doist/datetimepicker/date/YearPickerView.java:163-170 | the selected position is the year's index or -1, and the last selected position starts equal to it |
| `YearPicker.YearAdapter.GetItemCount` | DateTimePickerLibrary/src/main/java/io/doist/datetimepicker/date/YearPickerView.java:228-231 | the item count is the length of the year list |
| `YearPicker.YearAdapter.IsHighlighted` | DateTimePickerLibrary/src/main/java/io/doist/datetimepicker/date/YearPickerView.java:210 | only the stored selected position is highlighted; after Init these are exactly the items showing the current year |
| `YearPicker.YearAdapter.OnYearClick` | DateTimePickerLibrary/src/main/java/io/doist/datetimepicker/date/YearPickerView.java:217-224 | the listener receives the clicked year and the last selected position becomes the clicked one; the highlighted position does not move |
| `YearPicker.YearPickerView.constructor` | DateTimePickerLibrary/src/main/java/io/doist/datetimepicker/date/YearPickerView.java:77-79 | before setRange the years run from now - 100 to now + 100 |
| `YearPicker.YearPickerView.SetRange` | DateTimePickerLibrary/src/main/java/io/doist/datetimepicker/date/YearPickerView.java:82-85 | copies both dates; the year list already built is not rebuilt |
| `YearPicker.YearPickerView.UpdateToAdapterData` | DateTimePickerLibrary/src/main/java/io/doist/datetimepicker/date/YearPickerView.java:108-118 | fails with an illegal capacity exactly when maxYear < minYear; otherwise maxYear-minYear+1 years with years[i] == minYear + i |
| `YearPicker.YearPickerView.Init` | DateTimePickerLibrary/src/main/java/io/doist/datetimepicker/date/YearPickerView.java:87-95 | on an ordered range the adapter lists the range's years and highlights the current year's offset, or -1 outside the range, so exactly the items showing the current year are highlighted; a backwards range installs no adapter |

## Left out

- View plumbing is not modelled:
  - inflation and layout parameters;
  - view recycling (`reuse`) and `notifyDataSetChanged`/`notifyDataSetInvalidated`;
  - view holders and `SimpleMonthView` drawing, text colours and appearances;
  - the snap helper;
  - `scrollToPosition` itself, modelled as the recorded position;
  - layout-manager visibility queries, which are parameters.

  These are calls into Android code with no logic visible here. `SimpleMonthView` is not part of this model.
- Accessibility focus (`findAccessibilityFocus`, `restoreAccessibilityFocus`, `onInitializeAccessibility*`) and the announcement text are not modelled. They are Android node and event glue.
- The month-12 and month-(-1) checks in `performAccessibilityAction` are dead code once Calendar normalises a month, so they have no counterpart.
- DayPicker.DayPickerView.PerformAccessibilityScroll: requires a first visible position of at least 0. The layout manager's "no position" value (-1) is not modelled.
- `YearPickerView.onDateChanged` scroll arithmetic, vibration and the controller callbacks are left out: they only drive Android and the caller's controller.
- The dialog-fragment delegates are left out. They only fill Bundles and inflate dialogs.
- `getMonthAndYearString` and the year format are left out: they are locale formatting.
- MathUtils is not part of this model. `MonthSlots.Constrain` follows the usual lower-bound-first clamp.
- Calendar internals are abstracted:
  - time of day, time zones and millisecond timestamps;
  - the Julian calendar before 1582, since dates use the proleptic Gregorian calendar.

  Comparisons (`after`, `compareTo` in `isCalendarInRange`) become date order. Two Calendars on the same day with different times therefore compare equal here.
- MonthMark.IsMonthInAnchorRange: models the intended month-granularity comparison. The source builds its three comparison Calendars from separate `Calendar.getInstance()` calls, so they also carry today's day and time. If the clock ticks between those calls, the later endpoint's month can compare as outside the span. That timing is not modelled.
- Java `int` overflow is not modelled. Years and month counts are unbounded integers. A `maxYear` of `Integer.MAX_VALUE` would make the year loop wrap.
- The Calendar objects the setters receive are shared by reference in Java (`setAnchor`, `setSelectedDay`). Here they are values, so later mutation of a caller's Calendar is not reflected. For `setRange`, which copies, the two agree.
- YearPicker.YearAdapter.OnYearClick: requires a valid adapter position. `getAdapterPosition()` returning "no position" would make `years.get` throw, and that is not modelled.
- Parameters that `goTo` and `setDate` ignore (`animate`, `forceScroll`) and the unused temporary calendar are dropped.

## Findings

| source | as written | input that shows it | evidently intended | confidence | as-written member | corrected member |
|---|---|---|---|---|---|---|
| DateTimePickerLibrary/src/main/java/io/doist/datetimepicker/date/DayPickerView.java:358-360 | the first visible slot's month is `position % 12` of year `position / 12 + minYear`, ignoring min's month | range March 2020 to December 2020, first visible slot 0 (March 2020), scroll forward: the code steps from January to February 2020 and clamps back to slot 0 | read the slot's month as the adapters do (`position + minMonth`), so a forward scroll reaches April (slot 1) | high (not executed) | `AccessibilityScroll.ForwardScrollAsWrittenStuck` | `AccessibilityScroll.ScrollTargetMovesOneSlot` |

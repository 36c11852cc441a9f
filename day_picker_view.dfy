/**
 * DayPickerView: the scrolling month list. It keeps its own selected day and
 * range, mirrors the range into its SimpleMonthAdapter, and scrolls to the
 * slot of a date. The scroll position is the last position handed to
 * scrollToPosition; the layout manager's first visible position is an input.
 */
module DayPicker {
  import opened Wrappers
  import opened CalendarDate
  import opened MonthSlots
  import opened MonthAdapter
  import opened AccessibilityScroll

  class DayPickerView {
    const adapter: SimpleMonthAdapter
    var selectedDay: Date
    var minDate: Date
    var maxDate: Date
    /** The last position requested from scrollToPosition (0 before any request). */
    var scrollPosition: int
    /** Whether the caller registered an OnDaySelectedListener. */
    var hasDaySelectedListener: bool

    /** The adapter shows the view's range and reports taps to the view's proxy listener. */
    ghost predicate Valid()
      reads this, adapter
    {
      adapter.minDate == minDate && adapter.maxDate == maxDate && adapter.hasDaySelectedListener
    }

    /** The constructor and init(): every Calendar starts at `now`, and the proxy listener is installed. */
    constructor (now: Date)
      ensures Valid() && fresh(adapter)
      ensures selectedDay == now && minDate == now && maxDate == now
      ensures adapter.selectedDay == now && adapter.anchor == None
      ensures scrollPosition == 0 && !hasDaySelectedListener
    {
      var a := new SimpleMonthAdapter(now);
      a.SetOnDaySelectedListener(true);
      adapter := a;
      selectedDay, minDate, maxDate := now, now, now;
      scrollPosition := 0;
      hasDaySelectedListener := false;
    }

    /** getDate: the view's own selection (the source returns it as epoch milliseconds). */
    function GetDate(): (d: Date)
      reads this
      ensures d == selectedDay
    {
      selectedDay
    }

    /**
     * goTo: when `setSelected`, the day becomes the selection of the view and
     * of the adapter; in every case the list scrolls to the day's clamped slot.
     */
    method GoTo(day: Date, setSelected: bool)
      requires Valid()
      modifies this, adapter
      ensures Valid()
      ensures selectedDay == (if setSelected then day else old(selectedDay))
      ensures adapter.selectedDay == (if setSelected then day else old(adapter.selectedDay))
      ensures scrollPosition == PositionFromDay(minDate, maxDate, day)
      ensures minDate == old(minDate) && maxDate == old(maxDate)
      ensures hasDaySelectedListener == old(hasDaySelectedListener)
      ensures adapter.anchor == old(adapter.anchor) && adapter.firstDayOfWeek == old(adapter.firstDayOfWeek)
    {
      if setSelected {
        selectedDay := day;
      }
      var position := PositionFromDay(minDate, maxDate, day);
      if setSelected {
        adapter.SetSelectedDay(selectedDay);
      }
      scrollPosition := position;
    }

    /** setDate: select `day` with no range check and scroll to its clamped slot. */
    method SetDate(day: Date)
      requires Valid()
      modifies this, adapter
      ensures Valid()
      ensures GetDate() == day && adapter.selectedDay == day
      ensures scrollPosition == PositionFromDay(minDate, maxDate, day)
      ensures minDate == old(minDate) && maxDate == old(maxDate)
      ensures hasDaySelectedListener == old(hasDaySelectedListener)
      ensures adapter.anchor == old(adapter.anchor) && adapter.firstDayOfWeek == old(adapter.firstDayOfWeek)
    {
      GoTo(day, true);
    }

    /**
     * onRangeChanged: hand the range to the adapter and scroll to the slot of
     * the unchanged selection.
     */
    method OnRangeChanged()
      requires adapter.hasDaySelectedListener
      modifies this, adapter
      ensures Valid()
      ensures selectedDay == old(selectedDay) && adapter.selectedDay == old(adapter.selectedDay)
      ensures scrollPosition == PositionFromDay(minDate, maxDate, selectedDay)
      ensures minDate == old(minDate) && maxDate == old(maxDate)
      ensures hasDaySelectedListener == old(hasDaySelectedListener)
      ensures adapter.anchor == old(adapter.anchor) && adapter.firstDayOfWeek == old(adapter.firstDayOfWeek)
    {
      adapter.SetRange(minDate, maxDate);
      GoTo(selectedDay, false);
    }

    /** setMinDate: only the lower bound changes; the selection stays and its slot is recomputed. */
    method SetMinDate(min: Date)
      requires Valid()
      modifies this, adapter
      ensures Valid()
      ensures minDate == min && maxDate == old(maxDate)
      ensures selectedDay == old(selectedDay) && adapter.selectedDay == old(adapter.selectedDay)
      ensures scrollPosition == PositionFromDay(min, maxDate, selectedDay)
      ensures hasDaySelectedListener == old(hasDaySelectedListener)
      ensures adapter.anchor == old(adapter.anchor) && adapter.firstDayOfWeek == old(adapter.firstDayOfWeek)
    {
      minDate := min;
      OnRangeChanged();
    }

    /** setMaxDate: only the upper bound changes; the selection stays and its slot is recomputed. */
    method SetMaxDate(max: Date)
      requires Valid()
      modifies this, adapter
      ensures Valid()
      ensures maxDate == max && minDate == old(minDate)
      ensures selectedDay == old(selectedDay) && adapter.selectedDay == old(adapter.selectedDay)
      ensures scrollPosition == PositionFromDay(minDate, max, selectedDay)
      ensures hasDaySelectedListener == old(hasDaySelectedListener)
      ensures adapter.anchor == old(adapter.anchor) && adapter.firstDayOfWeek == old(adapter.firstDayOfWeek)
    {
      maxDate := max;
      OnRangeChanged();
    }

    method SetAnchorDate(anchorDate: Option<Date>)
      requires Valid()
      modifies adapter
      ensures Valid()
      ensures adapter.anchor == anchorDate
      ensures adapter.selectedDay == old(adapter.selectedDay) && adapter.firstDayOfWeek == old(adapter.firstDayOfWeek)
    {
      adapter.SetAnchor(anchorDate);
    }

    method SetFirstDayOfWeek(day: int)
      requires Valid()
      modifies adapter
      ensures Valid()
      ensures adapter.firstDayOfWeek == day
      ensures adapter.selectedDay == old(adapter.selectedDay) && adapter.anchor == old(adapter.anchor)
    {
      adapter.SetFirstDayOfWeek(day);
    }

    method SetOnDaySelectedListener(present: bool)
      modifies this
      ensures hasDaySelectedListener == present
      ensures selectedDay == old(selectedDay) && minDate == old(minDate) && maxDate == old(maxDate)
      ensures scrollPosition == old(scrollPosition)
    {
      hasDaySelectedListener := present;
    }

    /**
     * A tap on a day of a month view: the adapter's click listener gates it on
     * the range, and the proxy listener passes an accepted day on to the
     * caller's listener when one is registered. The view's own selection
     * (getDate) is not touched by a tap.
     */
    method OnDayTapped(day: Option<Date>) returns (delivered: Option<Date>)
      requires Valid()
      modifies adapter
      ensures Valid()
      ensures selectedDay == old(selectedDay)
      ensures if day.Some? && IsCalendarInRange(minDate, maxDate, day.value) then
                adapter.selectedDay == day.value && delivered == (if hasDaySelectedListener then day else None)
              else
                adapter.selectedDay == old(adapter.selectedDay) && delivered == None
      ensures adapter.anchor == old(adapter.anchor) && adapter.firstDayOfWeek == old(adapter.firstDayOfWeek)
    {
      var fromAdapter := adapter.OnDayClick(day);
      delivered := if fromAdapter.Some? && hasDaySelectedListener then fromAdapter else None;
    }

    /**
     * performAccessibilityAction for the two scroll actions: step one month
     * from the first visible slot's month and go to the first day of the
     * month reached, without selecting it. The first visible slot's month is
     * read as the adapter binds it (see AccessibilityScroll).
     */
    method PerformAccessibilityScroll(firstVisiblePosition: int, action: ScrollAction)
      requires Valid()
      requires 0 <= firstVisiblePosition
      modifies this, adapter
      ensures Valid()
      ensures scrollPosition == ScrollTarget(minDate, maxDate, firstVisiblePosition, action)
      ensures selectedDay == old(selectedDay) && adapter.selectedDay == old(adapter.selectedDay)
      ensures minDate == old(minDate) && maxDate == old(maxDate)
      ensures hasDaySelectedListener == old(hasDaySelectedListener)
      ensures adapter.anchor == old(adapter.anchor) && adapter.firstDayOfWeek == old(adapter.firstDayOfWeek)
    {
      var target := Step(SlotToMonth(minDate, firstVisiblePosition), action);
      GoTo(DateFields(target.year, target.month, 1), false);
    }

    /** nextMonth: request the slot after the first visible one, with no clamping. */
    method NextMonth(firstVisiblePosition: int)
      modifies this
      ensures scrollPosition == firstVisiblePosition + 1
      ensures selectedDay == old(selectedDay) && minDate == old(minDate) && maxDate == old(maxDate)
      ensures hasDaySelectedListener == old(hasDaySelectedListener)
    {
      scrollPosition := firstVisiblePosition + 1;
    }

    /** prevMonth: request the slot before the first visible one, with no clamping. */
    method PrevMonth(firstVisiblePosition: int)
      modifies this
      ensures scrollPosition == firstVisiblePosition - 1
      ensures selectedDay == old(selectedDay) && minDate == old(minDate) && maxDate == old(maxDate)
      ensures hasDaySelectedListener == old(hasDaySelectedListener)
    {
      scrollPosition := firstVisiblePosition - 1;
    }
  }
}

/**
 * SimpleMonthAdapter: the list adapter behind the day picker. Its state is
 * the range, the anchor, the selected day and the first day of week; every
 * slot is bound through MonthBinding.BindMonth.
 */
module MonthAdapter {
  import opened Wrappers
  import opened CalendarDate
  import opened MonthSlots
  import opened MonthBinding

  class SimpleMonthAdapter {
    var minDate: Date
    var maxDate: Date
    var anchor: Option<Date>
    var selectedDay: Date
    var firstDayOfWeek: int
    /** Whether an OnDaySelectedListener is registered (the listener itself is the caller's code). */
    var hasDaySelectedListener: bool

    /** Every Calendar field starts at `now`; there is no anchor and no listener. */
    constructor (now: Date)
      ensures minDate == now && maxDate == now && selectedDay == now
      ensures anchor == None && firstDayOfWeek == 0 && !hasDaySelectedListener
    {
      minDate, maxDate, selectedDay := now, now, now;
      anchor := None;
      firstDayOfWeek := 0;
      hasDaySelectedListener := false;
    }

    /** setRange copies both bounds and leaves everything else alone. */
    method SetRange(min: Date, max: Date)
      modifies this
      ensures minDate == min && maxDate == max
      ensures anchor == old(anchor) && selectedDay == old(selectedDay)
      ensures firstDayOfWeek == old(firstDayOfWeek) && hasDaySelectedListener == old(hasDaySelectedListener)
    {
      minDate, maxDate := min, max;
    }

    method SetAnchor(a: Option<Date>)
      modifies this
      ensures anchor == a
      ensures minDate == old(minDate) && maxDate == old(maxDate) && selectedDay == old(selectedDay)
      ensures firstDayOfWeek == old(firstDayOfWeek) && hasDaySelectedListener == old(hasDaySelectedListener)
    {
      anchor := a;
    }

    method SetFirstDayOfWeek(day: int)
      modifies this
      ensures firstDayOfWeek == day
      ensures minDate == old(minDate) && maxDate == old(maxDate) && selectedDay == old(selectedDay)
      ensures anchor == old(anchor) && hasDaySelectedListener == old(hasDaySelectedListener)
    {
      firstDayOfWeek := day;
    }

    function GetFirstDayOfWeek(): (day: int)
      reads this
      ensures day == firstDayOfWeek
    {
      firstDayOfWeek
    }

    /** setSelectedDay takes the day as given, with no range check. */
    method SetSelectedDay(day: Date)
      modifies this
      ensures selectedDay == day
      ensures minDate == old(minDate) && maxDate == old(maxDate) && anchor == old(anchor)
      ensures firstDayOfWeek == old(firstDayOfWeek) && hasDaySelectedListener == old(hasDaySelectedListener)
    {
      selectedDay := day;
    }

    method SetOnDaySelectedListener(present: bool)
      modifies this
      ensures hasDaySelectedListener == present
      ensures minDate == old(minDate) && maxDate == old(maxDate) && selectedDay == old(selectedDay)
      ensures anchor == old(anchor) && firstDayOfWeek == old(firstDayOfWeek)
    {
      hasDaySelectedListener := present;
    }

    /** getCount: one slot per month of the range. */
    function GetCount(): (n: int)
      reads this
      ensures n == MonthOf(maxDate) - MonthOf(minDate) + 1
      ensures MonthOf(minDate) <= MonthOf(maxDate) ==> n >= 1
    {
      SlotCount(minDate, maxDate)
    }

    /** getItemId: ids are the positions themselves (hasStableIds). */
    function GetItemId(position: int): (id: int)
      ensures id == position
    {
      position
    }

    /** getView: the parameters the view of slot `position` receives. */
    function GetView(position: int): (p: MonthParams)
      reads this
      requires 0 <= position
      ensures p == BindMonth(minDate, maxDate, selectedDay, anchor, firstDayOfWeek, position)
    {
      BindMonth(minDate, maxDate, selectedDay, anchor, firstDayOfWeek, position)
    }

    /**
     * The day-click listener: a null day, or one outside [minDate, maxDate],
     * is ignored; otherwise the day becomes the selection and then the
     * registered listener, if any, receives it (`delivered`).
     */
    method OnDayClick(day: Option<Date>) returns (delivered: Option<Date>)
      modifies this
      ensures if day.Some? && IsCalendarInRange(minDate, maxDate, day.value) then
                selectedDay == day.value && delivered == (if hasDaySelectedListener then day else None)
              else
                selectedDay == old(selectedDay) && delivered == None
      ensures minDate == old(minDate) && maxDate == old(maxDate) && anchor == old(anchor)
      ensures firstDayOfWeek == old(firstDayOfWeek) && hasDaySelectedListener == old(hasDaySelectedListener)
    {
      delivered := None;
      if day.Some? && IsCalendarInRange(minDate, maxDate, day.value) {
        SetSelectedDay(day.value);
        if hasDaySelectedListener {
          delivered := day;
        }
      }
    }
  }
}

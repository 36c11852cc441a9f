/**
 * The month-slot arithmetic shared by the two month adapters and the day
 * picker: how many months the range [minDate, maxDate] spans, which month a
 * slot (adapter position) shows, which slot a date scrolls to, and which
 * days of a rendered month can be tapped.
 */
module MonthSlots {
  import opened CalendarDate

  /** Signed number of months from `start`'s month to `end`'s month (DayPickerView.getDiffMonths). */
  function DiffMonths(start: DateFields, end: DateFields): (r: int)
    ensures r == MonthOf(end) - MonthOf(start)
  {
    (end.month - start.month) + 12 * (end.year - start.year)
  }

  /** Same month gives zero; swapping the arguments negates; differences add up along a chain. */
  lemma DiffMonthsLaws(a: DateFields, b: DateFields, c: DateFields)
    ensures DiffMonths(a, a) == 0
    ensures DiffMonths(b, a) == -DiffMonths(a, b)
    ensures DiffMonths(a, b) + DiffMonths(b, c) == DiffMonths(a, c)
  {
  }

  /**
   * Number of month slots of the range (getCount / getItemCount): one slot
   * per month from min's month to max's month, both included.
   */
  function SlotCount(min: DateFields, max: DateFields): (n: int)
    ensures n == MonthOf(max) - MonthOf(min) + 1
    ensures MonthOf(min) <= MonthOf(max) ==> n >= 1
  {
    (max.month - min.month) + 12 * (max.year - min.year) + 1
  }

  /**
   * The month a slot shows (the getView / onBindViewHolder arithmetic):
   * `position` months after min's month. Adapter positions are never
   * negative, so Java's truncating `/` and `%` agree with Dafny's here.
   */
  function SlotToMonth(min: Date, position: int): (ym: YearMonth)
    requires 0 <= position
    ensures 0 <= ym.month < 12
    ensures MonthIndex(ym.year, ym.month) == MonthOf(min) + position
  {
    var currentMonth := position + min.month;
    YearMonth(currentMonth / 12 + min.year, currentMonth % 12)
  }

  /** Slot 0 shows min's own month. */
  lemma FirstSlotIsMinMonth(min: Date)
    ensures SlotToMonth(min, 0) == YearMonth(min.year, min.month)
  {
    var ym := SlotToMonth(min, 0);
    MonthIndexInjective(ym.year, ym.month, min.year, min.month);
  }

  /** The last slot shows max's month. */
  lemma LastSlotIsMaxMonth(min: Date, max: Date)
    requires MonthOf(min) <= MonthOf(max)
    ensures SlotToMonth(min, SlotCount(min, max) - 1) == YearMonth(max.year, max.month)
  {
    var ym := SlotToMonth(min, SlotCount(min, max) - 1);
    MonthIndexInjective(ym.year, ym.month, max.year, max.month);
  }

  /** Consecutive slots show consecutive calendar months. */
  lemma NextSlotIsNextMonth(min: Date, position: int)
    requires 0 <= position
    ensures SlotToMonth(min, position + 1) == NextMonth(SlotToMonth(min, position))
  {
    var here := SlotToMonth(min, position);
    var next := SlotToMonth(min, position + 1);
    var expected := NextMonth(here);
    MonthIndexInjective(next.year, next.month, expected.year, expected.month);
  }

  /** MathUtils.constrain: `amount` pulled into [low, high], the lower bound tested first. */
  function Constrain(amount: int, low: int, high: int): (r: int)
    ensures low <= high ==> low <= r <= high
    ensures low <= amount <= high ==> r == amount
    ensures amount < low ==> r == low
    ensures low <= high < amount ==> r == high
  {
    if amount < low then low else if amount > high then high else amount
  }

  /**
   * The slot a date scrolls to (DayPickerView.getPositionFromDay): its month's
   * offset from min's month, clamped into the valid slots.
   */
  function PositionFromDay(min: DateFields, max: DateFields, day: DateFields): (p: int)
    ensures MonthOf(min) <= MonthOf(max) ==> 0 <= p < SlotCount(min, max)
    ensures MonthOf(day) < MonthOf(min) ==> p == 0
    ensures MonthOf(min) <= MonthOf(max) < MonthOf(day) ==> p == SlotCount(min, max) - 1
    ensures MonthOf(min) <= MonthOf(day) <= MonthOf(max) ==> p == MonthOf(day) - MonthOf(min)
  {
    Constrain(DiffMonths(min, day), 0, DiffMonths(min, max))
  }

  /** A date whose month is in range scrolls to the slot that shows that month. */
  lemma PositionThenSlotIsDayMonth(min: Date, max: Date, day: Date)
    requires MonthOf(min) <= MonthOf(day) <= MonthOf(max)
    ensures SlotToMonth(min, PositionFromDay(min, max, day)) == YearMonth(day.year, day.month)
  {
    var ym := SlotToMonth(min, PositionFromDay(min, max, day));
    MonthIndexInjective(ym.year, ym.month, day.year, day.month);
  }

  /** Any date of the month a slot shows scrolls back to that slot. */
  lemma SlotThenPositionIsSlot(min: Date, max: Date, position: int, day: Date)
    requires 0 <= position < SlotCount(min, max)
    requires InMonth(day, SlotToMonth(min, position).year, SlotToMonth(min, position).month)
    ensures PositionFromDay(min, max, day) == position
  {
  }

  /** Calendar-in-range test of the tap gate (isCalendarInRange): min <= value <= max. */
  predicate IsCalendarInRange(min: Date, max: Date, value: Date): (b: bool)
    ensures b ==> MonthOf(min) <= MonthOf(value) <= MonthOf(max)
    ensures MonthOf(min) < MonthOf(value) < MonthOf(max) ==> b
    ensures b ==> !Before(max, min)
  {
    !Before(value, min) && !Before(max, value)
  }

  /** The inclusive day-of-month interval a rendered month enables. */
  datatype DayBounds = DayBounds(start: int, end: int)

  /** Last enabled day of a month other than max's: a constant, not the month's length. */
  const LastEnabledDay := 31

  /**
   * Enabled day range of the month `month` of `year`: it starts at min's day
   * in min's month and at 1 otherwise, and ends at max's day in max's month
   * and at 31 otherwise.
   */
  function EnabledBounds(min: Date, max: Date, year: int, month: int): (b: DayBounds)
    ensures 1 <= b.start <= 31 && 1 <= b.end <= LastEnabledDay
    ensures b.start == (if InMonth(min, year, month) then min.day else 1)
    ensures b.end == (if InMonth(max, year, month) then max.day else LastEnabledDay)
  {
    DayBounds(
      if min.month == month && min.year == year then min.day else 1,
      if max.month == month && max.year == year then max.day else LastEnabledDay)
  }

  /**
   * In every month of the range, the enabled interval admits exactly the
   * days that the tap gate accepts.
   */
  lemma EnabledBoundsMatchTapGate(min: Date, max: Date, day: Date)
    requires MonthOf(min) <= MonthOf(day) <= MonthOf(max)
    ensures var b := EnabledBounds(min, max, day.year, day.month);
      IsCalendarInRange(min, max, day) <==> b.start <= day.day <= b.end
  {
    var b := EnabledBounds(min, max, day.year, day.month);
    if MonthOf(day) == MonthOf(min) {
      MonthIndexInjective(day.year, day.month, min.year, min.month);
    } else {
      BeforeAcrossMonths(day, min);
    }
    if MonthOf(day) == MonthOf(max) {
      MonthIndexInjective(day.year, day.month, max.year, max.month);
    } else {
      BeforeAcrossMonths(max, day);
    }
  }

  /**
   * The selected-day value handed to a rendered month: the selection's day
   * of month when the selection lies in that month, -1 otherwise.
   */
  function SelectedDayValue(selected: Date, year: int, month: int): (r: int)
    ensures r != -1 <==> InMonth(selected, year, month)
    ensures r != -1 ==> r == selected.day
  {
    if InMonth(selected, year, month) then selected.day else -1
  }
}

/**
 * The month arithmetic of DayPickerView.performAccessibilityAction: read the
 * month of the first visible slot, step one month forward or back, and
 * scroll to the slot of the first day of the month reached.
 *
 * As written, the source reads the first visible slot's month as if slot 0
 * were January of min's year; the adapters put min's own month at slot 0.
 * Both readings are given here; the view uses the adapters' one.
 */
module AccessibilityScroll {
  import opened CalendarDate
  import opened MonthSlots

  /** A backward scroll moves a month only when the first visible month view is fully visible. */
  datatype ScrollAction = ScrollForward | ScrollBackward(firstViewFullyVisible: bool)

  /** Calendar.add(MONTH, ±1), or no move for a partly visible first view. */
  function Step(ym: YearMonth, action: ScrollAction): (r: YearMonth)
    requires 0 <= ym.month < 12
    ensures 0 <= r.month < 12
    ensures MonthIndex(r.year, r.month) == MonthIndex(ym.year, ym.month) +
      match action
      case ScrollForward => 1
      case ScrollBackward(full) => if full then -1 else 0
  {
    match action
    case ScrollForward => NextMonth(ym)
    case ScrollBackward(full) => if full then PrevMonth(ym) else ym
  }

  /** The first visible slot's month as the source computes it: counted from January of min's year. */
  function VisibleMonthAsWritten(min: Date, firstVisiblePosition: int): (ym: YearMonth)
    requires 0 <= firstVisiblePosition
    ensures 0 <= ym.month < 12
    ensures MonthIndex(ym.year, ym.month) == MonthIndex(min.year, 0) + firstVisiblePosition
  {
    YearMonth(firstVisiblePosition / 12 + min.year, firstVisiblePosition % 12)
  }

  /** The slot the source scrolls to for an accessibility action. */
  function ScrollTargetAsWritten(min: Date, max: Date, firstVisiblePosition: int, action: ScrollAction): (r: int)
    requires 0 <= firstVisiblePosition
    ensures MonthOf(min) <= MonthOf(max) ==> 0 <= r < SlotCount(min, max)
  {
    var target := Step(VisibleMonthAsWritten(min, firstVisiblePosition), action);
    PositionFromDay(min, max, DateFields(target.year, target.month, 1))
  }

  /**
   * Unless min falls in January, the source's reading of every visible slot
   * disagrees with the month the adapter shows in it.
   */
  lemma VisibleMonthAsWrittenIsWrong(min: Date, firstVisiblePosition: int)
    requires 0 <= firstVisiblePosition
    requires min.month != 0
    ensures VisibleMonthAsWritten(min, firstVisiblePosition) != SlotToMonth(min, firstVisiblePosition)
  {
    var written := VisibleMonthAsWritten(min, firstVisiblePosition);
    var shown := SlotToMonth(min, firstVisiblePosition);
    assert MonthIndex(written.year, written.month) != MonthIndex(shown.year, shown.month);
  }

  /**
   * With the range March 2020 to December 2020 and the list at its first
   * slot (March), scrolling forward stays on slot 0 instead of moving to
   * April: the source steps from January to February and clamps.
   */
  lemma ForwardScrollAsWrittenStuck()
    ensures ScrollTargetAsWritten(DateFields(2020, 2, 1), DateFields(2020, 11, 1), 0, ScrollForward) == 0
  {
  }

  /** The slot to scroll to, reading the first visible slot's month as the adapters bind it. */
  function ScrollTarget(min: Date, max: Date, firstVisiblePosition: int, action: ScrollAction): (r: int)
    requires 0 <= firstVisiblePosition
    ensures MonthOf(min) <= MonthOf(max) ==> 0 <= r < SlotCount(min, max)
  {
    var target := Step(SlotToMonth(min, firstVisiblePosition), action);
    PositionFromDay(min, max, DateFields(target.year, target.month, 1))
  }

  /**
   * From any slot, scrolling forward moves one slot on and scrolling back
   * one slot back, clamped to the range; a partly visible first view stays.
   */
  lemma ScrollTargetMovesOneSlot(min: Date, max: Date, firstVisiblePosition: int, action: ScrollAction)
    requires 0 <= firstVisiblePosition < SlotCount(min, max)
    ensures ScrollTarget(min, max, firstVisiblePosition, action) ==
      match action
      case ScrollForward => Constrain(firstVisiblePosition + 1, 0, SlotCount(min, max) - 1)
      case ScrollBackward(full) =>
        if full then Constrain(firstVisiblePosition - 1, 0, SlotCount(min, max) - 1) else firstVisiblePosition
  {
  }
}

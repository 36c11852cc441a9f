/**
 * What a month adapter hands to the SimpleMonthView of one slot (getView in
 * the list adapter, onBindViewHolder in the recycler adapter): the month
 * shown, the selected day or -1, the enabled day range, the anchor's day when
 * the anchor lies in that month, and the mark when there is an anchor.
 */
module MonthBinding {
  import opened Wrappers
  import opened CalendarDate
  import opened MonthSlots
  import opened MonthMark

  /**
   * The arguments of setMonthParams, then of setAnchor (None: not called)
   * and of markDays (None: not called).
   */
  datatype MonthParams = MonthParams(
    selectedDay: int,
    month: int,
    year: int,
    firstDayOfWeek: int,
    enabledDayRangeStart: int,
    enabledDayRangeEnd: int,
    anchorDay: Option<int>,
    mark: Option<Mark>)

  function BindMonth(min: Date, max: Date, selected: Date, anchor: Option<Date>,
                     firstDayOfWeek: int, position: int): (p: MonthParams)
    requires 0 <= position
    ensures 0 <= p.month < 12
    ensures MonthIndex(p.year, p.month) == MonthOf(min) + position
    ensures p.selectedDay == SelectedDayValue(selected, p.year, p.month)
    ensures p.firstDayOfWeek == firstDayOfWeek
    ensures DayBounds(p.enabledDayRangeStart, p.enabledDayRangeEnd) == EnabledBounds(min, max, p.year, p.month)
    ensures p.anchorDay.Some? <==> anchor.Some? && InMonth(anchor.value, p.year, p.month)
    ensures p.anchorDay.Some? ==> p.anchorDay.value == anchor.value.day
    ensures p.mark.Some? <==> anchor.Some?
    ensures p.mark.Some? ==> p.mark.value == GetMonthMarkType(anchor.value, selected, p.year, p.month)
  {
    var ym := SlotToMonth(min, position);
    var bounds := EnabledBounds(min, max, ym.year, ym.month);
    MonthParams(
      SelectedDayValue(selected, ym.year, ym.month),
      ym.month, ym.year, firstDayOfWeek,
      bounds.start, bounds.end,
      if anchor.Some? && InMonth(anchor.value, ym.year, ym.month) then Some(anchor.value.day) else None,
      if anchor.Some? then Some(GetMonthMarkType(anchor.value, selected, ym.year, ym.month)) else None)
  }

  /**
   * Over the adapter's slots, the bound months run from min's month to max's
   * month, and every slot's enabled range admits exactly the tappable days
   * of its month.
   */
  lemma BoundSlotsCoverRange(min: Date, max: Date, selected: Date, anchor: Option<Date>,
                             firstDayOfWeek: int, position: int, day: Date)
    requires 0 <= position < SlotCount(min, max)
    requires InMonth(day, BindMonth(min, max, selected, anchor, firstDayOfWeek, position).year,
                     BindMonth(min, max, selected, anchor, firstDayOfWeek, position).month)
    ensures MonthOf(min) <= MonthOf(day) <= MonthOf(max)
    ensures var p := BindMonth(min, max, selected, anchor, firstDayOfWeek, position);
      IsCalendarInRange(min, max, day) <==> p.enabledDayRangeStart <= day.day <= p.enabledDayRangeEnd
  {
    EnabledBoundsMatchTapGate(min, max, day);
  }
}

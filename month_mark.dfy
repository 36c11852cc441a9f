/**
 * How a rendered month relates to the span between the anchor date and the
 * selected date (getMonthMarkType and its helpers). Both month adapters carry
 * the same code for this; it is modelled once here and both use it.
 */
module MonthMark {
  import opened CalendarDate

  /** SimpleMonthView.Mark, with the source's spelling of BEWEEN. */
  datatype Mark = NONE | ALL | UNTIL | AFTER | BEWEEN

  function MinInt(a: int, b: int): int { if a <= b then a else b }
  function MaxInt(a: int, b: int): int { if a <= b then b else a }

  /**
   * isMonthInAnchorRange: the month `month` of `year` lies, at month
   * granularity, between the anchor's month and the selection's month, in
   * whichever order those two come.
   */
  function IsMonthInAnchorRange(anchor: Date, selected: Date, year: int, month: int): (r: bool)
    ensures r <==> MinInt(MonthOf(anchor), MonthOf(selected)) <= MonthIndex(year, month)
                   <= MaxInt(MonthOf(anchor), MonthOf(selected))
  {
    var current := MonthIndex(year, month);
    (current <= MonthOf(anchor) && current >= MonthOf(selected)) ||
    (current >= MonthOf(anchor) && current <= MonthOf(selected))
  }

  /** The span test does not depend on which endpoint is the anchor. */
  lemma MonthInAnchorRangeSymmetric(anchor: Date, selected: Date, year: int, month: int)
    ensures IsMonthInAnchorRange(anchor, selected, year, month) ==
            IsMonthInAnchorRange(selected, anchor, year, month)
  {
  }

  /**
   * getMonthMarkType: BEWEEN for the month holding both endpoints; UNTIL for
   * the month holding only the later endpoint and AFTER for the month holding
   * only the earlier one (Calendar.after decides which is later); ALL for any
   * other month of the span; NONE outside the span.
   */
  function GetMonthMarkType(anchor: Date, selected: Date, year: int, month: int): (m: Mark)
    ensures m == NONE <==> !IsMonthInAnchorRange(anchor, selected, year, month)
    ensures m == BEWEEN <==> InMonth(anchor, year, month) && InMonth(selected, year, month)
  {
    if IsMonthInAnchorRange(anchor, selected, year, month) then
      if InMonth(anchor, year, month) && InMonth(selected, year, month) then BEWEEN
      else if InMonth(anchor, year, month) then (if Before(selected, anchor) then UNTIL else AFTER)
      else if InMonth(selected, year, month) then (if Before(anchor, selected) then UNTIL else AFTER)
      else ALL
    else NONE
  }

  /**
   * Reference classification of a month against a span given by its earlier
   * and later endpoint, stated on month indices alone.
   */
  function SpanMark(earlier: Date, later: Date, year: int, month: int): Mark {
    var current := MonthIndex(year, month);
    if current < MonthOf(earlier) || MonthOf(later) < current then NONE
    else if current == MonthOf(earlier) && current == MonthOf(later) then BEWEEN
    else if current == MonthOf(later) then UNTIL
    else if current == MonthOf(earlier) then AFTER
    else ALL
  }

  /**
   * The adapters' classification agrees with the reference one once the two
   * endpoints are put in chronological order: the later endpoint's month is
   * UNTIL and the earlier endpoint's month is AFTER, whichever of the two is
   * the anchor.
   */
  lemma MarkIsSpanMark(anchor: Date, selected: Date, year: int, month: int)
    requires 0 <= month < 12
    ensures GetMonthMarkType(anchor, selected, year, month) ==
            if Before(selected, anchor) then SpanMark(selected, anchor, year, month)
            else SpanMark(anchor, selected, year, month)
  {
    var current := MonthIndex(year, month);
    if current == MonthOf(anchor) {
      MonthIndexInjective(year, month, anchor.year, anchor.month);
    }
    if current == MonthOf(selected) {
      MonthIndexInjective(year, month, selected.year, selected.month);
    }
    if MonthOf(anchor) != MonthOf(selected) {
      BeforeAcrossMonths(anchor, selected);
      BeforeAcrossMonths(selected, anchor);
    }
  }

  /** Swapping anchor and selection never changes a month's mark. */
  lemma MarkSymmetric(anchor: Date, selected: Date, year: int, month: int)
    requires 0 <= month < 12
    ensures GetMonthMarkType(anchor, selected, year, month) ==
            GetMonthMarkType(selected, anchor, year, month)
  {
    MarkIsSpanMark(anchor, selected, year, month);
    MarkIsSpanMark(selected, anchor, year, month);
    BeforeIsStrictTotalOrder(anchor, selected, anchor);
  }

  /**
   * Selection on 15 June 2022 and anchor on 20 August 2022: June is AFTER,
   * July is ALL, August is UNTIL and September is NONE.
   */
  lemma JuneToAugustExample()
    ensures GetMonthMarkType(DateFields(2022, 7, 20), DateFields(2022, 5, 15), 2022, 5) == AFTER
    ensures GetMonthMarkType(DateFields(2022, 7, 20), DateFields(2022, 5, 15), 2022, 6) == ALL
    ensures GetMonthMarkType(DateFields(2022, 7, 20), DateFields(2022, 5, 15), 2022, 7) == UNTIL
    ensures GetMonthMarkType(DateFields(2022, 7, 20), DateFields(2022, 5, 15), 2022, 8) == NONE
  {
  }
}

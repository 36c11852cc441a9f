/**
 * YearPickerView: the scrolling list of years from the range's first year to
 * its last, and its YearAdapter, which highlights one position and remembers
 * the last clicked one.
 */
module YearPicker {
  import opened Wrappers
  import opened CalendarDate

  /** The exception `new ArrayList<>(capacity)` raises for a negative capacity. */
  datatype ListError = IllegalCapacity(capacity: int)

  /**
   * Calendar.set(YEAR, year) on a normalised date: the month and day are
   * kept, and 29 February of a year that is not a leap year rolls over to
   * 1 March, as a lenient Calendar does.
   */
  function WithYear(d: Date, year: int): (r: Date)
    ensures r.year == year
    ensures d.day <= DaysInMonth(year, d.month) ==> r == DateFields(year, d.month, d.day)
    ensures d.day > DaysInMonth(year, d.month) ==> d.month == 1 && d.day == 29 && r == DateFields(year, 2, 1)
  {
    if d.day <= DaysInMonth(year, d.month) then DateFields(year, d.month, d.day)
    else DateFields(year, 2, d.day - DaysInMonth(year, d.month))
  }

  /**
   * List.indexOf: the first position holding `x`, or -1 when there is none.
   */
  function IndexOf(s: seq<int>, x: int): (i: int)
    ensures -1 <= i < |s|
    ensures i == -1 <==> x !in s
    ensures 0 <= i ==> s[i] == x
    ensures forall j :: 0 <= j < i ==> s[j] != x
  {
    if |s| == 0 then -1
    else if s[0] == x then 0
    else
      var j := IndexOf(s[1..], x);
      if j == -1 then -1 else j + 1
  }

  /** The years from `minYear` to `maxYear`, one per position, in ascending order. */
  ghost predicate IsYearList(years: seq<int>, minYear: int, maxYear: int) {
    |years| == maxYear - minYear + 1 &&
    forall i :: 0 <= i < |years| ==> years[i] == minYear + i
  }

  /** In the year list, a year's position is its offset from the first year; other years are absent. */
  lemma {:induction false} IndexOfYearList(years: seq<int>, minYear: int, maxYear: int, year: int)
    requires IsYearList(years, minYear, maxYear)
    ensures IndexOf(years, year) == if minYear <= year <= maxYear then year - minYear else -1
  {
    if minYear <= year <= maxYear {
      assert years[year - minYear] == year;
      var i := IndexOf(years, year);
      assert years[i] == minYear + i;
    } else {
      assert year !in years by {
        forall i | 0 <= i < |years| ensures years[i] != year {
          assert years[i] == minYear + i;
        }
      }
    }
  }

  /** The year list is strictly ascending. */
  lemma YearListAscending(years: seq<int>, minYear: int, maxYear: int, i: int, j: int)
    requires IsYearList(years, minYear, maxYear)
    requires 0 <= i < j < |years|
    ensures years[i] < years[j]
  {
  }

  class YearAdapter {
    const years: seq<int>
    /** The highlighted position: the index of the year given at construction, or -1. */
    const selectedPosition: int
    var lastSelectedPosition: int

    constructor (years: seq<int>, selectedYear: int)
      ensures this.years == years
      ensures selectedPosition == IndexOf(years, selectedYear)
      ensures lastSelectedPosition == selectedPosition
    {
      this.years := years;
      selectedPosition := IndexOf(years, selectedYear);
      lastSelectedPosition := IndexOf(years, selectedYear);
    }

    /** getItemCount: one item per year of the list. */
    function GetItemCount(): (n: int)
      ensures n == |years|
    {
      |years|
    }

    /** onBindViewHolder's highlight: only the selected position is drawn as selected. */
    predicate IsHighlighted(position: int): (h: bool)
      ensures h <==> position == selectedPosition
    {
      position == selectedPosition
    }

    /**
     * A click on the item at `position`: the listener receives that item's
     * year, and the position becomes the last selected one. The highlighted
     * position does not move.
     */
    method OnYearClick(position: int) returns (year: int)
      requires 0 <= position < |years|
      modifies this
      ensures year == years[position]
      ensures lastSelectedPosition == position
    {
      year := years[position];
      lastSelectedPosition := position;
    }
  }

  class YearPickerView {
    var minDate: Date
    var maxDate: Date
    var adapter: YearAdapter?

    /** Before setRange the range runs from 100 years before `now` to 100 years after. */
    constructor (now: Date)
      ensures minDate == WithYear(now, now.year - 100) && maxDate == WithYear(now, now.year + 100)
      ensures minDate.year == now.year - 100 && maxDate.year == now.year + 100
      ensures adapter == null
    {
      minDate := WithYear(now, now.year - 100);
      maxDate := WithYear(now, now.year + 100);
      adapter := null;
    }

    /** setRange copies both dates; the year list already built is not rebuilt. */
    method SetRange(min: Date, max: Date)
      modifies this
      ensures minDate == min && maxDate == max
      ensures adapter == old(adapter)
    {
      minDate, maxDate := min, max;
    }

    /**
     * updateToAdapterData: the years of the range in ascending order. The list
     * is created with capacity maxYear - minYear, which throws when the range
     * runs backwards.
     */
    method UpdateToAdapterData() returns (r: Result<seq<int>, ListError>)
      ensures r.Failure? <==> maxDate.year < minDate.year
      ensures r.Failure? ==> r.error == IllegalCapacity(maxDate.year - minDate.year)
      ensures r.Success? ==> |r.value| == maxDate.year - minDate.year + 1
      ensures r.Success? ==> forall i :: 0 <= i < |r.value| ==> r.value[i] == minDate.year + i
    {
      var maxYear := maxDate.year;
      var minYear := minDate.year;
      if maxYear - minYear < 0 {
        return Failure(IllegalCapacity(maxYear - minYear));
      }
      var years: seq<int> := [];
      var year := minYear;
      while year <= maxYear
        invariant minYear <= year <= maxYear + 1
        invariant |years| == year - minYear
        invariant forall i :: 0 <= i < |years| ==> years[i] == minYear + i
      {
        years := years + [year];
        year := year + 1;
      }
      return Success(years);
    }

    /**
     * init: build the year list and an adapter highlighting `currentYear`
     * (the year of Calendar.getInstance()). When building the list throws,
     * no adapter is installed.
     */
    method Init(currentYear: int) returns (ok: bool)
      modifies this
      ensures ok <==> minDate.year <= maxDate.year
      ensures minDate == old(minDate) && maxDate == old(maxDate)
      ensures !ok ==> adapter == old(adapter)
      ensures ok ==> adapter != null && fresh(adapter)
      ensures ok ==> IsYearList(adapter.years, minDate.year, maxDate.year)
      ensures ok ==> adapter.selectedPosition ==
                     if minDate.year <= currentYear <= maxDate.year then currentYear - minDate.year else -1
      ensures ok ==> adapter.lastSelectedPosition == adapter.selectedPosition
      ensures ok ==> forall p :: 0 <= p < |adapter.years| ==> (adapter.IsHighlighted(p) <==> adapter.years[p] == currentYear)
    {
      var data := UpdateToAdapterData();
      if data.Failure? {
        return false;
      }
      IndexOfYearList(data.value, minDate.year, maxDate.year, currentYear);
      adapter := new YearAdapter(data.value, currentYear);
      ok := true;
    }
  }
}

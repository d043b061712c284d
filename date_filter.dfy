/**
 * The dashboard's frame and its date-range filter
 * `df[(df['Entry_Date'] >= start) & (df['Entry_Date'] <= end)]`, which applies
 * only when the date picker returns exactly two dates.
 *
 * Dates are day numbers, already parsed.
 */
module DateFilter {

  /** A day number. */
  type Day = int

  /** A frame: the `Entry_Date` column and the value columns beside it, column
      by column; `C` is the cell type (`Option<V>` as read, `V` once filled). */
  datatype Frame<C> = Frame(dates: seq<Day>, columns: seq<seq<C>>) {

    /** Every value column has one cell per date. */
    predicate Valid() {
      forall j :: 0 <= j < |columns| ==> |columns[j]| == |dates|
    }
  }

  /** The inclusive range test of the filter. */
  predicate InRange(d: Day, start: Day, end: Day) {
    start <= d && d <= end
  }

  /** The rows from row `from` on whose date lies in `[start, end]`, as row
      indices in ascending order. */
  function RowsInRange(dates: seq<Day>, from: nat, start: Day, end: Day): (idx: seq<nat>)
    requires from <= |dates|
    ensures forall k :: 0 <= k < |idx| ==> from <= idx[k] < |dates|
    ensures forall k, l :: 0 <= k < l < |idx| ==> idx[k] < idx[l]
    ensures forall i :: from <= i < |dates| ==> (i in idx <==> InRange(dates[i], start, end))
    decreases |dates| - from
  {
    if from == |dates| then []
    else if InRange(dates[from], start, end) then [from] + RowsInRange(dates, from + 1, start, end)
    else RowsInRange(dates, from + 1, start, end)
  }

  /** The elements of `xs` at the positions `idx`, in that order. */
  function Pick<T>(xs: seq<T>, idx: seq<nat>): (r: seq<T>)
    requires forall k :: 0 <= k < |idx| ==> idx[k] < |xs|
    ensures |r| == |idx|
  {
    seq(|idx|, k requires 0 <= k < |idx| => xs[idx[k]])
  }

  /** The rows of `f` whose date lies in `[start, end]`: output row `k` is input
      row `RowsInRange(f.dates, 0, start, end)[k]`, in every column. */
  function Between<C>(f: Frame<C>, start: Day, end: Day): (r: Frame<C>)
    requires f.Valid()
    ensures r.Valid() && |r.columns| == |f.columns|
    ensures var idx := RowsInRange(f.dates, 0, start, end);
            && |r.dates| == |idx|
            && (forall k :: 0 <= k < |idx| ==> r.dates[k] == f.dates[idx[k]])
            && (forall j, k :: 0 <= j < |f.columns| && 0 <= k < |idx| ==> r.columns[j][k] == f.columns[j][idx[k]])
  {
    var idx := RowsInRange(f.dates, 0, start, end);
    Frame(Pick(f.dates, idx), seq(|f.columns|, j requires 0 <= j < |f.columns| => Pick(f.columns[j], idx)))
  }

  /** The filter as the page applies it: only a two-date range filters. */
  function ApplyDateFilter<C>(f: Frame<C>, dRange: seq<Day>): (r: Frame<C>)
    requires f.Valid()
    ensures r.Valid() && |r.columns| == |f.columns|
  {
    if |dRange| == 2 then Between(f, dRange[0], dRange[1]) else f
  }

  // ---------------------------------------------------------------------------
  // Reference definition and properties
  // ---------------------------------------------------------------------------

  /** The dates in range, by a plain recursive filter. */
  function DatesInRange(dates: seq<Day>, start: Day, end: Day): seq<Day> {
    if dates == [] then []
    else (if InRange(dates[0], start, end) then [dates[0]] else []) + DatesInRange(dates[1..], start, end)
  }

  lemma {:induction false} PickRowsInRange(dates: seq<Day>, from: nat, start: Day, end: Day)
    requires from <= |dates|
    ensures Pick(dates, RowsInRange(dates, from, start, end)) == DatesInRange(dates[from..], start, end)
    decreases |dates| - from
  {
    if from < |dates| {
      PickRowsInRange(dates, from + 1, start, end);
      assert dates[from..][1..] == dates[from + 1..];
      var rest := RowsInRange(dates, from + 1, start, end);
      if InRange(dates[from], start, end) {
        assert Pick(dates, [from] + rest) == [dates[from]] + Pick(dates, rest);
      }
    }
  }

  /** The filtered dates are exactly the input dates in range, in input order. */
  lemma BetweenDates<C>(f: Frame<C>, start: Day, end: Day)
    requires f.Valid()
    ensures Between(f, start, end).dates == DatesInRange(f.dates, start, end)
  {
    PickRowsInRange(f.dates, 0, start, end);
    assert f.dates[0..] == f.dates;
  }

  /** Every retained date is in range, and every input row in range is kept. */
  lemma BetweenInclusive<C>(f: Frame<C>, start: Day, end: Day)
    requires f.Valid()
    ensures forall k :: 0 <= k < |Between(f, start, end).dates| ==> InRange(Between(f, start, end).dates[k], start, end)
    ensures forall i :: 0 <= i < |f.dates| && InRange(f.dates[i], start, end) ==> f.dates[i] in Between(f, start, end).dates
  {
  }

  lemma {:induction false} NoRowsInEmptyRange(dates: seq<Day>, from: nat, start: Day, end: Day)
    requires from <= |dates| && start > end
    ensures RowsInRange(dates, from, start, end) == []
    decreases |dates| - from
  {
    if from < |dates| {
      NoRowsInEmptyRange(dates, from + 1, start, end);
    }
  }

  /** An empty range (start after end) keeps no row. */
  lemma BetweenReversedRange<C>(f: Frame<C>, start: Day, end: Day)
    requires f.Valid() && start > end
    ensures Between(f, start, end).dates == []
    ensures forall j :: 0 <= j < |f.columns| ==> Between(f, start, end).columns[j] == []
  {
    NoRowsInEmptyRange(f.dates, 0, start, end);
  }

  /** Ascending dates stay ascending after filtering; a date may repeat. */
  lemma BetweenKeepsOrder<C>(f: Frame<C>, start: Day, end: Day)
    requires f.Valid()
    requires forall a, b :: 0 <= a < b < |f.dates| ==> f.dates[a] <= f.dates[b]
    ensures var d := Between(f, start, end).dates;
            forall a, b :: 0 <= a < b < |d| ==> d[a] <= d[b]
  {
  }

  /** A picker that did not return exactly two dates leaves the frame as it is. */
  lemma NoRangeNoFilter<C>(f: Frame<C>, dRange: seq<Day>)
    requires f.Valid() && |dRange| != 2
    ensures ApplyDateFilter(f, dRange) == f
  {
  }

  /** On days 1..10 the range [3, 5] selects rows 2, 3 and 4. */
  lemma TenDaysRows()
    ensures RowsInRange([1, 2, 3, 4, 5, 6, 7, 8, 9, 10], 0, 3, 5) == [2, 3, 4]
  {
    var d := [1, 2, 3, 4, 5, 6, 7, 8, 9, 10];
    assert RowsInRange(d, 5, 3, 5) == [];
    assert RowsInRange(d, 4, 3, 5) == [4];
    assert RowsInRange(d, 3, 3, 5) == [3, 4];
    assert RowsInRange(d, 2, 3, 5) == [2, 3, 4];
    assert RowsInRange(d, 1, 3, 5) == [2, 3, 4];
  }

  lemma TenDaysDates<C>(col: seq<C>)
    requires |col| == 10
    ensures Between(Frame([1, 2, 3, 4, 5, 6, 7, 8, 9, 10], [col]), 3, 5).dates == [3, 4, 5]
  {
    TenDaysRows();
    assert Pick([1, 2, 3, 4, 5, 6, 7, 8, 9, 10], [2, 3, 4]) == [3, 4, 5];
  }

  lemma TenDaysCells<C>(col: seq<C>)
    requires |col| == 10
    ensures Between(Frame([1, 2, 3, 4, 5, 6, 7, 8, 9, 10], [col]), 3, 5).columns == [col[2..5]]
  {
    TenDaysRows();
    assert Pick(col, [2, 3, 4]) == col[2..5];
  }

  /** Days 1..10 with the range [3, 5] keep exactly three rows, days 3, 4 and 5,
      both endpoints included. */
  lemma ExampleTenDays<C>(col: seq<C>)
    requires |col| == 10
    ensures var r := ApplyDateFilter(Frame([1, 2, 3, 4, 5, 6, 7, 8, 9, 10], [col]), [3, 5]);
            r.dates == [3, 4, 5] && r.columns == [col[2..5]]
  {
    TenDaysDates(col);
    TenDaysCells(col);
  }
}

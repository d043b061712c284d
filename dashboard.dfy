/**
 * The two page scripts of the dashboard that transform data: the market
 * overview (load the joined frame, synchronize it, filter it by the picked
 * date range) and the SQL runner (resolve the picked query, run it,
 * synchronize the result). The store is a parameter: the frame it returned,
 * or a function from SQL text to the table it returns.
 */
module Dashboard {
  import opened Wrappers
  import opened Synchronizer
  import opened DateFilter
  import opened QueryCatalog

  /** The synchronizer on the overview frame: every value column is filled;
      the date column, which is never NULL or zero, is kept as it is. */
  function SyncFrame<V(==)>(raw: Frame<Option<V>>, zero: V): (r: Frame<V>)
    ensures r.dates == raw.dates && |r.columns| == |raw.columns|
    ensures raw.Valid() ==> r.Valid()
  {
    Frame(raw.dates, SyncTable(raw.columns, zero))
  }

  /** The overview page after the query: `raw` is the joined frame, ordered by
      date, and `dRange` what the date picker returned. Nothing is shown for an
      empty frame; otherwise the frame is synchronized and then filtered. */
  method LoadMarketOverview<V(==)>(raw: Frame<Option<V>>, dRange: seq<Day>, zero: V) returns (shown: Option<Frame<V>>)
    requires raw.Valid()
    ensures shown.None? <==> |raw.dates| == 0
    ensures shown.Some? ==> shown.value.Valid() && shown.value == ApplyDateFilter(SyncFrame(raw, zero), dRange)
  {
    if |raw.dates| == 0 {
      return None;
    }
    var df := SyncFrame(raw, zero);
    if |dRange| == 2 {
      var start, end := dRange[0], dRange[1];
      df := Between(df, start, end);
    }
    shown := Some(df);
  }

  /** The SQL runner after the run button: the picked query is looked up, run
      against the store and its result synchronized. A missing key is reported
      instead of running anything. */
  method RunAnalysis<V(==)>(cat: string, query: string, store: string -> Table<V>, zero: V)
    returns (r: Result<seq<seq<V>>, CatalogError>)
    ensures r.Err? <==> Resolve(cat, query).Err?
    ensures r.Err? ==> r.error == Resolve(cat, query).error
    ensures r.Ok? ==> r.value == SyncTable(store(QueryMap[cat][query]), zero)
  {
    var sql := Resolve(cat, query);
    if sql.Err? {
      return Err(sql.error);
    }
    var resDf := store(sql.value);
    r := Ok(SyncTable(resDf, zero));
  }

  // ---------------------------------------------------------------------------
  // Properties of the overview pipeline
  // ---------------------------------------------------------------------------

  /** Fill, then filter: every cell shown for a row in range is the most recent
      observation of that column up to that row, which may lie before `start`. */
  lemma FilterAfterFill<V>(raw: Frame<Option<V>>, start: Day, end: Day, zero: V)
    requires raw.Valid()
    ensures var out := ApplyDateFilter(SyncFrame(raw, zero), [start, end]);
            var idx := RowsInRange(raw.dates, 0, start, end);
            && out.dates == DatesInRange(raw.dates, start, end)
            && forall j, k :: 0 <= j < |raw.columns| && 0 <= k < |idx| ==>
                 out.columns[j][k] == Filled(raw.columns[j], idx[k], zero)
  {
    var f := SyncFrame(raw, zero);
    BetweenDates(f, start, end);
    var idx := RowsInRange(raw.dates, 0, start, end);
    forall j, k | 0 <= j < |raw.columns| && 0 <= k < |idx|
      ensures Between(f, start, end).columns[j][k] == Filled(raw.columns[j], idx[k], zero)
    {
      SyncTableAt(raw.columns, zero, j, idx[k]);
    }
  }

  /** Synchronizing the overview twice changes nothing. */
  lemma SyncFrameIdempotent<V>(raw: Frame<Option<V>>, zero: V)
    ensures var f := SyncFrame(raw, zero);
            SyncFrame(Frame(f.dates, LiftTable(f.columns)), zero) == f
  {
    SyncTableIdempotent(raw.columns, zero);
  }

  lemma ThreeDaysRows()
    ensures RowsInRange([1, 2, 3], 0, 2, 3) == [1, 2]
  {
  }

  /** Day 1 holds 5, days 2 and 3 hold gaps, and the range is [2, 3]: the page
      shows 5 on both days, a value observed before the range; filtering first
      would have left nothing to fill from and shown zeros. */
  lemma ExampleFillBeforeFilter()
    ensures var raw := Frame([1, 2, 3], [[Some(5), None, Some(0)]]);
            && ApplyDateFilter(SyncFrame(raw, 0), [2, 3]) == Frame([2, 3], [[5, 5]])
            && SyncFrame(ApplyDateFilter(raw, [2, 3]), 0) == Frame([2, 3], [[0, 0]])
  {
    var col: Column<int> := [Some(5), None, Some(0)];
    FillDirection(col, 0, 0);
    FillDirection(col, 0, 1);
    FillDirection(col, 0, 2);
    assert SyncColumn(col, 0) == [5, 5, 5];
    var tail: Column<int> := [None, Some(0)];
    FillDirection(tail, 0, 0);
    FillDirection(tail, 0, 1);
    assert SyncColumn(tail, 0) == [0, 0];
    ThreeDaysRows();
    assert Pick([1, 2, 3], [1, 2]) == [2, 3];
    assert Pick([5, 5, 5], [1, 2]) == [5, 5];
    assert Pick(col, [1, 2]) == tail;
  }
}

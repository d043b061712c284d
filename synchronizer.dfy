/**
 * The data synchronizer of the dashboard: the pipeline
 * `df.replace(0, pd.NA).ffill().infer_objects(copy=False).fillna(0)`
 * applied to a whole table, one column at a time.
 *
 * A cell is `Option<V>`: `None` is a NULL read from the store. A cell that is
 * NULL or equal to the distinguished `zero` counts as a gap. "Earlier" means
 * "at a smaller row index": the fill follows the rows in the order the store
 * returned them, which on the overview page is by date.
 */
module Synchronizer {
  import opened Wrappers

  /** One column as read from the store, in row order. */
  type Column<V> = seq<Option<V>>

  /** A table as a sequence of columns, in column order. */
  type Table<V> = seq<Column<V>>

  /** A cell that the synchronizer treats as missing: NULL, or equal to zero. */
  predicate IsGap<V(==)>(c: Option<V>, zero: V) {
    c.None? || c.value == zero
  }

  // ---------------------------------------------------------------------------
  // The three stages of the pipeline, as the source chains them
  // ---------------------------------------------------------------------------

  /** `replace(0, pd.NA)`: every gap becomes NA, every other cell is kept. */
  function MaskZeros<V(==)>(col: Column<V>, zero: V): (m: Column<V>)
    ensures |m| == |col|
  {
    seq(|col|, i requires 0 <= i < |col| => if IsGap(col[i], zero) then None else col[i])
  }

  /** `ffill()`: a forward scan that replaces NA by the last value seen so far
      (`carry`, initially NA). */
  function ForwardFill<V>(m: Column<V>, carry: Option<V>): (f: Column<V>)
    ensures |f| == |m|
  {
    if m == [] then []
    else
      var c := if m[0].Some? then m[0] else carry;
      [c] + ForwardFill(m[1..], c)
  }

  /** `fillna(0)`: every NA left over becomes zero. */
  function FillMissing<V>(f: Column<V>, zero: V): (r: seq<V>)
    ensures |r| == |f|
  {
    seq(|f|, i requires 0 <= i < |f| => f[i].GetOr(zero))
  }

  /** The whole pipeline on one column. */
  function SyncColumn<V(==)>(col: Column<V>, zero: V): (r: seq<V>)
    ensures |r| == |col|
  {
    FillMissing(ForwardFill(MaskZeros(col, zero), None), zero)
  }

  /** The pipeline on a table: each column is filled on its own, and the table
      keeps its number of columns, their order and their lengths. */
  function SyncTable<V(==)>(t: Table<V>, zero: V): (r: seq<seq<V>>)
    ensures |r| == |t|
    ensures forall j :: 0 <= j < |t| ==> |r[j]| == |t[j]|
  {
    seq(|t|, j requires 0 <= j < |t| => SyncColumn(t[j], zero))
  }

  // ---------------------------------------------------------------------------
  // Reference definition: the most recent earlier observation
  // ---------------------------------------------------------------------------

  /** The row of the most recent cell at or before row `i` that is not a gap,
      or -1 when every cell up to row `i` is a gap. */
  function LastObservedIndex<V(==)>(col: Column<V>, i: int, zero: V): (j: int)
    requires -1 <= i < |col|
    ensures -1 <= j <= i
    ensures j >= 0 ==> !IsGap(col[j], zero)
    ensures forall k :: j < k <= i ==> IsGap(col[k], zero)
    decreases i + 1
  {
    if i < 0 then -1
    else if !IsGap(col[i], zero) then i
    else LastObservedIndex(col, i - 1, zero)
  }

  /** What row `i` should hold after synchronization: the most recent
      observation up to that row, or zero when there is none yet. */
  function Filled<V(==)>(col: Column<V>, i: nat, zero: V): V
    requires i < |col|
  {
    var j := LastObservedIndex(col, i, zero);
    if j >= 0 then col[j].value else zero
  }

  /** Every cell of a dense column, as a column read from the store. */
  function Lift<V>(r: seq<V>): (col: Column<V>)
    ensures |col| == |r|
    ensures forall i :: 0 <= i < |r| ==> col[i] == Some(r[i])
  {
    seq(|r|, i requires 0 <= i < |r| => Some(r[i]))
  }

  /** A dense table, as a table read from the store. */
  function LiftTable<V>(t: seq<seq<V>>): (u: Table<V>)
    ensures |u| == |t|
    ensures forall j :: 0 <= j < |t| ==> u[j] == Lift(t[j])
  {
    seq(|t|, j requires 0 <= j < |t| => Lift(t[j]))
  }

  // ---------------------------------------------------------------------------
  // The pipeline meets the reference definition
  // ---------------------------------------------------------------------------

  /** The last present cell of `m` at or before row `i`, or `carry`. */
  function LastPresent<V>(m: Column<V>, i: int, carry: Option<V>): Option<V>
    requires -1 <= i < |m|
    decreases i + 1
  {
    if i < 0 then carry
    else if m[i].Some? then m[i]
    else LastPresent(m, i - 1, carry)
  }

  /** Dropping the first row and carrying its outcome gives the same answer. */
  lemma {:induction false} LastPresentShift<V>(m: Column<V>, i: int, carry: Option<V>)
    requires 0 <= i < |m|
    ensures LastPresent(m[1..], i - 1, LastPresent(m, 0, carry)) == LastPresent(m, i, carry)
    decreases i
  {
    if i > 0 {
      assert m[1..][i - 1] == m[i];
      if m[i].None? {
        LastPresentShift(m, i - 1, carry);
      }
    }
  }

  /** The forward scan leaves at row `i` the last present cell up to row `i`. */
  lemma {:induction false} ForwardFillAt<V>(m: Column<V>, carry: Option<V>, i: nat)
    requires i < |m|
    ensures ForwardFill(m, carry)[i] == LastPresent(m, i, carry)
    decreases |m|
  {
    var c := if m[0].Some? then m[0] else carry;
    assert ForwardFill(m, carry) == [c] + ForwardFill(m[1..], c);
    if i > 0 {
      ForwardFillAt(m[1..], c, i - 1);
      LastPresentShift(m, i, carry);
    }
  }

  /** After masking, the last present cell is the last observation. */
  lemma {:induction false} MaskedLastPresent<V>(col: Column<V>, i: int, zero: V)
    requires -1 <= i < |col|
    ensures var j := LastObservedIndex(col, i, zero);
            LastPresent(MaskZeros(col, zero), i, None) == if j >= 0 then Some(col[j].value) else None
    decreases i + 1
  {
    if i >= 0 && IsGap(col[i], zero) {
      MaskedLastPresent(col, i - 1, zero);
    }
  }

  /** Each synchronized cell is the most recent observation up to its row,
      or zero when there is none. */
  lemma SyncColumnAt<V>(col: Column<V>, zero: V, i: nat)
    requires i < |col|
    ensures SyncColumn(col, zero)[i] == Filled(col, i, zero)
  {
    ForwardFillAt(MaskZeros(col, zero), None, i);
    MaskedLastPresent(col, i, zero);
  }

  // ---------------------------------------------------------------------------
  // Properties of one column
  // ---------------------------------------------------------------------------

  /** Fill direction: an observed cell is kept, a gap repeats the cell above
      it, and a gap in the first row becomes zero. */
  lemma FillDirection<V>(col: Column<V>, zero: V, i: nat)
    requires i < |col|
    ensures var r := SyncColumn(col, zero);
            && (!IsGap(col[i], zero) ==> r[i] == col[i].value)
            && (IsGap(col[i], zero) && i > 0 ==> r[i] == r[i - 1])
            && (IsGap(col[i], zero) && i == 0 ==> r[i] == zero)
  {
    SyncColumnAt(col, zero, i);
    if i > 0 {
      SyncColumnAt(col, zero, i - 1);
    }
  }

  /** Leading-gap policy: a synchronized cell is zero exactly when its own
      cell and every cell above it were gaps. */
  lemma LeadingGap<V>(col: Column<V>, zero: V, i: nat)
    requires i < |col|
    ensures SyncColumn(col, zero)[i] == zero <==> forall k :: 0 <= k <= i ==> IsGap(col[k], zero)
  {
    SyncColumnAt(col, zero, i);
    var j := LastObservedIndex(col, i, zero);
    if j >= 0 {
      assert !IsGap(col[j], zero);
    }
  }

  /** Every synchronized cell that is not zero was observed in an earlier (or
      the same) row, and only gaps lie between that row and this one. */
  lemma FilledFromObservation<V>(col: Column<V>, zero: V, i: nat)
    requires i < |col|
    requires SyncColumn(col, zero)[i] != zero
    ensures exists j :: 0 <= j <= i && col[j] == Some(SyncColumn(col, zero)[i]) &&
                        forall k :: j < k <= i ==> IsGap(col[k], zero)
  {
    SyncColumnAt(col, zero, i);
    var j := LastObservedIndex(col, i, zero);
    assert col[j] == Some(SyncColumn(col, zero)[i]);
  }

  /** Idempotence: synchronizing a synchronized column changes nothing. */
  lemma SyncColumnIdempotent<V>(col: Column<V>, zero: V)
    ensures SyncColumn(Lift(SyncColumn(col, zero)), zero) == SyncColumn(col, zero)
  {
    var r := SyncColumn(col, zero);
    var s := SyncColumn(Lift(r), zero);
    forall i | 0 <= i < |r|
      ensures s[i] == r[i]
    {
      if r[i] != zero {
        FillDirection(Lift(r), zero, i);
      } else {
        LeadingGap(col, zero, i);
        forall k | 0 <= k <= i
          ensures IsGap(Lift(r)[k], zero)
        {
          LeadingGap(col, zero, k);
        }
        LeadingGap(Lift(r), zero, i);
      }
    }
  }

  /** A column without gaps is left as it is. */
  lemma SyncDenseColumn<V>(col: Column<V>, zero: V)
    requires forall i :: 0 <= i < |col| ==> !IsGap(col[i], zero)
    ensures Lift(SyncColumn(col, zero)) == col
  {
    var r := SyncColumn(col, zero);
    forall i | 0 <= i < |col|
      ensures Lift(r)[i] == col[i]
    {
      FillDirection(col, zero, i);
    }
  }

  // ---------------------------------------------------------------------------
  // Properties of a table
  // ---------------------------------------------------------------------------

  /** Every cell of a synchronized table is the reference value of its column. */
  lemma SyncTableAt<V>(t: Table<V>, zero: V, j: nat, i: nat)
    requires j < |t| && i < |t[j]|
    ensures SyncTable(t, zero)[j][i] == Filled(t[j], i, zero)
  {
    SyncColumnAt(t[j], zero, i);
  }

  /** Column independence: replacing one column of the input changes no other
      column of the output. */
  lemma ColumnIndependence<V>(t: Table<V>, zero: V, k: nat, c: Column<V>, j: nat)
    requires k < |t| && j < |t| && j != k
    ensures SyncTable(t[k := c], zero)[j] == SyncTable(t, zero)[j]
  {
  }

  /** Empty input: a table with no rows comes back with the same columns and
      still no rows. */
  lemma SyncEmptyTable<V>(t: Table<V>, zero: V)
    requires forall j :: 0 <= j < |t| ==> t[j] == []
    ensures |SyncTable(t, zero)| == |t|
    ensures forall j :: 0 <= j < |t| ==> SyncTable(t, zero)[j] == []
  {
  }

  /** Idempotence of the table pipeline. */
  lemma SyncTableIdempotent<V>(t: Table<V>, zero: V)
    ensures SyncTable(LiftTable(SyncTable(t, zero)), zero) == SyncTable(t, zero)
  {
    var r := SyncTable(t, zero);
    forall j | 0 <= j < |t|
      ensures SyncTable(LiftTable(r), zero)[j] == r[j]
    {
      SyncColumnIdempotent(t[j], zero);
    }
  }

  // ---------------------------------------------------------------------------
  // Worked examples
  // ---------------------------------------------------------------------------

  /** `[5, 0, 0, 8]` becomes `[5, 5, 5, 8]`. */
  lemma ExampleFillDirection()
    ensures SyncColumn([Some(5), Some(0), Some(0), Some(8)], 0) == [5, 5, 5, 8]
  {
  }

  /** `[0, 0, 7]` stays `[0, 0, 7]`: there is nothing to fill the first rows from. */
  lemma ExampleLeadingGap()
    ensures SyncColumn([Some(0), Some(0), Some(7)], 0) == [0, 0, 7]
  {
  }

  /** A NULL is treated like a zero: `[NULL, 3, NULL, 0]` becomes `[0, 3, 3, 3]`. */
  lemma ExampleNulls()
    ensures SyncColumn([None, Some(3), None, Some(0)], 0) == [0, 3, 3, 3]
  {
  }
}

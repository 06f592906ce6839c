/**
 * `OHLCValidator` (`validators.py`): checks and repairs a frame of price
 * bars. The column check works on the labels; after type conversion the
 * frame is a sequence of bars whose missing cells (`NaN`/`NaT`) are `None`.
 */
module Validators {
  import opened Wrappers
  import opened Text

  /** One row of the converted frame: `time` in datetime ticks, prices as exact reals. */
  datatype Bar = Bar(time: Option<int>, open: Option<real>, high: Option<real>, low: Option<real>, close: Option<real>)

  /** `isna().sum()` over the five required columns. */
  datatype MissingCounts = MissingCounts(time: nat, open: nat, high: nat, low: nat, close: nat)

  /** `ValidationError`, by the check that raised it. */
  datatype ValidationError =
    | EmptyFrame
    | MissingColumns(missing: set<string>, available: seq<string>)
    | ConversionFailed(column: string)
    | HighBelowLow(count: nat, rows: seq<nat>)
    | InvalidHigh(count: nat)
    | InvalidLow(count: nat)
    | MissingValues(counts: MissingCounts)

  /** A frame before conversion: its column labels and its rows. */
  datatype Table<Row> = Table(columns: seq<string>, rows: seq<Row>)

  const RequiredColumns: seq<string> := ["time", "open", "high", "low", "close"]
  const TimeAliases: seq<string> := ["date", "datetime", "timestamp"]

  // ---------------------------------------------------------------- columns

  /** `col.lower().strip()`. */
  function Normalized(name: string): string {
    Strip(Lower(name))
  }

  /** The entry `_check_columns` puts in `column_map` for a column, if any. */
  function NewLabel(name: string): Option<string> {
    var lower := Normalized(name);
    if lower in TimeAliases then Some("time")
    else if lower in RequiredColumns then Some(lower)
    else None
  }

  /** The label a column has after `df.rename(columns=column_map)`. */
  function Relabel(name: string): string {
    if NewLabel(name).Some? then NewLabel(name).value else name
  }

  function Relabelled(columns: seq<string>): seq<string> {
    seq(|columns|, i requires 0 <= i < |columns| => Relabel(columns[i]))
  }

  /** `_check_columns`: the relabelled columns, or the required names still missing. */
  function CheckedColumns(columns: seq<string>): (r: Result<seq<string>, ValidationError>)
    ensures r.Success? <==> forall c :: c in RequiredColumns ==> c in Relabelled(columns)
    ensures r.Success? ==> r.value == Relabelled(columns)
    ensures r.Failure? ==>
      (r.error.MissingColumns? && r.error.missing != {} &&
       forall c :: c in r.error.missing <==> c in RequiredColumns && c !in Relabelled(columns))
  {
    var renamed := Relabelled(columns);
    var missing := set c | c in RequiredColumns && c !in renamed;
    if missing == {} then
      assert forall c :: c in RequiredColumns ==> c in renamed by {
        forall c | c in RequiredColumns ensures c in renamed {
          assert c in missing <==> c !in renamed;
        }
      }
      Success(renamed)
    else
      Failure(MissingColumns(missing, renamed))
  }

  /** The required names and the time aliases are already in normal form. */
  lemma KnownNamesAreNormal()
    ensures forall c :: c in RequiredColumns ==> Normalized(c) == c
  {
    forall c | c in RequiredColumns ensures Normalized(c) == c {
      LowercaseWordIsNormal(c);
    }
  }

  /** A non-empty word of lowercase ASCII letters is its own normal form. */
  lemma LowercaseWordIsNormal(c: string)
    requires c != [] && forall i :: 0 <= i < |c| ==> 'a' <= c[i] <= 'z'
    ensures Normalized(c) == c
  {
    assert Lower(c) == c by {
      forall i | 0 <= i < |c| ensures Lower(c)[i] == c[i] {
        assert LowerChar(c[i]) == c[i];
      }
    }
    assert !IsSpace(c[0]) && !IsSpace(c[|c| - 1]);
    assert StripLeft(c) == c;
    assert StripRight(c) == c;
  }

  /** Recognising a column ignores the case of its label. */
  lemma NewLabelIgnoresCase(name: string)
    ensures NewLabel(Lower(name)) == NewLabel(name)
  {
    LowerIsIdempotent(name);
  }

  /** `_check_columns` applied to its own output renames nothing further. */
  lemma CheckColumnsIsIdempotent(columns: seq<string>)
    requires CheckedColumns(columns).Success?
    ensures CheckedColumns(CheckedColumns(columns).value) == CheckedColumns(columns)
  {
    KnownNamesAreNormal();
    var renamed := Relabelled(columns);
    forall i | 0 <= i < |columns| ensures Relabel(renamed[i]) == renamed[i] {
      if NewLabel(columns[i]).Some? {
        assert renamed[i] in RequiredColumns;
      }
    }
    assert Relabelled(renamed) == renamed;
  }

  /** `column_map` after the loop of `_check_columns` has seen `columns`. */
  function ColumnMap(columns: seq<string>): map<string, string> {
    if columns == [] then map[]
    else
      var earlier := ColumnMap(columns[..|columns| - 1]);
      var col := columns[|columns| - 1];
      if NewLabel(col).Some? then earlier[col := NewLabel(col).value] else earlier
  }

  /** `column_map` holds exactly the recognised columns, each with its new label. */
  lemma {:induction false} ColumnMapEntries(columns: seq<string>)
    ensures forall c :: c in ColumnMap(columns) <==> c in columns && NewLabel(c).Some?
    ensures forall c :: c in ColumnMap(columns) ==> ColumnMap(columns)[c] == NewLabel(c).value
  {
    if columns != [] {
      var prefix := columns[..|columns| - 1];
      ColumnMapEntries(prefix);
      assert columns == prefix + [columns[|columns| - 1]];
    }
  }

  /** The loop of `_check_columns` that builds `column_map`. */
  method BuildColumnMap(columns: seq<string>) returns (columnMap: map<string, string>)
    ensures columnMap == ColumnMap(columns)
  {
    columnMap := map[];
    for i := 0 to |columns|
      invariant columnMap == ColumnMap(columns[..i])
    {
      var col := columns[i];
      ColumnMapStep(columns, i);
      var lower := Strip(Lower(col));
      if lower in TimeAliases {
        columnMap := columnMap[col := "time"];
      } else if lower in RequiredColumns {
        columnMap := columnMap[col := lower];
      }
    }
    assert columns[..|columns|] == columns;
  }

  /** One more column of the loop adds its entry, if it has one. */
  lemma ColumnMapStep(columns: seq<string>, i: int)
    requires 0 <= i < |columns|
    ensures ColumnMap(columns[..i + 1]) ==
      if NewLabel(columns[i]).Some? then ColumnMap(columns[..i])[columns[i] := NewLabel(columns[i]).value]
      else ColumnMap(columns[..i])
  {
    assert columns[..i + 1][..i] == columns[..i];
  }

  /** `df.rename(columns=column_map)` gives every column its `Relabel`. */
  lemma RenameByColumnMap(columns: seq<string>)
    ensures var m := ColumnMap(columns);
      seq(|columns|, j requires 0 <= j < |columns| => if columns[j] in m then m[columns[j]] else columns[j])
      == Relabelled(columns)
  {
    ColumnMapEntries(columns);
  }

  /** `_check_columns`: rename by `column_map` when it is not empty, then
      report the required names still missing. */
  method CheckColumns(columns: seq<string>) returns (r: Result<seq<string>, ValidationError>)
    ensures r == CheckedColumns(columns)
  {
    var columnMap := BuildColumnMap(columns);
    var renamed := columns;
    if columnMap != map[] {
      renamed := seq(|columns|, j requires 0 <= j < |columns| =>
        if columns[j] in columnMap then columnMap[columns[j]] else columns[j]);
      RenameByColumnMap(columns);
    } else {
      ColumnMapEntries(columns);
      assert forall j :: 0 <= j < |columns| ==> Relabel(columns[j]) == columns[j];
    }
    assert renamed == Relabelled(columns);
    var missing := set c | c in RequiredColumns && c !in renamed;
    if missing != {} {
      return Failure(MissingColumns(missing, renamed));
    }
    r := Success(renamed);
  }

  // -------------------------------------------------------------- OHLC rules

  /** `a < b` between two cells; a comparison involving `NaN` is false. */
  predicate Below(a: Option<real>, b: Option<real>) {
    a.Some? && b.Some? && a.value < b.value
  }

  /** The mask `high < low`. */
  predicate HighBelowLowBar(b: Bar) {
    Below(b.high, b.low)
  }

  /** The mask `(high < open) | (high < close)`. */
  predicate HighTooLowBar(b: Bar) {
    Below(b.high, b.open) || Below(b.high, b.close)
  }

  /** The mask `(low > open) | (low > close)`. */
  predicate LowTooHighBar(b: Bar) {
    Below(b.open, b.low) || Below(b.close, b.low)
  }

  /** A bar none of the three masks selects. */
  predicate SatisfiesRules(b: Bar) {
    !HighBelowLowBar(b) && !HighTooLowBar(b) && !LowTooHighBar(b)
  }

  /** A bar with every price present and `low <= open, close <= high`. */
  predicate WellFormed(b: Bar) {
    b.open.Some? && b.high.Some? && b.low.Some? && b.close.Some? &&
    b.low.value <= b.open.value <= b.high.value &&
    b.low.value <= b.close.value <= b.high.value
  }

  /** The larger of two cells, skipping `NaN` as `max(axis=1)` does. */
  function MaxPresent(a: Option<real>, b: Option<real>): Option<real> {
    if a.None? then b else if b.None? then a
    else Some(if a.value >= b.value then a.value else b.value)
  }

  /** The smaller of two cells, skipping `NaN` as `min(axis=1)` does. */
  function MinPresent(a: Option<real>, b: Option<real>): Option<real> {
    if a.None? then b else if b.None? then a
    else Some(if a.value <= b.value then a.value else b.value)
  }

  /** The first repair: `high` and `low` trade places. */
  function SwapHighLow(b: Bar): Bar {
    b.(high := b.low, low := b.high)
  }

  /** The second repair: `high` becomes the row maximum of open, high, low, close. */
  function RaiseHigh(b: Bar): Bar {
    b.(high := MaxPresent(MaxPresent(MaxPresent(b.open, b.high), b.low), b.close))
  }

  /** The third repair: `low` becomes the row minimum of open, high, low, close. */
  function LowerLow(b: Bar): Bar {
    b.(low := MinPresent(MinPresent(MinPresent(b.open, b.high), b.low), b.close))
  }

  /** `df.loc[mask, ...] = repair(...)`: masked rows are repaired, the rest kept. */
  function Repaired(bars: seq<Bar>, mask: Bar -> bool, repair: Bar -> Bar): seq<Bar> {
    seq(|bars|, i requires 0 <= i < |bars| => if mask(bars[i]) then repair(bars[i]) else bars[i])
  }

  /** The positions a mask selects, in order (`df[mask].index.tolist()`). */
  function Selected(bars: seq<Bar>, mask: Bar -> bool): (rows: seq<nat>)
    ensures forall k :: 0 <= k < |rows| ==> rows[k] < |bars| && mask(bars[rows[k]])
    ensures forall i :: 0 <= i < |bars| && mask(bars[i]) ==> i in rows
    ensures forall k, m :: 0 <= k < m < |rows| ==> rows[k] < rows[m]
  {
    if bars == [] then []
    else
      var earlier := Selected(bars[..|bars| - 1], mask);
      earlier + if mask(bars[|bars| - 1]) then [|bars| - 1] else []
  }

  /** At most the first five entries, as `[:5]` takes them. */
  function FirstFive(rows: seq<nat>): seq<nat> {
    if |rows| <= 5 then rows else rows[..5]
  }

  /** `_validate_ohlc_rules`: three masked passes, each raising when `fix` is off. */
  function OhlcRules(bars: seq<Bar>, fix: bool): Result<seq<Bar>, ValidationError> {
    var hl := Selected(bars, HighBelowLowBar);
    if hl != [] && !fix then Failure(HighBelowLow(|hl|, FirstFive(hl)))
    else
      var swapped := Repaired(bars, HighBelowLowBar, SwapHighLow);
      var h := Selected(swapped, HighTooLowBar);
      if h != [] && !fix then Failure(InvalidHigh(|h|))
      else
        var raised := Repaired(swapped, HighTooLowBar, RaiseHigh);
        var l := Selected(raised, LowTooHighBar);
        if l != [] && !fix then Failure(InvalidLow(|l|))
        else Success(Repaired(raised, LowTooHighBar, LowerLow))
  }

  /** The three repairs applied to one bar, in the order the passes run. */
  function RepairBar(b: Bar): Bar {
    var swapped := if HighBelowLowBar(b) then SwapHighLow(b) else b;
    var raised := if HighTooLowBar(swapped) then RaiseHigh(swapped) else swapped;
    if LowTooHighBar(raised) then LowerLow(raised) else raised
  }

  /** With `fix`, the passes repair every bar on its own and never fail. */
  lemma OhlcRulesRepairEachBar(bars: seq<Bar>)
    ensures OhlcRules(bars, true).Success? && |OhlcRules(bars, true).value| == |bars|
    ensures forall i :: 0 <= i < |bars| ==> OhlcRules(bars, true).value[i] == RepairBar(bars[i])
  {
    var swapped := Repaired(bars, HighBelowLowBar, SwapHighLow);
    var raised := Repaired(swapped, HighTooLowBar, RaiseHigh);
    var lowered := Repaired(raised, LowTooHighBar, LowerLow);
    assert OhlcRules(bars, true) == Success(lowered);
    forall i | 0 <= i < |bars| ensures lowered[i] == RepairBar(bars[i]) {
      assert swapped[i] == if HighBelowLowBar(bars[i]) then SwapHighLow(bars[i]) else bars[i];
      assert raised[i] == if HighTooLowBar(swapped[i]) then RaiseHigh(swapped[i]) else swapped[i];
    }
  }

  /** A bar with all four prices comes out of the repair well formed. */
  lemma RepairedBarIsWellFormed(b: Bar)
    requires b.open.Some? && b.high.Some? && b.low.Some? && b.close.Some?
    ensures WellFormed(RepairBar(b))
  {
  }

  /** A bar no mask selects is left exactly as it was. */
  lemma RepairKeepsGoodBar(b: Bar)
    requires SatisfiesRules(b)
    ensures RepairBar(b) == b
  {
  }

  /** A mask selects nothing exactly when it holds for no bar, and then the
      masked assignment changes nothing. */
  lemma NothingSelected(bars: seq<Bar>, mask: Bar -> bool, repair: Bar -> Bar)
    ensures Selected(bars, mask) == [] <==> forall i :: 0 <= i < |bars| ==> !mask(bars[i])
    ensures Selected(bars, mask) == [] ==> Repaired(bars, mask, repair) == bars
  {
    var rows := Selected(bars, mask);
    if rows != [] {
      assert mask(bars[rows[0]]);
    }
  }

  /** Without `fix`, the rules pass the frame through unchanged exactly when no
      bar is selected by a mask, and raise otherwise. */
  lemma OhlcRulesWithoutFix(bars: seq<Bar>)
    ensures OhlcRules(bars, false).Success? <==> forall i :: 0 <= i < |bars| ==> SatisfiesRules(bars[i])
    ensures OhlcRules(bars, false).Success? ==> OhlcRules(bars, false).value == bars
  {
    NothingSelected(bars, HighBelowLowBar, SwapHighLow);
    NothingSelected(bars, HighTooLowBar, RaiseHigh);
    NothingSelected(bars, LowTooHighBar, LowerLow);
  }

  /** `_validate_ohlc_rules` on a copy of the frame, overwriting masked rows in place. */
  method ValidateOhlcRules(bars: seq<Bar>, fix: bool) returns (r: Result<seq<Bar>, ValidationError>)
    ensures r == OhlcRules(bars, fix)
  {
    var frame := new Bar[|bars|](i requires 0 <= i < |bars| => bars[i]);
    assert frame[..] == bars;
    var hl := Selected(frame[..], HighBelowLowBar);
    if hl != [] {
      if !fix {
        return Failure(HighBelowLow(|hl|, FirstFive(hl)));
      }
      RepairWhere(frame, HighBelowLowBar, SwapHighLow);
    } else {
      NothingSelected(bars, HighBelowLowBar, SwapHighLow);
    }
    ghost var swapped := frame[..];
    assert swapped == Repaired(bars, HighBelowLowBar, SwapHighLow);
    var h := Selected(frame[..], HighTooLowBar);
    if h != [] {
      if !fix {
        return Failure(InvalidHigh(|h|));
      }
      RepairWhere(frame, HighTooLowBar, RaiseHigh);
    } else {
      NothingSelected(swapped, HighTooLowBar, RaiseHigh);
    }
    ghost var raised := frame[..];
    assert raised == Repaired(swapped, HighTooLowBar, RaiseHigh);
    var l := Selected(frame[..], LowTooHighBar);
    if l != [] {
      if !fix {
        return Failure(InvalidLow(|l|));
      }
      RepairWhere(frame, LowTooHighBar, LowerLow);
    } else {
      NothingSelected(raised, LowTooHighBar, LowerLow);
    }
    r := Success(frame[..]);
  }

  /** One masked assignment `df.loc[mask, col] = ...`, row by row. */
  method RepairWhere(frame: array<Bar>, mask: Bar -> bool, repair: Bar -> Bar)
    modifies frame
    ensures frame[..] == Repaired(old(frame[..]), mask, repair)
  {
    for i := 0 to frame.Length
      invariant frame[..i] == Repaired(old(frame[..]), mask, repair)[..i]
      invariant frame[i..] == old(frame[..])[i..]
    {
      if mask(frame[i]) {
        frame[i] := repair(frame[i]);
      }
    }
  }

  // ---------------------------------------------------------- missing values

  /** The five required columns. */
  datatype Field = Time | Open | High | Low | Close

  /** The cell of `b` in column `f` is not `NaN`/`NaT`. */
  predicate Present(b: Bar, f: Field) {
    match f
    case Time => b.time.Some?
    case Open => b.open.Some?
    case High => b.high.Some?
    case Low => b.low.Some?
    case Close => b.close.Some?
  }

  /** Column `f` has at least one present cell. */
  predicate HasValue(bars: seq<Bar>, f: Field) {
    exists j :: 0 <= j < |bars| && Present(bars[j], f)
  }

  predicate Complete(b: Bar) {
    forall f :: Present(b, f)
  }

  function Times(bars: seq<Bar>): seq<Option<int>> {
    seq(|bars|, i requires 0 <= i < |bars| => bars[i].time)
  }

  function Opens(bars: seq<Bar>): seq<Option<real>> {
    seq(|bars|, i requires 0 <= i < |bars| => bars[i].open)
  }

  function Highs(bars: seq<Bar>): seq<Option<real>> {
    seq(|bars|, i requires 0 <= i < |bars| => bars[i].high)
  }

  function Lows(bars: seq<Bar>): seq<Option<real>> {
    seq(|bars|, i requires 0 <= i < |bars| => bars[i].low)
  }

  function Closes(bars: seq<Bar>): seq<Option<real>> {
    seq(|bars|, i requires 0 <= i < |bars| => bars[i].close)
  }

  /** `isna().sum()` of one column: zero exactly when no cell is missing. */
  function CountMissing<T>(col: seq<Option<T>>): (n: nat)
    ensures n <= |col|
    ensures n == 0 <==> forall i :: 0 <= i < |col| ==> col[i].Some?
  {
    if col == [] then 0 else CountMissing(col[1..]) + if col[0].None? then 1 else 0
  }

  function MissingCountsOf(bars: seq<Bar>): MissingCounts {
    MissingCounts(CountMissing(Times(bars)), CountMissing(Opens(bars)), CountMissing(Highs(bars)),
                  CountMissing(Lows(bars)), CountMissing(Closes(bars)))
  }

  /** `ffill` of one column. */
  function FFill<T>(col: seq<Option<T>>): (r: seq<Option<T>>)
    ensures |r| == |col|
  {
    if col == [] then []
    else
      var above := FFill(col[..|col| - 1]);
      var last := col[|col| - 1];
      above + [if last.None? && above != [] then above[|above| - 1] else last]
  }

  /** `bfill` of one column. */
  function BFill<T>(col: seq<Option<T>>): (r: seq<Option<T>>)
    ensures |r| == |col|
  {
    if col == [] then []
    else
      var below := BFill(col[1..]);
      [if col[0].None? && below != [] then below[0] else col[0]] + below
  }

  /** `ffill` keeps present cells and gives a missing one the value of the
      nearest present cell above it; with none above it stays missing. */
  lemma {:induction false} FFillMeaning<T>(col: seq<Option<T>>, i: int)
    requires 0 <= i < |col|
    ensures col[i].Some? ==> FFill(col)[i] == col[i]
    ensures FFill(col)[i].None? <==> forall j :: 0 <= j <= i ==> col[j].None?
    ensures FFill(col)[i].Some? ==>
      exists j :: 0 <= j <= i && FFill(col)[i] == col[j] && forall k :: j < k <= i ==> col[k].None?
  {
    var n := |col|;
    var above := col[..n - 1];
    assert forall k :: 0 <= k < n - 1 ==> above[k] == col[k];
    if i < n - 1 {
      FFillMeaning(above, i);
      assert FFill(col)[i] == FFill(above)[i];
      if FFill(col)[i].Some? {
        var j :| 0 <= j <= i && FFill(above)[i] == above[j] && forall k :: j < k <= i ==> above[k].None?;
        assert FFill(col)[i] == col[j];
      }
    } else if col[i].None? && i > 0 {
      FFillMeaning(above, i - 1);
      assert FFill(col)[i] == FFill(above)[i - 1];
      if FFill(col)[i].Some? {
        var j :| 0 <= j <= i - 1 && FFill(above)[i - 1] == above[j] && forall k :: j < k <= i - 1 ==> above[k].None?;
        assert FFill(col)[i] == col[j];
        assert forall k :: j < k <= i ==> col[k].None?;
      }
    } else {
      assert FFill(col)[i] == col[i];
    }
  }

  /** `bfill` keeps present cells and gives a missing one the value of the
      nearest present cell below it; with none below it stays missing. */
  lemma {:induction false} BFillMeaning<T>(col: seq<Option<T>>, i: int)
    requires 0 <= i < |col|
    ensures col[i].Some? ==> BFill(col)[i] == col[i]
    ensures BFill(col)[i].None? <==> forall j :: i <= j < |col| ==> col[j].None?
    ensures BFill(col)[i].Some? ==>
      exists j :: i <= j < |col| && BFill(col)[i] == col[j] && forall k :: i <= k < j ==> col[k].None?
  {
    var below := col[1..];
    if i > 0 {
      BFillMeaning(below, i - 1);
      assert BFill(col)[i] == BFill(below)[i - 1];
      if BFill(col)[i].Some? {
        var j :| i - 1 <= j < |below| && BFill(below)[i - 1] == below[j] &&
          forall k :: i - 1 <= k < j ==> below[k].None?;
        assert forall k :: i <= k < j + 1 ==> col[k] == below[k - 1];
      }
    } else if col[0].None? && |col| > 1 {
      BFillMeaning(below, 0);
      assert BFill(col)[0] == BFill(below)[0];
      if BFill(col)[0].Some? {
        var j :| 0 <= j < |below| && BFill(below)[0] == below[j] && forall k :: 0 <= k < j ==> below[k].None?;
        assert forall k :: 1 <= k < j + 1 ==> col[k] == below[k - 1];
      }
    }
  }

  /** `ffill().bfill()` of a column with any present cell leaves none missing
      and keeps every present cell. */
  lemma FillLeavesNoGap<T>(col: seq<Option<T>>)
    ensures forall i :: 0 <= i < |col| && col[i].Some? ==> BFill(FFill(col))[i] == col[i]
    ensures (exists j :: 0 <= j < |col| && col[j].Some?) ==>
      forall i :: 0 <= i < |col| ==> BFill(FFill(col))[i].Some?
  {
    var forward := FFill(col);
    forall i | 0 <= i < |col| && col[i].Some? ensures BFill(forward)[i] == col[i] {
      FFillMeaning(col, i);
      BFillMeaning(forward, i);
    }
    if j :| 0 <= j < |col| && col[j].Some? {
      forall i | 0 <= i < |col| ensures BFill(forward)[i].Some? {
        var k := if i < j then j else i;
        FFillMeaning(col, k);
        BFillMeaning(forward, i);
      }
    }
  }

  /** `df.ffill().bfill()` on the five required columns. */
  function FillMissing(bars: seq<Bar>): (r: seq<Bar>)
    ensures |r| == |bars|
  {
    var t, o, h := BFill(FFill(Times(bars))), BFill(FFill(Opens(bars))), BFill(FFill(Highs(bars)));
    var l, c := BFill(FFill(Lows(bars))), BFill(FFill(Closes(bars)));
    seq(|bars|, i requires 0 <= i < |bars| => Bar(t[i], o[i], h[i], l[i], c[i]))
  }

  /** After filling, a column with any present cell has no missing cell, and
      present cells keep their values. */
  lemma FillMissingIsComplete(bars: seq<Bar>, f: Field)
    ensures forall i :: 0 <= i < |bars| && bars[i].time.Some? ==> FillMissing(bars)[i].time == bars[i].time
    ensures forall i :: 0 <= i < |bars| && bars[i].open.Some? ==> FillMissing(bars)[i].open == bars[i].open
    ensures forall i :: 0 <= i < |bars| && bars[i].high.Some? ==> FillMissing(bars)[i].high == bars[i].high
    ensures forall i :: 0 <= i < |bars| && bars[i].low.Some? ==> FillMissing(bars)[i].low == bars[i].low
    ensures forall i :: 0 <= i < |bars| && bars[i].close.Some? ==> FillMissing(bars)[i].close == bars[i].close
    ensures HasValue(bars, f) ==> forall i :: 0 <= i < |bars| ==> Present(FillMissing(bars)[i], f)
  {
    FillLeavesNoGap(Times(bars));
    FillLeavesNoGap(Opens(bars));
    FillLeavesNoGap(Highs(bars));
    FillLeavesNoGap(Lows(bars));
    FillLeavesNoGap(Closes(bars));
    if HasValue(bars, f) {
      var j :| 0 <= j < |bars| && Present(bars[j], f);
      match f
      case Time => assert Times(bars)[j].Some?;
      case Open => assert Opens(bars)[j].Some?;
      case High => assert Highs(bars)[j].Some?;
      case Low => assert Lows(bars)[j].Some?;
      case Close => assert Closes(bars)[j].Some?;
    }
  }

  /** `_check_data_quality`: fill when any required cell is missing and `fix`
      is on, raise when it is off. */
  function CheckDataQuality(bars: seq<Bar>, fix: bool): Result<seq<Bar>, ValidationError> {
    var counts := MissingCountsOf(bars);
    if counts == MissingCounts(0, 0, 0, 0, 0) then Success(bars)
    else if fix then Success(FillMissing(bars))
    else Failure(MissingValues(counts))
  }

  /** Without `fix` the quality check passes exactly the frames with no
      missing required cell, unchanged; with `fix` it never raises. */
  lemma DataQualityOutcome(bars: seq<Bar>)
    ensures CheckDataQuality(bars, false).Success? <==> forall i :: 0 <= i < |bars| ==> Complete(bars[i])
    ensures CheckDataQuality(bars, false).Success? ==> CheckDataQuality(bars, false).value == bars
    ensures CheckDataQuality(bars, true).Success?
  {
    if forall i :: 0 <= i < |bars| ==> Complete(bars[i]) {
      assert MissingCountsOf(bars) == MissingCounts(0, 0, 0, 0, 0) by {
        forall i | 0 <= i < |bars| ensures Times(bars)[i].Some? && Opens(bars)[i].Some? &&
          Highs(bars)[i].Some? && Lows(bars)[i].Some? && Closes(bars)[i].Some? {
          assert Present(bars[i], Time) && Present(bars[i], Open) && Present(bars[i], High);
          assert Present(bars[i], Low) && Present(bars[i], Close);
        }
      }
    } else {
      var i :| 0 <= i < |bars| && !Complete(bars[i]);
      var f :| !Present(bars[i], f);
      match f
      case Time => assert Times(bars)[i].None?;
      case Open => assert Opens(bars)[i].None?;
      case High => assert Highs(bars)[i].None?;
      case Low => assert Lows(bars)[i].None?;
      case Close => assert Closes(bars)[i].None?;
    }
  }

  // ------------------------------------------------------------------ sorting

  /** The order `sort_values('time')` puts times in: `NaT` last. */
  predicate TimeNotAfter(a: Option<int>, b: Option<int>) {
    b.None? || (a.Some? && a.value <= b.value)
  }

  predicate SortedByTime(bars: seq<Bar>) {
    forall i, j :: 0 <= i < j < |bars| ==> TimeNotAfter(bars[i].time, bars[j].time)
  }

  function InsertByTime(b: Bar, sorted: seq<Bar>): (r: seq<Bar>)
    requires SortedByTime(sorted)
    ensures SortedByTime(r)
    ensures |r| == |sorted| + 1
    ensures forall k :: 0 <= k < |r| ==> r[k] == b || r[k] in sorted
  {
    if sorted == [] || TimeNotAfter(b.time, sorted[0].time) then [b] + sorted
    else [sorted[0]] + InsertByTime(b, sorted[1..])
  }

  /** `sort_values('time')`, keeping the input order among equal times. */
  function SortByTime(bars: seq<Bar>): (r: seq<Bar>)
    ensures SortedByTime(r) && |r| == |bars|
  {
    if bars == [] then [] else InsertByTime(bars[0], SortByTime(bars[1..]))
  }

  lemma {:induction false} InsertByTimeAddsOne(b: Bar, sorted: seq<Bar>)
    requires SortedByTime(sorted)
    ensures multiset(InsertByTime(b, sorted)) == multiset(sorted) + multiset{b}
  {
    if sorted != [] && !TimeNotAfter(b.time, sorted[0].time) {
      InsertByTimeAddsOne(b, sorted[1..]);
      assert sorted == [sorted[0]] + sorted[1..];
    }
  }

  /** The sorted frame holds the same bars as its input. */
  lemma {:induction false} SortByTimeIsPermutation(bars: seq<Bar>)
    ensures multiset(SortByTime(bars)) == multiset(bars)
  {
    if bars != [] {
      SortByTimeIsPermutation(bars[1..]);
      InsertByTimeAddsOne(bars[0], SortByTime(bars[1..]));
      assert bars == [bars[0]] + bars[1..];
    }
  }

  // ----------------------------------------------------------------- pipeline

  /** `_validate_types`, which is not part of this model: it receives the
      relabelled frame and `fix`, and yields the converted bars or raises. */
  type Converter<!Row> = (Table<Row>, bool) -> Result<seq<Bar>, ValidationError>

  /** The repair steps of `validate` in the order the source runs them:
      OHLC rules first, then the missing-value check. */
  function Repair(bars: seq<Bar>, fix: bool): Result<seq<Bar>, ValidationError> {
    match OhlcRules(bars, fix)
    case Failure(e) => Failure(e)
    case Success(checked) => CheckDataQuality(checked, fix)
  }

  /** `validate`: the empty-frame check, the column check, conversion, the
      repair steps and the sort by time. */
  function Validated<Row>(table: Option<Table<Row>>, fix: bool, convert: Converter<Row>): Result<seq<Bar>, ValidationError> {
    if table.None? || table.value.columns == [] || table.value.rows == [] then Failure(EmptyFrame)
    else match CheckedColumns(table.value.columns)
      case Failure(e) => Failure(e)
      case Success(labels) =>
        match convert(Table(labels, table.value.rows), fix)
        case Failure(e) => Failure(e)
        case Success(bars) =>
          match Repair(bars, fix)
          case Failure(e) => Failure(e)
          case Success(repaired) => Success(SortByTime(repaired))
  }

  /** `validate`, running the column check and the OHLC pass as the methods above. */
  method Validate<Row>(table: Option<Table<Row>>, fix: bool, convert: Converter<Row>) returns (r: Result<seq<Bar>, ValidationError>)
    ensures r == Validated(table, fix, convert)
  {
    if table.None? || table.value.columns == [] || table.value.rows == [] {
      return Failure(EmptyFrame);
    }
    var labels := CheckColumns(table.value.columns);
    if labels.Failure? {
      return Failure(labels.error);
    }
    var bars := convert(Table(labels.value, table.value.rows), fix);
    if bars.Failure? {
      return Failure(bars.error);
    }
    var checked := ValidateOhlcRules(bars.value, fix);
    if checked.Failure? {
      return Failure(checked.error);
    }
    var cleaned := CheckDataQuality(checked.value, fix);
    if cleaned.Failure? {
      return Failure(cleaned.error);
    }
    r := Success(SortByTime(cleaned.value));
  }

  /** Without `fix`, a frame that passes `validate` comes back as its
      converted bars, each complete and well formed, reordered by time. */
  lemma StrictValidation<Row>(table: Option<Table<Row>>, convert: Converter<Row>)
    requires Validated(table, false, convert).Success?
    ensures table.Some? && CheckedColumns(table.value.columns).Success?
    ensures var bars := convert(Table(CheckedColumns(table.value.columns).value, table.value.rows), false);
      bars.Success? &&
      multiset(Validated(table, false, convert).value) == multiset(bars.value)
    ensures forall i :: 0 <= i < |Validated(table, false, convert).value| ==>
      WellFormed(Validated(table, false, convert).value[i])
    ensures SortedByTime(Validated(table, false, convert).value)
  {
    var bars := convert(Table(CheckedColumns(table.value.columns).value, table.value.rows), false).value;
    OhlcRulesWithoutFix(bars);
    DataQualityOutcome(bars);
    var out := SortByTime(bars);
    SortByTimeIsPermutation(bars);
    forall i | 0 <= i < |out| ensures WellFormed(out[i]) {
      assert out[i] in multiset(bars);
      var j :| 0 <= j < |bars| && bars[j] == out[i];
      assert Complete(bars[j]) && SatisfiesRules(bars[j]);
      assert Present(bars[j], Open) && Present(bars[j], High) && Present(bars[j], Low) && Present(bars[j], Close);
    }
  }

  /** With `fix`, `validate` raises only from the empty-frame check, the column
      check or conversion; the output is the repaired bars sorted by time and
      leaves no cell missing in a column that had any value. */
  lemma LenientValidation<Row>(table: Option<Table<Row>>, convert: Converter<Row>)
    requires table.Some? && table.value.columns != [] && table.value.rows != []
    requires CheckedColumns(table.value.columns).Success?
    requires convert(Table(CheckedColumns(table.value.columns).value, table.value.rows), true).Success?
    ensures var bars := convert(Table(CheckedColumns(table.value.columns).value, table.value.rows), true).value;
      Repair(bars, true).Success? &&
      Validated(table, true, convert) == Success(SortByTime(Repair(bars, true).value)) &&
      multiset(Validated(table, true, convert).value) == multiset(Repair(bars, true).value) &&
      forall f, i :: HasValue(bars, f) && 0 <= i < |bars| ==> Present(Repair(bars, true).value[i], f)
  {
    var bars := convert(Table(CheckedColumns(table.value.columns).value, table.value.rows), true).value;
    OhlcRulesRepairEachBar(bars);
    var checked := OhlcRules(bars, true).value;
    DataQualityOutcome(checked);
    SortByTimeIsPermutation(Repair(bars, true).value);
    forall f, i | HasValue(bars, f) && 0 <= i < |bars| ensures Present(Repair(bars, true).value[i], f) {
      RepairFillsColumn(bars, f, i);
    }
  }

  /** With `fix`, a column that had a value before the repairs has one in every row after them. */
  lemma RepairFillsColumn(bars: seq<Bar>, f: Field, i: int)
    requires HasValue(bars, f) && 0 <= i < |bars|
    ensures Repair(bars, true).Success? && Present(Repair(bars, true).value[i], f)
  {
    OhlcRulesRepairEachBar(bars);
    var checked := OhlcRules(bars, true).value;
    var j :| 0 <= j < |bars| && Present(bars[j], f);
    RepairKeepsPresence(bars[j], f);
    assert HasValue(checked, f);
    FillMissingIsComplete(checked, f);
    DataQualityOutcome(checked);
  }

  /** The repairs never turn a present cell into a missing one. */
  lemma RepairKeepsPresence(b: Bar, f: Field)
    requires Present(b, f)
    ensures Present(RepairBar(b), f)
  {
  }

  // ---------------------------------------------------------------- findings

  /** The missing-value fill runs after the OHLC repair, so a filled `high` can
      land below the bar's own `low`: `validate(fix_issues=True)` then returns
      a bar that breaks the rules it just repaired. */
  lemma FillAfterRepairBreaksOrdering()
    ensures var bars := [Bar(Some(1), Some(10.0), Some(12.0), Some(9.0), Some(11.0)),
                         Bar(Some(2), Some(20.0), None, Some(19.0), Some(21.0))];
      Repair(bars, true) == Success([bars[0], Bar(Some(2), Some(20.0), Some(12.0), Some(19.0), Some(21.0))]) &&
      !WellFormed(Repair(bars, true).value[1])
  {
    var first := Bar(Some(1), Some(10.0), Some(12.0), Some(9.0), Some(11.0));
    var second := Bar(Some(2), Some(20.0), None, Some(19.0), Some(21.0));
    var bars := [first, second];
    OhlcRulesRepairEachBar(bars);
    assert RepairBar(first) == first && RepairBar(second) == second;
    var checked := OhlcRules(bars, true).value;
    assert checked[0] == first && checked[1] == second;
    assert checked == bars;
    var highs := Highs(bars);
    assert highs == [Some(12.0), None];
    assert CountMissing(highs) != 0 by {
      assert highs[1].None?;
    }
    assert FFill(highs) == [Some(12.0), Some(12.0)] by {
      assert highs[..1] == [Some(12.0)];
      assert FFill(highs[..1]) == [Some(12.0)];
    }
    assert BFill(FFill(highs)) == [Some(12.0), Some(12.0)] by {
      assert FFill(highs)[1..] == [Some(12.0)];
    }
    FillMissingIsComplete(bars, Time);
    var filled := FillMissing(bars);
    assert filled[0] == first;
    assert filled[1] == Bar(Some(2), Some(20.0), Some(12.0), Some(19.0), Some(21.0));
    assert filled == [first, Bar(Some(2), Some(20.0), Some(12.0), Some(19.0), Some(21.0))];
    assert Repair(bars, true) == Success(filled);
  }

  /** The repair steps with the missing-value check run first. */
  function RepairFillFirst(bars: seq<Bar>, fix: bool): Result<seq<Bar>, ValidationError> {
    match CheckDataQuality(bars, fix)
    case Failure(e) => Failure(e)
    case Success(filled) => OhlcRules(filled, fix)
  }

  /** Filling first, then repairing, leaves every bar well formed whenever each
      price column has at least one value. */
  lemma RepairFillFirstIsWellFormed(bars: seq<Bar>)
    requires HasValue(bars, Open) && HasValue(bars, High) && HasValue(bars, Low) && HasValue(bars, Close)
    ensures RepairFillFirst(bars, true).Success?
    ensures |RepairFillFirst(bars, true).value| == |bars|
    ensures forall i :: 0 <= i < |bars| ==> WellFormed(RepairFillFirst(bars, true).value[i])
  {
    DataQualityOutcome(bars);
    var filled := CheckDataQuality(bars, true).value;
    assert forall i, f :: 0 <= i < |bars| && HasValue(bars, f) ==> Present(filled[i], f) by {
      forall f | HasValue(bars, f) ensures forall i :: 0 <= i < |bars| ==> Present(filled[i], f) {
        FillMissingIsComplete(bars, f);
        if MissingCountsOf(bars) == MissingCounts(0, 0, 0, 0, 0) {
          assert forall i :: 0 <= i < |bars| ==> Complete(bars[i]);
        }
      }
    }
    OhlcRulesRepairEachBar(filled);
    forall i | 0 <= i < |bars| ensures WellFormed(RepairFillFirst(bars, true).value[i]) {
      assert Present(filled[i], Open) && Present(filled[i], High) && Present(filled[i], Low) && Present(filled[i], Close);
      RepairedBarIsWellFormed(filled[i]);
    }
  }
}

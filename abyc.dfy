/**
  * abyc.py: the Table VI-B column accessor, the dispatch from a circuit's
  * voltage and allowed drop to its Table IX, the 12 V length accessor, and
  * the voltage-drop gauge selector that the tests call.
  */
module Abyc {
  import opened Wrappers
  import opened Decimal
  import opened Frames
  import opened Errors
  import opened AbycData
  import Wire
  import RatingHeaders

  // ---------------------------------------------------------------------
  // Table 6.

  /**
    * GetAWGVsCurrentForInsulationTempRating as evidently intended: a rating
    * not in TABLE_VI_B_KNOWN_TEMPS_C is refused, otherwise the result is the
    * column current_<T>C, or current_<T>C_engroom in the engine room.
    */
  function AwgVsCurrentForInsulationTempRating(tempC: int, engineRoom: bool := false)
    : (r: Result<seq<Entry<string, real>>, Error>)
    ensures r == Err(UnknownTemperatureRating(tempC)) <==> tempC !in TableVIBKnownTempsC
    ensures r.Ok? ==>
      exists j :: 0 <= j < |TableVIBColumns| && r.value == Column(TableVIB, j)
        && TableVIBColumns[j] == if engineRoom then "current_" + IntToString(tempC) + "C" + "_engroom"
                                 else "current_" + IntToString(tempC) + "C"
  {
    Wire.AmpacityColumn(TableVIB, TableVIBKnownTempsC, "_engroom", tempC, engineRoom)
  }

  /** A known rating always finds its column: the one Wire.RatingColumn locates in wire.py's copy. */
  lemma KnownRatingsSelectColumn(tempC: int, engineRoom: bool)
    requires tempC in TableVIBKnownTempsC
    ensures AwgVsCurrentForInsulationTempRating(tempC, engineRoom)
         == Ok(Column(TableVIB, Wire.RatingColumn(tempC, engineRoom)))
  {
    TableVIBHeaderFollowsRatings();
    Wire.AmpacityColumnOfKnownRating(TableVIB, TableVIBKnownTempsC, "_engroom", tempC, engineRoom);
    KnownTempsAgree();
  }

  /** abyc_data.py and wire.py list the same known ratings. */
  lemma KnownTempsAgree()
    ensures TableVIBKnownTempsC == Wire.KnownTempsC
  {
  }

  /** The header is the two columns of each known rating, in order, with the suffix "_engroom". */
  lemma TableVIBHeaderFollowsRatings()
    ensures TableVIB.columns == RatingHeaders.RatingHeader(TableVIBKnownTempsC, Wire.AmpacityColumnNames("_engroom"))
  {
    var h := RatingHeaders.RatingHeader(TableVIBKnownTempsC, Wire.AmpacityColumnNames("_engroom"));
    forall c | 0 <= c < |TableVIBColumns|
      ensures TableVIBColumns[c] == h[c]
    {
      var k := c / 2;
      RatingHeaders.RatingHeaderAt(TableVIBKnownTempsC, Wire.AmpacityColumnNames("_engroom"), k);
      if k < 4 {
        LowRatingHeaderNames(k);
      } else {
        HighRatingHeaderNames(k);
      }
    }
  }

  lemma LowRatingHeaderNames(k: nat)
    requires k < 4
    ensures TableVIBColumns[2 * k] == Wire.AmpacityColumnName(TableVIBKnownTempsC[k], false, "_engroom")
    ensures TableVIBColumns[2 * k + 1] == Wire.AmpacityColumnName(TableVIBKnownTempsC[k], true, "_engroom")
  {
    if k == 0 {
      assert IntToString(60) == "60";
    } else if k == 1 {
      assert IntToString(75) == "75";
    } else if k == 2 {
      assert IntToString(80) == "80";
    } else {
      assert IntToString(90) == "90";
    }
  }

  lemma HighRatingHeaderNames(k: nat)
    requires 4 <= k < 7
    ensures TableVIBColumns[2 * k] == Wire.AmpacityColumnName(TableVIBKnownTempsC[k], false, "_engroom")
    ensures TableVIBColumns[2 * k + 1] == Wire.AmpacityColumnName(TableVIBKnownTempsC[k], true, "_engroom")
  {
    if k == 4 {
      assert IntToString(105) == "105";
    } else if k == 5 {
      assert IntToString(125) == "125";
    } else {
      assert IntToString(200) == "200";
    }
  }

  /** The rows of the two transcriptions of Table VI-B are the same. */
  lemma TableVIBCopiesHaveSameRows()
    ensures TableVIB.rows == Wire.TableVIB.rows
  {
  }

  /**
    * The headers of the two transcriptions agree except that the
    * engine-room suffix is "_engroom" in one and "_eng" in the other.
    */
  lemma TableVIBCopiesHeadersDiffer()
    ensures |TableVIBColumns| == |Wire.TableVIB.columns| == 14
    ensures forall k :: 0 <= k < 7 ==> TableVIBColumns[2 * k] == Wire.TableVIB.columns[2 * k]
    ensures forall k :: 0 <= k < 7 ==> TableVIBColumns[2 * k + 1] == Wire.TableVIB.columns[2 * k + 1] + "room"
  {
    TableVIBColumnsAsWritten();
    assert "current_60C_eng" + "room" == "current_60C_engroom";
    assert "current_75C_eng" + "room" == "current_75C_engroom";
    assert "current_80C_eng" + "room" == "current_80C_engroom";
    assert "current_90C_eng" + "room" == "current_90C_engroom";
    assert "current_105C_eng" + "room" == "current_105C_engroom";
    assert "current_125C_eng" + "room" == "current_125C_engroom";
    assert "current_200C_eng" + "room" == "current_200C_engroom";
  }

  /** The accessor selects the same capacities as the Table VI-B selector of wire.py, for every rating. */
  lemma AccessorAgreesWithWire(tempC: int, engineRoom: bool)
    ensures AwgVsCurrentForInsulationTempRating(tempC, engineRoom)
         == Wire.AmpacityColumn(Wire.TableVIB, Wire.KnownTempsC, "_eng", tempC, engineRoom)
  {
    if tempC in TableVIBKnownTempsC {
      KnownRatingsSelectColumn(tempC, engineRoom);
      Wire.KnownRatingsHaveColumns(tempC, engineRoom);
      TableVIBCopiesHaveSameRows();
    }
  }

  // ---------------------------------------------------------------------
  // Table 9.

  /** One entry of _TABLE9: a Table IX and its *_KNOWN_LENGTHS_FT. */
  datatype VoltageDropTable = VoltageDropTable(table: Frame<int, int>, knownLengthsFt: seq<nat>)

  /** The keys of _TABLE9: 12, 24 or 32 V with a 3 % or 10 % drop. */
  predicate IsTable9Key(voltage: int, dropPc: int) {
    (voltage == 12 || voltage == 24 || voltage == 32) && (dropPc == 3 || dropPc == 10)
  }

  /** _TABLE9 as written: its 24 V, 10 % entry is the table whose second row is labelled 0. */
  function Table9AsWritten(voltage: int, dropPc: int): (r: Option<VoltageDropTable>)
    ensures r.Some? <==> IsTable9Key(voltage, dropPc)
    ensures r.Some? ==> r.value.knownLengthsFt == TableIXKnownLengthsFt
  {
    if voltage == 24 && dropPc == 10 then Some(VoltageDropTable(TableIX24V10PcAsWritten, TableIXKnownLengthsFt))
    else Table9(voltage, dropPc)
  }

  /** _TABLE9 with the 24 V, 10 % table's second row labelled 10 A. */
  function Table9(voltage: int, dropPc: int): (r: Option<VoltageDropTable>)
    ensures r.Some? <==> IsTable9Key(voltage, dropPc)
    ensures r.Some? ==> r.value.knownLengthsFt == TableIXKnownLengthsFt
  {
    if voltage == 12 && dropPc == 3 then Some(VoltageDropTable(TableIX12V3Pc, TableIXKnownLengthsFt))
    else if voltage == 24 && dropPc == 3 then Some(VoltageDropTable(TableIX24V3Pc, TableIXKnownLengthsFt))
    else if voltage == 32 && dropPc == 3 then Some(VoltageDropTable(TableIX32V3Pc, TableIXKnownLengthsFt))
    else if voltage == 12 && dropPc == 10 then Some(VoltageDropTable(TableIX12V10Pc, TableIXKnownLengthsFt))
    else if voltage == 24 && dropPc == 10 then Some(VoltageDropTable(TableIX24V10Pc, TableIXKnownLengthsFt))
    else if voltage == 32 && dropPc == 10 then Some(VoltageDropTable(TableIX32V10Pc, TableIXKnownLengthsFt))
    else None
  }

  /** A _TABLE9 entry of the common shape: rows for 5 A to 100 A, columns for the 19 lengths. */
  predicate ShapedVoltageDropTable(vt: VoltageDropTable) {
    TableIXShaped(vt.table) && Keys(vt.table) == TableIXCurrentsA && vt.knownLengthsFt == TableIXKnownLengthsFt
  }

  /** Every corrected _TABLE9 entry has the common shape. */
  lemma Table9Shaped(voltage: int, dropPc: int)
    requires IsTable9Key(voltage, dropPc)
    ensures ShapedVoltageDropTable(Table9(voltage, dropPc).value)
  {
    if voltage == 12 && dropPc == 3 {
      TableIX12V3PcShape();
    } else if voltage == 24 && dropPc == 3 {
      TableIX24V3PcShape();
    } else if voltage == 32 && dropPc == 3 {
      TableIX32V3PcShape();
    } else if voltage == 12 && dropPc == 10 {
      TableIX12V10PcShape();
    } else if voltage == 24 && dropPc == 10 {
      TableIX24V10PcShape();
    } else {
      TableIX32V10PcShape();
    }
  }

  /** Index `i` is the first tabulated value at or above `x`. */
  predicate IsFirstAtLeast(values: seq<int>, x: real, i: int) {
    0 <= i < |values| && values[i] as real >= x
    && forall k :: 0 <= k < i ==> (values[k] as real) < x
  }

  /** Index `i` holds the least tabulated value at or above `x`: the bucket `x` rounds up to. */
  predicate IsCeiling(values: seq<int>, x: real, i: int) {
    0 <= i < |values| && values[i] as real >= x
    && forall k :: 0 <= k < |values| && values[k] as real >= x ==> values[i] <= values[k]
  }

  /** The first tabulated value at or above `x`, in table order; None when `x` exceeds them all. */
  function FirstAtLeast(values: seq<int>, x: real): (r: Option<nat>)
    ensures r.Some? ==> IsFirstAtLeast(values, x, r.value)
    ensures r.None? <==> forall k :: 0 <= k < |values| ==> (values[k] as real) < x
  {
    if values == [] then None
    else if values[0] as real >= x then Some(0)
    else match FirstAtLeast(values[1..], x)
      case None => None
      case Some(k) => Some(k + 1)
  }

  /** The index that is first at or above `x` is the one the search finds, in any order of values. */
  lemma FirstAtLeastFindsFirst(values: seq<int>, x: real, i: int)
    requires IsFirstAtLeast(values, x, i)
    ensures FirstAtLeast(values, x) == Some(i)
  {
    assert values[i] as real >= x;
    var j := FirstAtLeast(values, x).value;
    assert !(j < i) && !(i < j);
  }

  /** On ascending values, the first value at or above `x` is exactly the ceiling of `x`. */
  lemma FirstAtLeastIsCeiling(values: seq<int>, x: real, i: int)
    requires StrictlyAscending(values)
    ensures FirstAtLeast(values, x) == Some(i) <==> IsCeiling(values, x, i)
  {
    var r := FirstAtLeast(values, x);
    if r == Some(i) {
      forall k | 0 <= k < |values| && values[k] as real >= x
        ensures values[i] <= values[k]
      {
        assert i <= k;
      }
    }
    if IsCeiling(values, x, i) {
      var j := r.value;
      assert values[i] <= values[j];
      assert j <= i;
    }
  }

  /** A larger request never rounds to an earlier bucket. */
  lemma FirstAtLeastMonotonic(values: seq<int>, x: real, y: real)
    requires x <= y && FirstAtLeast(values, y).Some?
    ensures FirstAtLeast(values, x).Some?
    ensures FirstAtLeast(values, x).value <= FirstAtLeast(values, y).value
  {
    var j := FirstAtLeast(values, y).value;
    assert values[j] as real >= x;
  }

  /** A tabulated request maps to its own bucket. */
  lemma FirstAtLeastFindsTabulated(values: seq<int>, k: nat)
    requires StrictlyAscending(values) && k < |values|
    ensures FirstAtLeast(values, values[k] as real) == Some(k)
  {
    FirstAtLeastIsCeiling(values, values[k] as real, k);
  }

  /** The first column whose header's digit run is `n`. */
  function NumberedColumn(columns: seq<string>, n: nat): (r: Option<nat>)
    ensures r.None? <==> forall k :: 0 <= k < |columns| ==> FirstDigitRun(columns[k]) != Some(n)
    ensures r.Some? ==> r.value < |columns| && FirstDigitRun(columns[r.value]) == Some(n)
    ensures r.Some? ==> forall k :: 0 <= k < r.value ==> FirstDigitRun(columns[k]) != Some(n)
  {
    if columns == [] then None
    else if FirstDigitRun(columns[0]) == Some(n) then Some(0)
    else match NumberedColumn(columns[1..], n)
      case None => None
      case Some(k) => Some(k + 1)
  }

  /** When the header numbers ascend, the column numbered with the l-th number is column l. */
  lemma NumberedColumnOfAscendingHeader(columns: seq<string>, numbers: seq<nat>, l: nat)
    requires |columns| == |numbers| && l < |numbers|
    requires forall k :: 0 <= k < |columns| ==> FirstDigitRun(columns[k]) == Some(numbers[k])
    requires StrictlyAscending(numbers)
    ensures NumberedColumn(columns, numbers[l]) == Some(l)
  {
    var r := NumberedColumn(columns, numbers[l]);
    assert FirstDigitRun(columns[l]) == Some(numbers[l]);
    var j := r.value;
    assert j <= l;
    assert numbers[j] == numbers[l];
  }

  /** In the Table IX header, the column for length l of the known lengths is column l. */
  lemma TableIXLengthColumn(l: nat)
    requires l < |TableIXKnownLengthsFt|
    ensures NumberedColumn(TableIXColumns, TableIXKnownLengthsFt[l]) == Some(l)
  {
    TableIXKnownLengths();
    forall k | 0 <= k < |TableIXColumns|
      ensures FirstDigitRun(TableIXColumns[k]) == Some(TableIXKnownLengthsFt[k])
    {
      TableIXHeaderNumber(k);
    }
    NumberedColumnOfAscendingHeader(TableIXColumns, TableIXKnownLengthsFt, l);
  }

  /**
    * The voltage-drop lookup: round the length up to a tabulated length and
    * the current up to a tabulated current, and read that cell; a request
    * beyond the longest length, beyond the largest current, or on a blank
    * cell has no acceptable gauge.
    */
  function VoltageDropGauge(vt: VoltageDropTable, currentA: real, lengthFt: real): (r: Result<int, Error>)
    ensures r == Err(LengthOutOfRange) <==>
      forall k :: 0 <= k < |vt.knownLengthsFt| ==> (vt.knownLengthsFt[k] as real) < lengthFt
    ensures r.Err? ==> r.error == LengthOutOfRange || r.error == NoAcceptableGauge || r.error.NoNumberedColumn?
  {
    match FirstAtLeast(vt.knownLengthsFt, lengthFt)
    case None => Err(LengthOutOfRange)
    case Some(l) =>
      match NumberedColumn(vt.table.columns, vt.knownLengthsFt[l])
      case None => Err(NoNumberedColumn(vt.knownLengthsFt[l]))
      case Some(c) =>
        match FirstAtLeast(Keys(vt.table), currentA)
        case None => Err(NoAcceptableGauge)
        case Some(i) =>
          match Cell(vt.table.rows[i], c)
          case None => Err(NoAcceptableGauge)
          case Some(g) => Ok(g)
  }

  /**
    * On a table of the common shape the lookup reads exactly the cell at the
    * ceiling current and the ceiling length, and it never misses a column.
    */
  lemma ShapedTableReadsCeilingCell(vt: VoltageDropTable, currentA: real, lengthFt: real, g: int)
    requires ShapedVoltageDropTable(vt)
    ensures VoltageDropGauge(vt, currentA, lengthFt) == Ok(g) <==>
      exists i, l :: IsCeiling(TableIXCurrentsA, currentA, i) && IsCeiling(TableIXKnownLengthsFt, lengthFt, l)
        && Cell(vt.table.rows[i], l) == Some(g)
    ensures VoltageDropGauge(vt, currentA, lengthFt).Err? ==>
      VoltageDropGauge(vt, currentA, lengthFt).error in {LengthOutOfRange, NoAcceptableGauge}
  {
    TableIXCurrentsAscend();
    TableIXKnownLengths();
    var r := VoltageDropGauge(vt, currentA, lengthFt);
    var fl := FirstAtLeast(TableIXKnownLengthsFt, lengthFt);
    if fl.Some? {
      TableIXLengthColumn(fl.value);
    }
    if r == Ok(g) {
      var l := fl.value;
      var i := FirstAtLeast(TableIXCurrentsA, currentA).value;
      FirstAtLeastIsCeiling(TableIXCurrentsA, currentA, i);
      FirstAtLeastIsCeiling(TableIXKnownLengthsFt, lengthFt, l);
      assert Cell(vt.table.rows[i], l) == Some(g);
    }
    if exists i, l :: IsCeiling(TableIXCurrentsA, currentA, i) && IsCeiling(TableIXKnownLengthsFt, lengthFt, l)
        && Cell(vt.table.rows[i], l) == Some(g) {
      var i, l :| IsCeiling(TableIXCurrentsA, currentA, i) && IsCeiling(TableIXKnownLengthsFt, lengthFt, l)
        && Cell(vt.table.rows[i], l) == Some(g);
      FirstAtLeastIsCeiling(TableIXCurrentsA, currentA, i);
      FirstAtLeastIsCeiling(TableIXKnownLengthsFt, lengthFt, l);
      TableIXLengthColumn(l);
    }
  }

  /** The lookup at given ceiling buckets: the cell there, or no acceptable gauge when it is blank. */
  lemma ShapedTableReadsCell(vt: VoltageDropTable, currentA: real, lengthFt: real, i: int, l: int)
    requires ShapedVoltageDropTable(vt)
    requires IsCeiling(TableIXCurrentsA, currentA, i) && IsCeiling(TableIXKnownLengthsFt, lengthFt, l)
    ensures VoltageDropGauge(vt, currentA, lengthFt)
         == match Cell(vt.table.rows[i], l) case Some(g) => Ok(g) case None => Err(NoAcceptableGauge)
  {
    TableIXCurrentsAscend();
    TableIXKnownLengths();
    FirstAtLeastIsCeiling(TableIXCurrentsA, currentA, i);
    FirstAtLeastIsCeiling(TableIXKnownLengthsFt, lengthFt, l);
    TableIXLengthColumn(l);
  }

  /**
    * The reference reading: the cell at the bucket positions themselves, the
    * length bucket naming the column by position rather than by header.
    */
  function BucketCell(t: Frame<int, int>, knownLengthsFt: seq<nat>, currentA: real, lengthFt: real): (r: Result<int, Error>)
    ensures r == Err(LengthOutOfRange) <==>
      forall k :: 0 <= k < |knownLengthsFt| ==> (knownLengthsFt[k] as real) < lengthFt
    ensures r.Err? ==> r.error in {LengthOutOfRange, NoAcceptableGauge}
  {
    match FirstAtLeast(knownLengthsFt, lengthFt)
    case None => Err(LengthOutOfRange)
    case Some(l) =>
      match FirstAtLeast(Keys(t), currentA)
      case None => Err(NoAcceptableGauge)
      case Some(i) =>
        match Cell(t.rows[i], l)
        case None => Err(NoAcceptableGauge)
        case Some(g) => Ok(g)
  }

  /** Under the common header, looking the column up by its header number reads by position. */
  lemma LookupReadsByPosition(vt: VoltageDropTable, currentA: real, lengthFt: real)
    requires vt.table.columns == TableIXColumns && vt.knownLengthsFt == TableIXKnownLengthsFt
    ensures VoltageDropGauge(vt, currentA, lengthFt) == BucketCell(vt.table, vt.knownLengthsFt, currentA, lengthFt)
  {
    var fl := FirstAtLeast(vt.knownLengthsFt, lengthFt);
    if fl.Some? {
      TableIXLengthColumn(fl.value);
    }
  }

  /** On a table of the common shape every gauge the lookup returns is 4/0 or thinner. */
  lemma ShapedTableGaugeNoThickerThanFourOught(vt: VoltageDropTable, currentA: real, lengthFt: real)
    requires ShapedVoltageDropTable(vt)
    requires VoltageDropGauge(vt, currentA, lengthFt).Ok?
    ensures VoltageDropGauge(vt, currentA, lengthFt).value >= -3
  {
    LookupReadsByPosition(vt, currentA, lengthFt);
    var l := FirstAtLeast(vt.knownLengthsFt, lengthFt).value;
    var i := FirstAtLeast(Keys(vt.table), currentA).value;
    assert Cell(vt.table.rows[i], l).Some?;
  }

  /** In a table whose rows and columns thicken, a longer run never takes a thinner wire. */
  lemma LongerRunNeverThinner(t: Frame<int, int>, knownLengthsFt: seq<nat>, currentA: real, shorterFt: real, longerFt: real)
    requires TableIXShaped(t) && shorterFt <= longerFt
    requires BucketCell(t, knownLengthsFt, currentA, longerFt).Ok?
    ensures BucketCell(t, knownLengthsFt, currentA, shorterFt).Ok?
    ensures BucketCell(t, knownLengthsFt, currentA, longerFt).value <= BucketCell(t, knownLengthsFt, currentA, shorterFt).value
  {
    var l2 := FirstAtLeast(knownLengthsFt, longerFt).value;
    FirstAtLeastMonotonic(knownLengthsFt, shorterFt, longerFt);
    var l1 := FirstAtLeast(knownLengthsFt, shorterFt).value;
    var i := FirstAtLeast(Keys(t), currentA).value;
    assert Cell(t.rows[i], l2).Some?;
    ThickensEverywhere(t.rows[i].fields, l1, l2);
  }

  /** In a table whose rows and columns thicken, a larger current never takes a thinner wire. */
  lemma LargerCurrentNeverThinner(t: Frame<int, int>, knownLengthsFt: seq<nat>, smallerA: real, largerA: real, lengthFt: real)
    requires TableIXShaped(t) && smallerA <= largerA
    requires BucketCell(t, knownLengthsFt, largerA, lengthFt).Ok?
    ensures BucketCell(t, knownLengthsFt, smallerA, lengthFt).Ok?
    ensures BucketCell(t, knownLengthsFt, largerA, lengthFt).value <= BucketCell(t, knownLengthsFt, smallerA, lengthFt).value
  {
    var l := FirstAtLeast(knownLengthsFt, lengthFt).value;
    var i2 := FirstAtLeast(Keys(t), largerA).value;
    FirstAtLeastMonotonic(Keys(t), smallerA, largerA);
    var i1 := FirstAtLeast(Keys(t), smallerA).value;
    assert Cell(t.rows[i2], l).Some?;
    ThickerFurtherBelow(t, i1, i2);
  }

  /**
    * The voltage-drop selector the tests call GetAWGForCircuit: the Table IX
    * for the circuit's voltage and allowed drop (3 % unless given), read at
    * the current and length rounded up to tabulated buckets, and returned in
    * canonical form, as the Table VI-B selector returns its gauge.
    */
  function AwgForCircuit(voltage: int, currentA: real, lengthFt: real, dropPc: int := 3): (r: Result<Wire.AwgSpec, Error>)
    ensures r == Err(NoTableForCircuit(voltage, dropPc)) <==> !IsTable9Key(voltage, dropPc)
  {
    match Table9(voltage, dropPc)
    case None => Err(NoTableForCircuit(voltage, dropPc))
    case Some(vt) =>
      match VoltageDropGauge(vt, currentA, lengthFt)
      case Ok(g) => Ok(Wire.RenderAwg(g))
      case Err(e) => Err(e)
  }

  /** The same selector over _TABLE9 as written. */
  function AwgForCircuitAsWritten(voltage: int, currentA: real, lengthFt: real, dropPc: int := 3): (r: Result<Wire.AwgSpec, Error>)
    ensures r == Err(NoTableForCircuit(voltage, dropPc)) <==> !IsTable9Key(voltage, dropPc)
  {
    match Table9AsWritten(voltage, dropPc)
    case None => Err(NoTableForCircuit(voltage, dropPc))
    case Some(vt) =>
      match VoltageDropGauge(vt, currentA, lengthFt)
      case Ok(g) => Ok(Wire.RenderAwg(g))
      case Err(e) => Err(e)
  }

  /**
    * For every circuit with a table, the selector returns the cell at the
    * ceiling current and ceiling length, fails when that cell is blank, and
    * fails with LengthOutOfRange exactly past the longest tabulated run.
    */
  lemma CircuitReadsCeilingCell(voltage: int, currentA: real, lengthFt: real, dropPc: int, i: int, l: int)
    requires IsTable9Key(voltage, dropPc)
    requires IsCeiling(TableIXCurrentsA, currentA, i) && IsCeiling(TableIXKnownLengthsFt, lengthFt, l)
    ensures AwgForCircuit(voltage, currentA, lengthFt, dropPc)
         == match Cell(Table9(voltage, dropPc).value.table.rows[i], l)
            case Some(g) => Ok(Wire.RenderAwg(g)) case None => Err(NoAcceptableGauge)
  {
    Table9Shaped(voltage, dropPc);
    ShapedTableReadsCell(Table9(voltage, dropPc).value, currentA, lengthFt, i, l);
  }

  /**
    * The selector's gauge is a spelling wire.py accepts, and it parses back to
    * the gauge number in the cell read.
    */
  lemma CircuitGaugeParses(voltage: int, currentA: real, lengthFt: real, dropPc: int)
    requires IsTable9Key(voltage, dropPc)
    requires AwgForCircuit(voltage, currentA, lengthFt, dropPc).Ok?
    ensures VoltageDropGauge(Table9(voltage, dropPc).value, currentA, lengthFt).Ok?
    ensures Wire.AwgSpecificationToNumber(AwgForCircuit(voltage, currentA, lengthFt, dropPc).value)
         == Ok(VoltageDropGauge(Table9(voltage, dropPc).value, currentA, lengthFt).value)
  {
    var vt := Table9(voltage, dropPc).value;
    Table9Shaped(voltage, dropPc);
    ShapedTableGaugeNoThickerThanFourOught(vt, currentA, lengthFt);
    Wire.RenderRoundTrip(VoltageDropGauge(vt, currentA, lengthFt).value);
  }

  /** A circuit with a table fails only for want of an acceptable gauge or for a run longer than 170 ft. */
  lemma CircuitErrors(voltage: int, currentA: real, lengthFt: real, dropPc: int)
    requires IsTable9Key(voltage, dropPc)
    ensures AwgForCircuit(voltage, currentA, lengthFt, dropPc) == Err(LengthOutOfRange) <==> lengthFt > 170.0
    ensures AwgForCircuit(voltage, currentA, lengthFt, dropPc).Err? ==>
      AwgForCircuit(voltage, currentA, lengthFt, dropPc).error in {LengthOutOfRange, NoAcceptableGauge}
  {
    Table9Shaped(voltage, dropPc);
    LookupReadsByPosition(Table9(voltage, dropPc).value, currentA, lengthFt);
    LongestRunIs170Ft(lengthFt);
  }

  /** Every tabulated length is below a run exactly when the run is longer than 170 ft. */
  lemma LongestRunIs170Ft(lengthFt: real)
    ensures (forall k :: 0 <= k < |TableIXKnownLengthsFt| ==> (TableIXKnownLengthsFt[k] as real) < lengthFt)
        <==> lengthFt > 170.0
  {
    TableIXKnownLengths();
    assert TableIXKnownLengthsFt[18] == 170;
    assert forall k :: 0 <= k < |TableIXKnownLengthsFt| ==> TableIXKnownLengthsFt[k] <= 170;
  }

  /** For every circuit with a table, a longer run never takes a thinner wire. */
  lemma CircuitLongerRunNeverThinner(voltage: int, currentA: real, shorterFt: real, longerFt: real, dropPc: int)
    requires IsTable9Key(voltage, dropPc) && shorterFt <= longerFt
    requires AwgForCircuit(voltage, currentA, longerFt, dropPc).Ok?
    ensures AwgForCircuit(voltage, currentA, shorterFt, dropPc).Ok?
    ensures Wire.NoThinnerThan(AwgForCircuit(voltage, currentA, longerFt, dropPc).value,
                               AwgForCircuit(voltage, currentA, shorterFt, dropPc).value)
  {
    Table9Shaped(voltage, dropPc);
    var vt := Table9(voltage, dropPc).value;
    LookupReadsByPosition(vt, currentA, shorterFt);
    LookupReadsByPosition(vt, currentA, longerFt);
    LongerRunNeverThinner(vt.table, vt.knownLengthsFt, currentA, shorterFt, longerFt);
    CircuitGaugeParses(voltage, currentA, shorterFt, dropPc);
    CircuitGaugeParses(voltage, currentA, longerFt, dropPc);
  }

  /** For every circuit with a table, a larger current never takes a thinner wire. */
  lemma CircuitLargerCurrentNeverThinner(voltage: int, smallerA: real, largerA: real, lengthFt: real, dropPc: int)
    requires IsTable9Key(voltage, dropPc) && smallerA <= largerA
    requires AwgForCircuit(voltage, largerA, lengthFt, dropPc).Ok?
    ensures AwgForCircuit(voltage, smallerA, lengthFt, dropPc).Ok?
    ensures Wire.NoThinnerThan(AwgForCircuit(voltage, largerA, lengthFt, dropPc).value,
                               AwgForCircuit(voltage, smallerA, lengthFt, dropPc).value)
  {
    Table9Shaped(voltage, dropPc);
    var vt := Table9(voltage, dropPc).value;
    LookupReadsByPosition(vt, smallerA, lengthFt);
    LookupReadsByPosition(vt, largerA, lengthFt);
    LargerCurrentNeverThinner(vt.table, vt.knownLengthsFt, smallerA, largerA, lengthFt);
    CircuitGaugeParses(voltage, smallerA, lengthFt, dropPc);
    CircuitGaugeParses(voltage, largerA, lengthFt, dropPc);
  }

  /** 12 V, 4 A over 9 ft needs 18 AWG (rounded up to 5 A and 10 ft). */
  lemma Circuit12V4A9Ft()
    ensures AwgForCircuit(12, 4.0, 9.0) == Ok(Wire.AwgNumber(18))
  {
    assert Table9(12, 3) == Some(VoltageDropTable(TableIX12V3Pc, TableIXKnownLengthsFt));
    CircuitReadsCeilingCell(12, 4.0, 9.0, 3, 0, 0);
  }

  /** 24 V, 24 A over 71 ft needs 4 AWG (rounded up to 25 A and 80 ft). */
  lemma Circuit24V24A71Ft()
    ensures AwgForCircuit(24, 24.0, 71.0) == Ok(Wire.AwgNumber(4))
  {
    assert Table9(24, 3) == Some(VoltageDropTable(TableIX24V3Pc, TableIXKnownLengthsFt));
    CircuitReadsCeilingCell(24, 24.0, 71.0, 3, 4, 9);
  }

  /** 32 V, 25 A over a tabulated 70 ft needs 6 AWG with the default 3 % drop. */
  lemma Circuit32V25A70Ft()
    ensures AwgForCircuit(32, 25.0, 70.0) == Ok(Wire.AwgNumber(6))
  {
    assert Table9(32, 3) == Some(VoltageDropTable(TableIX32V3Pc, TableIXKnownLengthsFt));
    CircuitReadsCeilingCell(32, 25.0, 70.0, 3, 4, 8);
  }

  /** The same circuit allowed a 10 % drop needs only 10 AWG. */
  lemma Circuit32V25A70Ft10Pc()
    ensures AwgForCircuit(32, 25.0, 70.0, 10) == Ok(Wire.AwgNumber(10))
  {
    assert Table9(32, 10) == Some(VoltageDropTable(TableIX32V10Pc, TableIXKnownLengthsFt));
    CircuitReadsCeilingCell(32, 25.0, 70.0, 10, 4, 8);
  }

  /** 32 V, 2 A over 12 ft at a 10 % drop needs 18 AWG (rounded up to 5 A and 15 ft). */
  lemma Circuit32V2A12Ft10Pc()
    ensures AwgForCircuit(32, 2.0, 12.0, 10) == Ok(Wire.AwgNumber(18))
  {
    assert Table9(32, 10) == Some(VoltageDropTable(TableIX32V10Pc, TableIXKnownLengthsFt));
    CircuitReadsCeilingCell(32, 2.0, 12.0, 10, 0, 1);
  }

  /** 12 V, 80 A over 100 ft has no acceptable gauge: the 80 A row ends at 80 ft. */
  lemma Circuit12V80A100FtFails()
    ensures AwgForCircuit(12, 80.0, 100.0) == Err(NoAcceptableGauge)
  {
    assert Table9(12, 3) == Some(VoltageDropTable(TableIX12V3Pc, TableIXKnownLengthsFt));
    CircuitReadsCeilingCell(12, 80.0, 100.0, 3, 10, 11);
  }

  /** 12 V, 20 A over 170 ft needs 2/0, returned in its canonical spelling. */
  lemma Circuit12V20A170FtIsTwoOught()
    ensures AwgForCircuit(12, 20.0, 170.0) == Ok(Wire.AwgText("2/0"))
  {
    assert Table9(12, 3) == Some(VoltageDropTable(TableIX12V3Pc, TableIXKnownLengthsFt));
    assert Cell(TableIX12V3Pc.rows[3], 18) == Some(-1);
    CircuitReadsCeilingCell(12, 20.0, 170.0, 3, 3, 18);
    TwoOughtRendersAsWritten();
  }

  /** Gauge -1 is spelled "2/0", the way the table writes it. */
  lemma TwoOughtRendersAsWritten()
    ensures Wire.RenderAwg(-1) == Wire.AwgText("2/0")
  {
    assert NatToString(2) == "2";
  }

  /** As written, no request reaches the second row of the 24 V, 10 % table: its label 0 is below the 5 before it. */
  lemma AsWrittenTenAmpRowUnreachable(currentA: real)
    ensures FirstAtLeast(Keys(TableIX24V10PcAsWritten), currentA) != Some(1)
  {
    TableIX24V10PcAsWrittenShape();
  }

  /** Corrected, every request above 5 A and up to 10 A reaches the 10 A row. */
  lemma CorrectedTenAmpRowServesUpToTenAmps(currentA: real)
    requires 5.0 < currentA <= 10.0
    ensures FirstAtLeast(Keys(TableIX24V10Pc), currentA) == Some(1)
  {
    TableIX24V10PcShape();
    FirstAtLeastFindsFirst(Keys(TableIX24V10Pc), currentA, 1);
  }

  /**
    * Over _TABLE9 as written, the selector reads the cell at the first current
    * label at or above the request (in row order) and the ceiling length.
    */
  lemma CircuitAsWrittenReadsCell(voltage: int, currentA: real, lengthFt: real, dropPc: int, i: int, l: int)
    requires IsTable9Key(voltage, dropPc)
    requires IsFirstAtLeast(Keys(Table9AsWritten(voltage, dropPc).value.table), currentA, i)
    requires IsCeiling(TableIXKnownLengthsFt, lengthFt, l)
    ensures AwgForCircuitAsWritten(voltage, currentA, lengthFt, dropPc)
         == match Cell(Table9AsWritten(voltage, dropPc).value.table.rows[i], l)
            case Some(g) => Ok(Wire.RenderAwg(g)) case None => Err(NoAcceptableGauge)
  {
    var vt := Table9AsWritten(voltage, dropPc).value;
    if voltage == 24 && dropPc == 10 {
      TableIX24V10PcAsWrittenShape();
    } else {
      Table9Shaped(voltage, dropPc);
    }
    LookupReadsByPosition(vt, currentA, lengthFt);
    TableIXKnownLengths();
    FirstAtLeastIsCeiling(TableIXKnownLengthsFt, lengthFt, l);
    FirstAtLeastFindsFirst(Keys(vt.table), currentA, i);
  }

  /** As written, 24 V, 8 A over 40 ft at a 10 % drop skips the 10 A row and reads the 15 A row: 14 AWG. */
  lemma Circuit24V8A40Ft10PcAsWritten()
    ensures AwgForCircuitAsWritten(24, 8.0, 40.0, 10) == Ok(Wire.AwgNumber(14))
  {
    TableIX24V10PcAsWrittenShape();
    assert Table9AsWritten(24, 10).value.table == TableIX24V10PcAsWritten;
    CircuitAsWrittenReadsCell(24, 8.0, 40.0, 10, 2, 5);
  }

  /** Corrected, the same circuit reads the 10 A row: 16 AWG. */
  lemma Circuit24V8A40Ft10Pc()
    ensures AwgForCircuit(24, 8.0, 40.0, 10) == Ok(Wire.AwgNumber(16))
  {
    assert Table9(24, 10) == Some(VoltageDropTable(TableIX24V10Pc, TableIXKnownLengthsFt));
    CircuitReadsCeilingCell(24, 8.0, 40.0, 10, 1, 5);
  }

  // ---------------------------------------------------------------------
  // The 12 V length accessor.

  /** The name GetAWGForLengthAnd12VCurrent builds, "awg_%dft"; its digit run is the length. */
  function LengthColumnName(lengthFt: int): (name: string)
    ensures lengthFt >= 0 ==> FirstDigitRun(name) == Some(lengthFt as nat)
  {
    if lengthFt >= 0 then
      NumberedHeader("awg_" + NatToString(lengthFt) + "ft", "awg_", NatToString(lengthFt), "ft");
      NatToStringRoundTrip(lengthFt);
      "awg_" + IntToString(lengthFt) + "ft"
    else "awg_" + IntToString(lengthFt) + "ft"
  }

  /**
    * GetAWGForLengthAnd12VCurrent as written, up to where it stops: a length
    * that is not tabulated is refused, otherwise the 12 V, 3 % column named
    * "awg_<L>ft" is selected.
    */
  function LengthColumn12VAsWritten(lengthFt: int): (r: Result<seq<Entry<int, int>>, Error>)
    ensures r == Err(UnknownLength(lengthFt)) <==> lengthFt !in TableIXKnownLengthsFt
    ensures r.Err? && lengthFt in TableIXKnownLengthsFt ==> r.error == MissingColumn(LengthColumnName(lengthFt))
    ensures r.Ok? ==>
      exists j :: 0 <= j < |TableIXColumns| && TableIXColumns[j] == LengthColumnName(lengthFt)
        && r.value == Column(TableIX12V3Pc, j)
  {
    if lengthFt !in TableIXKnownLengthsFt then Err(UnknownLength(lengthFt))
    else SelectColumn(TableIX12V3Pc, LengthColumnName(lengthFt))
  }

  /** The accessor with the column found by its header number, as the known lengths were found. */
  function LengthColumn12V(lengthFt: int): (r: Result<seq<Entry<int, int>>, Error>)
    ensures r == Err(UnknownLength(lengthFt)) <==> lengthFt !in TableIXKnownLengthsFt
    ensures r.Ok? ==>
      exists j :: 0 <= j < |TableIXColumns| && FirstDigitRun(TableIXColumns[j]) == Some(lengthFt)
        && r.value == Column(TableIX12V3Pc, j)
  {
    if lengthFt !in TableIXKnownLengthsFt then Err(UnknownLength(lengthFt))
    else
      match NumberedColumn(TableIX12V3Pc.columns, lengthFt)
      case None => Err(NoNumberedColumn(lengthFt))
      case Some(j) => Ok(Column(TableIX12V3Pc, j))
  }

  /** The corrected accessor finds the column of every tabulated length, 170 ft included. */
  lemma LengthColumn12VFindsEveryLength(l: nat)
    requires l < |TableIXKnownLengthsFt|
    ensures LengthColumn12V(TableIXKnownLengthsFt[l]) == Ok(Column(TableIX12V3Pc, l))
  {
    TableIXLengthColumn(l);
  }

  /** The corrected accessor fails exactly on untabulated lengths. */
  lemma LengthColumn12VTotal(lengthFt: int)
    ensures LengthColumn12V(lengthFt).Ok? <==> lengthFt in TableIXKnownLengthsFt
  {
    if lengthFt in TableIXKnownLengthsFt {
      var l :| 0 <= l < |TableIXKnownLengthsFt| && TableIXKnownLengthsFt[l] == lengthFt;
      LengthColumn12VFindsEveryLength(l);
    }
  }

  /** As written, the accessor accepts 170 ft and then misses its column, whose header is "awg_170". */
  lemma LengthColumn12VAsWrittenMisses170()
    ensures 170 in TableIXKnownLengthsFt
    ensures LengthColumn12VAsWritten(170) == Err(MissingColumn("awg_170ft"))
  {
    assert TableIXKnownLengthsFt[18] == 170;
    assert IntToString(170) == "170";
    assert LengthColumnName(170) == "awg_170ft";
    NoTableIXHeaderReads170ft();
    assert TableIX12V3Pc.columns == TableIXColumns;
  }

  /** No Table IX header reads "awg_170ft": the one numbered 170 lacks the unit. */
  lemma NoTableIXHeaderReads170ft()
    ensures "awg_170ft" !in TableIXColumns
  {
    HeaderName170ftNumber();
    forall k | 0 <= k < 18
      ensures TableIXColumns[k] != "awg_170ft"
    {
      HeaderBefore170Number(k);
    }
    assert |TableIXColumns[18]| == 7;
  }

  /** The name built for 170 ft carries the number 170. */
  lemma HeaderName170ftNumber()
    ensures FirstDigitRun("awg_170ft") == Some(170)
  {
    assert IntToString(170) == "170";
    assert LengthColumnName(170) == "awg_170ft";
  }

  /** The first 18 Table IX headers carry lengths below 170. */
  lemma HeaderBefore170Number(k: nat)
    requires k < 18
    ensures FirstDigitRun(TableIXColumns[k]) != Some(170)
  {
    TableIXHeaderNumber(k);
    TableIXKnownLengthsAscend();
    assert TableIXKnownLengthsFt[k] < TableIXKnownLengthsFt[18];
  }
}

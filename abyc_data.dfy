/**
  * abyc_data.py: the ABYC E-11 (2008) tables as transcribed constants, and
  * the helper that reads the tabulated numbers (temperatures, lengths) out
  * of their column headers.
  */
module AbycData {
  import opened Wrappers
  import opened Decimal
  import opened Frames
  import opened Errors

  // ---------------------------------------------------------------------
  // Column-header numbers: re.match(r"\D*(\d+)\D*", name).group(1), as int.

  /** Every header has a digit run (otherwise the regex match fails). */
  predicate AllHeadersNumbered(columns: seq<string>) {
    forall k :: 0 <= k < |columns| ==> FirstDigitRun(columns[k]).Some?
  }

  /** The numbers the headers yield, as a set (the `values` set of the loop). */
  ghost function HeaderValues(columns: seq<string>): (vs: set<nat>)
    requires AllHeadersNumbered(columns)
  {
    set k | 0 <= k < |columns| :: FirstDigitRun(columns[k]).value
  }

  predicate StrictlyAscending(s: seq<int>) {
    forall a, b :: 0 <= a < b < |s| ==> s[a] < s[b]
  }

  /** `vs` is `sorted(set(...))` of the header numbers: ascending, and exactly those numbers. */
  ghost predicate IsSortedHeaderValues(columns: seq<string>, vs: seq<nat>)
    requires AllHeadersNumbered(columns)
  {
    StrictlyAscending(vs) && forall v :: v in vs <==> v in HeaderValues(columns)
  }

  lemma {:induction false} SetHasMinimum(s: set<nat>) returns (m: nat)
    requires s != {}
    ensures m in s && forall y :: y in s ==> m <= y
    decreases |s|
  {
    var x :| x in s;
    var t := s - {x};
    if t == {} {
      forall y | y in s ensures y == x { assert y !in t; }
      m := x;
    } else {
      var m' := SetHasMinimum(t);
      m := if x < m' then x else m';
      assert forall y :: y in s ==> y == x || y in t;
    }
  }

  lemma HeadIsLeast(a: seq<nat>, x: nat)
    requires StrictlyAscending(a) && x in a
    ensures a[0] <= x
  {
    var k :| 0 <= k < |a| && a[k] == x;
    assert k > 0 ==> a[0] < a[k];
  }

  /** Two ascending sequences with the same elements are the same sequence. */
  lemma {:induction false} AscendingWithSameElementsAreEqual(a: seq<nat>, b: seq<nat>)
    requires StrictlyAscending(a) && StrictlyAscending(b)
    requires forall x :: x in a <==> x in b
    ensures a == b
    decreases |a|
  {
    assert |a| == 0 <==> |b| == 0 by {
      if a != [] { assert a[0] in a; }
      if b != [] { assert b[0] in b; }
    }
    if a != [] {
      HeadIsLeast(a, b[0]);
      HeadIsLeast(b, a[0]);
      forall x ensures x in a[1..] <==> x in b[1..] {
        SecondElementsOn(a, x);
        SecondElementsOn(b, x);
      }
      AscendingWithSameElementsAreEqual(a[1..], b[1..]);
    }
  }

  lemma SecondElementsOn(a: seq<nat>, x: nat)
    requires StrictlyAscending(a) && a != []
    ensures x in a[1..] <==> x in a && x != a[0]
  {
    if x in a[1..] {
      var k :| 0 <= k < |a[1..]| && a[1..][k] == x;
      assert a[0] < a[k + 1];
    }
    if x in a && x != a[0] {
      var k :| 0 <= k < |a| && a[k] == x;
      assert a[1..][k - 1] == x;
    }
  }

  /** Python's sorted() applied to a set of naturals. */
  method SortedSet(values: set<nat>) returns (sorted: seq<nat>)
    ensures StrictlyAscending(sorted)
    ensures forall x :: x in sorted <==> x in values
  {
    var rest := values;
    sorted := [];
    while rest != {}
      invariant StrictlyAscending(sorted)
      invariant forall x :: x in values <==> x in sorted || x in rest
      invariant forall a, y :: 0 <= a < |sorted| && y in rest ==> sorted[a] < y
      decreases |rest|
    {
      ghost var least := SetHasMinimum(rest);
      var m :| m in rest && forall y :: y in rest ==> m <= y;
      sorted := sorted + [m];
      rest := rest - {m};
    }
  }

  /**
    * _ColumnSortedValues: collect the first digit run of every column name
    * into a set, then return the set sorted. A name without digits makes the
    * regex fail, and the error names the first such column.
    */
  method ColumnSortedValues(columns: seq<string>) returns (r: Result<seq<nat>, Error>)
    ensures r.Err? <==> !AllHeadersNumbered(columns)
    ensures r.Err? ==> exists k :: 0 <= k < |columns| && r.error == NoColumnNumber(columns[k])
                                && FirstDigitRun(columns[k]).None?
                                && forall i :: 0 <= i < k ==> FirstDigitRun(columns[i]).Some?
    ensures r.Ok? ==> AllHeadersNumbered(columns) && IsSortedHeaderValues(columns, r.value)
  {
    var values: set<nat> := {};
    for i := 0 to |columns|
      invariant forall k :: 0 <= k < i ==> FirstDigitRun(columns[k]).Some?
      invariant forall k :: 0 <= k < i ==> FirstDigitRun(columns[k]).value in values
      invariant forall v :: v in values ==> exists k :: 0 <= k < i && FirstDigitRun(columns[k]) == Some(v)
    {
      match FirstDigitRun(columns[i])
      case None =>
        return Err(NoColumnNumber(columns[i]));
      case Some(v) =>
        values := values + {v};
    }
    CollectedHeaderValues(columns, values);
    var sorted := SortedSet(values);
    return Ok(sorted);
  }

  /** A set that holds every header's number and nothing else is the set of header numbers. */
  lemma CollectedHeaderValues(columns: seq<string>, values: set<nat>)
    requires AllHeadersNumbered(columns)
    requires forall k :: 0 <= k < |columns| ==> FirstDigitRun(columns[k]).value in values
    requires forall v :: v in values ==> exists k :: 0 <= k < |columns| && FirstDigitRun(columns[k]) == Some(v)
    ensures forall v :: v in values <==> v in HeaderValues(columns)
  {
  }

  // ---------------------------------------------------------------------
  // Table VI-B: allowable amperage, up to three current-carrying
  // conductors bundled, sheathed or in conduit. Row keys are the gauge
  // labels as written; the fields are the capacities in amperes.

  const Vib18: Row<string, real> := Row("18", [7.0, 0.0, 7.0, 5.3, 10.5, 8.2, 14.0, 11.5, 14.0, 11.9, 17.5, 15.6, 17.5])
  const Vib16: Row<string, real> := Row("16", [10.5, 0.0, 10.5, 7.9, 14.0, 10.9, 17.5, 14.4, 17.5, 14.9, 21.0, 18.7, 24.5])
  const Vib14: Row<string, real> := Row("14", [14.0, 0.0, 14.0, 10.5, 17.5, 13.7, 21.0, 17.2, 24.5, 20.8, 28.0, 24.9, 31.5])
  const Vib12: Row<string, real> := Row("12", [17.5, 0.0, 17.5, 13.1, 24.5, 19.1, 28.0, 23.0, 31.5, 26.8, 35.0, 31.2, 38.5])
  const Vib10: Row<string, real> := Row("10", [28.0, 0.0, 28.0, 21.0, 35.0, 27.3, 38.5, 31.6, 42.0, 35.7, 49.0, 43.6, 49.0])
  const Vib8: Row<string, real> := Row("8", [38.5, 0.0, 45.5, 34.1, 49.0, 38.2, 49.0, 40.2, 56.0, 47.6, 63.0, 56.1, 70.0])
  const Vib6: Row<string, real> := Row("6", [56.0, 0.0, 66.5, 49.9, 70.0, 54.6, 70.0, 57.4, 84.0, 71.4, 87.5, 77.9, 94.5])
  const Vib4: Row<string, real> := Row("4", [73.5, 0.0, 87.5, 65.6, 91.0, 71.0, 94.5, 77.5, 112.0, 95.2, 119.0, 105.9, 126.0])
  const Vib3: Row<string, real> := Row("3", [84.0, 0.0, 101.5, 76.1, 105.0, 81.9, 108.5, 89.0, 126.0, 107.1, 136.5, 121.5, 147.0])
  const Vib2: Row<string, real> := Row("2", [98.0, 0.0, 119.0, 89.3, 122.5, 95.6, 126.0, 103.3, 147.0, 125.0, 157.5, 140.2, 168.0])
  const Vib1: Row<string, real> := Row("1", [115.5, 0.0, 136.5, 102.4, 147.0, 114.7, 147.0, 120.5, 171.5, 145.8, 185.5, 165.1, 196.0])
  const Vib0: Row<string, real> := Row("0", [136.5, 0.0, 161.0, 120.8, 171.5, 133.8, 171.5, 140.6, 199.5, 169.6, 213.5, 190.0, 227.5])
  const Vib2_0: Row<string, real> := Row("2/0", [157.5, 0.0, 185.5, 139.1, 199.5, 155.6, 199.5, 163.6, 231.0, 196.4, 248.5, 221.2, 259.0])
  const Vib3_0: Row<string, real> := Row("3/0", [182.0, 0.0, 217.0, 162.8, 231.0, 180.2, 231.0, 189.4, 269.5, 229.1, 287.0, 255.4, 301.0])
  const Vib4_0: Row<string, real> := Row("4/0", [210.0, 0.0, 252.0, 189.0, 269.5, 210.2, 269.5, 221.0, 311.5, 264.8, 332.5, 295.9, 357.0])

  /** The Table VI-B header after the index column: each rating, then its engine-room variant. */
  const TableVIBColumns: seq<string> :=
    ["current_" + "60" + "C", "current_" + "60" + "C" + "_engroom", "current_" + "75" + "C", "current_" + "75" + "C" + "_engroom", "current_" + "80" + "C", "current_" + "80" + "C" + "_engroom", "current_" + "90" + "C", "current_" + "90" + "C" + "_engroom", "current_" + "105" + "C", "current_" + "105" + "C" + "_engroom", "current_" + "125" + "C", "current_" + "125" + "C" + "_engroom", "current_" + "200" + "C", "current_" + "200" + "C" + "_engroom"]

  const TableVIB: Frame<string, real> := Frame(
    "awg",
    TableVIBColumns,
    [Vib18, Vib16, Vib14, Vib12, Vib10, Vib8, Vib6, Vib4, Vib3, Vib2, Vib1, Vib0, Vib2_0, Vib3_0, Vib4_0])

  /** The Table VI-B header, spelled out as in the source text. */
  lemma TableVIBColumnsAsWritten()
    ensures TableVIBColumns ==
      ["current_60C", "current_60C_engroom", "current_75C", "current_75C_engroom", "current_80C", "current_80C_engroom", "current_90C", "current_90C_engroom", "current_105C", "current_105C_engroom", "current_125C", "current_125C_engroom", "current_200C", "current_200C_engroom"]
  {
    assert TableVIBColumns[0] == "current_60C";
    assert TableVIBColumns[1] == "current_60C_engroom";
    assert TableVIBColumns[2] == "current_75C";
    assert TableVIBColumns[3] == "current_75C_engroom";
    assert TableVIBColumns[4] == "current_80C";
    assert TableVIBColumns[5] == "current_80C_engroom";
    assert TableVIBColumns[6] == "current_90C";
    assert TableVIBColumns[7] == "current_90C_engroom";
    assert TableVIBColumns[8] == "current_105C";
    assert TableVIBColumns[9] == "current_105C_engroom";
    assert TableVIBColumns[10] == "current_125C";
    assert TableVIBColumns[11] == "current_125C_engroom";
    assert TableVIBColumns[12] == "current_200C";
    assert TableVIBColumns[13] == "current_200C_engroom";
  }

  /** TABLE_VI_B_KNOWN_TEMPS_C, the insulation ratings of the header. */
  const TableVIBKnownTempsC: seq<nat> := [60, 75, 80, 90, 105, 125, 200]

  /** Column k of Table VI-B is named for rating k / 2. */
  lemma TableVIBHeaderNumber(k: nat)
    requires k < 14
    ensures FirstDigitRun(TableVIBColumns[k]) == Some(TableVIBKnownTempsC[k / 2])
  {
    if k < 5 {
      TableVIBHeaderNumber0(k);
    } else if k < 10 {
      TableVIBHeaderNumber1(k);
    } else {
      TableVIBHeaderNumber2(k);
    }
  }

  lemma TableVIBHeaderNumber0(k: nat)
    requires 0 <= k < 5
    ensures FirstDigitRun(TableVIBColumns[k]) == Some(TableVIBKnownTempsC[k / 2])
  {
    if k == 0 {
      NumberedHeader(TableVIBColumns[k], "current_", "60", "C");
    } else if k == 1 {
      NumberedHeader(TableVIBColumns[k], "current_", "60", "C" + "_engroom");
    } else if k == 2 {
      NumberedHeader(TableVIBColumns[k], "current_", "75", "C");
    } else if k == 3 {
      NumberedHeader(TableVIBColumns[k], "current_", "75", "C" + "_engroom");
    } else {
      NumberedHeader(TableVIBColumns[k], "current_", "80", "C");
    }
  }

  lemma TableVIBHeaderNumber1(k: nat)
    requires 5 <= k < 10
    ensures FirstDigitRun(TableVIBColumns[k]) == Some(TableVIBKnownTempsC[k / 2])
  {
    if k == 5 {
      NumberedHeader(TableVIBColumns[k], "current_", "80", "C" + "_engroom");
    } else if k == 6 {
      NumberedHeader(TableVIBColumns[k], "current_", "90", "C");
    } else if k == 7 {
      NumberedHeader(TableVIBColumns[k], "current_", "90", "C" + "_engroom");
    } else if k == 8 {
      NumberedHeader(TableVIBColumns[k], "current_", "105", "C");
      ThreeDigits("105");
    } else {
      NumberedHeader(TableVIBColumns[k], "current_", "105", "C" + "_engroom");
      ThreeDigits("105");
    }
  }

  lemma TableVIBHeaderNumber2(k: nat)
    requires 10 <= k < 14
    ensures FirstDigitRun(TableVIBColumns[k]) == Some(TableVIBKnownTempsC[k / 2])
  {
    if k == 10 {
      NumberedHeader(TableVIBColumns[k], "current_", "125", "C");
      ThreeDigits("125");
    } else if k == 11 {
      NumberedHeader(TableVIBColumns[k], "current_", "125", "C" + "_engroom");
      ThreeDigits("125");
    } else if k == 12 {
      NumberedHeader(TableVIBColumns[k], "current_", "200", "C");
      ThreeDigits("200");
    } else {
      NumberedHeader(TableVIBColumns[k], "current_", "200", "C" + "_engroom");
      ThreeDigits("200");
    }
  }

  /** _ColumnSortedValues(TABLE_VI_B) is the hard-coded list of ratings. */
  lemma TableVIBKnownTemps()
    ensures AllHeadersNumbered(TableVIBColumns)
    ensures IsSortedHeaderValues(TableVIBColumns, TableVIBKnownTempsC)
  {
    forall k | 0 <= k < 14
      ensures FirstDigitRun(TableVIBColumns[k]) == Some(TableVIBKnownTempsC[k / 2])
    {
      TableVIBHeaderNumber(k);
    }
    forall v | v in TableVIBKnownTempsC ensures v in HeaderValues(TableVIBColumns) {
      var m :| 0 <= m < 7 && TableVIBKnownTempsC[m] == v;
      TableVIBHeaderNumber(2 * m);
    }
  }

  // ---------------------------------------------------------------------
  // Table IX: conductor sizes for a voltage drop of 3 % or 10 %, indexed by
  // current (rows) and round-trip length (columns). Cells are gauge numbers
  // (2/0 = -1, 3/0 = -2, 4/0 = -3); a row that ends early leaves the rest
  // of its cells blank.

  /**
    * The header shared by the six tables, each name written as its prefix,
    * its number and its suffix; the last one lacks its "ft".
    */
  const TableIXColumns: seq<string> :=
    ["awg_" + "10" + "ft", "awg_" + "15" + "ft", "awg_" + "20" + "ft", "awg_" + "25" + "ft", "awg_" + "30" + "ft", "awg_" + "40" + "ft", "awg_" + "50" + "ft", "awg_" + "60" + "ft", "awg_" + "70" + "ft", "awg_" + "80" + "ft", "awg_" + "90" + "ft", "awg_" + "100" + "ft", "awg_" + "110" + "ft", "awg_" + "120" + "ft", "awg_" + "130" + "ft", "awg_" + "140" + "ft", "awg_" + "150" + "ft", "awg_" + "160" + "ft", "awg_" + "170"]

  /** *_KNOWN_LENGTHS_FT, the lengths of the header. */
  const TableIXKnownLengthsFt: seq<nat> :=
    [10, 15, 20, 25, 30, 40, 50, 60, 70, 80, 90, 100, 110, 120, 130, 140, 150, 160, 170]

  /** Column k of Table IX is for length k of the list. */
  lemma TableIXHeaderNumber(k: nat)
    requires k < 19
    ensures FirstDigitRun(TableIXColumns[k]) == Some(TableIXKnownLengthsFt[k])
  {
    if k < 5 {
      TableIXHeaderNumber0(k);
    } else if k < 10 {
      TableIXHeaderNumber1(k);
    } else if k < 15 {
      TableIXHeaderNumber2(k);
    } else {
      TableIXHeaderNumber3(k);
    }
  }

  lemma TableIXHeaderNumber0(k: nat)
    requires 0 <= k < 5
    ensures FirstDigitRun(TableIXColumns[k]) == Some(TableIXKnownLengthsFt[k])
  {
    if k == 0 {
      NumberedHeader(TableIXColumns[k], "awg_", "10", "ft");
    } else if k == 1 {
      NumberedHeader(TableIXColumns[k], "awg_", "15", "ft");
    } else if k == 2 {
      NumberedHeader(TableIXColumns[k], "awg_", "20", "ft");
    } else if k == 3 {
      NumberedHeader(TableIXColumns[k], "awg_", "25", "ft");
    } else {
      NumberedHeader(TableIXColumns[k], "awg_", "30", "ft");
    }
  }

  lemma TableIXHeaderNumber1(k: nat)
    requires 5 <= k < 10
    ensures FirstDigitRun(TableIXColumns[k]) == Some(TableIXKnownLengthsFt[k])
  {
    if k == 5 {
      NumberedHeader(TableIXColumns[k], "awg_", "40", "ft");
    } else if k == 6 {
      NumberedHeader(TableIXColumns[k], "awg_", "50", "ft");
    } else if k == 7 {
      NumberedHeader(TableIXColumns[k], "awg_", "60", "ft");
    } else if k == 8 {
      NumberedHeader(TableIXColumns[k], "awg_", "70", "ft");
    } else {
      NumberedHeader(TableIXColumns[k], "awg_", "80", "ft");
    }
  }

  lemma TableIXHeaderNumber2(k: nat)
    requires 10 <= k < 15
    ensures FirstDigitRun(TableIXColumns[k]) == Some(TableIXKnownLengthsFt[k])
  {
    if k == 10 {
      NumberedHeader(TableIXColumns[k], "awg_", "90", "ft");
    } else if k == 11 {
      NumberedHeader(TableIXColumns[k], "awg_", "100", "ft");
      ThreeDigits("100");
    } else if k == 12 {
      NumberedHeader(TableIXColumns[k], "awg_", "110", "ft");
      ThreeDigits("110");
    } else if k == 13 {
      NumberedHeader(TableIXColumns[k], "awg_", "120", "ft");
      ThreeDigits("120");
    } else {
      NumberedHeader(TableIXColumns[k], "awg_", "130", "ft");
      ThreeDigits("130");
    }
  }

  lemma TableIXHeaderNumber3(k: nat)
    requires 15 <= k < 19
    ensures FirstDigitRun(TableIXColumns[k]) == Some(TableIXKnownLengthsFt[k])
  {
    if k == 15 {
      NumberedHeader(TableIXColumns[k], "awg_", "140", "ft");
      ThreeDigits("140");
    } else if k == 16 {
      NumberedHeader(TableIXColumns[k], "awg_", "150", "ft");
      ThreeDigits("150");
    } else if k == 17 {
      NumberedHeader(TableIXColumns[k], "awg_", "160", "ft");
      ThreeDigits("160");
    } else {
      NumberedHeader(TableIXColumns[k], "awg_", "170", "");
      ThreeDigits("170");
    }
  }

  /** The Table IX header, spelled out as in the source text. */
  lemma TableIXColumnsAsWritten()
    ensures TableIXColumns ==
      ["awg_10ft", "awg_15ft", "awg_20ft", "awg_25ft", "awg_30ft", "awg_40ft", "awg_50ft", "awg_60ft", "awg_70ft", "awg_80ft", "awg_90ft", "awg_100ft", "awg_110ft", "awg_120ft", "awg_130ft", "awg_140ft", "awg_150ft", "awg_160ft", "awg_170"]
  {
    assert TableIXColumns[0] == "awg_10ft";
    assert TableIXColumns[1] == "awg_15ft";
    assert TableIXColumns[2] == "awg_20ft";
    assert TableIXColumns[3] == "awg_25ft";
    assert TableIXColumns[4] == "awg_30ft";
    assert TableIXColumns[5] == "awg_40ft";
    assert TableIXColumns[6] == "awg_50ft";
    assert TableIXColumns[7] == "awg_60ft";
    assert TableIXColumns[8] == "awg_70ft";
    assert TableIXColumns[9] == "awg_80ft";
    assert TableIXColumns[10] == "awg_90ft";
    assert TableIXColumns[11] == "awg_100ft";
    assert TableIXColumns[12] == "awg_110ft";
    assert TableIXColumns[13] == "awg_120ft";
    assert TableIXColumns[14] == "awg_130ft";
    assert TableIXColumns[15] == "awg_140ft";
    assert TableIXColumns[16] == "awg_150ft";
    assert TableIXColumns[17] == "awg_160ft";
    assert TableIXColumns[18] == "awg_170";
  }

  /** _ColumnSortedValues on any Table IX header gives the 19 lengths, 170 included. */
  lemma TableIXKnownLengths()
    ensures AllHeadersNumbered(TableIXColumns)
    ensures IsSortedHeaderValues(TableIXColumns, TableIXKnownLengthsFt)
  {
    TableIXKnownLengthsAscend();
    TableIXHeadersGiveKnownLengths();
  }

  lemma TableIXKnownLengthsAscend()
    ensures StrictlyAscending(TableIXKnownLengthsFt)
  {
  }

  /** The numbers in the Table IX headers are exactly the known lengths. */
  lemma TableIXHeadersGiveKnownLengths()
    ensures AllHeadersNumbered(TableIXColumns)
    ensures forall v :: v in TableIXKnownLengthsFt <==> v in HeaderValues(TableIXColumns)
  {
    forall k | 0 <= k < 19
      ensures FirstDigitRun(TableIXColumns[k]) == Some(TableIXKnownLengthsFt[k])
    {
      TableIXHeaderNumber(k);
    }
    forall v | v in TableIXKnownLengthsFt ensures v in HeaderValues(TableIXColumns) {
      var m :| 0 <= m < 19 && TableIXKnownLengthsFt[m] == v;
      TableIXHeaderNumber(m);
    }
  }

  /** TABLE_VI_B_KNOWN_TEMPS_C = _ColumnSortedValues(TABLE_VI_B). */
  method ComputeTableVIBKnownTemps() returns (r: Result<seq<nat>, Error>)
    ensures r == Ok(TableVIBKnownTempsC)
  {
    r := ColumnSortedValues(TableVIBColumns);
    TableVIBKnownTemps();
    AscendingWithSameElementsAreEqual(r.value, TableVIBKnownTempsC);
  }

  /** TABLE_IX_<V>_<P>PC_KNOWN_LENGTHS_FT = _ColumnSortedValues(TABLE_IX_<V>_<P>PC), for every table with the common header. */
  method ComputeKnownLengthsFt(t: Frame<int, int>) returns (r: Result<seq<nat>, Error>)
    requires t.columns == TableIXColumns
    ensures r == Ok(TableIXKnownLengthsFt)
  {
    r := ColumnSortedValues(t.columns);
    TableIXKnownLengths();
    AscendingWithSameElementsAreEqual(r.value, TableIXKnownLengthsFt);
  }

  /** The current labels of the rows, 5 A to 100 A. */
  const TableIXCurrentsA: seq<int> := [5, 10, 15, 20, 25, 30, 40, 50, 60, 70, 80, 90, 100]

  /** Along a row, a longer run never takes a thinner wire (a larger gauge number). */
  predicate Thickens(gauges: seq<int>) {
    forall k :: 0 < k < |gauges| ==> gauges[k] <= gauges[k - 1]
  }

  /** No cell is thicker than 4/0, the thickest gauge that renders back to its number (-3). */
  predicate NoneThickerThanFourOught(gauges: seq<int>) {
    forall k :: 0 <= k < |gauges| ==> gauges[k] >= -3
  }

  /** The row for a larger current ends no later than the row above it, and is nowhere thinner. */
  predicate ThickerBelow(upper: seq<int>, lower: seq<int>) {
    |lower| <= |upper| && forall j :: 0 <= j < |lower| ==> lower[j] <= upper[j]
  }

  /**
    * The shape every Table IX shares: the common header, 13 rows none longer
    * than the header and none thicker than 4/0, each row thickening with
    * length and each column thickening with current.
    */
  predicate TableIXShaped(t: Frame<int, int>) {
    t.columns == TableIXColumns && |t.rows| == 13
    && (forall i :: 0 <= i < |t.rows| ==>
          |t.rows[i].fields| <= |t.columns| && Thickens(t.rows[i].fields) && NoneThickerThanFourOught(t.rows[i].fields))
    && (forall i :: 0 < i < |t.rows| ==> ThickerBelow(t.rows[i - 1].fields, t.rows[i].fields))
  }

  // Table IX, 12 V, 3 % drop.

  const Ix12V3Pc5A: seq<int> := [18, 16, 14, 12, 12, 10, 10, 10, 8, 8, 8, 6, 6, 6, 6, 6, 6, 6, 6]
  const Ix12V3Pc10A: seq<int> := [14, 12, 10, 10, 10, 8, 6, 6, 6, 6, 4, 4, 4, 4, 2, 2, 2, 2, 2]
  const Ix12V3Pc15A: seq<int> := [12, 10, 10, 8, 8, 6, 6, 6, 4, 4, 2, 2, 2, 2, 2, 1, 1, 1, 1]
  const Ix12V3Pc20A: seq<int> := [10, 10, 8, 6, 6, 6, 4, 4, 2, 2, 2, 2, 1, 1, 1, 0, 0, 0, -1]
  const Ix12V3Pc25A: seq<int> := [10, 8, 6, 6, 6, 4, 4, 2, 2, 2, 1, 1, 0, 0, 0, -1, -1, -1, -2]
  const Ix12V3Pc30A: seq<int> := [10, 8, 6, 6, 4, 4, 2, 2, 1, 1, 0, 0, 0, -1, -1, -2, -2, -2, -2]
  const Ix12V3Pc40A: seq<int> := [8, 6, 6, 4, 4, 2, 2, 1, 0, 0, -1, -1, -2, -2, -2, -3, -3, -3, -3]
  const Ix12V3Pc50A: seq<int> := [6, 6, 4, 4, 2, 2, 1, 0, -1, -1, -2, -2, -3, -3, -3]
  const Ix12V3Pc60A: seq<int> := [6, 4, 4, 2, 2, 1, 0, -1, -2, -2, -3, -3, -3]
  const Ix12V3Pc70A: seq<int> := [6, 4, 2, 2, 1, 0, -1, -2, -2, -3, -3]
  const Ix12V3Pc80A: seq<int> := [6, 4, 2, 2, 1, 0, -2, -2, -3, -3]
  const Ix12V3Pc90A: seq<int> := [4, 2, 2, 1, 0, -1, -2, -3, -3]
  const Ix12V3Pc100A: seq<int> := [4, 2, 2, 1, 0, -1, -2, -3]

  const TableIX12V3Pc: Frame<int, int> := Frame(
    "current_A",
    TableIXColumns,
    [Row(5, Ix12V3Pc5A), Row(10, Ix12V3Pc10A), Row(15, Ix12V3Pc15A), Row(20, Ix12V3Pc20A), Row(25, Ix12V3Pc25A),
     Row(30, Ix12V3Pc30A), Row(40, Ix12V3Pc40A), Row(50, Ix12V3Pc50A), Row(60, Ix12V3Pc60A), Row(70, Ix12V3Pc70A),
     Row(80, Ix12V3Pc80A), Row(90, Ix12V3Pc90A), Row(100, Ix12V3Pc100A)])

  lemma Ix12V3Pc5AThickens() ensures |Ix12V3Pc5A| <= 19 && Thickens(Ix12V3Pc5A) && NoneThickerThanFourOught(Ix12V3Pc5A) { }
  lemma Ix12V3Pc10AThickens() ensures |Ix12V3Pc10A| <= 19 && Thickens(Ix12V3Pc10A) && NoneThickerThanFourOught(Ix12V3Pc10A) { }
  lemma Ix12V3Pc10ABelow() ensures ThickerBelow(Ix12V3Pc5A, Ix12V3Pc10A) { }
  lemma Ix12V3Pc15AThickens() ensures |Ix12V3Pc15A| <= 19 && Thickens(Ix12V3Pc15A) && NoneThickerThanFourOught(Ix12V3Pc15A) { }
  lemma Ix12V3Pc15ABelow() ensures ThickerBelow(Ix12V3Pc10A, Ix12V3Pc15A) { }
  lemma Ix12V3Pc20AThickens() ensures |Ix12V3Pc20A| <= 19 && Thickens(Ix12V3Pc20A) && NoneThickerThanFourOught(Ix12V3Pc20A) { }
  lemma Ix12V3Pc20ABelow() ensures ThickerBelow(Ix12V3Pc15A, Ix12V3Pc20A) { }
  lemma Ix12V3Pc25AThickens() ensures |Ix12V3Pc25A| <= 19 && Thickens(Ix12V3Pc25A) && NoneThickerThanFourOught(Ix12V3Pc25A) { }
  lemma Ix12V3Pc25ABelow() ensures ThickerBelow(Ix12V3Pc20A, Ix12V3Pc25A) { }
  lemma Ix12V3Pc30AThickens() ensures |Ix12V3Pc30A| <= 19 && Thickens(Ix12V3Pc30A) && NoneThickerThanFourOught(Ix12V3Pc30A) { }
  lemma Ix12V3Pc30ABelow() ensures ThickerBelow(Ix12V3Pc25A, Ix12V3Pc30A) { }
  lemma Ix12V3Pc40AThickens() ensures |Ix12V3Pc40A| <= 19 && Thickens(Ix12V3Pc40A) && NoneThickerThanFourOught(Ix12V3Pc40A) { }
  lemma Ix12V3Pc40ABelow() ensures ThickerBelow(Ix12V3Pc30A, Ix12V3Pc40A) { }
  lemma Ix12V3Pc50AThickens() ensures |Ix12V3Pc50A| <= 19 && Thickens(Ix12V3Pc50A) && NoneThickerThanFourOught(Ix12V3Pc50A) { }
  lemma Ix12V3Pc50ABelow() ensures ThickerBelow(Ix12V3Pc40A, Ix12V3Pc50A) { }
  lemma Ix12V3Pc60AThickens() ensures |Ix12V3Pc60A| <= 19 && Thickens(Ix12V3Pc60A) && NoneThickerThanFourOught(Ix12V3Pc60A) { }
  lemma Ix12V3Pc60ABelow() ensures ThickerBelow(Ix12V3Pc50A, Ix12V3Pc60A) { }
  lemma Ix12V3Pc70AThickens() ensures |Ix12V3Pc70A| <= 19 && Thickens(Ix12V3Pc70A) && NoneThickerThanFourOught(Ix12V3Pc70A) { }
  lemma Ix12V3Pc70ABelow() ensures ThickerBelow(Ix12V3Pc60A, Ix12V3Pc70A) { }
  lemma Ix12V3Pc80AThickens() ensures |Ix12V3Pc80A| <= 19 && Thickens(Ix12V3Pc80A) && NoneThickerThanFourOught(Ix12V3Pc80A) { }
  lemma Ix12V3Pc80ABelow() ensures ThickerBelow(Ix12V3Pc70A, Ix12V3Pc80A) { }
  lemma Ix12V3Pc90AThickens() ensures |Ix12V3Pc90A| <= 19 && Thickens(Ix12V3Pc90A) && NoneThickerThanFourOught(Ix12V3Pc90A) { }
  lemma Ix12V3Pc90ABelow() ensures ThickerBelow(Ix12V3Pc80A, Ix12V3Pc90A) { }
  lemma Ix12V3Pc100AThickens() ensures |Ix12V3Pc100A| <= 19 && Thickens(Ix12V3Pc100A) && NoneThickerThanFourOught(Ix12V3Pc100A) { }
  lemma Ix12V3Pc100ABelow() ensures ThickerBelow(Ix12V3Pc90A, Ix12V3Pc100A) { }

  lemma TableIX12V3PcRowsThicken()
    ensures forall i :: 0 <= i < |TableIX12V3Pc.rows| ==>
      |TableIX12V3Pc.rows[i].fields| <= 19 && Thickens(TableIX12V3Pc.rows[i].fields) && NoneThickerThanFourOught(TableIX12V3Pc.rows[i].fields)
  {
    Ix12V3Pc5AThickens();
    Ix12V3Pc10AThickens();
    Ix12V3Pc15AThickens();
    Ix12V3Pc20AThickens();
    Ix12V3Pc25AThickens();
    Ix12V3Pc30AThickens();
    Ix12V3Pc40AThickens();
    Ix12V3Pc50AThickens();
    Ix12V3Pc60AThickens();
    Ix12V3Pc70AThickens();
    Ix12V3Pc80AThickens();
    Ix12V3Pc90AThickens();
    Ix12V3Pc100AThickens();
  }

  lemma TableIX12V3PcColumnsThicken()
    ensures forall i :: 0 < i < |TableIX12V3Pc.rows| ==> ThickerBelow(TableIX12V3Pc.rows[i - 1].fields, TableIX12V3Pc.rows[i].fields)
  {
    Ix12V3Pc10ABelow();
    Ix12V3Pc15ABelow();
    Ix12V3Pc20ABelow();
    Ix12V3Pc25ABelow();
    Ix12V3Pc30ABelow();
    Ix12V3Pc40ABelow();
    Ix12V3Pc50ABelow();
    Ix12V3Pc60ABelow();
    Ix12V3Pc70ABelow();
    Ix12V3Pc80ABelow();
    Ix12V3Pc90ABelow();
    Ix12V3Pc100ABelow();
  }

  /** Every row and every column of the table thickens; the current labels are 5 A to 100 A. */
  lemma TableIX12V3PcShape()
    ensures TableIXShaped(TableIX12V3Pc)
    ensures Keys(TableIX12V3Pc) == TableIXCurrentsA
  {
    TableIX12V3PcRowsThicken();
    TableIX12V3PcColumnsThicken();
  }

  // Table IX, 24 V, 3 % drop.

  const Ix24V3Pc5A: seq<int> := [18, 18, 18, 16, 16, 14, 12, 12, 12, 10, 10, 10, 10, 10, 8, 8, 8, 8, 8]
  const Ix24V3Pc10A: seq<int> := [18, 16, 14, 12, 12, 10, 10, 10, 8, 8, 8, 6, 6, 6, 6, 6, 6, 6, 6]
  const Ix24V3Pc15A: seq<int> := [16, 14, 12, 12, 10, 10, 8, 8, 6, 6, 6, 6, 6, 4, 4, 4, 4, 4, 2]
  const Ix24V3Pc20A: seq<int> := [14, 12, 10, 10, 10, 8, 6, 6, 6, 6, 4, 4, 4, 4, 2, 2, 2, 2, 2]
  const Ix24V3Pc25A: seq<int> := [12, 12, 10, 10, 8, 6, 6, 6, 4, 4, 4, 4, 2, 2, 2, 2, 2, 2, 1]
  const Ix24V3Pc30A: seq<int> := [12, 10, 10, 8, 8, 6, 6, 4, 4, 4, 2, 2, 2, 2, 2, 1, 1, 1, 1]
  const Ix24V3Pc40A: seq<int> := [10, 10, 8, 6, 6, 6, 4, 4, 2, 2, 2, 2, 1, 1, 1, 0, 0, 0, -1]
  const Ix24V3Pc50A: seq<int> := [10, 8, 6, 6, 6, 4, 4, 2, 2, 2, 1, 1, 0, 0, 0, -1, -1, -1, -2]
  const Ix24V3Pc60A: seq<int> := [10, 8, 6, 6, 4, 4, 2, 2, 1, 1, 0, 0, 0, -1, -1, -2, -2, -2, -2]
  const Ix24V3Pc70A: seq<int> := [8, 6, 6, 4, 4, 2, 2, 1, 1, 0, 0, -1, -1, -2, -2, -2, -2, -3, -3]
  const Ix24V3Pc80A: seq<int> := [8, 6, 6, 4, 4, 2, 2, 1, 0, 0, -1, -1, -2, -2, -2, -3, -3, -3, -3]
  const Ix24V3Pc90A: seq<int> := [8, 6, 4, 4, 2, 2, 1, 0, 0, -1, -1, -2, -2, -3, -3, -3, -3, -3]
  const Ix24V3Pc100A: seq<int> := [6, 6, 4, 4, 2, 2, 1, 0, -1, -1, -2, -2, -3, -3, -3]

  const TableIX24V3Pc: Frame<int, int> := Frame(
    "current_A",
    TableIXColumns,
    [Row(5, Ix24V3Pc5A), Row(10, Ix24V3Pc10A), Row(15, Ix24V3Pc15A), Row(20, Ix24V3Pc20A), Row(25, Ix24V3Pc25A),
     Row(30, Ix24V3Pc30A), Row(40, Ix24V3Pc40A), Row(50, Ix24V3Pc50A), Row(60, Ix24V3Pc60A), Row(70, Ix24V3Pc70A),
     Row(80, Ix24V3Pc80A), Row(90, Ix24V3Pc90A), Row(100, Ix24V3Pc100A)])

  lemma Ix24V3Pc5AThickens() ensures |Ix24V3Pc5A| <= 19 && Thickens(Ix24V3Pc5A) && NoneThickerThanFourOught(Ix24V3Pc5A) { }
  lemma Ix24V3Pc10AThickens() ensures |Ix24V3Pc10A| <= 19 && Thickens(Ix24V3Pc10A) && NoneThickerThanFourOught(Ix24V3Pc10A) { }
  lemma Ix24V3Pc10ABelow() ensures ThickerBelow(Ix24V3Pc5A, Ix24V3Pc10A) { }
  lemma Ix24V3Pc15AThickens() ensures |Ix24V3Pc15A| <= 19 && Thickens(Ix24V3Pc15A) && NoneThickerThanFourOught(Ix24V3Pc15A) { }
  lemma Ix24V3Pc15ABelow() ensures ThickerBelow(Ix24V3Pc10A, Ix24V3Pc15A) { }
  lemma Ix24V3Pc20AThickens() ensures |Ix24V3Pc20A| <= 19 && Thickens(Ix24V3Pc20A) && NoneThickerThanFourOught(Ix24V3Pc20A) { }
  lemma Ix24V3Pc20ABelow() ensures ThickerBelow(Ix24V3Pc15A, Ix24V3Pc20A) { }
  lemma Ix24V3Pc25AThickens() ensures |Ix24V3Pc25A| <= 19 && Thickens(Ix24V3Pc25A) && NoneThickerThanFourOught(Ix24V3Pc25A) { }
  lemma Ix24V3Pc25ABelow() ensures ThickerBelow(Ix24V3Pc20A, Ix24V3Pc25A) { }
  lemma Ix24V3Pc30AThickens() ensures |Ix24V3Pc30A| <= 19 && Thickens(Ix24V3Pc30A) && NoneThickerThanFourOught(Ix24V3Pc30A) { }
  lemma Ix24V3Pc30ABelow() ensures ThickerBelow(Ix24V3Pc25A, Ix24V3Pc30A) { }
  lemma Ix24V3Pc40AThickens() ensures |Ix24V3Pc40A| <= 19 && Thickens(Ix24V3Pc40A) && NoneThickerThanFourOught(Ix24V3Pc40A) { }
  lemma Ix24V3Pc40ABelow() ensures ThickerBelow(Ix24V3Pc30A, Ix24V3Pc40A) { }
  lemma Ix24V3Pc50AThickens() ensures |Ix24V3Pc50A| <= 19 && Thickens(Ix24V3Pc50A) && NoneThickerThanFourOught(Ix24V3Pc50A) { }
  lemma Ix24V3Pc50ABelow() ensures ThickerBelow(Ix24V3Pc40A, Ix24V3Pc50A) { }
  lemma Ix24V3Pc60AThickens() ensures |Ix24V3Pc60A| <= 19 && Thickens(Ix24V3Pc60A) && NoneThickerThanFourOught(Ix24V3Pc60A) { }
  lemma Ix24V3Pc60ABelow() ensures ThickerBelow(Ix24V3Pc50A, Ix24V3Pc60A) { }
  lemma Ix24V3Pc70AThickens() ensures |Ix24V3Pc70A| <= 19 && Thickens(Ix24V3Pc70A) && NoneThickerThanFourOught(Ix24V3Pc70A) { }
  lemma Ix24V3Pc70ABelow() ensures ThickerBelow(Ix24V3Pc60A, Ix24V3Pc70A) { }
  lemma Ix24V3Pc80AThickens() ensures |Ix24V3Pc80A| <= 19 && Thickens(Ix24V3Pc80A) && NoneThickerThanFourOught(Ix24V3Pc80A) { }
  lemma Ix24V3Pc80ABelow() ensures ThickerBelow(Ix24V3Pc70A, Ix24V3Pc80A) { }
  lemma Ix24V3Pc90AThickens() ensures |Ix24V3Pc90A| <= 19 && Thickens(Ix24V3Pc90A) && NoneThickerThanFourOught(Ix24V3Pc90A) { }
  lemma Ix24V3Pc90ABelow() ensures ThickerBelow(Ix24V3Pc80A, Ix24V3Pc90A) { }
  lemma Ix24V3Pc100AThickens() ensures |Ix24V3Pc100A| <= 19 && Thickens(Ix24V3Pc100A) && NoneThickerThanFourOught(Ix24V3Pc100A) { }
  lemma Ix24V3Pc100ABelow() ensures ThickerBelow(Ix24V3Pc90A, Ix24V3Pc100A) { }

  lemma TableIX24V3PcRowsThicken()
    ensures forall i :: 0 <= i < |TableIX24V3Pc.rows| ==>
      |TableIX24V3Pc.rows[i].fields| <= 19 && Thickens(TableIX24V3Pc.rows[i].fields) && NoneThickerThanFourOught(TableIX24V3Pc.rows[i].fields)
  {
    Ix24V3Pc5AThickens();
    Ix24V3Pc10AThickens();
    Ix24V3Pc15AThickens();
    Ix24V3Pc20AThickens();
    Ix24V3Pc25AThickens();
    Ix24V3Pc30AThickens();
    Ix24V3Pc40AThickens();
    Ix24V3Pc50AThickens();
    Ix24V3Pc60AThickens();
    Ix24V3Pc70AThickens();
    Ix24V3Pc80AThickens();
    Ix24V3Pc90AThickens();
    Ix24V3Pc100AThickens();
  }

  lemma TableIX24V3PcColumnsThicken()
    ensures forall i :: 0 < i < |TableIX24V3Pc.rows| ==> ThickerBelow(TableIX24V3Pc.rows[i - 1].fields, TableIX24V3Pc.rows[i].fields)
  {
    Ix24V3Pc10ABelow();
    Ix24V3Pc15ABelow();
    Ix24V3Pc20ABelow();
    Ix24V3Pc25ABelow();
    Ix24V3Pc30ABelow();
    Ix24V3Pc40ABelow();
    Ix24V3Pc50ABelow();
    Ix24V3Pc60ABelow();
    Ix24V3Pc70ABelow();
    Ix24V3Pc80ABelow();
    Ix24V3Pc90ABelow();
    Ix24V3Pc100ABelow();
  }

  /** Every row and every column of the table thickens; the current labels are 5 A to 100 A. */
  lemma TableIX24V3PcShape()
    ensures TableIXShaped(TableIX24V3Pc)
    ensures Keys(TableIX24V3Pc) == TableIXCurrentsA
  {
    TableIX24V3PcRowsThicken();
    TableIX24V3PcColumnsThicken();
  }

  // Table IX, 32 V, 3 % drop.

  const Ix32V3Pc5A: seq<int> := [18, 18, 18, 18, 16, 16, 14, 14, 12, 12, 12, 12, 10, 10, 10, 10, 10, 10, 8]
  const Ix32V3Pc10A: seq<int> := [18, 16, 16, 14, 14, 12, 12, 10, 10, 10, 8, 8, 8, 8, 8, 6, 6, 6, 6]
  const Ix32V3Pc15A: seq<int> := [16, 14, 14, 12, 12, 10, 10, 8, 8, 8, 6, 6, 6, 6, 6, 6, 6, 4, 4]
  const Ix32V3Pc20A: seq<int> := [16, 14, 12, 12, 10, 10, 8, 8, 6, 6, 6, 6, 6, 4, 4, 4, 4, 4, 2]
  const Ix32V3Pc25A: seq<int> := [14, 12, 12, 10, 10, 8, 8, 6, 6, 6, 6, 4, 4, 4, 4, 2, 2, 2, 2]
  const Ix32V3Pc30A: seq<int> := [14, 12, 10, 10, 8, 8, 6, 6, 6, 4, 4, 4, 4, 2, 2, 2, 1, 1, 1]
  const Ix32V3Pc40A: seq<int> := [12, 10, 10, 8, 8, 6, 6, 4, 4, 4, 2, 2, 2, 2, 2, 1, 1, 1, 1]
  const Ix32V3Pc50A: seq<int> := [12, 10, 8, 8, 6, 6, 4, 4, 2, 2, 2, 2, 2, 1, 1, 0, 0, 0, 0]
  const Ix32V3Pc60A: seq<int> := [10, 8, 8, 6, 6, 4, 4, 2, 2, 2, 2, 1, 1, 0, 0, 0, -1, -1, -1]
  const Ix32V3Pc70A: seq<int> := [10, 8, 6, 6, 6, 4, 2, 2, 2, 1, 1, 0, 0, 0, -1, -1, -1, -2, -2]
  const Ix32V3Pc80A: seq<int> := [10, 8, 6, 6, 4, 4, 2, 2, 1, 1, 0, 0, 0, -1, -1, -2, -2, -2, -2]
  const Ix32V3Pc90A: seq<int> := [8, 6, 6, 6, 4, 2, 2, 2, 1, 0, 0, -1, -1, -1, -2, -2, -2, -3, -3]
  const Ix32V3Pc100A: seq<int> := [8, 6, 6, 4, 4, 2, 2, 1, 0, 0, -1, -1, -1, -2, -2, -2, -3, -3, -3]

  const TableIX32V3Pc: Frame<int, int> := Frame(
    "current_A",
    TableIXColumns,
    [Row(5, Ix32V3Pc5A), Row(10, Ix32V3Pc10A), Row(15, Ix32V3Pc15A), Row(20, Ix32V3Pc20A), Row(25, Ix32V3Pc25A),
     Row(30, Ix32V3Pc30A), Row(40, Ix32V3Pc40A), Row(50, Ix32V3Pc50A), Row(60, Ix32V3Pc60A), Row(70, Ix32V3Pc70A),
     Row(80, Ix32V3Pc80A), Row(90, Ix32V3Pc90A), Row(100, Ix32V3Pc100A)])

  lemma Ix32V3Pc5AThickens() ensures |Ix32V3Pc5A| <= 19 && Thickens(Ix32V3Pc5A) && NoneThickerThanFourOught(Ix32V3Pc5A) { }
  lemma Ix32V3Pc10AThickens() ensures |Ix32V3Pc10A| <= 19 && Thickens(Ix32V3Pc10A) && NoneThickerThanFourOught(Ix32V3Pc10A) { }
  lemma Ix32V3Pc10ABelow() ensures ThickerBelow(Ix32V3Pc5A, Ix32V3Pc10A) { }
  lemma Ix32V3Pc15AThickens() ensures |Ix32V3Pc15A| <= 19 && Thickens(Ix32V3Pc15A) && NoneThickerThanFourOught(Ix32V3Pc15A) { }
  lemma Ix32V3Pc15ABelow() ensures ThickerBelow(Ix32V3Pc10A, Ix32V3Pc15A) { }
  lemma Ix32V3Pc20AThickens() ensures |Ix32V3Pc20A| <= 19 && Thickens(Ix32V3Pc20A) && NoneThickerThanFourOught(Ix32V3Pc20A) { }
  lemma Ix32V3Pc20ABelow() ensures ThickerBelow(Ix32V3Pc15A, Ix32V3Pc20A) { }
  lemma Ix32V3Pc25AThickens() ensures |Ix32V3Pc25A| <= 19 && Thickens(Ix32V3Pc25A) && NoneThickerThanFourOught(Ix32V3Pc25A) { }
  lemma Ix32V3Pc25ABelow() ensures ThickerBelow(Ix32V3Pc20A, Ix32V3Pc25A) { }
  lemma Ix32V3Pc30AThickens() ensures |Ix32V3Pc30A| <= 19 && Thickens(Ix32V3Pc30A) && NoneThickerThanFourOught(Ix32V3Pc30A) { }
  lemma Ix32V3Pc30ABelow() ensures ThickerBelow(Ix32V3Pc25A, Ix32V3Pc30A) { }
  lemma Ix32V3Pc40AThickens() ensures |Ix32V3Pc40A| <= 19 && Thickens(Ix32V3Pc40A) && NoneThickerThanFourOught(Ix32V3Pc40A) { }
  lemma Ix32V3Pc40ABelow() ensures ThickerBelow(Ix32V3Pc30A, Ix32V3Pc40A) { }
  lemma Ix32V3Pc50AThickens() ensures |Ix32V3Pc50A| <= 19 && Thickens(Ix32V3Pc50A) && NoneThickerThanFourOught(Ix32V3Pc50A) { }
  lemma Ix32V3Pc50ABelow() ensures ThickerBelow(Ix32V3Pc40A, Ix32V3Pc50A) { }
  lemma Ix32V3Pc60AThickens() ensures |Ix32V3Pc60A| <= 19 && Thickens(Ix32V3Pc60A) && NoneThickerThanFourOught(Ix32V3Pc60A) { }
  lemma Ix32V3Pc60ABelow() ensures ThickerBelow(Ix32V3Pc50A, Ix32V3Pc60A) { }
  lemma Ix32V3Pc70AThickens() ensures |Ix32V3Pc70A| <= 19 && Thickens(Ix32V3Pc70A) && NoneThickerThanFourOught(Ix32V3Pc70A) { }
  lemma Ix32V3Pc70ABelow() ensures ThickerBelow(Ix32V3Pc60A, Ix32V3Pc70A) { }
  lemma Ix32V3Pc80AThickens() ensures |Ix32V3Pc80A| <= 19 && Thickens(Ix32V3Pc80A) && NoneThickerThanFourOught(Ix32V3Pc80A) { }
  lemma Ix32V3Pc80ABelow() ensures ThickerBelow(Ix32V3Pc70A, Ix32V3Pc80A) { }
  lemma Ix32V3Pc90AThickens() ensures |Ix32V3Pc90A| <= 19 && Thickens(Ix32V3Pc90A) && NoneThickerThanFourOught(Ix32V3Pc90A) { }
  lemma Ix32V3Pc90ABelow() ensures ThickerBelow(Ix32V3Pc80A, Ix32V3Pc90A) { }
  lemma Ix32V3Pc100AThickens() ensures |Ix32V3Pc100A| <= 19 && Thickens(Ix32V3Pc100A) && NoneThickerThanFourOught(Ix32V3Pc100A) { }
  lemma Ix32V3Pc100ABelow() ensures ThickerBelow(Ix32V3Pc90A, Ix32V3Pc100A) { }

  lemma TableIX32V3PcRowsThicken()
    ensures forall i :: 0 <= i < |TableIX32V3Pc.rows| ==>
      |TableIX32V3Pc.rows[i].fields| <= 19 && Thickens(TableIX32V3Pc.rows[i].fields) && NoneThickerThanFourOught(TableIX32V3Pc.rows[i].fields)
  {
    Ix32V3Pc5AThickens();
    Ix32V3Pc10AThickens();
    Ix32V3Pc15AThickens();
    Ix32V3Pc20AThickens();
    Ix32V3Pc25AThickens();
    Ix32V3Pc30AThickens();
    Ix32V3Pc40AThickens();
    Ix32V3Pc50AThickens();
    Ix32V3Pc60AThickens();
    Ix32V3Pc70AThickens();
    Ix32V3Pc80AThickens();
    Ix32V3Pc90AThickens();
    Ix32V3Pc100AThickens();
  }

  lemma TableIX32V3PcColumnsThicken()
    ensures forall i :: 0 < i < |TableIX32V3Pc.rows| ==> ThickerBelow(TableIX32V3Pc.rows[i - 1].fields, TableIX32V3Pc.rows[i].fields)
  {
    Ix32V3Pc10ABelow();
    Ix32V3Pc15ABelow();
    Ix32V3Pc20ABelow();
    Ix32V3Pc25ABelow();
    Ix32V3Pc30ABelow();
    Ix32V3Pc40ABelow();
    Ix32V3Pc50ABelow();
    Ix32V3Pc60ABelow();
    Ix32V3Pc70ABelow();
    Ix32V3Pc80ABelow();
    Ix32V3Pc90ABelow();
    Ix32V3Pc100ABelow();
  }

  /** Every row and every column of the table thickens; the current labels are 5 A to 100 A. */
  lemma TableIX32V3PcShape()
    ensures TableIXShaped(TableIX32V3Pc)
    ensures Keys(TableIX32V3Pc) == TableIXCurrentsA
  {
    TableIX32V3PcRowsThicken();
    TableIX32V3PcColumnsThicken();
  }

  // Table IX, 12 V, 10 % drop.

  const Ix12V10Pc5A: seq<int> := [18, 18, 18, 18, 18, 16, 16, 14, 14, 14, 12, 12, 12, 12, 12, 10, 10, 10, 10]
  const Ix12V10Pc10A: seq<int> := [18, 18, 16, 16, 14, 14, 12, 12, 10, 10, 10, 10, 8, 8, 8, 8, 8, 8, 6]
  const Ix12V10Pc15A: seq<int> := [18, 16, 14, 14, 12, 12, 10, 10, 8, 8, 8, 8, 8, 6, 6, 6, 6, 6, 6]
  const Ix12V10Pc20A: seq<int> := [16, 14, 14, 12, 12, 10, 10, 8, 8, 8, 6, 6, 6, 6, 6, 6, 4, 4, 4]
  const Ix12V10Pc25A: seq<int> := [16, 14, 12, 12, 10, 10, 8, 8, 6, 6, 6, 6, 6, 4, 4, 4, 4, 4, 2]
  const Ix12V10Pc30A: seq<int> := [14, 12, 12, 10, 10, 8, 8, 6, 6, 6, 6, 4, 4, 4, 4, 2, 2, 2, 2]
  const Ix12V10Pc40A: seq<int> := [14, 12, 10, 10, 8, 8, 6, 6, 6, 4, 4, 4, 2, 2, 2, 2, 2, 2, 2]
  const Ix12V10Pc50A: seq<int> := [12, 10, 10, 8, 8, 6, 6, 4, 4, 4, 2, 2, 2, 2, 2, 1, 1, 1, 1]
  const Ix12V10Pc60A: seq<int> := [12, 10, 8, 8, 6, 6, 4, 4, 2, 2, 2, 2, 2, 1, 1, 1, 0, 0, 0]
  const Ix12V10Pc70A: seq<int> := [10, 8, 8, 6, 6, 6, 4, 2, 2, 2, 2, 1, 1, 1, 0, 0, 0, -1, -1]
  const Ix12V10Pc80A: seq<int> := [10, 8, 8, 6, 6, 4, 4, 2, 2, 2, 1, 1, 0, 0, 0, -1, -1, -1, -1]
  const Ix12V10Pc90A: seq<int> := [10, 8, 6, 6, 6, 4, 2, 2, 2, 1, 1, 0, 0, 0, -1, -1, -1, -2, -2]
  const Ix12V10Pc100A: seq<int> := [10, 8, 6, 6, 4, 4, 2, 2, 1, 1, 0, 0, 0, -1, -1, -1, -2, -2, -2]

  const TableIX12V10Pc: Frame<int, int> := Frame(
    "current_A",
    TableIXColumns,
    [Row(5, Ix12V10Pc5A), Row(10, Ix12V10Pc10A), Row(15, Ix12V10Pc15A), Row(20, Ix12V10Pc20A), Row(25, Ix12V10Pc25A),
     Row(30, Ix12V10Pc30A), Row(40, Ix12V10Pc40A), Row(50, Ix12V10Pc50A), Row(60, Ix12V10Pc60A), Row(70, Ix12V10Pc70A),
     Row(80, Ix12V10Pc80A), Row(90, Ix12V10Pc90A), Row(100, Ix12V10Pc100A)])

  lemma Ix12V10Pc5AThickens() ensures |Ix12V10Pc5A| <= 19 && Thickens(Ix12V10Pc5A) && NoneThickerThanFourOught(Ix12V10Pc5A) { }
  lemma Ix12V10Pc10AThickens() ensures |Ix12V10Pc10A| <= 19 && Thickens(Ix12V10Pc10A) && NoneThickerThanFourOught(Ix12V10Pc10A) { }
  lemma Ix12V10Pc10ABelow() ensures ThickerBelow(Ix12V10Pc5A, Ix12V10Pc10A) { }
  lemma Ix12V10Pc15AThickens() ensures |Ix12V10Pc15A| <= 19 && Thickens(Ix12V10Pc15A) && NoneThickerThanFourOught(Ix12V10Pc15A) { }
  lemma Ix12V10Pc15ABelow() ensures ThickerBelow(Ix12V10Pc10A, Ix12V10Pc15A) { }
  lemma Ix12V10Pc20AThickens() ensures |Ix12V10Pc20A| <= 19 && Thickens(Ix12V10Pc20A) && NoneThickerThanFourOught(Ix12V10Pc20A) { }
  lemma Ix12V10Pc20ABelow() ensures ThickerBelow(Ix12V10Pc15A, Ix12V10Pc20A) { }
  lemma Ix12V10Pc25AThickens() ensures |Ix12V10Pc25A| <= 19 && Thickens(Ix12V10Pc25A) && NoneThickerThanFourOught(Ix12V10Pc25A) { }
  lemma Ix12V10Pc25ABelow() ensures ThickerBelow(Ix12V10Pc20A, Ix12V10Pc25A) { }
  lemma Ix12V10Pc30AThickens() ensures |Ix12V10Pc30A| <= 19 && Thickens(Ix12V10Pc30A) && NoneThickerThanFourOught(Ix12V10Pc30A) { }
  lemma Ix12V10Pc30ABelow() ensures ThickerBelow(Ix12V10Pc25A, Ix12V10Pc30A) { }
  lemma Ix12V10Pc40AThickens() ensures |Ix12V10Pc40A| <= 19 && Thickens(Ix12V10Pc40A) && NoneThickerThanFourOught(Ix12V10Pc40A) { }
  lemma Ix12V10Pc40ABelow() ensures ThickerBelow(Ix12V10Pc30A, Ix12V10Pc40A) { }
  lemma Ix12V10Pc50AThickens() ensures |Ix12V10Pc50A| <= 19 && Thickens(Ix12V10Pc50A) && NoneThickerThanFourOught(Ix12V10Pc50A) { }
  lemma Ix12V10Pc50ABelow() ensures ThickerBelow(Ix12V10Pc40A, Ix12V10Pc50A) { }
  lemma Ix12V10Pc60AThickens() ensures |Ix12V10Pc60A| <= 19 && Thickens(Ix12V10Pc60A) && NoneThickerThanFourOught(Ix12V10Pc60A) { }
  lemma Ix12V10Pc60ABelow() ensures ThickerBelow(Ix12V10Pc50A, Ix12V10Pc60A) { }
  lemma Ix12V10Pc70AThickens() ensures |Ix12V10Pc70A| <= 19 && Thickens(Ix12V10Pc70A) && NoneThickerThanFourOught(Ix12V10Pc70A) { }
  lemma Ix12V10Pc70ABelow() ensures ThickerBelow(Ix12V10Pc60A, Ix12V10Pc70A) { }
  lemma Ix12V10Pc80AThickens() ensures |Ix12V10Pc80A| <= 19 && Thickens(Ix12V10Pc80A) && NoneThickerThanFourOught(Ix12V10Pc80A) { }
  lemma Ix12V10Pc80ABelow() ensures ThickerBelow(Ix12V10Pc70A, Ix12V10Pc80A) { }
  lemma Ix12V10Pc90AThickens() ensures |Ix12V10Pc90A| <= 19 && Thickens(Ix12V10Pc90A) && NoneThickerThanFourOught(Ix12V10Pc90A) { }
  lemma Ix12V10Pc90ABelow() ensures ThickerBelow(Ix12V10Pc80A, Ix12V10Pc90A) { }
  lemma Ix12V10Pc100AThickens() ensures |Ix12V10Pc100A| <= 19 && Thickens(Ix12V10Pc100A) && NoneThickerThanFourOught(Ix12V10Pc100A) { }
  lemma Ix12V10Pc100ABelow() ensures ThickerBelow(Ix12V10Pc90A, Ix12V10Pc100A) { }

  lemma TableIX12V10PcRowsThicken()
    ensures forall i :: 0 <= i < |TableIX12V10Pc.rows| ==>
      |TableIX12V10Pc.rows[i].fields| <= 19 && Thickens(TableIX12V10Pc.rows[i].fields) && NoneThickerThanFourOught(TableIX12V10Pc.rows[i].fields)
  {
    Ix12V10Pc5AThickens();
    Ix12V10Pc10AThickens();
    Ix12V10Pc15AThickens();
    Ix12V10Pc20AThickens();
    Ix12V10Pc25AThickens();
    Ix12V10Pc30AThickens();
    Ix12V10Pc40AThickens();
    Ix12V10Pc50AThickens();
    Ix12V10Pc60AThickens();
    Ix12V10Pc70AThickens();
    Ix12V10Pc80AThickens();
    Ix12V10Pc90AThickens();
    Ix12V10Pc100AThickens();
  }

  lemma TableIX12V10PcColumnsThicken()
    ensures forall i :: 0 < i < |TableIX12V10Pc.rows| ==> ThickerBelow(TableIX12V10Pc.rows[i - 1].fields, TableIX12V10Pc.rows[i].fields)
  {
    Ix12V10Pc10ABelow();
    Ix12V10Pc15ABelow();
    Ix12V10Pc20ABelow();
    Ix12V10Pc25ABelow();
    Ix12V10Pc30ABelow();
    Ix12V10Pc40ABelow();
    Ix12V10Pc50ABelow();
    Ix12V10Pc60ABelow();
    Ix12V10Pc70ABelow();
    Ix12V10Pc80ABelow();
    Ix12V10Pc90ABelow();
    Ix12V10Pc100ABelow();
  }

  /** Every row and every column of the table thickens; the current labels are 5 A to 100 A. */
  lemma TableIX12V10PcShape()
    ensures TableIXShaped(TableIX12V10Pc)
    ensures Keys(TableIX12V10Pc) == TableIXCurrentsA
  {
    TableIX12V10PcRowsThicken();
    TableIX12V10PcColumnsThicken();
  }

  // Table IX, 24 V, 10 % drop, as transcribed: its second row is labelled 0 A.

  const Ix24V10Pc5A: seq<int> := [18, 18, 18, 18, 18, 18, 18, 18, 16, 16, 16, 16, 14, 14, 14, 14, 14, 14, 12]
  const Ix24V10Pc0A: seq<int> := [18, 18, 18, 18, 18, 16, 16, 14, 14, 14, 12, 12, 12, 12, 12, 10, 10, 10, 10]
  const Ix24V10Pc15A: seq<int> := [18, 18, 18, 16, 16, 14, 14, 12, 12, 12, 10, 10, 10, 10, 10, 8, 8, 8, 8]
  const Ix24V10Pc20A: seq<int> := [18, 18, 16, 16, 14, 14, 12, 12, 10, 10, 10, 10, 8, 8, 8, 8, 8, 8, 6]
  const Ix24V10Pc25A: seq<int> := [18, 16, 16, 14, 14, 12, 12, 10, 10, 10, 8, 8, 8, 8, 8, 6, 6, 6, 6]
  const Ix24V10Pc30A: seq<int> := [18, 16, 14, 14, 12, 12, 10, 10, 8, 8, 8, 8, 8, 6, 6, 6, 6, 6, 6]
  const Ix24V10Pc40A: seq<int> := [16, 14, 14, 12, 12, 10, 10, 8, 8, 8, 6, 6, 6, 6, 6, 6, 4, 4, 4]
  const Ix24V10Pc50A: seq<int> := [16, 14, 12, 12, 10, 10, 8, 8, 6, 6, 6, 6, 6, 4, 4, 4, 4, 4, 2]
  const Ix24V10Pc60A: seq<int> := [14, 12, 12, 10, 10, 8, 8, 6, 6, 6, 6, 4, 4, 4, 4, 2, 2, 2, 2]
  const Ix24V10Pc70A: seq<int> := [14, 12, 10, 10, 8, 8, 6, 6, 6, 6, 4, 4, 4, 2, 2, 2, 2, 2, 2]
  const Ix24V10Pc80A: seq<int> := [14, 12, 10, 10, 8, 8, 6, 6, 6, 4, 4, 4, 2, 2, 2, 2, 2, 2, 2]
  const Ix24V10Pc90A: seq<int> := [12, 10, 10, 8, 8, 6, 6, 6, 4, 4, 4, 2, 2, 2, 2, 2, 2, 1, 1]
  const Ix24V10Pc100A: seq<int> := [12, 10, 10, 8, 8, 6, 6, 4, 4, 4, 2, 2, 2, 2, 2, 1, 1, 1, 1]

  const TableIX24V10PcAsWritten: Frame<int, int> := Frame(
    "current_A",
    TableIXColumns,
    [Row(5, Ix24V10Pc5A), Row(0, Ix24V10Pc0A), Row(15, Ix24V10Pc15A), Row(20, Ix24V10Pc20A), Row(25, Ix24V10Pc25A),
     Row(30, Ix24V10Pc30A), Row(40, Ix24V10Pc40A), Row(50, Ix24V10Pc50A), Row(60, Ix24V10Pc60A), Row(70, Ix24V10Pc70A),
     Row(80, Ix24V10Pc80A), Row(90, Ix24V10Pc90A), Row(100, Ix24V10Pc100A)])

  lemma Ix24V10Pc5AThickens() ensures |Ix24V10Pc5A| <= 19 && Thickens(Ix24V10Pc5A) && NoneThickerThanFourOught(Ix24V10Pc5A) { }
  lemma Ix24V10Pc0AThickens() ensures |Ix24V10Pc0A| <= 19 && Thickens(Ix24V10Pc0A) && NoneThickerThanFourOught(Ix24V10Pc0A) { }
  lemma Ix24V10Pc0ABelow() ensures ThickerBelow(Ix24V10Pc5A, Ix24V10Pc0A) { }
  lemma Ix24V10Pc15AThickens() ensures |Ix24V10Pc15A| <= 19 && Thickens(Ix24V10Pc15A) && NoneThickerThanFourOught(Ix24V10Pc15A) { }
  lemma Ix24V10Pc15ABelow() ensures ThickerBelow(Ix24V10Pc0A, Ix24V10Pc15A) { }
  lemma Ix24V10Pc20AThickens() ensures |Ix24V10Pc20A| <= 19 && Thickens(Ix24V10Pc20A) && NoneThickerThanFourOught(Ix24V10Pc20A) { }
  lemma Ix24V10Pc20ABelow() ensures ThickerBelow(Ix24V10Pc15A, Ix24V10Pc20A) { }
  lemma Ix24V10Pc25AThickens() ensures |Ix24V10Pc25A| <= 19 && Thickens(Ix24V10Pc25A) && NoneThickerThanFourOught(Ix24V10Pc25A) { }
  lemma Ix24V10Pc25ABelow() ensures ThickerBelow(Ix24V10Pc20A, Ix24V10Pc25A) { }
  lemma Ix24V10Pc30AThickens() ensures |Ix24V10Pc30A| <= 19 && Thickens(Ix24V10Pc30A) && NoneThickerThanFourOught(Ix24V10Pc30A) { }
  lemma Ix24V10Pc30ABelow() ensures ThickerBelow(Ix24V10Pc25A, Ix24V10Pc30A) { }
  lemma Ix24V10Pc40AThickens() ensures |Ix24V10Pc40A| <= 19 && Thickens(Ix24V10Pc40A) && NoneThickerThanFourOught(Ix24V10Pc40A) { }
  lemma Ix24V10Pc40ABelow() ensures ThickerBelow(Ix24V10Pc30A, Ix24V10Pc40A) { }
  lemma Ix24V10Pc50AThickens() ensures |Ix24V10Pc50A| <= 19 && Thickens(Ix24V10Pc50A) && NoneThickerThanFourOught(Ix24V10Pc50A) { }
  lemma Ix24V10Pc50ABelow() ensures ThickerBelow(Ix24V10Pc40A, Ix24V10Pc50A) { }
  lemma Ix24V10Pc60AThickens() ensures |Ix24V10Pc60A| <= 19 && Thickens(Ix24V10Pc60A) && NoneThickerThanFourOught(Ix24V10Pc60A) { }
  lemma Ix24V10Pc60ABelow() ensures ThickerBelow(Ix24V10Pc50A, Ix24V10Pc60A) { }
  lemma Ix24V10Pc70AThickens() ensures |Ix24V10Pc70A| <= 19 && Thickens(Ix24V10Pc70A) && NoneThickerThanFourOught(Ix24V10Pc70A) { }
  lemma Ix24V10Pc70ABelow() ensures ThickerBelow(Ix24V10Pc60A, Ix24V10Pc70A) { }
  lemma Ix24V10Pc80AThickens() ensures |Ix24V10Pc80A| <= 19 && Thickens(Ix24V10Pc80A) && NoneThickerThanFourOught(Ix24V10Pc80A) { }
  lemma Ix24V10Pc80ABelow() ensures ThickerBelow(Ix24V10Pc70A, Ix24V10Pc80A) { }
  lemma Ix24V10Pc90AThickens() ensures |Ix24V10Pc90A| <= 19 && Thickens(Ix24V10Pc90A) && NoneThickerThanFourOught(Ix24V10Pc90A) { }
  lemma Ix24V10Pc90ABelow() ensures ThickerBelow(Ix24V10Pc80A, Ix24V10Pc90A) { }
  lemma Ix24V10Pc100AThickens() ensures |Ix24V10Pc100A| <= 19 && Thickens(Ix24V10Pc100A) && NoneThickerThanFourOught(Ix24V10Pc100A) { }
  lemma Ix24V10Pc100ABelow() ensures ThickerBelow(Ix24V10Pc90A, Ix24V10Pc100A) { }

  lemma TableIX24V10PcAsWrittenRowsThicken()
    ensures forall i :: 0 <= i < |TableIX24V10PcAsWritten.rows| ==>
      |TableIX24V10PcAsWritten.rows[i].fields| <= 19 && Thickens(TableIX24V10PcAsWritten.rows[i].fields) && NoneThickerThanFourOught(TableIX24V10PcAsWritten.rows[i].fields)
  {
    Ix24V10Pc5AThickens();
    Ix24V10Pc0AThickens();
    Ix24V10Pc15AThickens();
    Ix24V10Pc20AThickens();
    Ix24V10Pc25AThickens();
    Ix24V10Pc30AThickens();
    Ix24V10Pc40AThickens();
    Ix24V10Pc50AThickens();
    Ix24V10Pc60AThickens();
    Ix24V10Pc70AThickens();
    Ix24V10Pc80AThickens();
    Ix24V10Pc90AThickens();
    Ix24V10Pc100AThickens();
  }

  lemma TableIX24V10PcAsWrittenColumnsThicken()
    ensures forall i :: 0 < i < |TableIX24V10PcAsWritten.rows| ==> ThickerBelow(TableIX24V10PcAsWritten.rows[i - 1].fields, TableIX24V10PcAsWritten.rows[i].fields)
  {
    Ix24V10Pc0ABelow();
    Ix24V10Pc15ABelow();
    Ix24V10Pc20ABelow();
    Ix24V10Pc25ABelow();
    Ix24V10Pc30ABelow();
    Ix24V10Pc40ABelow();
    Ix24V10Pc50ABelow();
    Ix24V10Pc60ABelow();
    Ix24V10Pc70ABelow();
    Ix24V10Pc80ABelow();
    Ix24V10Pc90ABelow();
    Ix24V10Pc100ABelow();
  }

  /** Every row and every column of the table thickens; the second current label is 0 A, not 10 A. */
  lemma TableIX24V10PcAsWrittenShape()
    ensures TableIXShaped(TableIX24V10PcAsWritten)
    ensures Keys(TableIX24V10PcAsWritten) == TableIXCurrentsA[1 := 0]
  {
    TableIX24V10PcAsWrittenRowsThicken();
    TableIX24V10PcAsWrittenColumnsThicken();
  }

  // Table IX, 32 V, 10 % drop.

  const Ix32V10Pc5A: seq<int> := [18, 18, 18, 18, 18, 18, 18, 18, 18, 18, 18, 16, 16, 16, 16, 14, 14, 14, 14]
  const Ix32V10Pc10A: seq<int> := [18, 18, 18, 18, 18, 18, 16, 16, 14, 14, 14, 14, 14, 12, 12, 12, 12, 12, 12]
  const Ix32V10Pc15A: seq<int> := [18, 18, 18, 18, 18, 16, 14, 14, 14, 12, 12, 12, 12, 10, 10, 10, 10, 10, 10]
  const Ix32V10Pc20A: seq<int> := [18, 18, 18, 16, 16, 14, 14, 12, 12, 12, 10, 10, 10, 10, 10, 8, 8, 8, 8]
  const Ix32V10Pc25A: seq<int> := [18, 18, 16, 16, 14, 14, 12, 12, 10, 10, 10, 10, 10, 8, 8, 8, 8, 8, 8]
  const Ix32V10Pc30A: seq<int> := [18, 18, 16, 14, 14, 12, 12, 10, 10, 10, 10, 8, 8, 8, 8, 8, 6, 6, 6]
  const Ix32V10Pc40A: seq<int> := [18, 16, 14, 14, 12, 12, 10, 10, 8, 8, 8, 8, 8, 6, 6, 6, 6, 6, 6]
  const Ix32V10Pc50A: seq<int> := [16, 14, 14, 12, 12, 10, 10, 8, 8, 8, 6, 6, 6, 6, 6, 6, 6, 4, 4]
  const Ix32V10Pc60A: seq<int> := [16, 14, 12, 12, 10, 10, 8, 8, 8, 6, 6, 6, 6, 6, 6, 4, 4, 4, 4]
  const Ix32V10Pc70A: seq<int> := [14, 14, 12, 10, 10, 8, 8, 8, 6, 6, 6, 6, 6, 4, 4, 4, 4, 2, 2]
  const Ix32V10Pc80A: seq<int> := [14, 12, 12, 10, 10, 8, 8, 6, 6, 6, 6, 4, 4, 4, 4, 2, 2, 2, 2]
  const Ix32V10Pc90A: seq<int> := [14, 12, 10, 10, 10, 8, 6, 6, 6, 6, 4, 4, 4, 4, 2, 2, 2, 2, 2]
  const Ix32V10Pc100A: seq<int> := [14, 12, 10, 10, 8, 8, 6, 6, 6, 4, 4, 4, 4, 2, 2, 2, 2, 2, 2]

  const TableIX32V10Pc: Frame<int, int> := Frame(
    "current_A",
    TableIXColumns,
    [Row(5, Ix32V10Pc5A), Row(10, Ix32V10Pc10A), Row(15, Ix32V10Pc15A), Row(20, Ix32V10Pc20A), Row(25, Ix32V10Pc25A),
     Row(30, Ix32V10Pc30A), Row(40, Ix32V10Pc40A), Row(50, Ix32V10Pc50A), Row(60, Ix32V10Pc60A), Row(70, Ix32V10Pc70A),
     Row(80, Ix32V10Pc80A), Row(90, Ix32V10Pc90A), Row(100, Ix32V10Pc100A)])

  lemma Ix32V10Pc5AThickens() ensures |Ix32V10Pc5A| <= 19 && Thickens(Ix32V10Pc5A) && NoneThickerThanFourOught(Ix32V10Pc5A) { }
  lemma Ix32V10Pc10AThickens() ensures |Ix32V10Pc10A| <= 19 && Thickens(Ix32V10Pc10A) && NoneThickerThanFourOught(Ix32V10Pc10A) { }
  lemma Ix32V10Pc10ABelow() ensures ThickerBelow(Ix32V10Pc5A, Ix32V10Pc10A) { }
  lemma Ix32V10Pc15AThickens() ensures |Ix32V10Pc15A| <= 19 && Thickens(Ix32V10Pc15A) && NoneThickerThanFourOught(Ix32V10Pc15A) { }
  lemma Ix32V10Pc15ABelow() ensures ThickerBelow(Ix32V10Pc10A, Ix32V10Pc15A) { }
  lemma Ix32V10Pc20AThickens() ensures |Ix32V10Pc20A| <= 19 && Thickens(Ix32V10Pc20A) && NoneThickerThanFourOught(Ix32V10Pc20A) { }
  lemma Ix32V10Pc20ABelow() ensures ThickerBelow(Ix32V10Pc15A, Ix32V10Pc20A) { }
  lemma Ix32V10Pc25AThickens() ensures |Ix32V10Pc25A| <= 19 && Thickens(Ix32V10Pc25A) && NoneThickerThanFourOught(Ix32V10Pc25A) { }
  lemma Ix32V10Pc25ABelow() ensures ThickerBelow(Ix32V10Pc20A, Ix32V10Pc25A) { }
  lemma Ix32V10Pc30AThickens() ensures |Ix32V10Pc30A| <= 19 && Thickens(Ix32V10Pc30A) && NoneThickerThanFourOught(Ix32V10Pc30A) { }
  lemma Ix32V10Pc30ABelow() ensures ThickerBelow(Ix32V10Pc25A, Ix32V10Pc30A) { }
  lemma Ix32V10Pc40AThickens() ensures |Ix32V10Pc40A| <= 19 && Thickens(Ix32V10Pc40A) && NoneThickerThanFourOught(Ix32V10Pc40A) { }
  lemma Ix32V10Pc40ABelow() ensures ThickerBelow(Ix32V10Pc30A, Ix32V10Pc40A) { }
  lemma Ix32V10Pc50AThickens() ensures |Ix32V10Pc50A| <= 19 && Thickens(Ix32V10Pc50A) && NoneThickerThanFourOught(Ix32V10Pc50A) { }
  lemma Ix32V10Pc50ABelow() ensures ThickerBelow(Ix32V10Pc40A, Ix32V10Pc50A) { }
  lemma Ix32V10Pc60AThickens() ensures |Ix32V10Pc60A| <= 19 && Thickens(Ix32V10Pc60A) && NoneThickerThanFourOught(Ix32V10Pc60A) { }
  lemma Ix32V10Pc60ABelow() ensures ThickerBelow(Ix32V10Pc50A, Ix32V10Pc60A) { }
  lemma Ix32V10Pc70AThickens() ensures |Ix32V10Pc70A| <= 19 && Thickens(Ix32V10Pc70A) && NoneThickerThanFourOught(Ix32V10Pc70A) { }
  lemma Ix32V10Pc70ABelow() ensures ThickerBelow(Ix32V10Pc60A, Ix32V10Pc70A) { }
  lemma Ix32V10Pc80AThickens() ensures |Ix32V10Pc80A| <= 19 && Thickens(Ix32V10Pc80A) && NoneThickerThanFourOught(Ix32V10Pc80A) { }
  lemma Ix32V10Pc80ABelow() ensures ThickerBelow(Ix32V10Pc70A, Ix32V10Pc80A) { }
  lemma Ix32V10Pc90AThickens() ensures |Ix32V10Pc90A| <= 19 && Thickens(Ix32V10Pc90A) && NoneThickerThanFourOught(Ix32V10Pc90A) { }
  lemma Ix32V10Pc90ABelow() ensures ThickerBelow(Ix32V10Pc80A, Ix32V10Pc90A) { }
  lemma Ix32V10Pc100AThickens() ensures |Ix32V10Pc100A| <= 19 && Thickens(Ix32V10Pc100A) && NoneThickerThanFourOught(Ix32V10Pc100A) { }
  lemma Ix32V10Pc100ABelow() ensures ThickerBelow(Ix32V10Pc90A, Ix32V10Pc100A) { }

  lemma TableIX32V10PcRowsThicken()
    ensures forall i :: 0 <= i < |TableIX32V10Pc.rows| ==>
      |TableIX32V10Pc.rows[i].fields| <= 19 && Thickens(TableIX32V10Pc.rows[i].fields) && NoneThickerThanFourOught(TableIX32V10Pc.rows[i].fields)
  {
    Ix32V10Pc5AThickens();
    Ix32V10Pc10AThickens();
    Ix32V10Pc15AThickens();
    Ix32V10Pc20AThickens();
    Ix32V10Pc25AThickens();
    Ix32V10Pc30AThickens();
    Ix32V10Pc40AThickens();
    Ix32V10Pc50AThickens();
    Ix32V10Pc60AThickens();
    Ix32V10Pc70AThickens();
    Ix32V10Pc80AThickens();
    Ix32V10Pc90AThickens();
    Ix32V10Pc100AThickens();
  }

  lemma TableIX32V10PcColumnsThicken()
    ensures forall i :: 0 < i < |TableIX32V10Pc.rows| ==> ThickerBelow(TableIX32V10Pc.rows[i - 1].fields, TableIX32V10Pc.rows[i].fields)
  {
    Ix32V10Pc10ABelow();
    Ix32V10Pc15ABelow();
    Ix32V10Pc20ABelow();
    Ix32V10Pc25ABelow();
    Ix32V10Pc30ABelow();
    Ix32V10Pc40ABelow();
    Ix32V10Pc50ABelow();
    Ix32V10Pc60ABelow();
    Ix32V10Pc70ABelow();
    Ix32V10Pc80ABelow();
    Ix32V10Pc90ABelow();
    Ix32V10Pc100ABelow();
  }

  /** Every row and every column of the table thickens; the current labels are 5 A to 100 A. */
  lemma TableIX32V10PcShape()
    ensures TableIXShaped(TableIX32V10Pc)
    ensures Keys(TableIX32V10Pc) == TableIXCurrentsA
  {
    TableIX32V10PcRowsThicken();
    TableIX32V10PcColumnsThicken();
  }

  /** The 24 V, 10 % drop table with its second row labelled 10 A, between 5 A and 15 A. */
  const TableIX24V10Pc: Frame<int, int> :=
    TableIX24V10PcAsWritten.(rows := TableIX24V10PcAsWritten.rows[1 := Row(10, TableIX24V10PcAsWritten.rows[1].fields)])

  /** The corrected 24 V, 10 % table has the shape of the others and their labels. */
  lemma TableIX24V10PcShape()
    ensures TableIXShaped(TableIX24V10Pc)
    ensures Keys(TableIX24V10Pc) == TableIXCurrentsA
  {
    TableIX24V10PcAsWrittenShape();
    assert forall i :: 0 <= i < 13 ==> TableIX24V10Pc.rows[i].fields == TableIX24V10PcAsWritten.rows[i].fields;
  }

  /** Along a thickening row, every cell is at least as thick as every cell before it. */
  lemma {:induction false} ThickensEverywhere(gauges: seq<int>, a: nat, b: nat)
    requires Thickens(gauges) && a <= b < |gauges|
    ensures gauges[b] <= gauges[a]
    decreases b - a
  {
    if a < b {
      ThickensEverywhere(gauges, a, b - 1);
    }
  }

  /** In a table of that shape, every row is ThickerBelow every row above it, not only the one just above. */
  lemma {:induction false} ThickerFurtherBelow(t: Frame<int, int>, a: nat, b: nat)
    requires TableIXShaped(t) && a <= b < |t.rows|
    ensures ThickerBelow(t.rows[a].fields, t.rows[b].fields)
    decreases b - a
  {
    if a < b {
      ThickerFurtherBelow(t, a, b - 1);
      assert ThickerBelow(t.rows[b - 1].fields, t.rows[b].fields);
    }
  }

  /** The current labels of the five well-formed tables ascend strictly. */
  lemma TableIXCurrentsAscend()
    ensures StrictlyAscending(TableIXCurrentsA)
  {
  }

  /** The labels of the 24 V, 10 % table as written do not ascend: 5 A is followed by 0 A. */
  lemma TableIX24V10PcAsWrittenLabelsDescend()
    ensures !StrictlyAscending(Keys(TableIX24V10PcAsWritten))
    ensures TableIX24V10PcAsWritten.rows[0].key == 5 && TableIX24V10PcAsWritten.rows[1].key == 0
  {
    assert Keys(TableIX24V10PcAsWritten)[0] > Keys(TableIX24V10PcAsWritten)[1];
  }
}

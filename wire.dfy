/**
  * wire.py: AWG gauge notation and the ABYC E-11 (2008) Table VI-B ampacity
  * selector for up to three bundled conductors.
  *
  * A gauge is a Python value that is either an integer or a string. Its
  * number is an integer where 0, -1, -2, -3 stand for the extra-zero gauges
  * 0 (1/0), 00 (2/0), 000 (3/0) and 0000 (4/0); a larger number is a thinner
  * wire.
  */
module Wire {
  import opened Wrappers
  import opened Decimal
  import opened Frames
  import opened Errors
  import opened RatingHeaders

  /** A gauge as a caller passes it: a Python int or a Python str. */
  datatype AwgSpec = AwgNumber(n: int) | AwgText(s: string)

  /** The zero-string and slash spellings recognised before falling back to `int`. */
  const ExtraZeroSpellings: map<string, int> :=
    map["0000" := -3, "4/0" := -3, "000" := -2, "3/0" := -2,
        "00" := -1, "2/0" := -1, "0" := 0, "1/0" := 0]

  /** AWGSpecificationToNumber: the gauge number of a spelling, or the error `int` raises. */
  function AwgSpecificationToNumber(awg: AwgSpec): (r: Result<int, Error>)
    ensures r.Err? ==> awg.AwgText? && r.error == InvalidGaugeSpecification(awg.s)
  {
    match awg
    case AwgNumber(n) => Ok(n)
    case AwgText(s) =>
      if s in ExtraZeroSpellings then Ok(ExtraZeroSpellings[s])
      else match ParseInt(s)
        case Some(n) => Ok(n)
        case None => Err(InvalidGaugeSpecification(s))
  }

  /**
    * The display form of a gauge number: the number itself when it is not
    * negative, else the string "(1-n)/0", a decimal numerator over "/0".
    */
  function RenderAwg(n: int): (r: AwgSpec)
    ensures r.AwgNumber? <==> n >= 0
    ensures r.AwgNumber? ==> r.n == n
    ensures r.AwgText? ==>
      |r.s| >= 3 && r.s[|r.s| - 2..] == "/0" && AllDigits(r.s[..|r.s| - 2])
      && DigitsValue(r.s[..|r.s| - 2]) == 1 - n
  {
    if n < 0 then
      var t := NatToString(1 - n);
      NatToStringRoundTrip(1 - n);
      assert (t + "/0")[..|t|] == t;
      AwgText(t + "/0")
    else AwgNumber(n)
  }

  /** Gauge `a` is a wire at least as thick as gauge `b`: both parse, and a's number is no larger. */
  predicate NoThinnerThan(a: AwgSpec, b: AwgSpec) {
    AwgSpecificationToNumber(a).Ok? && AwgSpecificationToNumber(b).Ok?
    && AwgSpecificationToNumber(a).value <= AwgSpecificationToNumber(b).value
  }

  /**
    * CanonicalizeAWG: parse any spelling, then render its number. It fails
    * exactly where parsing fails, gives a number exactly for the gauges 0 and
    * thinner, and from 4/0 up its result parses back to the same gauge.
    */
  function CanonicalizeAwg(awg: AwgSpec): (r: Result<AwgSpec, Error>)
    ensures r.Err? <==> AwgSpecificationToNumber(awg).Err?
    ensures r.Err? ==> r.error == InvalidGaugeSpecification(awg.s)
    ensures r.Ok? ==> (r.value.AwgNumber? <==> AwgSpecificationToNumber(awg).value >= 0)
    ensures r.Ok? && AwgSpecificationToNumber(awg).value >= -3 ==>
      AwgSpecificationToNumber(r.value) == AwgSpecificationToNumber(awg)
  {
    match AwgSpecificationToNumber(awg)
    case Ok(n) =>
      if n >= -3 then RenderRoundTrip(n); Ok(RenderAwg(n))
      else Ok(RenderAwg(n))
    case Err(e) => Err(e)
  }

  /** The three negative gauge numbers from 4/0 up render as the slash spellings. */
  lemma ThickGaugesRenderAsWritten()
    ensures RenderAwg(-1) == AwgText("2/0")
    ensures RenderAwg(-2) == AwgText("3/0")
    ensures RenderAwg(-3) == AwgText("4/0")
  {
    assert NatToString(2) == "2" && NatToString(3) == "3" && NatToString(4) == "4";
  }

  /** The eight zero and slash spellings parse to the numbers of their gauges. */
  lemma ExtraZeroSpellingsParse()
    ensures AwgSpecificationToNumber(AwgText("0000")) == Ok(-3)
    ensures AwgSpecificationToNumber(AwgText("4/0")) == Ok(-3)
    ensures AwgSpecificationToNumber(AwgText("000")) == Ok(-2)
    ensures AwgSpecificationToNumber(AwgText("3/0")) == Ok(-2)
    ensures AwgSpecificationToNumber(AwgText("00")) == Ok(-1)
    ensures AwgSpecificationToNumber(AwgText("2/0")) == Ok(-1)
    ensures AwgSpecificationToNumber(AwgText("0")) == Ok(0)
    ensures AwgSpecificationToNumber(AwgText("1/0")) == Ok(0)
  {
  }

  /** Every other accepted input is its integer value: a Python int, or a decimal string. */
  lemma {:induction false} DecimalSpellingsParse(n: int)
    ensures AwgSpecificationToNumber(AwgNumber(n)) == Ok(n)
    ensures AwgSpecificationToNumber(AwgText(IntToString(n))) == Ok(n)
  {
    // Printed integers have no leading zero and no slash, so "0" is the
    // only key of ExtraZeroSpellings one can be, and it parses to 0 anyway.
    ParseIntRoundTrip(n);
    PrintedIntegerIsNoExtraZeroSpelling(n);
    if IntToString(n) == "0" {
      ParseIntRoundTrip(0);
    }
  }

  lemma PrintedIntegerIsNoExtraZeroSpelling(n: int)
    ensures IntToString(n) in ExtraZeroSpellings ==> IntToString(n) == "0"
  {
    var s := IntToString(n);
    if n < 0 {
      assert s[0] == '-';
    } else if |s| > 1 {
      assert s[0] != '0' && IsDigit(s[1]);
    }
  }

  /** A string that is neither a known spelling nor a decimal integer, such as "xxx", fails. */
  lemma NonNumericSpellingFails()
    ensures AwgSpecificationToNumber(AwgText("xxx")) == Err(InvalidGaugeSpecification("xxx"))
    ensures AwgSpecificationToNumber(AwgText("")) == Err(InvalidGaugeSpecification(""))
  {
    assert !IsDigit('x');
  }

  /** A sign alone, a trailing letter, an inner sign or a doubled sign is refused, as `int` refuses it. */
  lemma MalformedIntegerSpellingsFail()
    ensures AwgSpecificationToNumber(AwgText("-")) == Err(InvalidGaugeSpecification("-"))
    ensures AwgSpecificationToNumber(AwgText("1x")) == Err(InvalidGaugeSpecification("1x"))
    ensures AwgSpecificationToNumber(AwgText("1-2")) == Err(InvalidGaugeSpecification("1-2"))
    ensures AwgSpecificationToNumber(AwgText("--1")) == Err(InvalidGaugeSpecification("--1"))
  {
    assert !IsDigit('x') && !IsDigit('-');
    assert "1x"[1..] == "x" && "1-2"[1] == '-' && "--1"[1..][0] == '-';
  }

  /** Signed strings and leading zeros parse as `int` reads them: "-05" is -5, "+7" is 7, "0005" is 5. */
  lemma SignedSpellingsParse()
    ensures AwgSpecificationToNumber(AwgText("-05")) == Ok(-5)
    ensures AwgSpecificationToNumber(AwgText("+7")) == Ok(7)
    ensures AwgSpecificationToNumber(AwgText("0005")) == Ok(5)
  {
    assert "-05"[1..] == "05" && DigitsValue("05") == 5;
    assert "+7"[1..] == "7";
    assert "0005"[..3] == "000" && "000"[..2] == "00" && "00"[..1] == "0" && "0"[..0] == "";
    assert DigitsValue("000") == 0;
  }

  /** Synonyms name one gauge: "0000", "4/0" and -3 agree, and so on down to "0", "1/0" and 0. */
  lemma SynonymsAgree()
    ensures AwgSpecificationToNumber(AwgText("0000")) == AwgSpecificationToNumber(AwgNumber(-3))
    ensures AwgSpecificationToNumber(AwgText("000")) == AwgSpecificationToNumber(AwgNumber(-2))
    ensures AwgSpecificationToNumber(AwgText("00")) == AwgSpecificationToNumber(AwgNumber(-1))
    ensures AwgSpecificationToNumber(AwgText("0")) == AwgSpecificationToNumber(AwgNumber(0))
    ensures CanonicalizeAwg(AwgText("00")) == CanonicalizeAwg(AwgText("2/0"))
         == CanonicalizeAwg(AwgNumber(-1)) == Ok(AwgText("2/0"))
    ensures CanonicalizeAwg(AwgText("000")) == CanonicalizeAwg(AwgText("3/0"))
         == CanonicalizeAwg(AwgNumber(-2)) == Ok(AwgText("3/0"))
    ensures CanonicalizeAwg(AwgText("0000")) == CanonicalizeAwg(AwgText("4/0"))
         == CanonicalizeAwg(AwgNumber(-3)) == Ok(AwgText("4/0"))
    ensures CanonicalizeAwg(AwgText("0")) == CanonicalizeAwg(AwgText("1/0"))
         == CanonicalizeAwg(AwgNumber(0)) == Ok(AwgNumber(0))
  {
    assert NatToString(2) + "/0" == "2/0";
    assert NatToString(3) + "/0" == "3/0";
    assert NatToString(4) + "/0" == "4/0";
  }

  /** The rendered form of any gauge number from 4/0 (-3) up parses back to that number. */
  lemma RenderRoundTrip(g: int)
    requires g >= -3
    ensures AwgSpecificationToNumber(RenderAwg(g)) == Ok(g)
  {
    if g < 0 {
      ThickGaugesRenderAsWritten();
      ExtraZeroSpellingsParse();
    }
  }

  /** Below 4/0 the round trip breaks: "5/0", "6/0", ... are not recognised spellings. */
  lemma RenderBeyondFourOughtFails(g: int)
    requires g <= -4
    ensures AwgSpecificationToNumber(RenderAwg(g)).Err?
  {
    var t := NatToString(1 - g);
    var s := t + "/0";
    assert RenderAwg(g) == AwgText(s);
    assert !IsDigit(s[|s| - 2]);
    assert s !in ExtraZeroSpellings by {
      if |s| == 3 {
        assert t == s[..1];
        assert t != "1" && t != "2" && t != "3" && t != "4" by {
          NatToStringRoundTrip(1 - g);
        }
      }
    }
    assert ParseInt(s).None? by {
      assert !AllDigits(s);
      assert !AllDigits(s[1..]) by { assert s[1..][|s| - 3] == s[|s| - 2]; }
    }
  }

  /** Canonical forms are canonical: canonicalising one again gives it back. */
  lemma CanonicalizeIdempotent(awg: AwgSpec)
    requires AwgSpecificationToNumber(awg).Ok? && AwgSpecificationToNumber(awg).value >= -3
    ensures CanonicalizeAwg(awg).Ok?
    ensures CanonicalizeAwg(CanonicalizeAwg(awg).value) == CanonicalizeAwg(awg)
  {
    RenderRoundTrip(AwgSpecificationToNumber(awg).value);
  }

  /** Two accepted spellings have one canonical form exactly when they name the same gauge. */
  lemma SameCanonicalFormIffSameGauge(x: AwgSpec, y: AwgSpec)
    requires AwgSpecificationToNumber(x).Ok? && AwgSpecificationToNumber(y).Ok?
    ensures CanonicalizeAwg(x) == CanonicalizeAwg(y)
        <==> AwgSpecificationToNumber(x) == AwgSpecificationToNumber(y)
  {
    RenderAwgInjective(AwgSpecificationToNumber(x).value, AwgSpecificationToNumber(y).value);
  }

  /** Different gauge numbers are rendered differently. */
  lemma RenderAwgInjective(a: int, b: int)
    ensures RenderAwg(a) == RenderAwg(b) ==> a == b
  {
    if RenderAwg(a) == RenderAwg(b) && a < 0 {
      var ta, tb := NatToString(1 - a), NatToString(1 - b);
      assert ta + "/0" == tb + "/0";
      assert ta == (ta + "/0")[..|ta|];
      assert |ta| == |tb|;
      assert tb == (tb + "/0")[..|tb|];
      NatToStringInjective(1 - a, 1 - b);
    }
  }

  // ---------------------------------------------------------------------
  // ABYC E-11 2008, Table VI-B: allowable amperage of conductors when up to
  // three current-carrying conductors are bundled, sheathed or in conduit.
  // Capacities in amperes. Each data row has 13 values against 14 column
  // names, so the last column (current_200C_eng) is blank in every row.

  const Vib18: Row<string, real> := Row("18", [7.0, 0.0, 7.0, 5.3, 10.5, 8.2, 14.0, 11.5, 14.0, 11.9, 17.5, 15.6, 17.5])
  const Vib16: Row<string, real> := Row("16", [10.5, 0.0, 10.5, 7.9, 14.0, 10.9, 17.5, 14.4, 17.5, 14.9, 21.0, 18.7, 24.5])
  const Vib14: Row<string, real> := Row("14", [14.0, 0.0, 14.0, 10.5, 17.5, 13.7, 21.0, 17.2, 24.5, 20.8, 28.0, 24.9, 31.5])
  const Vib12: Row<string, real> := Row("12", [17.5, 0.0, 17.5, 13.1, 24.5, 19.1, 28.0, 23.0, 31.5, 26.8, 35.0, 31.2, 38.5])
  const Vib10: Row<string, real> := Row("10", [28.0, 0.0, 28.0, 21.0, 35.0, 27.3, 38.5, 31.6, 42.0, 35.7, 49.0, 43.6, 49.0])
  const Vib8: Row<string, real> := Row("8", [38.5, 0.0, 45.5, 34.1, 49.0, 38.2, 49.0, 40.2, 56.0, 47.6, 63.0, 56.1, 70.0])
  const Vib6: Row<string, real> := Row("6", [56.0, 0.0, 66.5, 49.9, 70.0, 54.6, 70.0, 57.4, 84.0, 71.4, 87.5, 77.9, 94.5])
  const Vib4: Row<string, real> := Row("4", [73.5, 0.0, 87.5, 65.6, 91.0, 71.0, 94.5, 77.5, 112.0, 95.2, 119.0, 105.9, 126.0])
  const Vib3: Row<string, real> := Row("3", [84.0, 0.0, 101.5, 76.1, 105.0, 81.9, 108.5, 89.0, 126.0, 107.1, 136.5, 121.5, 147.0])
  const Vib2: Row<string, real> := Row("2", [98.0, 0.0, 119.0, 89.3, 122.5, 95.6, 126.0, 103.3, 147.0, 125.0, 157.5, 140.2, 168.0])
  const Vib1: Row<string, real> := Row("1", [115.5, 0.0, 136.5, 102.4, 147.0, 114.7, 147.0, 120.5, 171.5, 145.8, 185.5, 165.1, 196.0])
  const Vib0: Row<string, real> := Row("0", [136.5, 0.0, 161.0, 120.8, 171.5, 133.8, 171.5, 140.6, 199.5, 169.6, 213.5, 190.0, 227.5])
  const Vib2_0: Row<string, real> := Row("2/0", [157.5, 0.0, 185.5, 139.1, 199.5, 155.6, 199.5, 163.6, 231.0, 196.4, 248.5, 221.2, 259.0])
  const Vib3_0: Row<string, real> := Row("3/0", [182.0, 0.0, 217.0, 162.8, 231.0, 180.2, 231.0, 189.4, 269.5, 229.1, 287.0, 255.4, 301.0])
  const Vib4_0: Row<string, real> := Row("4/0", [210.0, 0.0, 252.0, 189.0, 269.5, 210.2, 269.5, 221.0, 311.5, 264.8, 332.5, 295.9, 357.0])

  /** The Table VI-B header of wire.py, index column excluded. */
  const TableVIBColumns: seq<string> :=
    ["current_60C", "current_60C_eng", "current_75C", "current_75C_eng", "current_80C", "current_80C_eng", "current_90C", "current_90C_eng", "current_105C", "current_105C_eng", "current_125C", "current_125C_eng", "current_200C", "current_200C_eng"]

  const TableVIB: Frame<string, real> := Frame(
    "awg",
    TableVIBColumns,
    [Vib18, Vib16, Vib14, Vib12, Vib10, Vib8, Vib6, Vib4, Vib3, Vib2, Vib1, Vib0, Vib2_0, Vib3_0, Vib4_0])

  /** The gauge numbers of the Table VI-B row labels, in file order. */
  const TableVIBGauges: seq<int> := [18, 16, 14, 12, 10, 8, 6, 4, 3, 2, 1, 0, -1, -2, -3]

  const KnownTempsC: seq<int> := [60, 75, 80, 90, 105, 125, 200]

  /** A cell covers a current when it holds a capacity at least that large. */
  predicate Adequate(cell: Option<real>, current: real) {
    cell.Some? && cell.value >= current
  }

  /** Row `i` is the first row, in file order, whose cell covers the current. */
  predicate IsFirstAdequate(col: seq<Entry<string, real>>, current: real, i: int) {
    0 <= i < |col| && Adequate(col[i].cell, current)
    && forall k :: 0 <= k < i ==> !Adequate(col[k].cell, current)
  }

  /** The filter "column >= current" followed by taking the first key. */
  function FirstAdequate(col: seq<Entry<string, real>>, current: real): (r: Option<nat>)
    ensures r.Some? ==> IsFirstAdequate(col, current, r.value)
    ensures r.None? ==> forall k :: 0 <= k < |col| ==> !Adequate(col[k].cell, current)
  {
    if col == [] then None
    else if Adequate(col[0].cell, current) then Some(0)
    else match FirstAdequate(col[1..], current)
      case None => None
      case Some(k) => Some(k + 1)
  }

  /** The column name for a rating: current_<T>C, with the engine-room suffix appended in the engine room. */
  function AmpacityColumnName(tempC: int, engineRoom: bool, engineRoomSuffix: string): string {
    "current_" + IntToString(tempC) + "C" + (if engineRoom then engineRoomSuffix else "")
  }

  /** The column names of a table with the given engine-room suffix, as one function of rating and engine room. */
  function AmpacityColumnNames(engineRoomSuffix: string): (int, bool) -> string {
    (t, e) => AmpacityColumnName(t, e, engineRoomSuffix)
  }

  /** The capacity column for an insulation rating: the rating must be known, and the column is selected by its name. */
  function AmpacityColumn(table: Frame<string, real>, known: seq<int>, engineRoomSuffix: string,
                          tempC: int, engineRoom: bool): (r: Result<seq<Entry<string, real>>, Error>)
    ensures r == Err(UnknownTemperatureRating(tempC)) <==> tempC !in known
    ensures tempC in known && r.Err? ==> r.error == MissingColumn(AmpacityColumnName(tempC, engineRoom, engineRoomSuffix))
    ensures r.Ok? ==>
      exists j :: 0 <= j < |table.columns| && r.value == Column(table, j)
        && table.columns[j] == AmpacityColumnName(tempC, engineRoom, engineRoomSuffix)
  {
    if tempC !in known then Err(UnknownTemperatureRating(tempC))
    else SelectColumn(table, AmpacityColumnName(tempC, engineRoom, engineRoomSuffix))
  }

  /**
    * AmericanBoatAndYachtCouncilWireGaugeUpToThreeConductorBundle: the
    * canonical gauge of the first row, 18 AWG first and 4/0 last, whose
    * capacity in the selected column covers the current.
    */
  function WireGaugeUpToThreeConductorBundle(current: real, tempC: int, engineRoom: bool := false)
    : (r: Result<AwgSpec, Error>)
    ensures r == Err(UnknownTemperatureRating(tempC)) <==> tempC !in KnownTempsC
  {
    match AmpacityColumn(TableVIB, KnownTempsC, "_eng", tempC, engineRoom)
    case Err(e) => Err(e)
    case Ok(col) =>
      match FirstAdequate(col, current)
      case None => Err(NoAcceptableGauge)
      case Some(i) => CanonicalizeAwg(AwgText(col[i].key))
  }

  /** The column a rating selects, located by position: two per rating, the engine-room one second. */
  function RatingColumn(tempC: int, engineRoom: bool): nat
    requires tempC in KnownTempsC
  {
    ColumnPosition(KnownTempsC, tempC, engineRoom)
  }

  /** The first digit run of a rating's column name is the rating itself. */
  lemma AmpacityColumnNameNumber(tempC: nat, engineRoom: bool, engineRoomSuffix: string)
    requires NoDigits(engineRoomSuffix)
    ensures FirstDigitRun(AmpacityColumnName(tempC, engineRoom, engineRoomSuffix)) == Some(tempC)
  {
    var digits := NatToString(tempC);
    var suffix := "C" + (if engineRoom then engineRoomSuffix else "");
    assert AmpacityColumnName(tempC, engineRoom, engineRoomSuffix) == "current_" + digits + suffix;
    NumberedHeader("current_" + digits + suffix, "current_", digits, suffix);
    NatToStringRoundTrip(tempC);
  }

  /** Column names are injective: one name belongs to one (rating, engine room) pair. */
  lemma AmpacityColumnNameInjective(t: nat, e: bool, t': nat, e': bool, engineRoomSuffix: string)
    requires NoDigits(engineRoomSuffix) && engineRoomSuffix != []
    ensures AmpacityColumnName(t, e, engineRoomSuffix) == AmpacityColumnName(t', e', engineRoomSuffix)
        ==> t == t' && e == e'
  {
    AmpacityColumnNameNumber(t, e, engineRoomSuffix);
    AmpacityColumnNameNumber(t', e', engineRoomSuffix);
    if t == t' && e != e' {
      assert |AmpacityColumnName(t, e, engineRoomSuffix)| != |AmpacityColumnName(t', e', engineRoomSuffix)|;
    }
  }

  /** A digit-free suffix and non-negative ratings give every rating's two columns names of their own. */
  lemma AmpacityNamesSeparate(known: seq<int>, engineRoomSuffix: string, tempC: nat, engineRoom: bool)
    requires forall a :: 0 <= a < |known| ==> known[a] >= 0
    requires NoDigits(engineRoomSuffix) && engineRoomSuffix != []
    ensures NamesSeparate(known, AmpacityColumnNames(engineRoomSuffix), tempC, engineRoom)
  {
    AmpacityColumnNameInjective(tempC, !engineRoom, tempC, engineRoom, engineRoomSuffix);
    forall a | 0 <= a < |known| && known[a] != tempC
      ensures AmpacityColumnName(known[a], false, engineRoomSuffix) != AmpacityColumnName(tempC, engineRoom, engineRoomSuffix)
      ensures AmpacityColumnName(known[a], true, engineRoomSuffix) != AmpacityColumnName(tempC, engineRoom, engineRoomSuffix)
    {
      AmpacityColumnNameInjective(known[a], false, tempC, engineRoom, engineRoomSuffix);
      AmpacityColumnNameInjective(known[a], true, tempC, engineRoom, engineRoomSuffix);
    }
  }

  /** In a table whose header is built from the ratings, a known rating selects the column at its position. */
  lemma AmpacityColumnOfKnownRating(table: Frame<string, real>, known: seq<int>, engineRoomSuffix: string,
                                    tempC: int, engineRoom: bool)
    requires table.columns == RatingHeader(known, AmpacityColumnNames(engineRoomSuffix))
    requires forall a :: 0 <= a < |known| ==> known[a] >= 0
    requires NoDigits(engineRoomSuffix) && engineRoomSuffix != []
    requires tempC in known
    ensures AmpacityColumn(table, known, engineRoomSuffix, tempC, engineRoom)
         == Ok(Column(table, ColumnPosition(known, tempC, engineRoom)))
  {
    var name := AmpacityColumnNames(engineRoomSuffix);
    assert known[RatingRank(known, tempC)] >= 0;
    AmpacityNamesSeparate(known, engineRoomSuffix, tempC, engineRoom);
    RatingHeaderLocatesRating(known, name, tempC, engineRoom);
    assert name(tempC, engineRoom) == AmpacityColumnName(tempC, engineRoom, engineRoomSuffix);
  }

  /** Every known rating names a column of the table, the one RatingColumn locates. */
  lemma KnownRatingsHaveColumns(tempC: int, engineRoom: bool)
    requires tempC in KnownTempsC
    ensures AmpacityColumn(TableVIB, KnownTempsC, "_eng", tempC, engineRoom)
         == Ok(Column(TableVIB, RatingColumn(tempC, engineRoom)))
  {
    TableVIBHeaderFollowsRatings();
    AmpacityColumnOfKnownRating(TableVIB, KnownTempsC, "_eng", tempC, engineRoom);
  }

  /** The Table VI-B header is the two columns of each known rating, in order. */
  lemma TableVIBHeaderFollowsRatings()
    ensures TableVIB.columns == RatingHeader(KnownTempsC, AmpacityColumnNames("_eng"))
  {
    var h := RatingHeader(KnownTempsC, AmpacityColumnNames("_eng"));
    forall c | 0 <= c < |TableVIBColumns|
      ensures TableVIBColumns[c] == h[c]
    {
      var k := c / 2;
      RatingHeaderAt(KnownTempsC, AmpacityColumnNames("_eng"), k);
      if k < 4 {
        LowRatingHeaderNames(k);
      } else {
        HighRatingHeaderNames(k);
      }
    }
  }

  lemma LowRatingHeaderNames(k: nat)
    requires k < 4
    ensures TableVIB.columns[2 * k] == AmpacityColumnName(KnownTempsC[k], false, "_eng")
    ensures TableVIB.columns[2 * k + 1] == AmpacityColumnName(KnownTempsC[k], true, "_eng")
  {
    if k == 0 {
      HeaderNames60C();
    } else if k == 1 {
      HeaderNames75C();
    } else if k == 2 {
      HeaderNames80C();
    } else {
      HeaderNames90C();
    }
  }

  lemma HighRatingHeaderNames(k: nat)
    requires 4 <= k < 7
    ensures TableVIB.columns[2 * k] == AmpacityColumnName(KnownTempsC[k], false, "_eng")
    ensures TableVIB.columns[2 * k + 1] == AmpacityColumnName(KnownTempsC[k], true, "_eng")
  {
    if k == 4 {
      HeaderNames105C();
    } else if k == 5 {
      HeaderNames125C();
    } else {
      HeaderNames200C();
    }
  }

  lemma HeaderNames60C()
    ensures TableVIB.columns[0] == AmpacityColumnName(60, false, "_eng")
    ensures TableVIB.columns[1] == AmpacityColumnName(60, true, "_eng")
  {
    assert IntToString(60) == "60";
  }

  lemma HeaderNames75C()
    ensures TableVIB.columns[2] == AmpacityColumnName(75, false, "_eng")
    ensures TableVIB.columns[3] == AmpacityColumnName(75, true, "_eng")
  {
    assert IntToString(75) == "75";
  }

  lemma HeaderNames80C()
    ensures TableVIB.columns[4] == AmpacityColumnName(80, false, "_eng")
    ensures TableVIB.columns[5] == AmpacityColumnName(80, true, "_eng")
  {
    assert IntToString(80) == "80";
  }

  lemma HeaderNames90C()
    ensures TableVIB.columns[6] == AmpacityColumnName(90, false, "_eng")
    ensures TableVIB.columns[7] == AmpacityColumnName(90, true, "_eng")
  {
    assert IntToString(90) == "90";
  }

  lemma HeaderNames105C()
    ensures TableVIB.columns[8] == AmpacityColumnName(105, false, "_eng")
    ensures TableVIB.columns[9] == AmpacityColumnName(105, true, "_eng")
  {
    assert IntToString(105) == "105";
  }

  lemma HeaderNames125C()
    ensures TableVIB.columns[10] == AmpacityColumnName(125, false, "_eng")
    ensures TableVIB.columns[11] == AmpacityColumnName(125, true, "_eng")
  {
    assert IntToString(125) == "125";
  }

  lemma HeaderNames200C()
    ensures TableVIB.columns[12] == AmpacityColumnName(200, false, "_eng")
    ensures TableVIB.columns[13] == AmpacityColumnName(200, true, "_eng")
  {
    assert IntToString(200) == "200";
  }

  lemma PrintedGauges()
    ensures IntToString(18) == "18" && IntToString(16) == "16" && IntToString(14) == "14"
    ensures IntToString(12) == "12" && IntToString(10) == "10" && IntToString(8) == "8"
    ensures IntToString(6) == "6" && IntToString(4) == "4" && IntToString(3) == "3"
    ensures IntToString(2) == "2" && IntToString(1) == "1"
  {
  }

  /** Every row holds 13 capacities: the 14th column, current_200C_eng, is blank throughout. */
  lemma TableVIBShape()
    ensures |TableVIB.columns| == 14 && |TableVIB.rows| == 15
    ensures forall i :: 0 <= i < 15 ==> |TableVIB.rows[i].fields| == 13
    ensures forall k :: 0 <= k < 15 ==> Column(TableVIB, 13)[k].cell == None
  {
  }

  /** The row labels, "18" through "4/0", parse to the gauge numbers 18 through -3. */
  lemma TableVIBLabelParses(i: nat)
    requires i < 15
    ensures AwgSpecificationToNumber(AwgText(TableVIB.rows[i].key)) == Ok(TableVIBGauges[i])
  {
    PrintedGauges();
    if i == 0 {
      assert TableVIB.rows[i] == Vib18;
      DecimalSpellingsParse(18);
    } else if i == 1 {
      assert TableVIB.rows[i] == Vib16;
      DecimalSpellingsParse(16);
    } else if i == 2 {
      assert TableVIB.rows[i] == Vib14;
      DecimalSpellingsParse(14);
    } else if i == 3 {
      assert TableVIB.rows[i] == Vib12;
      DecimalSpellingsParse(12);
    } else if i == 4 {
      assert TableVIB.rows[i] == Vib10;
      DecimalSpellingsParse(10);
    } else if i == 5 {
      assert TableVIB.rows[i] == Vib8;
      DecimalSpellingsParse(8);
    } else if i == 6 {
      assert TableVIB.rows[i] == Vib6;
      DecimalSpellingsParse(6);
    } else if i == 7 {
      assert TableVIB.rows[i] == Vib4;
      DecimalSpellingsParse(4);
    } else if i == 8 {
      assert TableVIB.rows[i] == Vib3;
      DecimalSpellingsParse(3);
    } else if i == 9 {
      assert TableVIB.rows[i] == Vib2;
      DecimalSpellingsParse(2);
    } else if i == 10 {
      assert TableVIB.rows[i] == Vib1;
      DecimalSpellingsParse(1);
    } else if i == 11 {
      assert TableVIB.rows[i] == Vib0;
      ExtraZeroSpellingsParse();
    } else if i == 12 {
      assert TableVIB.rows[i] == Vib2_0;
      ExtraZeroSpellingsParse();
    } else if i == 13 {
      assert TableVIB.rows[i] == Vib3_0;
      ExtraZeroSpellingsParse();
    } else {
      assert TableVIB.rows[i] == Vib4_0;
      ExtraZeroSpellingsParse();
    }
  }

  /**
    * Each of the 13 filled capacities of row `b` is at least the one above it
    * in row `a`; written out column by column so that literals are compared.
    */
  predicate CapacitiesGrow(a: seq<real>, b: seq<real>) {
    |a| == 13 && |b| == 13
    && a[0] <= b[0] && a[1] <= b[1] && a[2] <= b[2] && a[3] <= b[3] && a[4] <= b[4]
    && a[5] <= b[5] && a[6] <= b[6] && a[7] <= b[7] && a[8] <= b[8] && a[9] <= b[9]
    && a[10] <= b[10] && a[11] <= b[11] && a[12] <= b[12]
  }

  lemma CapacitiesGrowInEveryColumn(a: seq<real>, b: seq<real>)
    requires CapacitiesGrow(a, b)
    ensures RowsGrow(a, b)
  {
  }

  /** Capacities in every column of a row are at most those in the row below. */
  predicate RowsGrow(a: seq<real>, b: seq<real>) {
    |a| == |b| && forall j :: 0 <= j < |a| ==> a[j] <= b[j]
  }

  /** A column's capacities never shrink further down the table (toward thicker wire). */
  predicate NonDecreasing(col: seq<Entry<string, real>>) {
    forall i, k :: 0 <= i < k < |col| && col[i].cell.Some? && col[k].cell.Some? ==>
      col[i].cell.value <= col[k].cell.value
  }

  lemma TableVIBThinRowsGrow()
    ensures CapacitiesGrow(Vib18.fields, Vib16.fields)
    ensures CapacitiesGrow(Vib16.fields, Vib14.fields)
    ensures CapacitiesGrow(Vib14.fields, Vib12.fields)
    ensures CapacitiesGrow(Vib12.fields, Vib10.fields)
    ensures CapacitiesGrow(Vib10.fields, Vib8.fields)
    ensures CapacitiesGrow(Vib8.fields, Vib6.fields)
    ensures CapacitiesGrow(Vib6.fields, Vib4.fields)
  {
  }

  lemma TableVIBThickRowsGrow()
    ensures CapacitiesGrow(Vib4.fields, Vib3.fields)
    ensures CapacitiesGrow(Vib3.fields, Vib2.fields)
    ensures CapacitiesGrow(Vib2.fields, Vib1.fields)
    ensures CapacitiesGrow(Vib1.fields, Vib0.fields)
    ensures CapacitiesGrow(Vib0.fields, Vib2_0.fields)
    ensures CapacitiesGrow(Vib2_0.fields, Vib3_0.fields)
    ensures CapacitiesGrow(Vib3_0.fields, Vib4_0.fields)
  {
  }

  lemma TableVIBAdjacentRowsGrow()
    ensures forall i :: 0 <= i < 14 ==> RowsGrow(TableVIB.rows[i].fields, TableVIB.rows[i + 1].fields)
  {
    forall i | 0 <= i < 14
      ensures RowsGrow(TableVIB.rows[i].fields, TableVIB.rows[i + 1].fields)
    {
      if i < 7 {
        TableVIBThinAdjacentRowsGrow(i);
      } else {
        TableVIBThickAdjacentRowsGrow(i);
      }
    }
  }

  lemma TableVIBThinAdjacentRowsGrow(i: nat)
    requires i < 7
    ensures RowsGrow(TableVIB.rows[i].fields, TableVIB.rows[i + 1].fields)
  {
    TableVIBThinRowsGrow();
    CapacitiesGrowInEveryColumn(Vib18.fields, Vib16.fields);
    CapacitiesGrowInEveryColumn(Vib16.fields, Vib14.fields);
    CapacitiesGrowInEveryColumn(Vib14.fields, Vib12.fields);
    CapacitiesGrowInEveryColumn(Vib12.fields, Vib10.fields);
    CapacitiesGrowInEveryColumn(Vib10.fields, Vib8.fields);
    CapacitiesGrowInEveryColumn(Vib8.fields, Vib6.fields);
    CapacitiesGrowInEveryColumn(Vib6.fields, Vib4.fields);
  }

  lemma TableVIBThickAdjacentRowsGrow(i: nat)
    requires 7 <= i < 14
    ensures RowsGrow(TableVIB.rows[i].fields, TableVIB.rows[i + 1].fields)
  {
    TableVIBThickRowsGrow();
    CapacitiesGrowInEveryColumn(Vib4.fields, Vib3.fields);
    CapacitiesGrowInEveryColumn(Vib3.fields, Vib2.fields);
    CapacitiesGrowInEveryColumn(Vib2.fields, Vib1.fields);
    CapacitiesGrowInEveryColumn(Vib1.fields, Vib0.fields);
    CapacitiesGrowInEveryColumn(Vib0.fields, Vib2_0.fields);
    CapacitiesGrowInEveryColumn(Vib2_0.fields, Vib3_0.fields);
    CapacitiesGrowInEveryColumn(Vib3_0.fields, Vib4_0.fields);
  }

  /** Growth from each row to the next makes every column non-decreasing. */
  lemma {:induction false} AdjacentGrowthMakesColumnsNonDecreasing(f: Frame<string, real>, j: nat)
    requires forall i :: 0 <= i < |f.rows| - 1 ==> RowsGrow(f.rows[i].fields, f.rows[i + 1].fields)
    ensures NonDecreasing(Column(f, j))
  {
    var col := Column(f, j);
    forall i, k | 0 <= i < k < |col| && col[i].cell.Some? && col[k].cell.Some?
      ensures col[i].cell.value <= col[k].cell.value
    {
      var m := k;
      while m > i
        invariant i <= m <= k
        invariant col[m].cell.Some? && col[m].cell.value <= col[k].cell.value
        decreases m
      {
        assert RowsGrow(f.rows[m - 1].fields, f.rows[m].fields);
        m := m - 1;
      }
    }
  }

  /** Every Table VI-B capacity column is non-decreasing from 18 AWG down to 4/0. */
  lemma TableVIBColumnsNonDecreasing(j: nat)
    ensures NonDecreasing(Column(TableVIB, j))
  {
    TableVIBAdjacentRowsGrow();
    AdjacentGrowthMakesColumnsNonDecreasing(TableVIB, j);
  }

  /** The 60 C engine-room column holds 0 in every row. */
  lemma EngineRoom60CIsZero()
    ensures forall k :: 0 <= k < 15 ==> Column(TableVIB, 1)[k].cell == Some(0.0)
  {
  }

  /** Gauge numbers strictly decrease down the table: 18 AWG first, 4/0 last. */
  lemma TableVIBGaugesDescend()
    ensures forall i, k :: 0 <= i < k < |TableVIBGauges| ==> TableVIBGauges[i] > TableVIBGauges[k]
  {
  }

  /**
    * At a known rating the selector fails exactly when no row of the
    * rating's column is adequate, and then with NoAcceptableGauge.
    */
  lemma SelectorFailsIffNoRowAdequate(current: real, tempC: int, engineRoom: bool)
    requires tempC in KnownTempsC
    ensures var col := Column(TableVIB, RatingColumn(tempC, engineRoom));
      var r := WireGaugeUpToThreeConductorBundle(current, tempC, engineRoom);
      (r.Ok? || r == Err(NoAcceptableGauge))
      && (r == Err(NoAcceptableGauge) <==> forall k :: 0 <= k < |col| ==> !Adequate(col[k].cell, current))
  {
    KnownRatingsHaveColumns(tempC, engineRoom);
    var col := Column(TableVIB, RatingColumn(tempC, engineRoom));
    match FirstAdequate(col, current)
    case None =>
    case Some(i) =>
      TableVIBLabelParses(i);
  }

  /**
    * At a known rating the selector returns the canonical gauge of the first
    * row, in file order, whose capacity in the rating's column covers the current.
    */
  lemma SelectorReturnsFirstAdequateRow(current: real, tempC: int, engineRoom: bool, i: int)
    requires tempC in KnownTempsC
    requires IsFirstAdequate(Column(TableVIB, RatingColumn(tempC, engineRoom)), current, i)
    ensures WireGaugeUpToThreeConductorBundle(current, tempC, engineRoom) == Ok(RenderAwg(TableVIBGauges[i]))
  {
    KnownRatingsHaveColumns(tempC, engineRoom);
    var col := Column(TableVIB, RatingColumn(tempC, engineRoom));
    FirstAdequateUnique(col, current, i, FirstAdequate(col, current).value);
    TableVIBLabelParses(i);
  }

  lemma FirstAdequateUnique(col: seq<Entry<string, real>>, current: real, i: int, i': int)
    requires IsFirstAdequate(col, current, i) && IsFirstAdequate(col, current, i')
    ensures i == i'
  {
  }

  /**
    * Selector minimality: the chosen gauge covers the current, every thinner
    * gauge in the column does not, and every thicker one does too.
    */
  lemma SelectorChoosesThinnestAdequateGauge(current: real, tempC: int, engineRoom: bool)
    requires tempC in KnownTempsC
    requires WireGaugeUpToThreeConductorBundle(current, tempC, engineRoom).Ok?
    ensures var col := Column(TableVIB, RatingColumn(tempC, engineRoom));
      var g := WireGaugeUpToThreeConductorBundle(current, tempC, engineRoom).value;
      FirstAdequate(col, current).Some?
      && var i := FirstAdequate(col, current).value;
        g == RenderAwg(TableVIBGauges[i])
        && Adequate(col[i].cell, current)
        && (forall k :: 0 <= k < |col| && TableVIBGauges[k] > TableVIBGauges[i] ==> !Adequate(col[k].cell, current))
        && (forall k :: i <= k < |col| ==> Adequate(col[k].cell, current))
  {
    var j := RatingColumn(tempC, engineRoom);
    SelectorPicksFirstAdequateRow(current, tempC, engineRoom);
    FirstAdequateRowIsThinnest(j, current, FirstAdequate(Column(TableVIB, j), current).value);
  }

  /** A gauge returned at a known rating is the one of the first adequate row of the rating's column. */
  lemma SelectorPicksFirstAdequateRow(current: real, tempC: int, engineRoom: bool)
    requires tempC in KnownTempsC
    requires WireGaugeUpToThreeConductorBundle(current, tempC, engineRoom).Ok?
    ensures var col := Column(TableVIB, RatingColumn(tempC, engineRoom));
      FirstAdequate(col, current).Some?
      && WireGaugeUpToThreeConductorBundle(current, tempC, engineRoom)
         == Ok(RenderAwg(TableVIBGauges[FirstAdequate(col, current).value]))
  {
    KnownRatingsHaveColumns(tempC, engineRoom);
    var col := Column(TableVIB, RatingColumn(tempC, engineRoom));
    assert FirstAdequate(col, current).Some?;
    SelectorReturnsFirstAdequateRow(current, tempC, engineRoom, FirstAdequate(col, current).value);
  }

  /** In any Table VI-B column, the first adequate row is the thinnest adequate gauge, and every thicker one is adequate too. */
  lemma FirstAdequateRowIsThinnest(j: nat, current: real, i: int)
    requires IsFirstAdequate(Column(TableVIB, j), current, i)
    ensures var col := Column(TableVIB, j);
      (forall k :: 0 <= k < |col| && TableVIBGauges[k] > TableVIBGauges[i] ==> !Adequate(col[k].cell, current))
      && (forall k :: i <= k < |col| ==> Adequate(col[k].cell, current))
  {
    var col := Column(TableVIB, j);
    TableVIBGaugesDescend();
    FirstAdequateIsThinnest(col, TableVIBGauges, current, i);
    TableVIBShape();
    TableVIBColumnsNonDecreasing(j);
    AdequateAllTheWayDown(col, current, i);
  }

  /** With gauge numbers descending down the rows, no row thinner than the first adequate one is adequate. */
  lemma FirstAdequateIsThinnest(col: seq<Entry<string, real>>, gauges: seq<int>, current: real, i: int)
    requires IsFirstAdequate(col, current, i) && |gauges| == |col|
    requires forall a, b :: 0 <= a < b < |gauges| ==> gauges[a] > gauges[b]
    ensures forall k :: 0 <= k < |col| && gauges[k] > gauges[i] ==> !Adequate(col[k].cell, current)
  {
  }

  /** In a non-decreasing column with no blanks below row i, every row below an adequate one is adequate. */
  lemma AdequateAllTheWayDown(col: seq<Entry<string, real>>, current: real, i: int)
    requires 0 <= i < |col| && Adequate(col[i].cell, current) && NonDecreasing(col)
    requires forall k :: i <= k < |col| ==> col[k].cell.Some?
    ensures forall k :: i <= k < |col| ==> Adequate(col[k].cell, current)
  {
  }

  /** 11 A at 60 C needs 14 AWG. */
  lemma Scenario11A60C()
    ensures WireGaugeUpToThreeConductorBundle(11.0, 60) == Ok(AwgNumber(14))
  {
    assert IsFirstAdequate(Column(TableVIB, 0), 11.0, 2);
    SelectorReturnsFirstAdequateRow(11.0, 60, false, 2);
  }

  /** 11 A at 60 C in the engine room fails: that column is all zeros. */
  lemma Scenario11A60CEngineRoom()
    ensures WireGaugeUpToThreeConductorBundle(11.0, 60, true) == Err(NoAcceptableGauge)
  {
    EngineRoom60CFails(11.0);
  }

  /** The engine-room 60 C column holds no capacity at all, so any positive current finds no gauge there. */
  lemma EngineRoom60CFails(current: real)
    requires current > 0.0
    ensures WireGaugeUpToThreeConductorBundle(current, 60, true) == Err(NoAcceptableGauge)
  {
    assert RatingColumn(60, true) == 1;
    EngineRoom60CIsZero();
    SelectorFailsIffNoRowAdequate(current, 60, true);
  }

  /** 150 A at 105 C needs 1 AWG. */
  lemma Scenario150A105C()
    ensures WireGaugeUpToThreeConductorBundle(150.0, 105) == Ok(AwgNumber(1))
  {
    assert IsFirstAdequate(Column(TableVIB, 8), 150.0, 10);
    SelectorReturnsFirstAdequateRow(150.0, 105, false, 10);
  }

  /** 150 A at 105 C in the engine room needs 0 AWG. */
  lemma Scenario150A105CEngineRoom()
    ensures WireGaugeUpToThreeConductorBundle(150.0, 105, true) == Ok(AwgNumber(0))
  {
    assert IsFirstAdequate(Column(TableVIB, 9), 150.0, 11);
    SelectorReturnsFirstAdequateRow(150.0, 105, true, 11);
  }

  /** 357 A at 200 C is exactly what 4/0 carries. */
  lemma Scenario357A200C()
    ensures WireGaugeUpToThreeConductorBundle(357.0, 200) == Ok(AwgText("4/0"))
  {
    assert RatingColumn(200, false) == 12;
    Only4_0Carries357AAt200C();
    SelectorReturnsFirstAdequateRow(357.0, 200, false, 14);
    FourOughtRendersAsWritten();
  }

  lemma FourOughtRendersAsWritten()
    ensures RenderAwg(TableVIBGauges[14]) == AwgText("4/0")
  {
    assert NatToString(4) == "4";
  }

  /** In the 200 C column, 4/0 is the first row that carries 357 A. */
  lemma Only4_0Carries357AAt200C()
    ensures IsFirstAdequate(Column(TableVIB, 12), 357.0, 14)
  {
    var col := Column(TableVIB, 12);
    assert col[13].cell == Some(301.0) && col[14].cell == Some(357.0);
    TableVIBShape();
    TableVIBColumnsNonDecreasing(12);
    assert forall k :: 0 <= k < 14 ==> col[k].cell.Some? && col[k].cell.value <= 301.0;
  }

  /** 357 A at 200 C in the engine room fails: that column is blank. */
  lemma Scenario357A200CEngineRoom()
    ensures WireGaugeUpToThreeConductorBundle(357.0, 200, true) == Err(NoAcceptableGauge)
  {
    TableVIBShape();
    assert RatingColumn(200, true) == 13;
    assert forall k :: 0 <= k < 15 ==> !Adequate(Column(TableVIB, 13)[k].cell, 357.0);
    SelectorFailsIffNoRowAdequate(357.0, 200, true);
  }

  /** 358 A at 200 C is beyond every gauge. */
  lemma Scenario358A200C()
    ensures WireGaugeUpToThreeConductorBundle(358.0, 200) == Err(NoAcceptableGauge)
  {
    var col := Column(TableVIB, 12);
    assert RatingColumn(200, false) == 12;
    assert col[14].cell == Some(357.0);
    TableVIBColumnsNonDecreasing(12);
    assert forall k :: 0 <= k < 15 ==> !Adequate(col[k].cell, 358.0);
    SelectorFailsIffNoRowAdequate(358.0, 200, false);
  }
}

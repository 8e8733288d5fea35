/** The results table of a batch (REVIVE2024/simulate.py): its fixed columns, the row
    a finished case adds, the ERROR row a failed case adds, and the sequential batch
    that runs the cases one after the other and stops at the first one that raises. */
module Results {
  import opened Common
  import opened Costs

  // ---------------------------------------------------------------------------
  // Columns

  /** The columns of the results table. */
  datatype Column =
    | RunName | HeatingSet | Below2C | DeadlyDays | MinDryBulb | MinDewPoint | MaxDryBulb | MaxDewPoint
    | Caution | ExtremeCaution | Danger | ExtremeDanger | Eui | PeakElectric | HeatingBattery | CoolingBattery
    | AdorbTotal | ElectricCost | GasCost | FirstCost | WallCost | RoofCost | FloorCost | WindowCost
    | DoorCost | AirSealingCost | MechanicalCost | WaterHeaterCost | AppliancesCost | PvCost | BatteryCost
    | PvDirEn | PvDirMR | PvOpCO2 | PvEmCO2 | PvETrans

  /** The header text of each column. */
  function Label(c: Column): string {
    match c
    case RunName => "Run Name"
    case HeatingSet => "SET \U{2264} 12.2\U{00B0}C Hours (F)"
    case Below2C => "Hours < 2\U{00B0}C [hr]"
    case DeadlyDays => "Total Deadly Days"
    case MinDryBulb => "Min outdoor DB [\U{00B0}C]"
    case MinDewPoint => "Min outdoor DP [\U{00B0}C]"
    case MaxDryBulb => "Max outdoor DB [\U{00B0}C]"
    case MaxDewPoint => "Max outdoor DP [\U{00B0}C]"
    case Caution => "Caution (> 26.7, \U{2264} 32.2\U{00B0}C) [hr]"
    case ExtremeCaution => "Extreme Caution (> 32.2, \U{2264} 39.4\U{00B0}C) [hr]"
    case Danger => "Danger (> 39.4, \U{2264} 51.7\U{00B0}C) [hr]"
    case ExtremeDanger => "Extreme Danger (> 51.7\U{00B0}C) [hr]"
    case Eui => "EUI"
    case PeakElectric => "Peak Electric Demand [W]"
    case HeatingBattery => "Heating Battery Size [kWh]"
    case CoolingBattery => "Cooling Battery Size [kWh]"
    case AdorbTotal => "Total ADORB Cost [$]"
    case ElectricCost => "First Year Electric Cost [$]"
    case GasCost => "First Year Gas Cost [$]"
    case FirstCost => "First Cost [$]"
    case WallCost => "Wall Cost [$]"
    case RoofCost => "Roof Cost [$]"
    case FloorCost => "Floor Cost [$]"
    case WindowCost => "Window Cost [$]"
    case DoorCost => "Door Cost [$]"
    case AirSealingCost => "Air Sealing Cost [$]"
    case MechanicalCost => "Mechanical Cost [$]"
    case WaterHeaterCost => "Water Heater Cost [$]"
    case AppliancesCost => "Appliances Cost [$]"
    case PvCost => "PV Cost [$]"
    case BatteryCost => "Battery Cost [$]"
    case PvDirEn => "pv_dirEn_tot"
    case PvDirMR => "pv_dirMR_tot"
    case PvOpCO2 => "pv_opCO2_tot"
    case PvEmCO2 => "pv_emCO2_tot"
    case PvETrans => "pv_eTrans_tot"
  }

  /** The columns in the order `generate_results_table` declares them. */
  const TableColumns: seq<Column> := [
    RunName, HeatingSet, Below2C, DeadlyDays, MinDryBulb, MinDewPoint,
    MaxDryBulb, MaxDewPoint, Caution, ExtremeCaution,
    Danger, ExtremeDanger, Eui, PeakElectric,
    HeatingBattery, CoolingBattery, AdorbTotal, ElectricCost,
    GasCost, FirstCost, WallCost, RoofCost, FloorCost, WindowCost,
    DoorCost, AirSealingCost, MechanicalCost, WaterHeaterCost, AppliancesCost, PvCost,
    BatteryCost, PvDirEn, PvDirMR, PvOpCO2, PvEmCO2, PvETrans]

  /** The columns as a set: what a row must have to fit the table. */
  const ColumnSet: set<Column> := {
    RunName, HeatingSet, Below2C, DeadlyDays, MinDryBulb, MinDewPoint,
    MaxDryBulb, MaxDewPoint, Caution, ExtremeCaution, Danger, ExtremeDanger,
    Eui, PeakElectric, HeatingBattery, CoolingBattery, AdorbTotal, ElectricCost,
    GasCost, FirstCost, WallCost, RoofCost, FloorCost, WindowCost,
    DoorCost, AirSealingCost, MechanicalCost, WaterHeaterCost, AppliancesCost, PvCost,
    BatteryCost, PvDirEn, PvDirMR, PvOpCO2, PvEmCO2, PvETrans}

  /** The declared list and the column set hold the same columns. */
  lemma TableColumnsAreColumnSet()
    ensures forall c :: c in ColumnSet <==> c in TableColumns
  {
  }

  // ---------------------------------------------------------------------------
  // Rows

  /** A cell of the results table: the case name, a number, or the text "ERROR". */
  datatype Value = Text(text: string) | Number(x: real)

  type Row = map<Column, Value>

  /** What a finished case computed, one field per numeric column. */
  datatype Metrics = Metrics(
    heatingSet: real, below2C: real, deadlyDays: real,
    minDryBulb: real, minDewPoint: real, maxDryBulb: real, maxDewPoint: real,
    caution: real, extremeCaution: real, danger: real, extremeDanger: real,
    eui: real, peakElectric: real, heatingBattery: real, coolingBattery: real,
    electricCost: real, gasCost: real, costs: CostSummary,
    adorbTotal: real, pvDirEn: real, pvDirMR: real, pvOpCO2: real, pvEmCO2: real, pvETrans: real)

  /** The cell a finished case writes under each column, in the order its dictionary
      lists the columns. */
  function SuccessCell(caseName: string, m: Metrics, c: Column): Value {
    match c
    case RunName => Text(caseName)
    case HeatingSet => Number(m.heatingSet)
    case Below2C => Number(m.below2C)
    case DeadlyDays => Number(m.deadlyDays)
    case MinDryBulb => Number(m.minDryBulb)
    case MinDewPoint => Number(m.minDewPoint)
    case MaxDryBulb => Number(m.maxDryBulb)
    case MaxDewPoint => Number(m.maxDewPoint)
    case Caution => Number(m.caution)
    case ExtremeCaution => Number(m.extremeCaution)
    case Danger => Number(m.danger)
    case ExtremeDanger => Number(m.extremeDanger)
    case Eui => Number(m.eui)
    case PeakElectric => Number(m.peakElectric)
    case HeatingBattery => Number(m.heatingBattery)
    case CoolingBattery => Number(m.coolingBattery)
    case ElectricCost => Number(m.electricCost)
    case GasCost => Number(m.gasCost)
    case FirstCost => Number(m.costs.firstCost)
    case WallCost => Number(m.costs.wall)
    case RoofCost => Number(m.costs.roof)
    case FloorCost => Number(m.costs.floor)
    case WindowCost => Number(m.costs.window)
    case DoorCost => Number(m.costs.door)
    case AirSealingCost => Number(m.costs.airSealing)
    case MechanicalCost => Number(m.costs.mech)
    case WaterHeaterCost => Number(m.costs.dhw)
    case AppliancesCost => Number(m.costs.appliances)
    case PvCost => Number(m.costs.pv)
    case BatteryCost => Number(m.costs.battery)
    case AdorbTotal => Number(m.adorbTotal)
    case PvDirEn => Number(m.pvDirEn)
    case PvDirMR => Number(m.pvDirMR)
    case PvOpCO2 => Number(m.pvOpCO2)
    case PvEmCO2 => Number(m.pvEmCO2)
    case PvETrans => Number(m.pvETrans)
  }

  /** The row a finished case adds. */
  function SuccessRow(caseName: string, m: Metrics): Row {
    map c | c in ColumnSet :: SuccessCell(caseName, m, c)
  }

  /** The cell a case that raised writes under each column, in the order its
      dictionary lists the columns. */
  function ErrorCell(caseName: string, c: Column): Value {
    match c
    case RunName => Text(caseName)
    case HeatingSet => Text("ERROR")
    case Below2C => Text("ERROR")
    case DeadlyDays => Text("ERROR")
    case MinDryBulb => Text("ERROR")
    case MinDewPoint => Text("ERROR")
    case MaxDryBulb => Text("ERROR")
    case MaxDewPoint => Text("ERROR")
    case Caution => Text("ERROR")
    case ExtremeCaution => Text("ERROR")
    case Danger => Text("ERROR")
    case ExtremeDanger => Text("ERROR")
    case Eui => Text("ERROR")
    case PeakElectric => Text("ERROR")
    case HeatingBattery => Text("ERROR")
    case CoolingBattery => Text("ERROR")
    case ElectricCost => Text("ERROR")
    case GasCost => Text("ERROR")
    case FirstCost => Text("ERROR")
    case WallCost => Text("ERROR")
    case RoofCost => Text("ERROR")
    case FloorCost => Text("ERROR")
    case WindowCost => Text("ERROR")
    case DoorCost => Text("ERROR")
    case AirSealingCost => Text("ERROR")
    case MechanicalCost => Text("ERROR")
    case WaterHeaterCost => Text("ERROR")
    case AppliancesCost => Text("ERROR")
    case PvCost => Text("ERROR")
    case BatteryCost => Text("ERROR")
    case AdorbTotal => Text("ERROR")
    case PvDirEn => Text("ERROR")
    case PvDirMR => Text("ERROR")
    case PvOpCO2 => Text("ERROR")
    case PvEmCO2 => Text("ERROR")
    case PvETrans => Text("ERROR")
  }

  /** The row a case that raised adds. */
  function ErrorRow(caseName: string): Row {
    map c | c in ColumnSet :: ErrorCell(caseName, c)
  }

  /** A finished case's row fills exactly the table's columns. */
  lemma SuccessRowKeys(caseName: string, m: Metrics)
    ensures SuccessRow(caseName, m).Keys == ColumnSet
  {
  }

  /** A finished case's row holds the case name under "Run Name" and a number in
      every other column, the cost columns taken from the case's cost summary. */
  lemma SuccessRowValues(caseName: string, m: Metrics)
    ensures SuccessRow(caseName, m)[RunName] == Text(caseName)
    ensures forall c :: c in SuccessRow(caseName, m) && c != RunName ==> SuccessRow(caseName, m)[c].Number?
    ensures SuccessRow(caseName, m)[WallCost] == Number(m.costs.wall) && SuccessRow(caseName, m)[PvCost] == Number(m.costs.pv)
  {
  }

  /** The ERROR row fills exactly the table's columns. */
  lemma ErrorRowKeys(caseName: string)
    ensures ErrorRow(caseName).Keys == ColumnSet
  {
  }

  /** The ERROR row keeps the case name under "Run Name" and holds "ERROR" in every
      other column. */
  lemma ErrorRowValues(caseName: string)
    ensures ErrorRow(caseName)[RunName] == Text(caseName)
    ensures forall c :: c in ErrorRow(caseName) && c != RunName ==> ErrorRow(caseName)[c] == Text("ERROR")
  {
  }

  /** A row of the table's shape. */
  predicate Shaped(row: Row) {
    row.Keys == ColumnSet
  }

  /** `si.results_table`, which each case extends with `pd.concat`. */
  class ResultsTable {
    const columns: seq<Column>
    var rows: seq<Row>

    /** Every row has exactly the declared columns. */
    predicate Valid()
      reads this
    {
      columns == TableColumns && forall i :: 0 <= i < |rows| ==> Shaped(rows[i])
    }

    /** `generate_results_table`: the declared columns and no rows. */
    constructor()
      ensures columns == TableColumns && rows == [] && Valid()
    {
      columns := TableColumns;
      rows := [];
    }

    /** `pd.concat([results_table, row], ignore_index=True)`. */
    method Append(row: Row)
      modifies this
      ensures rows == old(rows) + [row]
      ensures old(Valid()) && Shaped(row) ==> Valid()
    {
      rows := rows + [row];
    }
  }

  // ---------------------------------------------------------------------------
  // One case

  const MissingEpw: string := "Cannot find specified EPW file."
  const MissingDdy: string := "Cannot find specified DDY file."

  /** What decides the fate of one case: its name, whether its weather files exist,
      what the body of the `try` computes or raises, whether PDF reports are enabled and
      what the report raises. */
  datatype CaseRun = CaseRun(caseName: string, epwFound: bool, ddyFound: bool, body: Result<Metrics>,
                             pdfEnabled: bool, report: Outcome)

  /** What the case raises, or `Pass`. The weather-file asserts are outside the `try`;
      the `except` re-raises whatever the body or the report raised. */
  function CaseOutcome(run: CaseRun): Outcome {
    if !run.epwFound then Fail(AssertionFailed(MissingEpw))
    else if !run.ddyFound then Fail(AssertionFailed(MissingDdy))
    else match run.body
      case Err(f) => Fail(f)
      case Ok(_) => if run.pdfEnabled && run.report.Fail? then run.report else Pass
  }

  /** The rows the case adds to the table. */
  function CaseRows(run: CaseRun): seq<Row> {
    if !run.epwFound || !run.ddyFound then []
    else match run.body
      case Err(_) => [ErrorRow(run.caseName)]
      case Ok(m) => [SuccessRow(run.caseName, m)] + if run.pdfEnabled && run.report.Fail? then [ErrorRow(run.caseName)] else []
  }

  /** A case passes exactly when both weather files exist, the body finishes and the
      report (when enabled) does not raise; it then adds its one result row. A missing
      weather file adds no row; any other failure ends with an ERROR row, which follows
      the result row when only the report raised. */
  lemma CaseRowsMeaning(run: CaseRun)
    ensures CaseOutcome(run).Pass? <==>
              run.epwFound && run.ddyFound && run.body.Ok? && !(run.pdfEnabled && run.report.Fail?)
    ensures CaseOutcome(run).Pass? ==> CaseRows(run) == [SuccessRow(run.caseName, run.body.value)]
    ensures !run.epwFound || !run.ddyFound ==> CaseRows(run) == [] && CaseOutcome(run).fault.AssertionFailed?
    ensures run.epwFound && run.ddyFound && CaseOutcome(run).Fail? ==>
              0 < |CaseRows(run)| <= 2 && CaseRows(run)[|CaseRows(run)| - 1] == ErrorRow(run.caseName)
  {
  }

  /** A row of the table's shape that carries the case name `n`. */
  predicate NamedRow(row: Row, n: string) {
    Shaped(row) && RunName in row && row[RunName] == Text(n)
  }

  lemma ErrorRowNamed(n: string)
    ensures NamedRow(ErrorRow(n), n)
  {
    ErrorRowKeys(n);
    ErrorRowValues(n);
  }

  lemma SuccessRowNamed(n: string, m: Metrics)
    ensures NamedRow(SuccessRow(n, m), n)
  {
    SuccessRowKeys(n, m);
    SuccessRowValues(n, m);
  }

  /** Every row a case adds has the table's shape and carries the case name. */
  lemma CaseRowsShaped(run: CaseRun)
    ensures forall k :: 0 <= k < |CaseRows(run)| ==> NamedRow(CaseRows(run)[k], run.caseName)
  {
    var n := run.caseName;
    if run.epwFound && run.ddyFound {
      ErrorRowNamed(n);
      if run.body.Ok? {
        SuccessRowNamed(n, run.body.value);
      }
    }
  }

  /** `simulate(si, case_id)`, from the weather-file asserts to the re-raise. */
  method RecordCase(table: ResultsTable, run: CaseRun) returns (r: Outcome)
    modifies table
    ensures table.rows == old(table.rows) + CaseRows(run) && r == CaseOutcome(run)
    ensures old(table.Valid()) ==> table.Valid()
  {
    ErrorRowNamed(run.caseName);
    if !run.epwFound {
      return Fail(AssertionFailed(MissingEpw));
    }
    if !run.ddyFound {
      return Fail(AssertionFailed(MissingDdy));
    }
    if run.body.Err? {
      table.Append(ErrorRow(run.caseName));
      return Fail(run.body.fault);
    }
    SuccessRowNamed(run.caseName, run.body.value);
    table.Append(SuccessRow(run.caseName, run.body.value));
    if run.pdfEnabled && run.report.Fail? {
      table.Append(ErrorRow(run.caseName));
      return run.report;
    }
    return Pass;
  }

  // ---------------------------------------------------------------------------
  // The batch

  /** What the batch raises: the first case that raises, as it was raised. */
  function BatchOutcome(runs: seq<CaseRun>): Outcome {
    if |runs| == 0 then Pass else AndThen(BatchOutcome(runs[..|runs| - 1]), CaseOutcome(runs[|runs| - 1]))
  }

  /** The rows the batch adds: those of every case up to and including the first one
      that raises; later cases never run. */
  function BatchRows(runs: seq<CaseRun>): seq<Row> {
    if |runs| == 0 then []
    else if BatchOutcome(runs[..|runs| - 1]).Fail? then BatchRows(runs[..|runs| - 1])
    else BatchRows(runs[..|runs| - 1]) + CaseRows(runs[|runs| - 1])
  }

  /** The batch raises what the first raising case raises, as a loop of checks would. */
  lemma {:induction false} BatchOutcomeIsFirstFailure(runs: seq<CaseRun>)
    ensures BatchOutcome(runs) == CheckAll(runs, CaseOutcome)
  {
    if |runs| > 0 {
      var init, last := runs[..|runs| - 1], runs[|runs| - 1];
      BatchOutcomeIsFirstFailure(init);
      assert runs == init + [last];
      CheckAllAppend(init, [last], CaseOutcome);
      assert [last][1..] == [];
    }
  }

  /** When no case raises, the batch adds exactly one row per case, in case order: the
      case's result row, named after the case. */
  lemma {:induction false} OneRowPerCase(runs: seq<CaseRun>)
    requires BatchOutcome(runs).Pass?
    ensures |BatchRows(runs)| == |runs|
    ensures forall i :: 0 <= i < |runs| ==> runs[i].body.Ok? && BatchRows(runs)[i] == SuccessRow(runs[i].caseName, runs[i].body.value)
  {
    if |runs| > 0 {
      var init, last := runs[..|runs| - 1], runs[|runs| - 1];
      OneRowPerCase(init);
      CaseRowsMeaning(last);
      assert forall i :: 0 <= i < |init| ==> init[i] == runs[i];
    }
  }

  /** Every row the batch adds has the table's shape. */
  lemma {:induction false} BatchRowsShaped(runs: seq<CaseRun>)
    ensures forall k :: 0 <= k < |BatchRows(runs)| ==> Shaped(BatchRows(runs)[k])
  {
    if |runs| > 0 {
      var init := runs[..|runs| - 1];
      BatchRowsShaped(init);
      CaseRowsShaped(runs[|runs| - 1]);
    }
  }

  /** Once a case raises, nothing after it changes the batch. */
  lemma {:induction false} FailureEndsBatch(runs: seq<CaseRun>, i: nat)
    requires i < |runs| && BatchOutcome(runs[..i + 1]).Fail?
    ensures BatchRows(runs) == BatchRows(runs[..i + 1]) && BatchOutcome(runs) == BatchOutcome(runs[..i + 1])
    decreases |runs| - i
  {
    if i + 1 < |runs| {
      assert runs[..i + 2][..i + 1] == runs[..i + 1];
      FailureEndsBatch(runs, i + 1);
    } else {
      assert runs[..i + 1] == runs;
    }
  }

  /** The cases of the batch, run in order in one process (`Parallel(n_jobs=1)`). */
  method RunCases(table: ResultsTable, runs: seq<CaseRun>) returns (r: Outcome)
    modifies table
    ensures table.rows == old(table.rows) + BatchRows(runs) && r == BatchOutcome(runs)
    ensures old(table.Valid()) ==> table.Valid()
  {
    for i := 0 to |runs|
      invariant table.rows == old(table.rows) + BatchRows(runs[..i])
      invariant old(table.Valid()) ==> table.Valid()
      invariant BatchOutcome(runs[..i]).Pass?
    {
      assert runs[..i + 1][..i] == runs[..i];
      r := RecordCase(table, runs[i]);
      ConcatAssociates(old(table.rows), BatchRows(runs[..i]), CaseRows(runs[i]));
      if r.Fail? {
        FailureEndsBatch(runs, i);
        return;
      }
    }
    assert runs[..|runs|] == runs;
    return Pass;
  }

  /** `parallel_simulate` with one job: a new table, every case in order, and the table
      that is saved when no case raised. */
  method ParallelSimulate(runs: seq<CaseRun>) returns (r: Result<seq<Row>>)
    ensures r.Ok? <==> forall i :: 0 <= i < |runs| ==> CaseOutcome(runs[i]).Pass?
    ensures r.Err? ==> exists i :: 0 <= i < |runs| && CaseOutcome(runs[i]) == Fail(r.fault) &&
                                   forall j :: 0 <= j < i ==> CaseOutcome(runs[j]).Pass?
    ensures r.Ok? ==> |r.value| == |runs| &&
                      forall i :: 0 <= i < |runs| ==> r.value[i] == SuccessRow(runs[i].caseName, runs[i].body.value)
  {
    var table := new ResultsTable();
    var outcome := RunCases(table, runs);
    BatchOutcomeIsFirstFailure(runs);
    if outcome.Fail? {
      return Err(outcome.fault);
    }
    OneRowPerCase(runs);
    assert table.Valid();
    return Ok(table.rows);
  }
}

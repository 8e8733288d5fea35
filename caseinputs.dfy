/** Per-case inputs `simulate` derives from one run-list row before building the model
    (REVIVE2024/simulate.py): the file-name stem, the foundation list and the outage
    windows. Cells are taken as the text `str(...)` gives; an empty CSV cell is "nan". */
module CaseInputs {
  import opened Common
  import opened Text
  import opened Tables

  /** The batch name `simulate` uses: "dummy" in dummy mode. */
  function BatchName(batchName: string, isDummyMode: bool): string {
    if isDummyMode then "dummy" else batchName
  }

  /** `BaseFileName`, the stem of every file written for the case. */
  function BaseFileName(batchName: string, caseName: string): string {
    batchName + "_" + caseName
  }

  /** A case is a base case (costs all zero) exactly when its batch name or its case
      name contains "BASE": the underscore joining them cannot be part of "BASE". */
  lemma BaseCaseNamed(batchName: string, caseName: string)
    ensures Contains(BaseFileName(batchName, caseName), "BASE") <==>
            Contains(batchName, "BASE") || Contains(caseName, "BASE")
  {
    assert BaseFileName(batchName, caseName) == batchName + ['_'] + caseName;
    ContainsAroundSeparator(batchName, '_', caseName, "BASE");
  }

  /** In dummy mode only the case name can make a case a base case. */
  lemma DummyBaseCase(batchName: string, caseName: string)
    ensures Contains(BaseFileName(BatchName(batchName, true), caseName), "BASE") <==> Contains(caseName, "BASE")
  {
    BaseCaseNamed("dummy", caseName);
    assert "dummy"[0..4][0] != "BASE"[0] && "dummy"[1..5][0] != "BASE"[0];
    assert !OccursAt("BASE", "dummy", 0) && !OccursAt("BASE", "dummy", 1);
  }

  /** One foundation: interface, insulation, insulation depth and perimeter, in the
      order the tuple lists them. */
  datatype Foundation = Foundation(interface: string, insulation: string, depth: string, perimeter: string)

  /** The three `if`s that build `foundationList`: each later non-"nan" interface
      replaces the list with a longer prefix; when all three are "nan" the variable is
      never bound and its later use raises. */
  function FoundationList(f1: Foundation, f2: Foundation, f3: Foundation): (r: Result<seq<Foundation>>)
    ensures r.Err? <==> f1.interface == Nan && f2.interface == Nan && f3.interface == Nan
    ensures r.Err? ==> r.fault == Unbound("foundationList")
    ensures r.Ok? ==>
      var all := [f1, f2, f3];
      var k := |r.value|;
      && 1 <= k <= 3
      && r.value == all[..k]
      && all[k - 1].interface != Nan
      && forall j :: k <= j < 3 ==> all[j].interface == Nan
  {
    var after1 := if f1.interface != Nan then Some([f1]) else None;
    var after2 := if f2.interface != Nan then Some([f1, f2]) else after1;
    var after3 := if f3.interface != Nan then Some([f1, f2, f3]) else after2;
    match after3
    case None => Err(Unbound("foundationList"))
    case Some(l) => Ok(l)
  }

  /** An outage window, from the run list's start and end dates. */
  datatype Outage = Outage(start: string, end: string)

  /** The heating and cooling outage windows: the first outage is the heating one when
      its type is "HEATING", otherwise the cooling one. */
  function SelectOutages(outage1Type: string, outage1: Outage, outage2: Outage): (r: (Outage, Outage))
    ensures multiset{r.0, r.1} == multiset{outage1, outage2}
    ensures outage1Type == "HEATING" ==> r.0 == outage1
    ensures outage1Type != "HEATING" ==> r.1 == outage1
  {
    if outage1Type == "HEATING" then (outage1, outage2) else (outage2, outage1)
  }
}

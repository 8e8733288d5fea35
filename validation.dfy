/** Checks of the shared database folder and of the run list before a batch starts
    (REVIVE2024/validation.py). Every validator is a sequence of checks in a fixed
    order that stops at the first failure and raises it; here it returns it. */
module Validation {
  import opened Common
  import opened Text
  import opened Paths
  import opened Tables

  const CarbonCorrectionDbFileName: string := "Carbon Correction Database.csv"
  const ConstructionDbFileName: string := "Construction Database.csv"
  const CountryEmissionsDbFileName: string := "Country Emission Database.csv"
  const HourlyEmissionsFileName: string := "Hourly Emission Rates.csv"
  const MaterialsDbFileName: string := "Material Database.csv"
  const NpCarbonCorrectionDbFileName: string := "Nonperformance Carbon Correction Database.csv"
  const WindowDbFileName: string := "Window Database.csv"
  const CambiumFactorsDir: string := "CambiumFactors"
  const WeatherDataDir: string := "Weather Data"

  const RequiredFiles: seq<string> := [
    CarbonCorrectionDbFileName,
    ConstructionDbFileName,
    CountryEmissionsDbFileName,
    HourlyEmissionsFileName,
    MaterialsDbFileName,
    NpCarbonCorrectionDbFileName,
    WindowDbFileName
  ]

  const RequiredDirs: seq<string> := [CambiumFactorsDir, WeatherDataDir]

  /** The foundation interfaces a run list may name. */
  const FoundationInterfaces: set<string> := {"Slab", "Crawlspace", "Basement"}

  const CaseNameRule: string := "Case names may contain letters, numbers, underscores, or spaces only."

  // ---------------------------------------------------------------------------
  // Messages

  function Quoted(s: string): string {
    "\"" + s + "\""
  }

  function InvalidCsvPrompt(invalidFile: string): string {
    "File " + Quoted(invalidFile) + " cannot be parsed as CSV."
  }

  function MissingColumnPrompt(missingCol: string, file: string): string {
    "Column " + Quoted(missingCol) + " missing from file " + Quoted(file) +
    ". Please make sure column exists and is named properly."
  }

  function RlMissingItemPrompt(rlFile: string, missingItem: string, location: string): string {
    "Problem in runlist " + Quoted(rlFile) + ": " + missingItem + " not found in " + Quoted(location) +
    ". Please make sure runlist was generated using the designated database."
  }

  function RlMiscPrompt(rlFile: string, prompt: string): string {
    "Problem in runlist " + Quoted(rlFile) + ": " + prompt
  }

  lemma RlMiscPromptMentions(rlFile: string, prompt: string)
    ensures Contains(RlMiscPrompt(rlFile, prompt), rlFile)
  {
    ContainsMiddle("\"", rlFile, "\"");
    ContainsConcat("Problem in runlist ", Quoted(rlFile), rlFile);
    ContainsConcat("Problem in runlist " + Quoted(rlFile), ": " + prompt, rlFile);
    assert RlMiscPrompt(rlFile, prompt) == ("Problem in runlist " + Quoted(rlFile)) + (": " + prompt);
  }

  function MissingItemPrompt(missingItem: string): string {
    "Cannot find " + missingItem + " in specified database directory."
  }

  // ---------------------------------------------------------------------------
  // The database folder

  /** `validate_database_exists`. */
  function ValidateDatabaseExists(fs: FileSystem, dbPath: string): (r: Outcome)
    ensures r.Pass? <==> IsDir(fs, dbPath)
    ensures r.Fail? ==> r.fault.AssertionFailed? && Contains(r.fault.message, dbPath)
  {
    var message := "Directory path " + Quoted(dbPath) + " does not exist. Please use the folder browser to select path.";
    ContainsMiddle("\"", dbPath, "\"");
    ContainsConcat("Directory path ", Quoted(dbPath), dbPath);
    ContainsConcat("Directory path " + Quoted(dbPath), " does not exist. Please use the folder browser to select path.", dbPath);
    Need(IsDir(fs, dbPath), AssertionFailed(message))
  }

  predicate FilePresent(fs: FileSystem, dbPath: string, file: string) {
    IsFile(fs, Join(dbPath, file))
  }

  predicate DirPresent(fs: FileSystem, dbPath: string, dir: string) {
    IsDir(fs, Join(dbPath, dir))
  }

  function FileCheck(fs: FileSystem, dbPath: string, file: string): Outcome {
    Need(FilePresent(fs, dbPath, file), AssertionFailed(MissingItemPrompt("file " + Quoted(file))))
  }

  function DirCheck(fs: FileSystem, dbPath: string, dir: string): Outcome {
    Need(DirPresent(fs, dbPath, dir), AssertionFailed(MissingItemPrompt("folder " + Quoted(dir))))
  }

  /** `validate_database_structure`: every required file, then every required folder,
      each list in its declared order. */
  function ValidateDatabaseStructure(fs: FileSystem, dbPath: string): (r: Outcome)
    ensures r.Pass? <==> (forall f :: f in RequiredFiles ==> FilePresent(fs, dbPath, f)) &&
                         (forall d :: d in RequiredDirs ==> DirPresent(fs, dbPath, d))
    ensures r.Fail? ==>
      (exists i :: 0 <= i < |RequiredFiles| && !FilePresent(fs, dbPath, RequiredFiles[i]) &&
         (forall j :: 0 <= j < i ==> FilePresent(fs, dbPath, RequiredFiles[j])) &&
         r.fault == AssertionFailed(MissingItemPrompt("file " + Quoted(RequiredFiles[i])))) ||
      ((forall f :: f in RequiredFiles ==> FilePresent(fs, dbPath, f)) &&
       exists i :: 0 <= i < |RequiredDirs| && !DirPresent(fs, dbPath, RequiredDirs[i]) &&
         (forall j :: 0 <= j < i ==> DirPresent(fs, dbPath, RequiredDirs[j])) &&
         r.fault == AssertionFailed(MissingItemPrompt("folder " + Quoted(RequiredDirs[i]))))
  {
    var files := CheckAll(RequiredFiles, f => FileCheck(fs, dbPath, f));
    var dirs := CheckAll(RequiredDirs, d => DirCheck(fs, dbPath, d));
    AndThen(files, dirs)
  }

  /** The key under which the required-columns manifest lists a file's columns:
      its name up to the first ".csv" (`file[:file.index(".csv")]`). */
  function Key(file: string): (r: Option<string>)
    ensures r.Some? ==> StartsWith(file, r.value) && OccursAt(".csv", file, |r.value|) &&
                        forall j :: 0 <= j < |r.value| ==> !OccursAt(".csv", file, j)
    ensures r.None? <==> !Contains(file, ".csv")
  {
    match IndexOf(file, ".csv")
    case None => None
    case Some(i) => Some(file[..i])
  }

  /** A name without a dot followed by ".csv" has that name as its key. */
  lemma {:induction false} KeyOfCsvName(stem: string)
    requires forall i :: 0 <= i < |stem| ==> stem[i] != '.'
    ensures Key(stem + ".csv") == Some(stem)
  {
    var file := stem + ".csv";
    assert file[|stem|..|stem| + 4] == ".csv";
    assert OccursAt(".csv", file, |stem|);
    forall j | 0 <= j < |stem| ensures !OccursAt(".csv", file, j) {
      assert file[j] == stem[j];
    }
    var k := IndexOf(file, ".csv");
    assert k.Some?;
    assert file[..k.value] == stem;
  }

  /** Every required file's key is its name without the ".csv" extension. */
  lemma RequiredFileKey(i: nat)
    requires i < |RequiredFiles|
    ensures Key(RequiredFiles[i]) == Some(RequiredFiles[i][..|RequiredFiles[i]| - 4])
  {
    var file := RequiredFiles[i];
    var stem := file[..|file| - 4];
    if i < 4 { FirstRequiredStems(i); } else { LastRequiredStems(i); }
    CsvKey(stem, file);
  }

  /** A dot-free name followed by ".csv". */
  predicate DotFreeCsv(file: string) {
    |file| >= 4 && file == file[..|file| - 4] + ".csv" && forall k :: 0 <= k < |file| - 4 ==> file[k] != '.'
  }

  /** The first four required files are dot-free names followed by ".csv". */
  lemma FirstRequiredStems(i: nat)
    requires i < 4
    ensures DotFreeCsv(RequiredFiles[i])
  {
    if i == 0 { assert RequiredFiles[i][..|RequiredFiles[i]| - 4] == "Carbon Correction Database"; }
    else if i == 1 { assert RequiredFiles[i][..|RequiredFiles[i]| - 4] == "Construction Database"; }
    else if i == 2 { assert RequiredFiles[i][..|RequiredFiles[i]| - 4] == "Country Emission Database"; }
    else { assert RequiredFiles[i][..|RequiredFiles[i]| - 4] == "Hourly Emission Rates"; }
  }

  /** The other three required files are dot-free names followed by ".csv". */
  lemma LastRequiredStems(i: nat)
    requires 4 <= i < 7
    ensures DotFreeCsv(RequiredFiles[i])
  {
    if i == 4 { assert RequiredFiles[i][..|RequiredFiles[i]| - 4] == "Material Database"; }
    else if i == 5 { assert RequiredFiles[i][..|RequiredFiles[i]| - 4] == "Nonperformance Carbon Correction Database"; }
    else { assert RequiredFiles[i][..|RequiredFiles[i]| - 4] == "Window Database"; }
  }

  lemma CsvKey(stem: string, file: string)
    requires file == stem + ".csv"
    requires forall i :: 0 <= i < |stem| ==> stem[i] != '.'
    ensures Key(file) == Some(stem) && file[..|file| - 4] == stem
  {
    KeyOfCsvName(stem);
    assert file[..|file| - 4] == stem;
  }

  /** Whether every column the manifest lists for `file` is in that file. */
  predicate FileColumnsPresent(content: map<string, seq<string>>, dbPath: string, tables: map<string, Table>, file: string) {
    && Key(file).Some?
    && Key(file).value in content
    && Join(dbPath, file) in tables
    && forall col :: col in content[Key(file).value] ==> col in tables[Join(dbPath, file)].columns
  }

  /** The checks `validate_database_file_structures` makes for one file: its key, the
      manifest entry (`content[key]`, KeyError when absent), that pandas can read it, and
      each listed column in the manifest's order. */
  function FileStructureCheck(content: map<string, seq<string>>, dbPath: string, tables: map<string, Table>, file: string): (r: Outcome)
    ensures r.Pass? <==> FileColumnsPresent(content, dbPath, tables, file)
  {
    match Key(file)
    case None => Fail(NoSuchSubstring(".csv"))
    case Some(key) =>
      if key !in content then Fail(KeyMissing(key))
      else
        var path := Join(dbPath, file);
        if path !in tables then Fail(AssertionFailed(InvalidCsvPrompt(path)))
        else ColumnsCheck(content[key], tables[path].columns, file)
  }

  /** Each listed column must be among the file's columns; the first one missing is
      reported together with the file. */
  function ColumnsCheck(cols: seq<string>, columns: seq<string>, file: string): (r: Outcome)
    ensures r.Pass? <==> forall col :: col in cols ==> col in columns
    ensures r.Fail? ==> exists k :: 0 <= k < |cols| && cols[k] !in columns &&
                          (forall j :: 0 <= j < k ==> cols[j] in columns) &&
                          r == Fail(AssertionFailed(MissingColumnPrompt(cols[k], file)))
  {
    CheckAll(cols, col => ColumnCheck(col, columns, file))
  }

  function ColumnCheck(col: string, columns: seq<string>, file: string): Outcome {
    Need(col in columns, AssertionFailed(MissingColumnPrompt(col, file)))
  }

  /** `validate_database_file_structures`, with the manifest `content` already loaded
      and `tables` giving every path pandas can read. */
  function ValidateDatabaseFileStructures(content: map<string, seq<string>>, dbPath: string, tables: map<string, Table>): (r: Outcome)
    ensures r.Pass? <==> forall f :: f in RequiredFiles ==> FileColumnsPresent(content, dbPath, tables, f)
    ensures r.Fail? ==> exists i :: 0 <= i < |RequiredFiles| &&
                          (forall j :: 0 <= j < i ==> FileColumnsPresent(content, dbPath, tables, RequiredFiles[j])) &&
                          r == FileStructureCheck(content, dbPath, tables, RequiredFiles[i])
  {
    CheckAll(RequiredFiles, f => FileStructureCheck(content, dbPath, tables, f))
  }

  /** The first column missing from a readable file is the one reported, with its file. */
  lemma {:induction false} MissingColumnReported(content: map<string, seq<string>>, dbPath: string, tables: map<string, Table>, file: string, k: nat)
    requires Key(file).Some? && Key(file).value in content && Join(dbPath, file) in tables
    requires k < |content[Key(file).value]|
    requires content[Key(file).value][k] !in tables[Join(dbPath, file)].columns
    requires forall j :: 0 <= j < k ==> content[Key(file).value][j] in tables[Join(dbPath, file)].columns
    ensures FileStructureCheck(content, dbPath, tables, file) ==
            Fail(AssertionFailed(MissingColumnPrompt(content[Key(file).value][k], file)))
  {
    var cols := content[Key(file).value];
    var columns := tables[Join(dbPath, file)].columns;
    CheckAllFirstFailure(cols, col => ColumnCheck(col, columns, file), k);
    assert ColumnsCheck(cols, columns, file) == Fail(AssertionFailed(MissingColumnPrompt(cols[k], file)));
  }

  /** `validate_database_content`: the folder exists, holds the required items, and the
      required files have their columns. */
  function ValidateDatabaseContent(content: map<string, seq<string>>, fs: FileSystem, dbPath: string, tables: map<string, Table>): (r: Outcome)
    ensures r.Pass? <==> IsDir(fs, dbPath) && ValidateDatabaseStructure(fs, dbPath).Pass? &&
                         forall f :: f in RequiredFiles ==> FileColumnsPresent(content, dbPath, tables, f)
  {
    AndThen(ValidateDatabaseExists(fs, dbPath),
      AndThen(ValidateDatabaseStructure(fs, dbPath), ValidateDatabaseFileStructures(content, dbPath, tables)))
  }

  // ---------------------------------------------------------------------------
  // The run list's columns

  /** `validate_runlist_exists`. */
  function ValidateRunlistExists(fs: FileSystem, rlPath: string): (r: Outcome)
    ensures r.Pass? <==> IsFile(fs, rlPath)
  {
    Need(IsFile(fs, rlPath), AssertionFailed("Runlist path " + Quoted(rlPath) + " does not exist. Please use the file browser to select path."))
  }

  function RunlistColumnFault(col: string): Fault {
    AssertionFailed("Column " + col + " missing, runlist may be out of date.")
  }

  /** `validate_runlist_structure`: the run list must be readable CSV, the manifest must
      have a "Runlist" entry, and every column listed there must be in the run list. */
  function ValidateRunlistStructure(content: map<string, seq<string>>, rlPath: string, tables: map<string, Table>): (r: Outcome)
    ensures r.Pass? <==> rlPath in tables && "Runlist" in content &&
                         forall col :: col in content["Runlist"] ==> col in tables[rlPath].columns
    ensures rlPath !in tables ==> r == Fail(AssertionFailed(InvalidCsvPrompt(rlPath)))
    ensures rlPath in tables && "Runlist" in content && r.Fail? ==>
      exists k :: 0 <= k < |content["Runlist"]| && content["Runlist"][k] !in tables[rlPath].columns &&
        (forall j :: 0 <= j < k ==> content["Runlist"][j] in tables[rlPath].columns) &&
        r.fault == RunlistColumnFault(content["Runlist"][k])
  {
    if rlPath !in tables then Fail(AssertionFailed(InvalidCsvPrompt(rlPath)))
    else if "Runlist" !in content then Fail(KeyMissing("Runlist"))
    else
      var columns := tables[rlPath].columns;
      CheckAll(content["Runlist"], col => Need(col in columns, RunlistColumnFault(col)))
  }

  // ---------------------------------------------------------------------------
  // The run list's contents

  /** A character `is_legal_char` accepts: alphanumeric, space or underscore. */
  predicate IsLegalChar(c: char) {
    IsAlnum(c) || c == ' ' || c == '_'
  }

  /** The case-name check as written: an empty name fails its assert with an empty
      message; a name with ANY legal character fails the second assert, whose message
      `rl_misc_prompt(...)` is called with one argument of two and raises TypeError. */
  function CaseNameFaultAsWritten(name: string): (r: Option<Fault>)
    ensures name == "" ==> r == Some(AssertionFailed(""))
    ensures name != "" ==> (r.None? <==> forall i :: 0 <= i < |name| ==> !IsLegalChar(name[i]))
  {
    if name == "" then Some(AssertionFailed(""))
    else if exists i :: 0 <= i < |name| && IsLegalChar(name[i]) then Some(WrongArgumentCount("rl_misc_prompt"))
    else None
  }

  /** The case-name check as intended: a name must be non-empty and made of legal
      characters only; the message names the run list. */
  function CaseNameFault(rlPath: string, name: string): (r: Option<Fault>)
    ensures r.None? <==> name != "" && forall i :: 0 <= i < |name| ==> IsLegalChar(name[i])
    ensures r.Some? && name != "" ==> r.value == AssertionFailed(RlMiscPrompt(rlPath, CaseNameRule))
  {
    if name == "" then Some(AssertionFailed(""))
    else if forall i :: 0 <= i < |name| ==> IsLegalChar(name[i]) then None
    else Some(AssertionFailed(RlMiscPrompt(rlPath, CaseNameRule)))
  }

  /** As written, the case-name test rejects every non-empty name the intended test accepts:
      "BASE" is refused and "#?!" is let through. */
  lemma CaseNameCheckInverted(rlPath: string, name: string)
    ensures name != "" && CaseNameFault(rlPath, name).None? ==> CaseNameFaultAsWritten(name).Some?
    ensures CaseNameFaultAsWritten("BASE") == Some(WrongArgumentCount("rl_misc_prompt"))
    ensures CaseNameFault(rlPath, "BASE").None?
    ensures CaseNameFaultAsWritten("#?!").None? && CaseNameFault(rlPath, "#?!").Some?
  {
    if name != "" && CaseNameFault(rlPath, name).None? {
      assert IsLegalChar(name[0]);
    }
    assert IsLegalChar("BASE"[0]);
    assert !IsLegalChar("#?!"[0]);
  }

  /** The fault a failed membership assert raises as written: its message
      `rl_missing_item_prompt(item, location)` passes two arguments to a lambda of three,
      so Python raises TypeError and the message is never shown. */
  function MembershipFaultAsWritten(item: string, location: string): (r: Fault)
    ensures !r.AssertionFailed?
  {
    WrongArgumentCount("rl_missing_item_prompt")
  }

  /** The fault as intended: an AssertionError naming the run list, the item and where
      it was looked up. */
  function MembershipFault(rlPath: string, item: string, location: string): (r: Fault)
    ensures r.AssertionFailed?
    ensures Contains(r.message, rlPath) && Contains(r.message, item) && Contains(r.message, location)
  {
    RlMissingItemPromptMentions(rlPath, item, location);
    AssertionFailed(RlMissingItemPrompt(rlPath, item, location))
  }

  lemma {:induction false} RlMissingItemPromptMentions(rlFile: string, item: string, location: string)
    ensures var m := RlMissingItemPrompt(rlFile, item, location);
            Contains(m, rlFile) && Contains(m, item) && Contains(m, location)
  {
    var a := "Problem in runlist " + Quoted(rlFile);
    var b := a + ": " + item;
    var c := b + " not found in " + Quoted(location);
    var tail := ". Please make sure runlist was generated using the designated database.";
    ContainsMiddle("\"", rlFile, "\"");
    ContainsMiddle("\"", location, "\"");
    assert OccursAt(item, item, 0);
    ContainsConcat("Problem in runlist ", Quoted(rlFile), rlFile);
    ContainsConcat(a, ": ", rlFile);
    ContainsConcat(a + ": ", item, rlFile);
    ContainsConcat(a + ": ", item, item);
    ContainsConcat(b, " not found in ", rlFile);
    ContainsConcat(b, " not found in ", item);
    ContainsConcat(b + " not found in ", Quoted(location), rlFile);
    ContainsConcat(b + " not found in ", Quoted(location), item);
    ContainsConcat(b + " not found in ", Quoted(location), location);
    ContainsConcat(c, tail, rlFile);
    ContainsConcat(c, tail, item);
    ContainsConcat(c, tail, location);
  }

  /** At every membership check, the raised fault differs between the two readings. */
  lemma MembershipFaultDiffers(rlPath: string, item: string, location: string)
    ensures MembershipFaultAsWritten(item, location) != MembershipFault(rlPath, item, location)
  {
  }

  /** The entries of a list of cells that are not blank, stripped
      (`[i.strip() for i in items if i.strip() != ""]`). */
  function NonBlank(cells: seq<string>): seq<string> {
    if |cells| == 0 then []
    else (if Strip(cells[0]) != "" then [Strip(cells[0])] else []) + NonBlank(cells[1..])
  }

  /** The items are the non-blank cells, stripped. */
  lemma {:induction false} NonBlankMembers(cells: seq<string>)
    ensures forall x :: x in NonBlank(cells) <==> exists c :: c in cells && Strip(c) == x && x != ""
  {
    if |cells| > 0 {
      NonBlankMembers(cells[1..]);
      assert forall c :: c in cells <==> c == cells[0] || c in cells[1..];
    }
  }

  /** Dropping blanks keeps the order and the multiplicity of the cells: a list is
      filtered part by part, and one cell contributes its stripped text exactly when
      that is not blank. */
  lemma {:induction false} NonBlankAppend(a: seq<string>, b: seq<string>)
    ensures NonBlank(a + b) == NonBlank(a) + NonBlank(b)
    decreases |a|
  {
    if |a| == 0 {
      assert a + b == b;
    } else {
      assert (a + b)[0] == a[0] && (a + b)[1..] == a[1..] + b;
      NonBlankAppend(a[1..], b);
    }
  }

  lemma NonBlankSingle(c: string)
    ensures NonBlank([c]) == if Strip(c) != "" then [Strip(c)] else []
  {
    assert [c][1..] == [];
  }

  /** The geometry-file check; as written its `rl_misc_prompt` call also lacks an argument. */
  function GeometryCheck(fs: FileSystem, rlPath: string, idf: string): (r: Outcome)
    ensures r.Pass? <==> IsFile(fs, idf)
    ensures r.Fail? ==> r.fault.AssertionFailed? && Contains(r.fault.message, rlPath)
  {
    RlMiscPromptMentions(rlPath, "Geometry file " + Quoted(idf) + " not found in study folder.");
    Need(IsFile(fs, idf), AssertionFailed(RlMiscPrompt(rlPath, "Geometry file " + Quoted(idf) + " not found in study folder.")))
  }

  /** The EPW file, then the DDY file, must be in the weather folder. */
  function WeatherCheck(fs: FileSystem, weatherDir: string, epw: string, ddy: string): (r: Outcome)
    ensures r.Pass? <==> IsFile(fs, Join(weatherDir, epw)) && IsFile(fs, Join(weatherDir, ddy))
    ensures !IsFile(fs, Join(weatherDir, epw)) ==>
              r == Fail(AssertionFailed("EPW file " + Quoted(epw) + " could not be found in weather folder " + Quoted(weatherDir) + "."))
  {
    AndThen(
      Need(IsFile(fs, Join(weatherDir, epw)), AssertionFailed("EPW file " + Quoted(epw) + " could not be found in weather folder " + Quoted(weatherDir) + ".")),
      Need(IsFile(fs, Join(weatherDir, ddy)), AssertionFailed("DDY file " + Quoted(ddy) + " could not be found in weather folder " + Quoted(weatherDir) + ".")))
  }

  function CaseNameCheck(rlPath: string, name: string): Outcome {
    match CaseNameFault(rlPath, name)
    case None => Pass
    case Some(f) => Fail(f)
  }

  /** `zip(epws, ddys)`. */
  function Zip(xs: seq<string>, ys: seq<string>): (r: seq<(string, string)>)
    ensures |r| == if |xs| <= |ys| then |xs| else |ys|
    ensures forall i :: 0 <= i < |r| ==> r[i] == (xs[i], ys[i])
  {
    seq(if |xs| <= |ys| then |xs| else |ys|, i requires 0 <= i < |xs| && i < |ys| => (xs[i], ys[i]))
  }

  /** Every name is non-empty and made of legal characters. */
  predicate LegalNames(names: seq<string>) {
    forall i :: 0 <= i < |names| ==> names[i] != "" && forall k :: 0 <= k < |names[i]| ==> IsLegalChar(names[i][k])
  }

  /** Every case name in turn. */
  function NameChecks(rlPath: string, names: seq<string>): (r: Outcome)
    ensures r.Pass? <==> LegalNames(names)
  {
    CheckAll(names, n => CaseNameCheck(rlPath, n))
  }

  /** Every geometry file in turn. */
  function GeometryChecks(fs: FileSystem, rlPath: string, idfs: seq<string>): (r: Outcome)
    ensures r.Pass? <==> forall i :: 0 <= i < |idfs| ==> IsFile(fs, idfs[i])
  {
    CheckAll(idfs, idf => GeometryCheck(fs, rlPath, idf))
  }

  /** Every pair of weather files in turn. */
  function WeatherChecks(fs: FileSystem, weatherDir: string, pairs: seq<(string, string)>): (r: Outcome)
    ensures r.Pass? <==> forall i :: 0 <= i < |pairs| ==> IsFile(fs, Join(weatherDir, pairs[i].0)) && IsFile(fs, Join(weatherDir, pairs[i].1))
  {
    CheckAll(pairs, (p: (string, string)) => WeatherCheck(fs, weatherDir, p.0, p.1))
  }

  /** The columns the case checks read. */
  const CaseColumns: seq<string> := ["CASE_NAME", "GEOMETRY_IDF", "EPW", "DDY"]

  /** The checks before the construction database is read, each column looked up just
      before its loop: every case name, then every geometry file, then the EPW and DDY
      columns zipped and every pair of weather files. */
  function CaseChecks(fs: FileSystem, rlPath: string, weatherDir: string, rl: Table): (r: Outcome)
    ensures r.Pass? <==> CaseColumnsValid(fs, weatherDir, rl)
    ensures Column(rl, "CASE_NAME").None? ==> r == Fail(KeyMissing("CASE_NAME"))
    ensures Column(rl, "CASE_NAME").Some? && !LegalNames(Column(rl, "CASE_NAME").value) ==>
              r == NameChecks(rlPath, Column(rl, "CASE_NAME").value)
    ensures Column(rl, "CASE_NAME").Some? && LegalNames(Column(rl, "CASE_NAME").value) && Column(rl, "GEOMETRY_IDF").None? ==>
              r == Fail(KeyMissing("GEOMETRY_IDF"))
  {
    CaseColumnsPresentMeaning(fs, weatherDir, rl);
    match Column(rl, "CASE_NAME")
    case None => Fail(KeyMissing("CASE_NAME"))
    case Some(names) =>
      AndThen(NameChecks(rlPath, names),
        match Column(rl, "GEOMETRY_IDF")
        case None => Fail(KeyMissing("GEOMETRY_IDF"))
        case Some(idfs) =>
          AndThen(GeometryChecks(fs, rlPath, idfs),
            match (Column(rl, "EPW"), Column(rl, "DDY"))
            case (None, _) => Fail(KeyMissing("EPW"))
            case (_, None) => Fail(KeyMissing("DDY"))
            case (Some(epws), Some(ddys)) => WeatherChecks(fs, weatherDir, Zip(epws, ddys))))
  }

  /** A bad case name is reported before a later column is looked up: a run list with
      one empty case name and no GEOMETRY_IDF column fails the name's assert. */
  lemma NameFaultBeforeGeometryColumn(fs: FileSystem, rlPath: string, weatherDir: string)
    ensures CaseChecks(fs, rlPath, weatherDir, Csv(["CASE_NAME"], [[""]])) == Fail(AssertionFailed(""))
  {
    var rl: Table := Csv(["CASE_NAME"], [[""]]);
    assert ColumnIndex(rl.columns, "CASE_NAME") == Some(0);
    var names := Column(rl, "CASE_NAME").value;
    assert |names| == 1 && names[0] == "";
    assert names == [""];
    assert "GEOMETRY_IDF" !in rl.columns;
  }

  /** With all four columns present, the case checks demand what `CaseColumnsValid`
      states row by row. */
  lemma CaseColumnsPresentMeaning(fs: FileSystem, weatherDir: string, rl: Table)
    ensures (forall c :: c in CaseColumns ==> c in rl.columns) ==>
            (CaseColumnsValid(fs, weatherDir, rl) <==>
             && LegalNames(Column(rl, "CASE_NAME").value)
             && (forall i :: 0 <= i < |Column(rl, "GEOMETRY_IDF").value| ==> IsFile(fs, Column(rl, "GEOMETRY_IDF").value[i]))
             && WeatherChecks(fs, weatherDir, Zip(Column(rl, "EPW").value, Column(rl, "DDY").value)).Pass?)
    ensures (exists c :: c in CaseColumns && c !in rl.columns) ==> !CaseColumnsValid(fs, weatherDir, rl)
  {
    if forall c :: c in CaseColumns ==> c in rl.columns {
      assert "CASE_NAME" in rl.columns && "GEOMETRY_IDF" in rl.columns && "EPW" in rl.columns && "DDY" in rl.columns;
      CaseColumnsMeaning(fs, weatherDir, rl, Column(rl, "CASE_NAME").value, Column(rl, "GEOMETRY_IDF").value,
                         Column(rl, "EPW").value, Column(rl, "DDY").value);
    }
  }

  /** Column by column, the checks demand what `CaseColumnsValid` states row by row. */
  lemma CaseColumnsMeaning(fs: FileSystem, weatherDir: string, rl: Table, names: seq<string>, idfs: seq<string>, epws: seq<string>, ddys: seq<string>)
    requires Column(rl, "CASE_NAME") == Some(names) && Column(rl, "GEOMETRY_IDF") == Some(idfs)
    requires Column(rl, "EPW") == Some(epws) && Column(rl, "DDY") == Some(ddys)
    ensures CaseColumnsValid(fs, weatherDir, rl) <==>
            && LegalNames(names)
            && (forall i :: 0 <= i < |idfs| ==> IsFile(fs, idfs[i]))
            && (forall i :: 0 <= i < |Zip(epws, ddys)| ==> IsFile(fs, Join(weatherDir, Zip(epws, ddys)[i].0)) &&
                                                           IsFile(fs, Join(weatherDir, Zip(epws, ddys)[i].1)))
  {
    var pairs := Zip(epws, ddys);
    assert |names| == |idfs| == |pairs| == |rl.rows|;
    assert forall c :: c in CaseColumns ==> c in rl.columns;
    forall i | 0 <= i < |rl.rows|
      ensures CaseRowValid(fs, weatherDir, rl.columns, rl.rows[i]) <==>
              names[i] != "" && (forall k :: 0 <= k < |names[i]| ==> IsLegalChar(names[i][k])) &&
              IsFile(fs, idfs[i]) && IsFile(fs, Join(weatherDir, pairs[i].0)) && IsFile(fs, Join(weatherDir, pairs[i].1))
    {
      CaseRowMeaning(fs, weatherDir, rl, names, idfs, epws, ddys, i);
    }
  }

  lemma CaseRowMeaning(fs: FileSystem, weatherDir: string, rl: Table, names: seq<string>, idfs: seq<string>, epws: seq<string>, ddys: seq<string>, i: nat)
    requires Column(rl, "CASE_NAME") == Some(names) && Column(rl, "GEOMETRY_IDF") == Some(idfs)
    requires Column(rl, "EPW") == Some(epws) && Column(rl, "DDY") == Some(ddys)
    requires i < |rl.rows|
    ensures CaseRowValid(fs, weatherDir, rl.columns, rl.rows[i]) <==>
            names[i] != "" && (forall k :: 0 <= k < |names[i]| ==> IsLegalChar(names[i][k])) &&
            IsFile(fs, idfs[i]) && IsFile(fs, Join(weatherDir, epws[i])) && IsFile(fs, Join(weatherDir, ddys[i]))
  {
    assert Some(names[i]) == CellAt(rl.columns, rl.rows[i], "CASE_NAME");
    assert Some(idfs[i]) == CellAt(rl.columns, rl.rows[i], "GEOMETRY_IDF");
    assert Some(epws[i]) == CellAt(rl.columns, rl.rows[i], "EPW");
    assert Some(ddys[i]) == CellAt(rl.columns, rl.rows[i], "DDY");
  }

  /** What `CaseChecks` demands, stated over the rows. */
  predicate CaseColumnsValid(fs: FileSystem, weatherDir: string, rl: Table) {
    && (forall c :: c in CaseColumns ==> c in rl.columns)
    && forall i :: 0 <= i < |rl.rows| ==> CaseRowValid(fs, weatherDir, rl.columns, rl.rows[i])
  }

  /** A row's case name is legal and its geometry and weather files exist. */
  predicate CaseRowValid(fs: FileSystem, weatherDir: string, columns: seq<string>, row: seq<string>) {
    match (CellAt(columns, row, "CASE_NAME"), CellAt(columns, row, "GEOMETRY_IDF"),
           CellAt(columns, row, "EPW"), CellAt(columns, row, "DDY"))
    case (Some(name), Some(idf), Some(epw), Some(ddy)) =>
      && name != ""
      && (forall k :: 0 <= k < |name| ==> IsLegalChar(name[k]))
      && IsFile(fs, idf)
      && IsFile(fs, Join(weatherDir, epw))
      && IsFile(fs, Join(weatherDir, ddy))
    case _ => false
  }

  /** `[x.strip() for x in xs]`. */
  function Stripped(xs: seq<string>): (r: seq<string>)
    ensures |r| == |xs| && forall i :: 0 <= i < |xs| ==> r[i] == Strip(xs[i])
  {
    seq(|xs|, i requires 0 <= i < |xs| => Strip(xs[i]))
  }

  /** One membership assert per item, in order: each item must be in `allowed`, and
      the first that is not is reported as `what` followed by the quoted item. */
  function ItemsCheck(items: seq<string>, allowed: set<string>, what: string, rlPath: string, location: string): (r: Outcome)
    ensures r.Pass? <==> forall x :: x in items ==> x in allowed
    ensures r.Fail? ==> exists k :: 0 <= k < |items| && items[k] !in allowed &&
                          (forall j :: 0 <= j < k ==> items[j] in allowed) &&
                          r == Fail(MembershipFault(rlPath, what + Quoted(items[k]), location))
  {
    CheckAll(items, x => ItemCheck(x, allowed, what, rlPath, location))
  }

  function ItemCheck(x: string, allowed: set<string>, what: string, rlPath: string, location: string): Outcome {
    Need(x in allowed, MembershipFault(rlPath, what + Quoted(x), location))
  }

  /** The envelope cells of a row: its EXT_ cells followed by its INT_ cells. */
  function EnvelopeCells(columns: seq<string>, row: seq<string>): seq<string> {
    FilterLike(columns, row, "EXT_") + FilterLike(columns, row, "INT_")
  }

  /** The envelope items of a row: its envelope cells, stripped, blanks dropped. */
  function EnvelopeItems(columns: seq<string>, row: seq<string>): seq<string> {
    NonBlank(EnvelopeCells(columns, row))
  }

  /** `[i.strip() for i in cells if i.strip() != ""]`, then one membership assert per
      item: the list is built first, so a NaN cell raises AttributeError before any
      item is looked up. */
  function StrippedItemsCheck(cells: seq<string>, allowed: set<string>, what: string, rlPath: string, location: string): (r: Outcome)
    ensures r.Pass? <==> Nan !in cells && forall x :: x in NonBlank(cells) ==> x in allowed
    ensures Nan in cells ==> r == Fail(NoAttribute("strip"))
  {
    if Nan in cells then Fail(NoAttribute("strip"))
    else ItemsCheck(NonBlank(cells), allowed, what, rlPath, location)
  }

  /** Whether one run-list row names only known items. */
  predicate RowValid(columns: seq<string>, row: seq<string>, constructions: set<string>) {
    match (CellAt(columns, row, "APPLIANCE_LIST"), CellAt(columns, row, "WATER_HEATER_FUEL"),
           CellAt(columns, row, "MECH_SYSTEM_TYPE"))
    case (Some(appList), Some(fuel), Some(mech)) =>
      && AppliancesKnown(appList, constructions)
      && fuel != Nan && "DHW_" + Strip(fuel) in constructions
      && mech != Nan && Strip(mech) in constructions
      && EnvelopeKnown(columns, row, constructions)
    case _ => false
  }

  /** The appliance list is not NaN, and every comma-separated appliance, stripped, is
      a known construction. */
  predicate AppliancesKnown(appList: string, constructions: set<string>) {
    appList != Nan && forall app :: app in Stripped(Split(appList, ",")) ==> app in constructions
  }

  /** No envelope or foundation cell is NaN, every envelope item and foundation
      insulation is a known construction, and every foundation interface is one of the
      fixed interface kinds. */
  predicate EnvelopeKnown(columns: seq<string>, row: seq<string>, constructions: set<string>) {
    && Nan !in EnvelopeCells(columns, row)
    && (forall item :: item in EnvelopeItems(columns, row) ==> item in constructions)
    && Nan !in FilterLike(columns, row, "FOUNDATION_INTERFACE")
    && (forall f :: f in NonBlank(FilterLike(columns, row, "FOUNDATION_INTERFACE")) ==> f in FoundationInterfaces)
    && Nan !in FilterLike(columns, row, "FOUNDATION_INSUINSULATION")
    && (forall f :: f in NonBlank(FilterLike(columns, row, "FOUNDATION_INSUINSULATION")) ==> f in constructions)
  }

  /** The appliance loop: `app_list.split(",")` raises AttributeError on a NaN cell. */
  function ApplianceCheck(rlPath: string, location: string, appList: string, constructions: set<string>): (r: Outcome)
    ensures r.Pass? <==> AppliancesKnown(appList, constructions)
    ensures appList == Nan ==> r == Fail(NoAttribute("split"))
  {
    if appList == Nan then Fail(NoAttribute("split"))
    else ItemsCheck(Stripped(Split(appList, ",")), constructions, "Appliance ", rlPath, location)
  }

  /** The envelope and foundation checks of one row, after its appliance, fuel and
      mechanical-system checks. */
  function EnvelopeCheck(rlPath: string, location: string, columns: seq<string>, row: seq<string>, constructions: set<string>): (r: Outcome)
    ensures r.Pass? <==> EnvelopeKnown(columns, row, constructions)
  {
    AndThen(StrippedItemsCheck(EnvelopeCells(columns, row), constructions, "Envelope item ", rlPath, location),
      AndThen(StrippedItemsCheck(FilterLike(columns, row, "FOUNDATION_INTERFACE"), FoundationInterfaces,
                                 "Foundation interface ", rlPath, location),
              StrippedItemsCheck(FilterLike(columns, row, "FOUNDATION_INSUINSULATION"), constructions,
                                 "Foundation insulation ", rlPath, location)))
  }

  /** An empty foundation cell is NaN, and stripping it raises: a row whose envelope
      items are all known and which has an empty FOUNDATION_INTERFACE cell fails with
      AttributeError rather than skipping the cell as blank. */
  lemma NanFoundationRaises(rlPath: string, location: string, columns: seq<string>, row: seq<string>, constructions: set<string>)
    requires Nan !in EnvelopeCells(columns, row) && forall x :: x in EnvelopeItems(columns, row) ==> x in constructions
    requires Nan in FilterLike(columns, row, "FOUNDATION_INTERFACE")
    ensures EnvelopeCheck(rlPath, location, columns, row, constructions) == Fail(NoAttribute("strip"))
  {
  }

  /** The checks that follow a row's appliance list: its fuel, its mechanical
      system, then its envelope. */
  function FuelOnwardsCheck(rlPath: string, location: string, columns: seq<string>, row: seq<string>, constructions: set<string>): (r: Outcome)
    ensures r.Pass? <==>
      match (CellAt(columns, row, "WATER_HEATER_FUEL"), CellAt(columns, row, "MECH_SYSTEM_TYPE"))
      case (Some(fuel), Some(mech)) =>
        fuel != Nan && "DHW_" + Strip(fuel) in constructions && mech != Nan && Strip(mech) in constructions &&
        EnvelopeKnown(columns, row, constructions)
      case _ => false
  {
    match CellAt(columns, row, "WATER_HEATER_FUEL")
    case None => Fail(KeyMissing("WATER_HEATER_FUEL"))
    case Some(fuel) =>
      if fuel == Nan then Fail(NoAttribute("strip")) else
      var prefixed := "DHW_" + Strip(fuel);
      if prefixed !in constructions then Fail(MembershipFault(rlPath, "Fuel type " + Quoted(prefixed), location))
      else match CellAt(columns, row, "MECH_SYSTEM_TYPE")
      case None => Fail(KeyMissing("MECH_SYSTEM_TYPE"))
      case Some(mech) =>
        if mech == Nan then Fail(NoAttribute("strip"))
        else if Strip(mech) !in constructions then Fail(MembershipFault(rlPath, "Mechanical system " + Quoted(Strip(mech)), location))
        else EnvelopeCheck(rlPath, location, columns, row, constructions)
  }

  /** The per-row checks of `validate_runlist_inputs`, in source order. */
  function RowCheck(rlPath: string, location: string, columns: seq<string>, row: seq<string>, constructions: set<string>): (r: Outcome)
    ensures r.Pass? <==> RowValid(columns, row, constructions)
  {
    match CellAt(columns, row, "APPLIANCE_LIST")
    case None => Fail(KeyMissing("APPLIANCE_LIST"))
    case Some(appList) =>
      AndThen(ApplianceCheck(rlPath, location, appList, constructions),
              FuelOnwardsCheck(rlPath, location, columns, row, constructions))
  }

  /** Every row's checks, row by row. */
  function RowsCheck(rlPath: string, location: string, rl: Table, constructions: set<string>): (r: Outcome)
    ensures r.Pass? <==> forall i :: 0 <= i < |rl.rows| ==> RowCheck(rlPath, location, rl.columns, rl.rows[i], constructions).Pass?
  {
    CheckAll(rl.rows, row => RowCheck(rlPath, location, rl.columns, row, constructions))
  }

  /** The rows pass exactly when every row names only known items. */
  lemma RowsCheckMeaning(rlPath: string, location: string, rl: Table, constructions: set<string>)
    ensures RowsCheck(rlPath, location, rl, constructions).Pass? <==>
            forall i :: 0 <= i < |rl.rows| ==> RowValid(rl.columns, rl.rows[i], constructions)
  {
    forall i | 0 <= i < |rl.rows|
      ensures RowCheck(rlPath, location, rl.columns, rl.rows[i], constructions).Pass? <==> RowValid(rl.columns, rl.rows[i], constructions)
    {
    }
  }

  /** The database tables `validate_runlist_inputs` reads first, in that order. */
  function PreloadedPaths(rlPath: string, dbPath: string): seq<string> {
    [rlPath,
     Join(dbPath, CarbonCorrectionDbFileName),
     Join(dbPath, NpCarbonCorrectionDbFileName),
     Join(dbPath, CountryEmissionsDbFileName),
     Join(dbPath, HourlyEmissionsFileName),
     Join(dbPath, MaterialsDbFileName),
     Join(dbPath, WindowDbFileName)]
  }

  /** Reading each table in turn; the first that pandas cannot read raises. */
  function LoadCheck(paths: seq<string>, tables: map<string, Table>): (r: Outcome)
    ensures r.Pass? <==> forall p :: p in paths ==> p in tables
    ensures r.Fail? ==> exists k :: 0 <= k < |paths| && r == Fail(Unreadable(paths[k])) && paths[k] !in tables &&
                                    forall j :: 0 <= j < k ==> paths[j] in tables
  {
    CheckAll(paths, p => Need(p in tables, Unreadable(p)))
  }

  /** The construction list's names, as a set. */
  function Names(t: Table): (r: Option<set<string>>)
    ensures r.Some? <==> "NAME" in t.columns
    ensures r.Some? ==> forall n :: n in r.value <==> n in Column(t, "NAME").value
  {
    match Column(t, "NAME")
    case None => None
    case Some(names) => Some(set n | n in names)
  }

  /** Whether the whole run list passes `validate_runlist_inputs`. */
  predicate RunlistInputsValid(fs: FileSystem, rlPath: string, dbPath: string, tables: map<string, Table>) {
    && (forall p :: p in PreloadedPaths(rlPath, dbPath) ==> p in tables)
    && rlPath in tables
    && CaseColumnsValid(fs, Join(dbPath, WeatherDataDir), tables[rlPath])
    && ConstructionsValid(tables[rlPath], Join(dbPath, ConstructionDbFileName), tables)
  }

  /** The construction list at `cpath` can be read and names every item of every row. */
  predicate ConstructionsValid(rl: Table, cpath: string, tables: map<string, Table>) {
    && cpath in tables
    && Names(tables[cpath]).Some?
    && forall i :: 0 <= i < |rl.rows| ==> RowValid(rl.columns, rl.rows[i], Names(tables[cpath]).value)
  }

  /** Reading the construction list, then checking every row against its names. */
  function ConstructionsCheck(rlPath: string, rl: Table, cpath: string, tables: map<string, Table>): (r: Outcome)
    ensures r.Pass? <==> ConstructionsValid(rl, cpath, tables)
  {
    if cpath !in tables then Fail(Unreadable(cpath))
    else match Names(tables[cpath])
    case None => Fail(KeyMissing("NAME"))
    case Some(constructions) =>
      var location := "construction database " + Quoted(cpath);
      RowsCheckMeaning(rlPath, location, rl, constructions);
      RowsCheck(rlPath, location, rl, constructions)
  }

  /** `validate_runlist_inputs`, with `tables` giving every path pandas can read and
      the construction list's names taken as a set. */
  function ValidateRunlistInputs(fs: FileSystem, rlPath: string, dbPath: string, tables: map<string, Table>): (r: Outcome)
    ensures r.Pass? <==> RunlistInputsValid(fs, rlPath, dbPath, tables)
  {
    var loaded := LoadCheck(PreloadedPaths(rlPath, dbPath), tables);
    if loaded.Fail? then loaded
    else
      assert rlPath in PreloadedPaths(rlPath, dbPath);
      AndThen(CaseChecks(fs, rlPath, Join(dbPath, WeatherDataDir), tables[rlPath]),
              ConstructionsCheck(rlPath, tables[rlPath], Join(dbPath, ConstructionDbFileName), tables))
  }

  /** `validate_runlist_content`: the run list exists, has the manifest's columns, and
      names only known items. */
  function ValidateRunlistContent(content: map<string, seq<string>>, fs: FileSystem, rlPath: string, dbPath: string, tables: map<string, Table>): (r: Outcome)
    ensures r.Pass? <==> IsFile(fs, rlPath) && ValidateRunlistStructure(content, rlPath, tables).Pass? &&
                         RunlistInputsValid(fs, rlPath, dbPath, tables)
  {
    AndThen(ValidateRunlistExists(fs, rlPath),
      AndThen(ValidateRunlistStructure(content, rlPath, tables), ValidateRunlistInputs(fs, rlPath, dbPath, tables)))
  }
}

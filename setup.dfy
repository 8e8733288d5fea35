/** The checks the front end makes before a batch starts (`validate_input`) and the
    chunking of window names (`divide_chunks`), both in REVIVE2024/simulate.py. */
module Setup {
  import opened Common
  import opened Paths
  import opened Tables

  // ---------------------------------------------------------------------------
  // validate_input

  /** A form field and the phrase naming it in "Please specify ...". */
  datatype Field = Field(value: string, what: string)

  /** A path that must exist, with the phrase naming it in "... does not exist.". */
  datatype Location = FileAt(path: string, what: string) | DirAt(path: string, what: string)

  function FieldCheck(f: Field): Outcome {
    Need(f.value != "", AssertionFailed(f.what))
  }

  predicate Exists(fs: FileSystem, l: Location) {
    match l
    case FileAt(p, _) => IsFile(fs, p)
    case DirAt(p, _) => IsDir(fs, p)
  }

  function LocationCheck(fs: FileSystem, l: Location): Outcome {
    Need(Exists(fs, l), AssertionFailed(l.what))
  }

  function Fields(batchName: string, iddFile: string, studyFolder: string, runList: string, dbDir: string): seq<Field> {
    [Field(batchName, "a batch name"),
     Field(iddFile, "the location of the Energy+ IDD File"),
     Field(studyFolder, "a study/output folder"),
     Field(runList, "a run list file"),
     Field(dbDir, "the location of the database folder")]
  }

  function InputPaths(iddFile: string, studyFolder: string, runList: string, dbDir: string): seq<Location> {
    [FileAt(iddFile, "Energy+ IDD file path (" + iddFile + ")"),
     FileAt(runList, "Run list file path (" + runList + ")"),
     DirAt(studyFolder, "Study/output folder path (" + studyFolder + ")"),
     DirAt(dbDir, "Database folder path (" + dbDir + ")")]
  }

  const EmissionsFile: string := "Hourly Emission Rates.csv"
  const WeatherFolder: string := "Weather Data"
  const ConstructionFile: string := "Construction Database.csv"

  function DatabaseItems(dbDir: string): seq<Location> {
    [FileAt(Join(dbDir, EmissionsFile), "file \"" + EmissionsFile + "\""),
     DirAt(Join(dbDir, WeatherFolder), "folder \"" + WeatherFolder + "\""),
     FileAt(Join(dbDir, ConstructionFile), "file \"" + ConstructionFile + "\"")]
  }

  function ColumnCheck(col: string, runListTable: Option<Table>, runList: string): Outcome {
    match runListTable
    case None => Fail(Unreadable(runList))
    case Some(t) => Need(col in t.columns, AssertionFailed(col))
  }

  /** The run-list column stage. `requiredColumns` is the content of
      "required_columns.csv" as rows of cells, `None` when that file is not found; the
      run list is read once per required column, so an unreadable run list raises only
      when there is at least one. */
  function RequiredColumnsMessage(requiredColumns: Option<seq<seq<string>>>, runList: string, runListTable: Option<Table>): (r: Result<string>)
    ensures requiredColumns.None? ==> r == Ok("Please run app from project directory.")
    ensures requiredColumns.Some? && |requiredColumns.value| == 0 ==> r == Err(IndexOutOfRange)
    ensures requiredColumns.Some? && |requiredColumns.value| > 0 ==>
      var cols := requiredColumns.value[0];
      && (r == Ok("") <==> |cols| == 0 || (runListTable.Some? && forall c :: c in cols ==> c in runListTable.value.columns))
      && (r.Err? <==> |cols| > 0 && runListTable.None?)
      && (r.Ok? && r.value != "" ==>
            (runListTable.Some? &&
             exists k :: 0 <= k < |cols| && cols[k] !in runListTable.value.columns &&
               (forall j :: 0 <= j < k ==> cols[j] in runListTable.value.columns) &&
               r.value == cols[k] + " column missing, run list may be out of date."))
  {
    match requiredColumns
    case None => Ok("Please run app from project directory.")
    case Some(rows) =>
      if |rows| == 0 then Err(IndexOutOfRange)
      else match CheckAll(rows[0], c => ColumnCheck(c, runListTable, runList))
      case Pass => Ok("")
      case Fail(AssertionFailed(col)) => Ok(col + " column missing, run list may be out of date.")
      case Fail(f) => Err(f)
  }

  /** The empty-field stage: passes exactly when every field is filled in. */
  function FieldChecks(batchName: string, iddFile: string, studyFolder: string, runList: string, dbDir: string): (r: Outcome)
    ensures r.Pass? <==> batchName != "" && iddFile != "" && studyFolder != "" && runList != "" && dbDir != ""
  {
    var fields := Fields(batchName, iddFile, studyFolder, runList, dbDir);
    assert fields[0].value == batchName && fields[1].value == iddFile && fields[2].value == studyFolder;
    assert fields[3].value == runList && fields[4].value == dbDir;
    CheckAll(fields, FieldCheck)
  }

  /** A stage of existence checks: passes exactly when every location exists. */
  function LocationChecks(fs: FileSystem, ls: seq<Location>): (r: Outcome)
    ensures r.Pass? <==> forall l :: l in ls ==> Exists(fs, l)
  {
    CheckAll(ls, l => LocationCheck(fs, l))
  }

  /** A stage of existence checks fails on its first missing location. */
  lemma FirstMissing(fs: FileSystem, ls: seq<Location>, k: nat)
    requires k < |ls| && !Exists(fs, ls[k]) && forall j :: 0 <= j < k ==> Exists(fs, ls[j])
    ensures LocationChecks(fs, ls) == Fail(AssertionFailed(ls[k].what))
  {
    CheckAllFirstFailure(ls, l => LocationCheck(fs, l), k);
  }

  /** Whether every check of `validate_input` passes. */
  predicate InputValid(batchName: string, iddFile: string, studyFolder: string, runList: string, dbDir: string,
                       fs: FileSystem, requiredColumns: Option<seq<seq<string>>>, runListTable: Option<Table>) {
    && batchName != "" && iddFile != "" && studyFolder != "" && runList != "" && dbDir != ""
    && (forall l :: l in InputPaths(iddFile, studyFolder, runList, dbDir) ==> Exists(fs, l))
    && (forall l :: l in DatabaseItems(dbDir) ==> Exists(fs, l))
    && RequiredColumnsMessage(requiredColumns, runList, runListTable) == Ok("")
  }

  /** The message of a failed assert, as `str(e)` gives it. */
  function Message(o: Outcome): string {
    match o
    case Fail(AssertionFailed(m)) => m
    case _ => ""
  }

  /** `validate_input`: "" when every check passes, otherwise the message of the first
      check that fails, stage by stage (empty fields, paths, database items, run-list
      columns). `Err` is an exception the function lets escape. */
  function ValidateInput(batchName: string, iddFile: string, studyFolder: string, runList: string, dbDir: string,
                         fs: FileSystem, requiredColumns: Option<seq<seq<string>>>, runListTable: Option<Table>): (r: Result<string>)
    ensures r == Ok("") <==> InputValid(batchName, iddFile, studyFolder, runList, dbDir, fs, requiredColumns, runListTable)
  {
    var fields := FieldChecks(batchName, iddFile, studyFolder, runList, dbDir);
    var paths := LocationChecks(fs, InputPaths(iddFile, studyFolder, runList, dbDir));
    var items := LocationChecks(fs, DatabaseItems(dbDir));
    if fields.Fail? then Ok("Please specify " + Message(fields) + ".")
    else if paths.Fail? then Ok(Message(paths) + " does not exist.")
    else if items.Fail? then Ok("Cannot find " + Message(items) + " in specified database directory.")
    else RequiredColumnsMessage(requiredColumns, runList, runListTable)
  }

  /** The first empty field is the one named. */
  lemma FirstEmptyField(batchName: string, iddFile: string, studyFolder: string, runList: string, dbDir: string,
                        fs: FileSystem, requiredColumns: Option<seq<seq<string>>>, runListTable: Option<Table>, k: nat)
    requires var fields := Fields(batchName, iddFile, studyFolder, runList, dbDir);
      k < |fields| && fields[k].value == "" && forall j :: 0 <= j < k ==> fields[j].value != ""
    ensures ValidateInput(batchName, iddFile, studyFolder, runList, dbDir, fs, requiredColumns, runListTable) ==
            Ok("Please specify " + Fields(batchName, iddFile, studyFolder, runList, dbDir)[k].what + ".")
  {
    CheckAllFirstFailure(Fields(batchName, iddFile, studyFolder, runList, dbDir), FieldCheck, k);
  }

  /** With every field filled in, the first missing path is the one named. */
  lemma FirstMissingPath(batchName: string, iddFile: string, studyFolder: string, runList: string, dbDir: string,
                         fs: FileSystem, requiredColumns: Option<seq<seq<string>>>, runListTable: Option<Table>, k: nat)
    requires batchName != "" && iddFile != "" && studyFolder != "" && runList != "" && dbDir != ""
    requires var paths := InputPaths(iddFile, studyFolder, runList, dbDir);
      k < |paths| && !Exists(fs, paths[k]) && forall j :: 0 <= j < k ==> Exists(fs, paths[j])
    ensures ValidateInput(batchName, iddFile, studyFolder, runList, dbDir, fs, requiredColumns, runListTable) ==
            Ok(InputPaths(iddFile, studyFolder, runList, dbDir)[k].what + " does not exist.")
  {
    FirstMissing(fs, InputPaths(iddFile, studyFolder, runList, dbDir), k);
  }

  /** With every field filled in and every path present, the first missing database
      item is the one named. */
  lemma FirstMissingDatabaseItem(batchName: string, iddFile: string, studyFolder: string, runList: string, dbDir: string,
                                 fs: FileSystem, requiredColumns: Option<seq<seq<string>>>, runListTable: Option<Table>, k: nat)
    requires batchName != "" && iddFile != "" && studyFolder != "" && runList != "" && dbDir != ""
    requires forall l :: l in InputPaths(iddFile, studyFolder, runList, dbDir) ==> Exists(fs, l)
    requires var items := DatabaseItems(dbDir);
      k < |items| && !Exists(fs, items[k]) && forall j :: 0 <= j < k ==> Exists(fs, items[j])
    ensures ValidateInput(batchName, iddFile, studyFolder, runList, dbDir, fs, requiredColumns, runListTable) ==
            Ok("Cannot find " + DatabaseItems(dbDir)[k].what + " in specified database directory.")
  {
    FirstMissing(fs, DatabaseItems(dbDir), k);
  }

  // ---------------------------------------------------------------------------
  // divide_chunks

  function Min(a: int, b: int): int {
    if a <= b then a else b
  }

  /** The slices `l[i:i + n]` for `i` in `range(start, len(l), n)`. */
  function ChunksFrom<T>(l: seq<T>, n: nat, start: nat): (r: seq<seq<T>>)
    requires n > 0
    ensures forall k :: 0 <= k < |r| ==> 0 < |r[k]| <= n
    ensures forall k :: 0 <= k < |r| - 1 ==> |r[k]| == n
    ensures start >= |l| <==> |r| == 0
    decreases |l| - start
  {
    if start >= |l| then []
    else
      var rest := ChunksFrom(l, n, start + n);
      [l[start..Min(start + n, |l|)]] + rest
  }

  /** `divide_chunks(l, n)` for a positive chunk size. */
  function Chunks<T>(l: seq<T>, n: nat): seq<seq<T>>
    requires n > 0
  {
    ChunksFrom(l, n, 0)
  }

  /** The concatenation of a sequence of sequences. */
  function Flatten<T>(xss: seq<seq<T>>): seq<T> {
    if |xss| == 0 then [] else xss[0] + Flatten(xss[1..])
  }

  lemma {:induction false} FlattenChunksFrom<T>(l: seq<T>, n: nat, start: nat)
    requires n > 0 && start <= |l|
    ensures Flatten(ChunksFrom(l, n, start)) == l[start..]
    decreases |l| - start
  {
    if start < |l| {
      var r := ChunksFrom(l, n, start);
      var next := Min(start + n, |l|);
      if start + n < |l| {
        FlattenChunksFrom(l, n, start + n);
      } else {
        assert ChunksFrom(l, n, start + n) == [];
      }
      assert r[1..] == ChunksFrom(l, n, start + n);
      assert l[start..] == l[start..next] + l[next..];
    }
  }

  /** Chunking loses nothing: the chunks, concatenated, are the original list. */
  lemma ChunksConcatenate<T>(l: seq<T>, n: nat)
    requires n > 0
    ensures Flatten(Chunks(l, n)) == l
  {
    FlattenChunksFrom(l, n, 0);
  }

  lemma {:induction false} ChunksFromCount<T>(l: seq<T>, n: nat, start: nat)
    requires n > 0 && start <= |l|
    ensures |ChunksFrom(l, n, start)| == (|l| - start + n - 1) / n
    decreases |l| - start
  {
    if start < |l| {
      if start + n < |l| {
        ChunksFromCount(l, n, start + n);
        DivStep(|l| - start - 1, n);
      } else {
        assert ChunksFrom(l, n, start + n) == [];
        DivUnique(|l| - start + n - 1, n, 1, |l| - start - 1);
      }
    }
  }

  /** There are ceil(|l| / n) chunks; each is non-empty and at most n long, and every
      chunk but the last is exactly n long. */
  lemma ChunkCount<T>(l: seq<T>, n: nat)
    requires n > 0
    ensures |Chunks(l, n)| == (|l| + n - 1) / n
  {
    ChunksFromCount(l, n, 0);
  }

  /** `list(divide_chunks(l, n))` for any integer `n`: `range` refuses a zero step, and a
      negative step gives no slices at all. */
  function DivideChunks<T>(l: seq<T>, n: int): (r: Result<seq<seq<T>>>)
    ensures n == 0 <==> r == Err(ZeroStep)
    ensures n < 0 ==> r == Ok([])
    ensures n > 0 ==> r.Ok? && Flatten(r.value) == l && |r.value| == (|l| + n - 1) / n &&
                      (forall k :: 0 <= k < |r.value| ==> 0 < |r.value[k]| <= n) &&
                      (forall k :: 0 <= k < |r.value| - 1 ==> |r.value[k]| == n)
  {
    if n == 0 then Err(ZeroStep)
    else if n < 0 then Ok([])
    else
      ChunksConcatenate(l, n);
      ChunkCount(l, n);
      Ok(Chunks(l, n))
  }
}

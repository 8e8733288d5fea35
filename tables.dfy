/** CSV files as pandas hands them to the program: a header of column names and rows
    of cells. Every cell is kept as its text; pandas reads an empty cell (or one
    holding "nan") as NaN, which the model writes as the text `str` gives it, "nan". */
module Tables {
  import opened Common
  import opened Text

  datatype Csv = Csv(columns: seq<string>, rows: seq<seq<string>>)

  /** A table read by pandas is rectangular: every row has one cell per column. */
  type Table = t: Csv | forall i :: 0 <= i < |t.rows| ==> |t.rows[i]| == |t.columns|
    witness Csv([], [])

  /** Position of the first column called `name`. */
  function ColumnIndex(columns: seq<string>, name: string): (r: Option<nat>)
    ensures r.Some? ==> r.value < |columns| && columns[r.value] == name &&
                        forall j :: 0 <= j < r.value ==> columns[j] != name
    ensures r.None? <==> name !in columns
  {
    if |columns| == 0 then None
    else if columns[0] == name then Some(0)
    else match ColumnIndex(columns[1..], name)
      case None => None
      case Some(k) => Some(k + 1)
  }

  /** `row[name]` on one row of a table with header `columns`; `None` where pandas
      raises KeyError. */
  function CellAt(columns: seq<string>, row: seq<string>, name: string): (r: Option<string>)
    ensures |row| == |columns| ==> (r.Some? <==> name in columns)
    ensures r.Some? ==> exists k :: 0 <= k < |columns| && k < |row| && columns[k] == name && r.value == row[k]
  {
    match ColumnIndex(columns, name)
    case None => None
    case Some(k) => if k < |row| then Some(row[k]) else None
  }

  /** `df[name]`, the whole column; `None` where pandas raises KeyError. */
  function Column(t: Table, name: string): (r: Option<seq<string>>)
    ensures r.None? <==> name !in t.columns
    ensures r.Some? ==> |r.value| == |t.rows| &&
                        forall i :: 0 <= i < |t.rows| ==> Some(r.value[i]) == CellAt(t.columns, t.rows[i], name)
  {
    match ColumnIndex(t.columns, name)
    case None => None
    case Some(k) => Some(seq(|t.rows|, i requires 0 <= i < |t.rows| => t.rows[i][k]))
  }

  /** `row.filter(like=sub)`: the cells whose column name contains `sub`, in column order. */
  function FilterLike(columns: seq<string>, row: seq<string>, sub: string): (r: seq<string>)
    ensures forall x :: x in r <==> exists k :: 0 <= k < |columns| && k < |row| && Contains(columns[k], sub) && row[k] == x
    ensures |r| <= |row|
  {
    if |columns| == 0 || |row| == 0 then []
    else
      var rest := FilterLike(columns[1..], row[1..], sub);
      assert forall k :: 1 <= k < |columns| && k < |row| ==> columns[1..][k - 1] == columns[k] && row[1..][k - 1] == row[k];
      if Contains(columns[0], sub) then [row[0]] + rest else rest
  }

  /** How pandas shows a NaN cell under `str`. */
  const Nan: string := "nan"

  /** Filtering keeps column order and multiplicity: the cells of a split header are
      filtered part by part, and a single column contributes its cell exactly when its
      name contains `sub`. */
  lemma {:induction false} FilterLikeAppend(c1: seq<string>, r1: seq<string>, c2: seq<string>, r2: seq<string>, sub: string)
    requires |c1| == |r1|
    ensures FilterLike(c1 + c2, r1 + r2, sub) == FilterLike(c1, r1, sub) + FilterLike(c2, r2, sub)
    ensures forall c, x :: FilterLike([c], [x], sub) == if Contains(c, sub) then [x] else []
    decreases |c1|
  {
    if |c1| == 0 {
      assert c1 + c2 == c2 && r1 + r2 == r2;
    } else {
      assert (c1 + c2)[1..] == c1[1..] + c2 && (r1 + r2)[1..] == r1[1..] + r2;
      FilterLikeAppend(c1[1..], r1[1..], c2, r2, sub);
    }
  }
}

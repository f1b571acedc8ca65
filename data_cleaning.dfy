/**
 * `DataProcessor.clean_data`: `dropna`, then `drop_duplicates`, then the
 * boolean filter `game_duration > 300`, on the frame the row builders produce.
 *
 * A frame is its set of columns and its rows in order. A cell is missing when
 * its row lacks the column (pandas fills in NaN) or holds JSON null (None).
 * Two rows are duplicates when they agree on every column, Python's equality
 * deciding (`True == 1`), with missing equal to missing. Hashing a list or dict
 * cell raises TypeError, and so does comparing a string, list or dict with 300.
 */
module DataCleaning {
  import opened PyJson
  import opened DataProcessing

  datatype Frame = Frame(columns: set<Column>, rows: seq<Row>)

  /** The columns `pd.DataFrame(rows)` creates: every key of every row. */
  function ColumnsOf(rows: seq<Row>): (cols: set<Column>)
    ensures forall i, c :: 0 <= i < |rows| && c in rows[i] ==> c in cols
    ensures forall c :: c in cols ==> exists i :: 0 <= i < |rows| && c in rows[i]
  {
    if rows == [] then {}
    else
      var init := rows[..|rows| - 1];
      assert forall i :: 0 <= i < |init| ==> init[i] == rows[i];
      ColumnsOf(init) + rows[|rows| - 1].Keys
  }

  /** `pd.DataFrame(processed_matches)`. */
  function ToFrame(rows: seq<Row>): Frame
  {
    Frame(ColumnsOf(rows), rows)
  }

  /** The value in a cell, JSON null standing for NaN where the row lacks the column. */
  function Cell(row: Row, c: Column): Json
  {
    if c in row then row[c] else JNull
  }

  predicate Complete(columns: set<Column>, row: Row)
  {
    forall c :: c in columns ==> !Cell(row, c).JNull?
  }

  /** `df[mask]`: the rows for which `keep` holds, in order. */
  function Where(rows: seq<Row>, keep: Row -> bool): (r: seq<Row>)
    ensures |r| <= |rows|
    ensures forall j :: 0 <= j < |r| ==> keep(r[j])
  {
    if rows == [] then []
    else if keep(rows[0]) then [rows[0]] + Where(rows[1..], keep)
    else Where(rows[1..], keep)
  }

  /** `df.dropna()`: the rows with no missing cell. */
  function DropNa(f: Frame): (r: Frame)
    ensures r.columns == f.columns && |r.rows| <= |f.rows|
    ensures forall j :: 0 <= j < |r.rows| ==> Complete(f.columns, r.rows[j])
  {
    Frame(f.columns, Where(f.rows, (row: Row) => Complete(f.columns, row)))
  }

  /** A cell value as duplicate detection compares it: `True == 1` and `False == 0`. */
  function Norm(v: Json): (n: Json)
    ensures v.JBool? ==> n == JInt(if v.b then 1 else 0)
    ensures !v.JBool? ==> n == v
  {
    if v.JBool? then JInt(if v.b then 1 else 0) else v
  }

  /** What two rows must share to be duplicates. */
  type Key = map<Column, Json>

  function KeyOf(columns: set<Column>, row: Row): (k: Key)
    ensures k.Keys == columns
  {
    map c | c in columns :: Norm(Cell(row, c))
  }

  predicate Unhashable(v: Json)
  {
    v.JList? || v.JObject?
  }

  /** Whether every cell can be hashed. */
  predicate Hashable(columns: set<Column>, rows: seq<Row>)
  {
    forall i, c :: 0 <= i < |rows| && c in columns ==> !Unhashable(Cell(rows[i], c))
  }

  /** The rows whose key has not been seen before them, `seen` holding the keys of earlier rows. */
  function Dedupe(columns: set<Column>, rows: seq<Row>, seen: set<Key>): (r: seq<Row>)
    ensures |r| <= |rows|
  {
    if rows == [] then []
    else
      var k := KeyOf(columns, rows[0]);
      if k in seen then Dedupe(columns, rows[1..], seen)
      else [rows[0]] + Dedupe(columns, rows[1..], seen + {k})
  }

  /** `df.drop_duplicates()`: an empty frame is returned as it is; otherwise every cell is hashed. */
  function DropDuplicates(f: Frame): (r: PyResult<Frame>)
    ensures !r.KeyError?
  {
    if f.rows == [] || f.columns == {} then Ok(f)
    else if !Hashable(f.columns, f.rows) then TypeError
    else Ok(Frame(f.columns, Dedupe(f.columns, f.rows, {})))
  }

  /** `x > 300` for a duration cell; a missing value compares false. */
  predicate LongerThanFiveMinutes(row: Row)
  {
    match Cell(row, GameDuration)
    case JInt(i) => i > 300
    case JBool(b) => (if b then 1 else 0) > 300
    case _ => false
  }

  /** The values `> 300` raises TypeError on. */
  predicate Uncomparable(v: Json)
  {
    v.JStr? || v.JList? || v.JObject?
  }

  /** `df[df['game_duration'] > 300]` when that column exists. */
  function FilterDuration(f: Frame): (r: PyResult<Frame>)
    ensures !r.KeyError?
  {
    if GameDuration !in f.columns then Ok(f)
    else if exists i :: 0 <= i < |f.rows| && Uncomparable(Cell(f.rows[i], GameDuration)) then TypeError
    else Ok(Frame(f.columns, Where(f.rows, LongerThanFiveMinutes)))
  }

  /** `clean_data(df)`. */
  function Clean(f: Frame): (r: PyResult<Frame>)
    ensures !r.KeyError?
  {
    var deduped := DropDuplicates(DropNa(f));
    if !deduped.Ok? then TypeError else FilterDuration(deduped.value)
  }
}

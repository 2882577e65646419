/** The NCAAA student-results table: its two fixed rows, the check an
    uploaded CSV must pass, the mapping of CSV rows to table rows, and the
    single-cell edit. */
module StudentResults {
  import opened Wrappers

  /** A parsed CSV row: header name to the text in that column. */
  type CsvRow = map<string, string>

  /** A table cell: a text value, the number `Number(...)` makes of a CSV
      field (kept symbolic: the model records which field it was read
      from), or `undefined`. */
  datatype Cell = Text(text: string) | NumberOf(source: Option<string>) | Undefined

  /** A table row: property name to cell. */
  type Row = map<string, Cell>

  const FIELD_HEADER := "Field"
  const STUDENTS_LABEL := "Number of Students"
  const PERCENTAGE_LABEL := "Percentage"
  const STUDENTS_ID := "students"
  const PERCENTAGE_ID := "percentage"

  const REQUIRED_HEADERS: seq<string> :=
    ["Field", "Ap", "A", "Bp", "B", "Cp", "C", "Dp", "D", "F", "DN", "IP", "IC", "Pass", "Fail", "W"]
  const REQUIRED_ROWS: seq<string> := [STUDENTS_LABEL, PERCENTAGE_LABEL]

  /** Each value column of the table with the CSV header it is read from. */
  const VALUE_COLUMNS: seq<(string, string)> := [
    ("aPlus", "Ap"), ("a", "A"), ("bPlus", "Bp"), ("b", "B"), ("cPlus", "Cp"), ("c", "C"),
    ("dPlus", "Dp"), ("d", "D"), ("f", "F"), ("denied", "DN"), ("inProgress", "IP"),
    ("incomplete", "IC"), ("pass", "Pass"), ("fail", "Fail"), ("withdrawn", "W")]

  const ROW_COUNT_MESSAGE := "CSV must contain exactly 2 rows."
  const COLUMN_COUNT_MESSAGE := "CSV contains extra or missing columns."
  const LOADED_MESSAGE := "CSV loaded successfully."

  predicate Distinct(s: seq<string>)
  {
    forall i, j :: 0 <= i < j < |s| ==> s[i] != s[j]
  }

  function Elements(s: seq<string>): set<string>
  {
    set i | 0 <= i < |s| :: s[i]
  }

  /** A sequence without repetitions has as many elements as entries. */
  lemma {:induction false} DistinctCardinality(s: seq<string>)
    requires Distinct(s)
    ensures |Elements(s)| == |s|
  {
    if s != [] {
      DistinctCardinality(s[1..]);
      assert Elements(s) == {s[0]} + Elements(s[1..]);
      assert s[0] !in Elements(s[1..]);
    }
  }

  /** The header names a CSV must have, as a set of 16. */
  lemma RequiredHeaderCount()
    ensures |Elements(REQUIRED_HEADERS)| == |REQUIRED_HEADERS| == 16
  {
    assert Distinct(REQUIRED_HEADERS);
    DistinctCardinality(REQUIRED_HEADERS);
  }

  /** The index of the first entry of `required` that is not present, or
      the length when every entry is. */
  function FirstMissingIndex(required: seq<string>, present: set<string>): (k: nat)
    ensures k <= |required|
    ensures forall j :: 0 <= j < k ==> required[j] in present
    ensures k < |required| ==> required[k] !in present
  {
    if required == [] || required[0] !in present then 0
    else 1 + FirstMissingIndex(required[1..], present)
  }

  /** The first entry of `required`, in order, that is not present. */
  function FirstMissing(required: seq<string>, present: set<string>): (m: Option<string>)
    ensures m.None? <==> Elements(required) <= present
  {
    var k := FirstMissingIndex(required, present);
    if k < |required| then Some(required[k]) else None
  }

  /** `rows.map(r => r.Field)`, as the set of values present. */
  function FieldValues(rows: seq<CsvRow>): set<string>
  {
    set i | 0 <= i < |rows| && FIELD_HEADER in rows[i] :: rows[i][FIELD_HEADER]
  }

  datatype Validation = Accepted | Rejected(message: string)

  /** `validateCsv`: the row count, then the column count of the first row,
      then each required column in order, then each required row label in
      order; the first failing check gives the message. */
  function ValidateCsv(rows: Option<seq<CsvRow>>): (v: Validation)
  {
    if rows.None? || |rows.value| != 2 then Rejected(ROW_COUNT_MESSAGE)
    else
      var headers := rows.value[0].Keys;
      if |headers| != |REQUIRED_HEADERS| then Rejected(COLUMN_COUNT_MESSAGE)
      else match FirstMissing(REQUIRED_HEADERS, headers)
        case Some(h) => Rejected("Missing column: " + h)
        case None =>
          match FirstMissing(REQUIRED_ROWS, FieldValues(rows.value))
          case Some(r) => Rejected("Missing required row: " + r)
          case None => Accepted
  }

  /** The two rows carry the two required labels, one each. */
  predicate LabelledOneEach(rows: seq<CsvRow>)
    requires |rows| == 2
  {
    && FIELD_HEADER in rows[0] && FIELD_HEADER in rows[1]
    && ((rows[0][FIELD_HEADER] == STUDENTS_LABEL && rows[1][FIELD_HEADER] == PERCENTAGE_LABEL)
     || (rows[0][FIELD_HEADER] == PERCENTAGE_LABEL && rows[1][FIELD_HEADER] == STUDENTS_LABEL))
  }

  /** A CSV is accepted exactly when it has two rows, the first row's
      columns are exactly the required headers, and the two rows are
      labelled "Number of Students" and "Percentage", one each. */
  lemma ValidateCsvAccepts(rows: Option<seq<CsvRow>>)
    ensures ValidateCsv(rows).Accepted? <==>
      && rows.Some? && |rows.value| == 2
      && rows.value[0].Keys == Elements(REQUIRED_HEADERS)
      && LabelledOneEach(rows.value)
  {
    RequiredHeaderCount();
    assert REQUIRED_ROWS[0] == STUDENTS_LABEL && REQUIRED_ROWS[1] == PERCENTAGE_LABEL;
    if rows.Some? && |rows.value| == 2 {
      var rs := rows.value;
      var keys := rs[0].Keys;
      var fields := FieldValues(rs);
      if ValidateCsv(rows).Accepted? {
        assert Elements(REQUIRED_HEADERS) <= keys && |keys| == |Elements(REQUIRED_HEADERS)|;
        SubsetOfSameSize(Elements(REQUIRED_HEADERS), keys);
        assert STUDENTS_LABEL in fields && PERCENTAGE_LABEL in fields;
      }
      if keys == Elements(REQUIRED_HEADERS) && LabelledOneEach(rs) {
        assert rs[0][FIELD_HEADER] in fields && rs[1][FIELD_HEADER] in fields;
        assert Elements(REQUIRED_ROWS) <= fields;
      }
    }
  }

  lemma {:induction false} SubsetSize(a: set<string>, b: set<string>)
    requires a <= b
    ensures |a| <= |b|
  {
    if a != {} {
      var y :| y in a;
      SubsetSize(a - {y}, b - {y});
    }
  }

  lemma SubsetOfSameSize(a: set<string>, b: set<string>)
    requires a <= b && |a| == |b|
    ensures a == b
  {
    if a != b {
      var x :| x in b && x !in a;
      SubsetSize(a, b - {x});
    }
  }

  /** A CSV without exactly two rows is rejected with the row-count message
      before anything else is looked at. */
  lemma RowCountCheckedFirst(rows: Option<seq<CsvRow>>)
    requires rows.None? || |rows.value| != 2
    ensures ValidateCsv(rows) == Rejected(ROW_COUNT_MESSAGE)
  {
  }

  /** A missing column is reported by the first required header, in the
      order the headers are listed, that the first row lacks. */
  lemma MissingColumnIsFirst(rows: seq<CsvRow>, h: string)
    requires |rows| == 2 && |rows[0].Keys| == 16
    requires ValidateCsv(Some(rows)) == Rejected("Missing column: " + h)
    ensures h !in rows[0].Keys
    ensures exists i :: (0 <= i < 16 && REQUIRED_HEADERS[i] == h
      && forall j :: 0 <= j < i ==> REQUIRED_HEADERS[j] in rows[0].Keys)
  {
    var m := FirstMissing(REQUIRED_HEADERS, rows[0].Keys);
    var k := FirstMissingIndex(REQUIRED_HEADERS, rows[0].Keys);
    var r := FirstMissing(REQUIRED_ROWS, FieldValues(rows));
    if m.None? && r.Some? {
      MessagesDiffer(h, r.value);
      assert false;
    }
    assert m.Some?;
    assert "Missing column: " + m.value == "Missing column: " + h;
    assert m.value == ("Missing column: " + m.value)[16..];
    assert REQUIRED_HEADERS[k] == h;
  }

  lemma MessagesDiffer(column: string, row: string)
    ensures "Missing column: " + column != "Missing required row: " + row
  {
    assert ("Missing column: " + column)[8] == 'c';
    assert ("Missing required row: " + row)[8] == 'r';
  }

  function Get(row: CsvRow, header: string): Option<string>
  {
    if header in row then Some(row[header]) else None
  }

  function FieldNames(cols: seq<(string, string)>): set<string>
  {
    set i | 0 <= i < |cols| :: cols[i].0
  }

  /** The value columns of a mapped row, each read from its own header. */
  function NumberColumns(row: CsvRow, cols: seq<(string, string)>): (m: Row)
    ensures m.Keys == FieldNames(cols)
  {
    if cols == [] then map[]
    else
      assert FieldNames(cols) == {cols[0].0} + FieldNames(cols[1..]);
      NumberColumns(row, cols[1..])[cols[0].0 := NumberOf(Get(row, cols[0].1))]
  }

  /** With distinct column names, each value column holds the number read
      from its own header. */
  lemma {:induction false} NumberColumnsAt(row: CsvRow, cols: seq<(string, string)>, i: nat)
    requires i < |cols|
    requires forall a, b :: 0 <= a < b < |cols| ==> cols[a].0 != cols[b].0
    ensures NumberColumns(row, cols)[cols[i].0] == NumberOf(Get(row, cols[i].1))
  {
    if i > 0 {
      NumberColumnsAt(row, cols[1..], i - 1);
      assert cols[i].0 != cols[0].0;
    }
  }

  /** Helper of `MapCsvRow`: the value column names are distinct and differ
      from `id` and `label`, so no column overwrites another. */
  lemma ValueColumnNames()
    ensures forall a, b :: 0 <= a < b < |VALUE_COLUMNS| ==> VALUE_COLUMNS[a].0 != VALUE_COLUMNS[b].0
    ensures "id" !in FieldNames(VALUE_COLUMNS) && "label" !in FieldNames(VALUE_COLUMNS)
  {
  }

  /** The fields of a table row. */
  const ROW_FIELDS: set<string> := {"id", "label"} + FieldNames(VALUE_COLUMNS)

  /** `mapCsvRow`: the id is "students" exactly when the row is labelled
      "Number of Students", the label is the row's `Field`, and each of the
      15 value columns is the number read from its own header. */
  function MapCsvRow(row: CsvRow): (r: Row)
    ensures r.Keys == ROW_FIELDS
    ensures r["id"] == Text(if Get(row, FIELD_HEADER) == Some(STUDENTS_LABEL) then STUDENTS_ID else PERCENTAGE_ID)
    ensures r["label"] == (if FIELD_HEADER in row then Text(row[FIELD_HEADER]) else Undefined)
    ensures forall i :: 0 <= i < |VALUE_COLUMNS| ==> r[VALUE_COLUMNS[i].0] == NumberOf(Get(row, VALUE_COLUMNS[i].1))
  {
    var values := NumberColumns(row, VALUE_COLUMNS);
    ValueColumnNames();
    forall i | 0 <= i < |VALUE_COLUMNS|
      ensures values[VALUE_COLUMNS[i].0] == NumberOf(Get(row, VALUE_COLUMNS[i].1))
    {
      NumberColumnsAt(row, VALUE_COLUMNS, i);
    }
    values["id" := Text(if Get(row, FIELD_HEADER) == Some(STUDENTS_LABEL) then STUDENTS_ID else PERCENTAGE_ID)]
          ["label" := if FIELD_HEADER in row then Text(row[FIELD_HEADER]) else Undefined]
  }

  /** `rows.map(mapCsvRow)`. */
  function MapRows(rows: seq<CsvRow>): (r: seq<Row>)
    ensures |r| == |rows|
    ensures forall i :: 0 <= i < |rows| ==> r[i] == MapCsvRow(rows[i])
  {
    seq(|rows|, i requires 0 <= i < |rows| => MapCsvRow(rows[i]))
  }

  /** A row of the initial table: every value column an empty string. */
  function BlankRow(id: string, caption: string): (r: Row)
    ensures r.Keys == ROW_FIELDS
    ensures r["id"] == Text(id) && r["label"] == Text(caption)
    ensures forall k :: k in FieldNames(VALUE_COLUMNS) ==> r[k] == Text("")
  {
    var values := map k | k in FieldNames(VALUE_COLUMNS) :: Text("");
    assert "id" !in values && "label" !in values;
    values["id" := Text(id)]["label" := Text(caption)]
  }

  /** `INITIAL_DATA`: the students row, then the percentage row, all values
      empty; an accepted upload yields rows with the same fields. */
  function InitialData(): (d: seq<Row>)
    ensures |d| == 2
    ensures forall i :: 0 <= i < 2 ==> d[i].Keys == ROW_FIELDS
    ensures d[0]["id"] == Text(STUDENTS_ID) && d[0]["label"] == Text(STUDENTS_LABEL)
    ensures d[1]["id"] == Text(PERCENTAGE_ID) && d[1]["label"] == Text(PERCENTAGE_LABEL)
    ensures forall i, k :: 0 <= i < 2 && k in FieldNames(VALUE_COLUMNS) ==> d[i][k] == Text("")
  {
    [BlankRow(STUDENTS_ID, STUDENTS_LABEL), BlankRow(PERCENTAGE_ID, PERCENTAGE_LABEL)]
  }

  /** The row's `id` is the given string. */
  predicate HasId(row: Row, rowId: string)
  {
    "id" in row && row["id"] == Text(rowId)
  }

  /** `updateCell`: rows whose id matches get the named column set to the
      value; every other row, every other column, the number of rows and
      their order stay as they were. */
  function UpdateCell(data: seq<Row>, rowId: string, columnId: string, value: Cell): (r: seq<Row>)
    ensures |r| == |data|
    ensures forall i :: 0 <= i < |data| && !HasId(data[i], rowId) ==> r[i] == data[i]
    ensures forall i :: 0 <= i < |data| && HasId(data[i], rowId) ==>
      && r[i].Keys == data[i].Keys + {columnId}
      && r[i][columnId] == value
      && forall k :: k in data[i] && k != columnId ==> r[i][k] == data[i][k]
  {
    seq(|data|, i requires 0 <= i < |data| => if HasId(data[i], rowId) then data[i][columnId := value] else data[i])
  }

  /** What Papa Parse hands to its callbacks: a read error, or the rows. */
  datatype ParseResult = ParseError(message: string) | Parsed(rows: seq<CsvRow>)

  /** `handleCsvUpload` once parsing is over: the table data afterwards and
      the message shown. The data is replaced by the mapped rows only when
      the CSV is accepted; otherwise it is unchanged. */
  function HandleCsvUpload(data: seq<Row>, parsed: ParseResult): (r: (seq<Row>, string))
    ensures parsed.Parsed? && ValidateCsv(Some(parsed.rows)).Accepted? ==>
      r == (MapRows(parsed.rows), LOADED_MESSAGE)
    ensures parsed.Parsed? && ValidateCsv(Some(parsed.rows)).Rejected? ==>
      r == (data, ValidateCsv(Some(parsed.rows)).message)
    ensures parsed.ParseError? ==> r == (data, parsed.message)
  {
    match parsed
    case ParseError(message) => (data, message)
    case Parsed(rows) =>
      match ValidateCsv(Some(rows))
      case Accepted => (MapRows(rows), LOADED_MESSAGE)
      case Rejected(message) => (data, message)
  }

  /** After an accepted upload the table has the students row and the
      percentage row, one each, with the same fields as the initial table. */
  lemma UploadKeepsTableShape(data: seq<Row>, rows: seq<CsvRow>)
    requires ValidateCsv(Some(rows)).Accepted?
    ensures var d := HandleCsvUpload(data, Parsed(rows)).0;
      && |d| == 2
      && (forall i :: 0 <= i < 2 ==> d[i].Keys == InitialData()[i].Keys)
      && {d[0]["id"], d[1]["id"]} == {Text(STUDENTS_ID), Text(PERCENTAGE_ID)}
  {
    ValidateCsvAccepts(Some(rows));
    var d := HandleCsvUpload(data, Parsed(rows)).0;
    assert d == MapRows(rows);
    if rows[0][FIELD_HEADER] == STUDENTS_LABEL {
      assert d[0]["id"] == Text(STUDENTS_ID) && d[1]["id"] == Text(PERCENTAGE_ID);
    } else {
      assert d[0]["id"] == Text(PERCENTAGE_ID) && d[1]["id"] == Text(STUDENTS_ID);
    }
  }
}

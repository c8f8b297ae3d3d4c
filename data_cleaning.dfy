/**
 * The training-data cleaning procedure (Amazon-Delivery-ML/data_cleaning.py,
 * `clean_data`): choose the reader by extension, strip the labels, find the
 * status column, keep the required columns in order, then drop duplicate
 * rows and rows with a missing value.
 */
module DataCleaning {
  import opened Wrappers
  import opened Text
  import Insights

  type Cell = Insights.Cell
  type Row = seq<Cell>

  datatype Format = Csv | Xlsx

  datatype CleanError = UnsupportedFormat | StatusNotFound | MissingColumns(columns: seq<string>)

  /** The items of a Python list repr, each in single quotes. */
  function QuotedItems(items: seq<string>): string {
    if items == [] then ""
    else if |items| == 1 then "'" + items[0] + "'"
    else "'" + items[0] + "', " + QuotedItems(items[1..])
  }

  /** The text of the `ValueError` each failure raises. */
  function Message(e: CleanError): string {
    match e
    case UnsupportedFormat => "Unsupported file format"
    case StatusNotFound => "delivery_status column not found!"
    case MissingColumns(columns) => "Missing columns: [" + QuotedItems(columns) + "]"
  }

  /** The reader `clean_data` picks from the path's extension. */
  function FormatFor(path: string): (r: Result<Format, CleanError>)
    ensures r == Success(Csv) <==> EndsWith(path, ".csv")
    ensures r == Success(Xlsx) <==> !EndsWith(path, ".csv") && EndsWith(path, ".xlsx")
    ensures r.Failure? <==> !EndsWith(path, ".csv") && !EndsWith(path, ".xlsx")
    ensures r.Failure? ==> r.error == UnsupportedFormat
  {
    if EndsWith(path, ".csv") then Success(Csv)
    else if EndsWith(path, ".xlsx") then Success(Xlsx)
    else Failure(UnsupportedFormat)
  }

  /** No path ends in both extensions, so the order of the two tests never matters. */
  lemma ExtensionsExclusive(path: string)
    ensures EndsWith(path, ".csv") ==> !EndsWith(path, ".xlsx")
  {
    if EndsWith(path, ".csv") && |path| >= 5 {
      assert path[|path| - 4..][3] == 'v';
      assert path[|path| - 5..][4] == 'v';
    }
  }

  const StatusColumn: string := "Delivery_Status"
  const LowerStatusColumn: string := "delivery_status"

  const RequiredCols: seq<string> := [
    "delivery_partner", "package_type", "vehicle_type", "delivery_mode", "region",
    "weather_condition", "distance_km", "package_weight_kg", "delivery_rating",
    "delivery_cost", "Delivery_Status"
  ]

  /** `df.columns.str.strip()`. */
  function StripNames(names: seq<string>): (r: seq<string>)
    ensures |r| == |names|
    ensures forall i :: 0 <= i < |names| ==> r[i] == Strip(names[i])
  {
    seq(|names|, i requires 0 <= i < |names| => Strip(names[i]))
  }

  /** `rename(columns={"delivery_status": "Delivery_Status"})`: every such label is renamed. */
  function RenamedStatus(names: seq<string>): (r: seq<string>)
    ensures |r| == |names|
    ensures LowerStatusColumn !in r
    ensures forall i :: 0 <= i < |names| ==> r[i] == if names[i] == LowerStatusColumn then StatusColumn else names[i]
  {
    seq(|names|, i requires 0 <= i < |names| => if names[i] == LowerStatusColumn then StatusColumn else names[i])
  }

  /** The status check of lines 22-25: rename the lower-case label, or fail when neither spelling is present. */
  function StatusLabels(names: seq<string>): (r: Result<seq<string>, CleanError>)
    ensures r.Failure? <==> LowerStatusColumn !in names && StatusColumn !in names
    ensures r.Failure? ==> r.error == StatusNotFound
    ensures r.Success? ==> StatusColumn in r.value && |r.value| == |names|
  {
    if LowerStatusColumn in names then Success(RenamedStatus(names))
    else if StatusColumn !in names then Failure(StatusNotFound)
    else Success(names)
  }

  /** Every row has one cell per column label. */
  predicate Rectangular(names: seq<string>, rows: seq<Row>) {
    forall i :: 0 <= i < |rows| ==> |rows[i]| == |names|
  }

  /** `df[cols]` on one row: the cell of the first column with each label. */
  function SelectRow(row: Row, names: seq<string>, cols: seq<string>): (r: Row)
    requires |row| == |names| && forall c :: c in cols ==> c in names
    ensures |r| == |cols|
    ensures forall k :: 0 <= k < |cols| ==> r[k] == row[IndexOf(names, cols[k]).value]
  {
    seq(|cols|, k requires 0 <= k < |cols| => row[IndexOf(names, cols[k]).value])
  }

  function SelectRows(rows: seq<Row>, names: seq<string>, cols: seq<string>): (r: seq<Row>)
    requires Rectangular(names, rows) && forall c :: c in cols ==> c in names
    ensures |r| == |rows| && Rectangular(cols, r)
  {
    seq(|rows|, i requires 0 <= i < |rows| => SelectRow(rows[i], names, cols))
  }

  predicate Distinct(rows: seq<Row>) {
    forall i, j :: 0 <= i < j < |rows| ==> rows[i] != rows[j]
  }

  /** `drop_duplicates()`: the first occurrence of each row, in order. */
  function Dedupe(rows: seq<Row>): (r: seq<Row>)
    ensures |r| <= |rows|
    ensures forall x :: x in r <==> x in rows
    ensures Distinct(r)
  {
    if rows == [] then []
    else
      var init, last := rows[..|rows| - 1], rows[|rows| - 1];
      assert rows == init + [last];
      var kept := Dedupe(init);
      if last in kept then kept else kept + [last]
  }

  /** No cell of the row is NaN. */
  predicate Complete(row: Row) {
    forall c :: c in row ==> !c.Missing?
  }

  /** `dropna()`: the rows without a missing cell, in order. */
  function CompleteRows(rows: seq<Row>): (r: seq<Row>)
    ensures |r| <= |rows|
    ensures forall x :: x in r <==> x in rows && Complete(x)
  {
    if rows == [] then []
    else
      var init, last := rows[..|rows| - 1], rows[|rows| - 1];
      assert rows == init + [last];
      CompleteRows(init) + if Complete(last) then [last] else []
  }

  /** Dropping rows from distinct rows leaves them distinct. */
  lemma {:induction false} CompleteRowsKeepDistinct(rows: seq<Row>)
    requires Distinct(rows)
    ensures Distinct(CompleteRows(rows))
  {
    if rows != [] {
      var init, last := rows[..|rows| - 1], rows[|rows| - 1];
      assert Distinct(init);
      CompleteRowsKeepDistinct(init);
      assert last !in init by {
        assert rows == init + [last];
      }
    }
  }

  /** Rows of `width` cells stay rows of `width` cells under both filters. */
  lemma FiltersKeepWidth(names: seq<string>, rows: seq<Row>)
    requires Rectangular(names, rows)
    ensures Rectangular(names, Dedupe(rows)) && Rectangular(names, CompleteRows(Dedupe(rows)))
  {
    var d := Dedupe(rows);
    forall i | 0 <= i < |d|
      ensures |d[i]| == |names|
    {
      assert d[i] in rows;
    }
    var n := CompleteRows(d);
    forall i | 0 <= i < |n|
      ensures |n[i]| == |names|
    {
      assert n[i] in d;
    }
  }

  datatype RawTable = RawTable(names: seq<string>, rows: seq<Row>)

  /** What `clean_data` writes, or the error it raises, when `read` stands for `pd.read_csv` and `pd.read_excel`. */
  function Clean(path: string, read: (string, Format) -> RawTable): Result<RawTable, CleanError>
    requires forall f :: Rectangular(read(path, f).names, read(path, f).rows)
  {
    match FormatFor(path)
    case Failure(e) => Failure(e)
    case Success(format) =>
      var raw := read(path, format);
      assert Rectangular(raw.names, raw.rows);
      match StatusLabels(StripNames(raw.names))
      case Failure(e) => Failure(e)
      case Success(names) =>
        var missing := Insights.MissingFrom(RequiredCols, names);
        if missing != [] then Failure(MissingColumns(missing))
        else
          assert forall c :: c in RequiredCols ==> c in names by {
            assert forall c :: c in RequiredCols && c !in names ==> c in missing;
          }
          Success(RawTable(RequiredCols, CompleteRows(Dedupe(SelectRows(raw.rows, names, RequiredCols)))))
  }

  /**
   * A cleaned table has exactly the required columns in order, at most as
   * many rows as the file, no duplicate rows and no missing cell; a missing
   * required column is reported with all the others that are missing.
   */
  lemma CleanSpec(path: string, read: (string, Format) -> RawTable)
    requires forall f :: Rectangular(read(path, f).names, read(path, f).rows)
    ensures Clean(path, read).Success? ==>
      var format := FormatFor(path).value;
      var out := Clean(path, read).value;
      && out.names == RequiredCols
      && |out.rows| <= |read(path, format).rows|
      && Rectangular(RequiredCols, out.rows)
      && Distinct(out.rows)
      && forall i :: 0 <= i < |out.rows| ==> Complete(out.rows[i])
    ensures Clean(path, read).Failure? && Clean(path, read).error.MissingColumns? ==>
      forall c :: c in Clean(path, read).error.columns <==>
        c in RequiredCols && c !in StatusLabels(StripNames(read(path, FormatFor(path).value).names)).value
  {
    if Clean(path, read).Success? {
      var raw := read(path, FormatFor(path).value);
      var names := StatusLabels(StripNames(raw.names)).value;
      var selected := SelectRows(raw.rows, names, RequiredCols);
      FiltersKeepWidth(RequiredCols, selected);
      CompleteRowsKeepDistinct(Dedupe(selected));
      var out := Clean(path, read).value;
      forall i | 0 <= i < |out.rows|
        ensures Complete(out.rows[i])
      {
        assert out.rows[i] in out.rows;
      }
    }
  }

  /** The data frame `clean_data` works on: labels and rows, which its steps replace in place. */
  class Table {
    var names: seq<string>
    var rows: seq<Row>

    ghost predicate Valid()
      reads this
    {
      Rectangular(names, rows)
    }

    constructor (names: seq<string>, rows: seq<Row>)
      requires Rectangular(names, rows)
      ensures Valid() && this.names == names && this.rows == rows
    {
      this.names := names;
      this.rows := rows;
    }

    /** `df.columns = df.columns.str.strip()`. */
    method StripColumnNames()
      requires Valid()
      modifies this
      ensures Valid() && names == StripNames(old(names)) && rows == old(rows)
    {
      names := StripNames(names);
    }

    /** `df.rename(columns={"delivery_status": "Delivery_Status"}, inplace=True)`. */
    method RenameStatusColumn()
      requires Valid()
      modifies this
      ensures Valid() && names == RenamedStatus(old(names)) && rows == old(rows)
    {
      names := RenamedStatus(names);
    }

    /** `df = df[cols]`. */
    method SelectColumns(cols: seq<string>)
      requires Valid() && forall c :: c in cols ==> c in names
      modifies this
      ensures Valid() && names == cols && rows == SelectRows(old(rows), old(names), cols)
    {
      rows := SelectRows(rows, names, cols);
      names := cols;
    }

    /** `df.drop_duplicates(inplace=True)`: each row is kept unless an equal row was kept before it. */
    method DropDuplicates()
      requires Valid()
      modifies this
      ensures Valid() && names == old(names) && rows == Dedupe(old(rows))
    {
      var kept: seq<Row> := [];
      for i := 0 to |rows|
        invariant kept == Dedupe(rows[..i])
      {
        assert rows[..i + 1][..i] == rows[..i];
        if rows[i] !in kept {
          kept := kept + [rows[i]];
        }
      }
      assert rows[..|rows|] == rows;
      FiltersKeepWidth(names, rows);
      rows := kept;
    }

    /** `df.dropna(inplace=True)`: each row is kept unless one of its cells is NaN. */
    method DropNa()
      requires Valid()
      modifies this
      ensures Valid() && names == old(names) && rows == CompleteRows(old(rows))
    {
      var kept: seq<Row> := [];
      for i := 0 to |rows|
        invariant kept == CompleteRows(rows[..i])
      {
        assert rows[..i + 1][..i] == rows[..i];
        var complete := true;
        for k := 0 to |rows[i]|
          invariant complete <==> forall j :: 0 <= j < k ==> !rows[i][j].Missing?
        {
          if rows[i][k].Missing? {
            complete := false;
          }
        }
        if complete {
          kept := kept + [rows[i]];
        }
      }
      assert rows[..|rows|] == rows;
      forall j | 0 <= j < |kept|
        ensures |kept[j]| == |names|
      {
        assert kept[j] in rows;
      }
      rows := kept;
    }
  }

  /** `clean_data` from the extension check to the `dropna`; writing the CSV file is left out. */
  method CleanData(path: string, read: (string, Format) -> RawTable) returns (r: Result<Table, CleanError>)
    requires forall f :: Rectangular(read(path, f).names, read(path, f).rows)
    ensures r.Failure? <==> Clean(path, read).Failure?
    ensures r.Failure? ==> r.error == Clean(path, read).error
    ensures r.Success? ==> fresh(r.value) && r.value.Valid()
    ensures r.Success? ==> r.value.names == Clean(path, read).value.names && r.value.rows == Clean(path, read).value.rows
  {
    var format := FormatFor(path);
    if format.Failure? {
      return Failure(format.error);
    }
    var raw := read(path, format.value);
    var table := new Table(raw.names, raw.rows);
    table.StripColumnNames();
    if LowerStatusColumn in table.names {
      table.RenameStatusColumn();
    } else if StatusColumn !in table.names {
      return Failure(StatusNotFound);
    }
    var missing := Insights.MissingFrom(RequiredCols, table.names);
    if missing != [] {
      return Failure(MissingColumns(missing));
    }
    assert forall c :: c in RequiredCols && c !in table.names ==> c in missing;
    table.SelectColumns(RequiredCols);
    table.DropDuplicates();
    table.DropNa();
    return Success(table);
  }
}

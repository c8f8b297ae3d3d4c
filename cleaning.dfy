/**
 * The raw-data cleaning script (cleaned_data/data_cleaning.py): column-name
 * normalisation, numeric coercion and median imputation, categorical
 * normalisation, weather synonyms and outlier capping. The table is a
 * `Frame` object whose columns the script's steps overwrite in place.
 */
module Cleaning {
  import opened Wrappers
  import opened Text
  import Insights

  type Cell = Insights.Cell

  /** `col.strip().lower().replace(" ", "_")`. */
  function NormalizeName(col: string): (r: string)
    ensures forall i :: 0 <= i < |r| ==> r[i] != ' '
  {
    ReplaceChar(Lower(Strip(col)), ' ', '_')
  }

  /** Normalising a normalised name changes nothing. */
  lemma NormalizeNameIdempotent(col: string)
    ensures NormalizeName(NormalizeName(col)) == NormalizeName(col)
  {
    var s := Strip(col);
    StripResult(col);
    LowerKeepsSpaces(s);
    var t := NormalizeName(col);
    assert Stripped(t);
    StripOfStripped(t);
    assert Lower(t) == t;
    assert ReplaceChar(t, ' ', '_') == t;
  }

  /** The column labels after step 1. */
  function NormalizedNames(names: seq<string>): (r: seq<string>)
    ensures |r| == |names|
  {
    seq(|names|, i requires 0 <= i < |names| => NormalizeName(names[i]))
  }

  const NumCols: seq<string> := [
    "distance_km", "package_weight_kg", "delivery_time_hours",
    "expected_time_hours", "delivery_cost", "agent_age", "agent_rating"
  ]
  const CatCols: seq<string> := [
    "delivery_partner", "vehicle_type", "delivery_mode",
    "region", "weather_condition", "traffic_level"
  ]
  const CappedCols: seq<string> := ["distance_km", "delivery_time_hours"]

  /** `pd.to_numeric(errors="coerce")` on one cell: text that does not parse as a number becomes NaN. */
  function ToNumeric(c: Cell, parse: string -> Option<Float>): (r: Cell)
    ensures !r.Text?
    ensures !c.Text? ==> r == c
    ensures c.Text? && parse(c.s).Some? && parse(c.s).value.Finite? ==> r == Insights.Number(parse(c.s).value.r)
    ensures c.Text? && (parse(c.s).None? || parse(c.s) == Some(NaN)) ==> r == Insights.Missing
  {
    match c
    case Number(_) => c
    case Missing => c
    case Text(s) =>
      match parse(s)
      case Some(Finite(x)) => Insights.Number(x)
      case _ => Insights.Missing
  }

  /** `fillna(median)`; a median of NaN (a column with no numbers) fills nothing. */
  function FillMedian(c: Cell, median: Float): (r: Cell)
    ensures median.Finite? && !c.Text? ==> r.Number?
    ensures c.Missing? && median.Finite? ==> r == Insights.Number(median.r)
    ensures !c.Missing? || median.NaN? ==> r == c
  {
    if c.Missing? && median.Finite? then Insights.Number(median.r) else c
  }

  /** `astype(str).str.lower().str.strip()`. */
  function CategoryText(c: Cell, show: real -> string): string {
    Strip(Lower(Insights.CellText(c, show)))
  }

  /** `fillna("unknown")` on one cell. */
  function FillUnknown(c: Cell): Cell {
    if c.Missing? then Insights.Text("unknown") else c
  }

  /** Step 4 as written: `astype(str)` first, so the later `fillna("unknown")` finds no NaN to fill. */
  function CategoryCellAsWritten(c: Cell, show: real -> string): Cell {
    FillUnknown(Insights.Text(CategoryText(c, show)))
  }

  /** A missing categorical value comes out as the string "nan", never as "unknown". */
  lemma MissingCategoryBecomesNan(show: real -> string)
    ensures CategoryCellAsWritten(Insights.Missing, show) == Insights.Text("nan")
    ensures CategoryCellAsWritten(Insights.Missing, show) != Insights.Text("unknown")
  {
    assert Strip("nan") == "nan";
    assert Lower("nan") == "nan";
  }

  /** Step 4 as intended: missing values are filled with "unknown" before the text is normalised. */
  function CategoryCell(c: Cell, show: real -> string): Cell {
    Insights.Text(CategoryText(FillUnknown(c), show))
  }

  /**
   * Missing values become "unknown", present ones are normalised exactly as
   * the script does it, and every result is lower-case text without
   * surrounding white space.
   */
  lemma CategoryCellSpec(c: Cell, show: real -> string)
    ensures c.Missing? ==> CategoryCell(c, show) == Insights.Text("unknown")
    ensures !c.Missing? ==> CategoryCell(c, show) == CategoryCellAsWritten(c, show)
    ensures CategoryCell(c, show).Text?
    ensures Stripped(CategoryCell(c, show).s) && Lower(CategoryCell(c, show).s) == CategoryCell(c, show).s
  {
    var t := Insights.CellText(FillUnknown(c), show);
    if c.Missing? {
      assert Lower("unknown") == "unknown";
      assert Strip("unknown") == "unknown";
    }
    StripResult(Lower(t));
    LowerStripCommute(Lower(t));
    LowerIdempotent(t);
  }

  const WeatherMapping: map<string, string> := map[
    "stormy" := "stormy", "sandstorms" := "stormy", "windy" := "windy",
    "sunny" := "clear", "clear" := "clear", "fog" := "foggy", "foggy" := "foggy"
  ]

  /** `.map(weather_mapping).fillna(original)`: a mapped value is replaced, any other kept. */
  function MapWeather(v: string): string {
    if v in WeatherMapping then WeatherMapping[v] else v
  }

  /** The synonyms collapse onto four names, unmapped values pass through, and mapping twice is mapping once. */
  lemma MapWeatherSpec(v: string)
    ensures MapWeather("sandstorms") == "stormy" && MapWeather("stormy") == "stormy"
    ensures MapWeather("sunny") == "clear" && MapWeather("clear") == "clear"
    ensures MapWeather("fog") == "foggy" && MapWeather("foggy") == "foggy"
    ensures MapWeather("windy") == "windy"
    ensures v !in WeatherMapping ==> MapWeather(v) == v
    ensures MapWeather(MapWeather(v)) == MapWeather(v)
  {
  }

  /** One weather cell: text is mapped, a cell without text is left as it is. */
  function WeatherCell(c: Cell): Cell {
    if c.Text? then Insights.Text(MapWeather(c.s)) else c
  }

  /** `np.where(col < q1, q1, col)` on one cell; a comparison with NaN is false. */
  function RaiseTo(c: Cell, q1: Float): Cell {
    if c.Number? && q1.Finite? && c.x < q1.r then Insights.Number(q1.r) else c
  }

  /** `np.where(col > q3, q3, col)` on one cell. */
  function LowerTo(c: Cell, q3: Float): Cell {
    if c.Number? && q3.Finite? && c.x > q3.r then Insights.Number(q3.r) else c
  }

  /** The two `np.where` steps of `cap_outliers`, in order. */
  function Cap(c: Cell, q1: Float, q3: Float): Cell {
    LowerTo(RaiseTo(c, q1), q3)
  }

  /** With Q1 ≤ Q3, a capped number lies in [Q1, Q3], one already inside is kept, and capping again changes nothing. */
  lemma CapSpec(c: Cell, q1: real, q3: real)
    requires q1 <= q3
    ensures c.Number? ==> (Cap(c, Finite(q1), Finite(q3)).Number? && q1 <= Cap(c, Finite(q1), Finite(q3)).x <= q3)
    ensures c.Number? && q1 <= c.x <= q3 ==> Cap(c, Finite(q1), Finite(q3)) == c
    ensures c.Number? && c.x < q1 ==> Cap(c, Finite(q1), Finite(q3)) == Insights.Number(q1)
    ensures c.Number? && c.x > q3 ==> Cap(c, Finite(q1), Finite(q3)) == Insights.Number(q3)
    ensures !c.Number? ==> Cap(c, Finite(q1), Finite(q3)) == c
    ensures Cap(Cap(c, Finite(q1), Finite(q3)), Finite(q1), Finite(q3)) == Cap(c, Finite(q1), Finite(q3))
  {
  }

  /** A quantile that is NaN caps nothing on its side. */
  lemma CapWithoutQuantiles(c: Cell)
    ensures Cap(c, NaN, NaN) == c
  {
  }

  function MapCells(column: seq<Cell>, f: Cell -> Cell): (r: seq<Cell>)
    ensures |r| == |column|
    ensures forall i :: 0 <= i < |column| ==> r[i] == f(column[i])
  {
    seq(|column|, i requires 0 <= i < |column| => f(column[i]))
  }

  /** `pd.to_numeric(df[col], errors="coerce")`. */
  function NumericColumn(column: seq<Cell>, parse: string -> Option<Float>): (r: seq<Cell>)
    ensures |r| == |column|
  {
    MapCells(column, c => ToNumeric(c, parse))
  }

  /** Step 3 on one column: coerce it, then fill its gaps with the median of the coerced column. */
  function ImputedColumn(column: seq<Cell>, parse: string -> Option<Float>, median: seq<Cell> -> Float): (r: seq<Cell>)
    ensures |r| == |column|
  {
    var numeric := NumericColumn(column, parse);
    MapCells(numeric, c => FillMedian(c, median(numeric)))
  }

  /** Step 4 on one column. */
  function CategoricalColumn(column: seq<Cell>, show: real -> string): (r: seq<Cell>)
    ensures |r| == |column|
  {
    MapCells(column, c => CategoryCell(c, show))
  }

  /** `cap_outliers` on one column: its own 5% and 95% quantiles bound it. */
  function CappedColumn(column: seq<Cell>, quantile: (seq<Cell>, real) -> Float): (r: seq<Cell>)
    ensures |r| == |column|
  {
    var q1, q3 := quantile(column, 0.05), quantile(column, 0.95);
    MapCells(column, c => Cap(c, q1, q3))
  }

  /** What steps 3 to 6 make of a column labelled `name`. */
  function CleanedColumn(name: string, column: seq<Cell>, show: real -> string, parse: string -> Option<Float>,
                         median: seq<Cell> -> Float, quantile: (seq<Cell>, real) -> Float): seq<Cell>
  {
    if name in NumCols then
      var filled := ImputedColumn(column, parse, median);
      if name in CappedCols then CappedColumn(filled, quantile) else filled
    else if name in CatCols then
      var text := CategoricalColumn(column, show);
      if name == "weather_condition" then MapCells(text, WeatherCell) else text
    else column
  }

  /**
   * A cleaned numeric column that is not capped: each cell is its coerced
   * value with gaps filled by the coerced column's median, so it holds no
   * text, keeps its numbers, and holds only numbers once that median is one.
   */
  lemma NumericColumnCleaned(name: string, column: seq<Cell>, show: real -> string, parse: string -> Option<Float>,
                             median: seq<Cell> -> Float, quantile: (seq<Cell>, real) -> Float, i: nat)
    requires name in NumCols && name !in CappedCols && i < |column|
    ensures |CleanedColumn(name, column, show, parse, median, quantile)| == |column|
    ensures CleanedColumn(name, column, show, parse, median, quantile)[i]
      == FillMedian(ToNumeric(column[i], parse), median(NumericColumn(column, parse)))
    ensures !CleanedColumn(name, column, show, parse, median, quantile)[i].Text?
    ensures column[i].Number? ==> CleanedColumn(name, column, show, parse, median, quantile)[i] == column[i]
    ensures median(NumericColumn(column, parse)).Finite? ==> CleanedColumn(name, column, show, parse, median, quantile)[i].Number?
  {
    var numeric := NumericColumn(column, parse);
    assert numeric[i] == ToNumeric(column[i], parse);
  }

  /**
   * A cleaned capped column holds no text, and when both quantiles of the
   * imputed column are numbers in order, every number in it lies between them.
   */
  lemma CappedColumnCleaned(name: string, column: seq<Cell>, show: real -> string, parse: string -> Option<Float>,
                            median: seq<Cell> -> Float, quantile: (seq<Cell>, real) -> Float, i: nat)
    requires name in CappedCols && i < |column|
    ensures |CleanedColumn(name, column, show, parse, median, quantile)| == |column|
    ensures !CleanedColumn(name, column, show, parse, median, quantile)[i].Text?
    ensures var filled := ImputedColumn(column, parse, median);
      var q1, q3 := quantile(filled, 0.05), quantile(filled, 0.95);
      var r := CleanedColumn(name, column, show, parse, median, quantile)[i];
      q1.Finite? && q3.Finite? && q1.r <= q3.r && r.Number? ==> q1.r <= r.x <= q3.r
  {
    ColumnListsWellFormed(name);
    var numeric := NumericColumn(column, parse);
    var filled := ImputedColumn(column, parse, median);
    assert filled[i] == FillMedian(numeric[i], median(numeric));
    var q1, q3 := quantile(filled, 0.05), quantile(filled, 0.95);
    assert CleanedColumn(name, column, show, parse, median, quantile)[i] == Cap(filled[i], q1, q3);
    if q1.Finite? && q3.Finite? && q1.r <= q3.r {
      CapSpec(filled[i], q1.r, q3.r);
    }
  }

  /**
   * A cleaned categorical column holds text in every cell, "unknown" where a
   * value was missing; outside the weather column that text is the value
   * lower-cased and stripped, in the weather column it is then mapped.
   */
  lemma CategoricalColumnCleaned(name: string, column: seq<Cell>, show: real -> string, parse: string -> Option<Float>,
                                 median: seq<Cell> -> Float, quantile: (seq<Cell>, real) -> Float, i: nat)
    requires name in CatCols && i < |column|
    ensures |CleanedColumn(name, column, show, parse, median, quantile)| == |column|
    ensures CleanedColumn(name, column, show, parse, median, quantile)[i].Text?
    ensures column[i].Missing? ==> CleanedColumn(name, column, show, parse, median, quantile)[i] == Insights.Text("unknown")
    ensures name != "weather_condition" ==>
      CleanedColumn(name, column, show, parse, median, quantile)[i] == CategoryCell(column[i], show)
    ensures name == "weather_condition" ==>
      CleanedColumn(name, column, show, parse, median, quantile)[i] == WeatherCell(CategoryCell(column[i], show))
  {
    ColumnListsWellFormed(name);
    var text := CategoricalColumn(column, show);
    assert text[i] == CategoryCell(column[i], show);
    CategoryCellSpec(column[i], show);
    assert "unknown" !in WeatherMapping;
  }

  /** A column on neither list comes out of steps 3 to 6 unchanged. */
  lemma OtherColumnKept(name: string, column: seq<Cell>, show: real -> string, parse: string -> Option<Float>,
                        median: seq<Cell> -> Float, quantile: (seq<Cell>, real) -> Float)
    requires name !in NumCols && name !in CatCols
    ensures CleanedColumn(name, column, show, parse, median, quantile) == column
  {
  }

  predicate Distinct(xs: seq<string>) {
    forall i, j :: 0 <= i < j < |xs| ==> xs[i] != xs[j]
  }

  /** Each list names a column once, no column is both numeric and categorical, and the capped columns are numeric. */
  lemma ColumnListsWellFormed(name: string)
    ensures Distinct(NumCols) && Distinct(CatCols) && Distinct(CappedCols)
    ensures !(name in NumCols && name in CatCols)
    ensures name in CappedCols ==> name in NumCols
    ensures "weather_condition" in CatCols
  {
  }

  /** The first `n` entries of a list without repeats do not hold entry `n`. */
  lemma DistinctPrefix(xs: seq<string>, n: nat)
    requires Distinct(xs) && n < |xs|
    ensures xs[n] !in xs[..n]
    ensures xs[..n + 1] == xs[..n] + [xs[n]]
  {
  }

  /** Column `k` is the first one labelled `names[k]`: the one `df[names[k]]` reads and writes here. */
  predicate FirstLabel(names: seq<string>, k: nat)
    requires k < |names|
  {
    IndexOf(names, names[k]) == Some(k)
  }

  /**
   * `now` is `orig` with `f` applied to the first column of each label among
   * the first `n` entries of `cols`, every other column kept.
   */
  ghost predicate AppliedToListed(names: seq<string>, cols: seq<string>, n: nat, orig: seq<seq<Cell>>, now: seq<seq<Cell>>,
                                  f: seq<Cell> -> seq<Cell>)
    requires n <= |cols|
  {
    && |orig| == |names| && |now| == |names|
    && forall k :: 0 <= k < |names| ==>
      (now[k] == if FirstLabel(names, k) && names[k] in cols[..n] then f(orig[k]) else orig[k])
  }

  /** One pass of a loop over a list without repeats: applying `f` to the entry's column, if present, extends the applied prefix by one. */
  lemma ListedStep(names: seq<string>, cols: seq<string>, i: nat, orig: seq<seq<Cell>>, before: seq<seq<Cell>>,
                   after: seq<seq<Cell>>, f: seq<Cell> -> seq<Cell>)
    requires Distinct(cols) && i < |cols|
    requires AppliedToListed(names, cols, i, orig, before, f)
    requires cols[i] !in names ==> after == before
    requires cols[i] in names ==>
      after == before[IndexOf(names, cols[i]).value := f(before[IndexOf(names, cols[i]).value])]
    ensures AppliedToListed(names, cols, i + 1, orig, after, f)
  {
    DistinctPrefix(cols, i);
    forall k | 0 <= k < |names|
      ensures after[k] == if FirstLabel(names, k) && names[k] in cols[..i + 1] then f(orig[k]) else orig[k]
    {
      if cols[i] in names && k == IndexOf(names, cols[i]).value {
        assert FirstLabel(names, k);
      } else {
        assert after[k] == before[k];
        assert names[k] == cols[i] ==> !FirstLabel(names, k);
      }
    }
  }

  /** The data frame: column labels and, in the same order, the columns, each `rowCount` cells long. */
  class Frame {
    var names: seq<string>
    var columns: seq<seq<Cell>>
    const rowCount: nat

    ghost predicate Valid()
      reads this
    {
      |names| == |columns| && forall k :: 0 <= k < |columns| ==> |columns[k]| == rowCount
    }

    constructor (names: seq<string>, columns: seq<seq<Cell>>, rowCount: nat)
      requires |names| == |columns| && forall k :: 0 <= k < |columns| ==> |columns[k]| == rowCount
      ensures Valid()
      ensures this.names == names && this.columns == columns && this.rowCount == rowCount
    {
      this.names := names;
      this.columns := columns;
      this.rowCount := rowCount;
    }

    /** Step 1: `df.columns = [...]`. */
    method NormalizeColumnNames()
      requires Valid()
      modifies this
      ensures Valid()
      ensures names == NormalizedNames(old(names)) && columns == old(columns)
    {
      names := NormalizedNames(names);
    }

    /** `df[name] = f(df[name])` on a present column. */
    method MapColumn(name: string, f: Cell -> Cell)
      requires Valid() && name in names
      modifies this
      ensures Valid() && names == old(names)
      ensures columns == old(columns)[IndexOf(names, name).value := MapCells(old(columns)[IndexOf(names, name).value], f)]
    {
      var k := IndexOf(names, name).value;
      columns := columns[k := MapCells(columns[k], f)];
    }

    /** `df[name]` of a present column. */
    function Column(name: string): (column: seq<Cell>)
      requires Valid() && name in names
      reads this
      ensures |column| == rowCount
    {
      columns[IndexOf(names, name).value]
    }

    /** The two assignments of step 3 on a present column. */
    method ImputeColumn(name: string, parse: string -> Option<Float>, median: seq<Cell> -> Float)
      requires Valid() && name in names
      modifies this
      ensures Valid() && names == old(names)
      ensures columns == old(columns)[IndexOf(names, name).value := ImputedColumn(old(columns)[IndexOf(names, name).value], parse, median)]
    {
      MapColumn(name, c => ToNumeric(c, parse));
      var m := median(Column(name));
      MapColumn(name, c => FillMedian(c, m));
    }

    /** Step 3: every listed numeric column that is present is coerced and imputed; nothing else changes. */
    method ImputeNumericColumns(parse: string -> Option<Float>, median: seq<Cell> -> Float)
      requires Valid()
      modifies this
      ensures Valid() && names == old(names)
      ensures forall k :: 0 <= k < |names| ==>
        (columns[k] == if FirstLabel(names, k) && names[k] in NumCols then ImputedColumn(old(columns)[k], parse, median) else old(columns)[k])
    {
      ColumnListsWellFormed("");
      ghost var f := column => ImputedColumn(column, parse, median);
      for i := 0 to |NumCols|
        invariant Valid() && names == old(names)
        invariant AppliedToListed(names, NumCols, i, old(columns), columns, f)
      {
        ghost var before := columns;
        if NumCols[i] in names {
          ImputeColumn(NumCols[i], parse, median);
        }
        ListedStep(names, NumCols, i, old(columns), before, columns, f);
      }
      assert NumCols[..|NumCols|] == NumCols;
    }

    /** The two assignments of step 4 on a present column. */
    method NormalizeCategoryColumn(name: string, show: real -> string)
      requires Valid() && name in names
      modifies this
      ensures Valid() && names == old(names)
      ensures columns == old(columns)[IndexOf(names, name).value := CategoricalColumn(old(columns)[IndexOf(names, name).value], show)]
    {
      MapColumn(name, c => CategoryCell(c, show));
    }

    /** Step 4: every listed categorical column that is present is normalised; nothing else changes. */
    method NormalizeCategoricalColumns(show: real -> string)
      requires Valid()
      modifies this
      ensures Valid() && names == old(names)
      ensures forall k :: 0 <= k < |names| ==>
        (columns[k] == if FirstLabel(names, k) && names[k] in CatCols then CategoricalColumn(old(columns)[k], show) else old(columns)[k])
    {
      ColumnListsWellFormed("");
      ghost var f := column => CategoricalColumn(column, show);
      for i := 0 to |CatCols|
        invariant Valid() && names == old(names)
        invariant AppliedToListed(names, CatCols, i, old(columns), columns, f)
      {
        ghost var before := columns;
        if CatCols[i] in names {
          NormalizeCategoryColumn(CatCols[i], show);
        }
        ListedStep(names, CatCols, i, old(columns), before, columns, f);
      }
      assert CatCols[..|CatCols|] == CatCols;
    }

    /** Step 5: the weather column, when present, has its synonyms mapped; nothing else changes. */
    method MapWeatherColumn()
      requires Valid()
      modifies this
      ensures Valid() && names == old(names)
      ensures forall k :: 0 <= k < |names| ==>
        (columns[k] == if FirstLabel(names, k) && names[k] == "weather_condition" then MapCells(old(columns)[k], WeatherCell) else old(columns)[k])
    {
      if "weather_condition" in names {
        MapColumn("weather_condition", WeatherCell);
      }
    }

    /** `cap_outliers(name)`: nothing when the column is absent; otherwise both `np.where` steps with the 5% and 95% quantiles. */
    method CapOutliers(name: string, quantile: (seq<Cell>, real) -> Float)
      requires Valid()
      modifies this
      ensures Valid() && names == old(names)
      ensures name !in names ==> columns == old(columns)
      ensures name in names ==>
        var k := IndexOf(names, name).value;
        columns == old(columns)[k := CappedColumn(old(columns)[k], quantile)]
    {
      if name !in names {
        return;
      }
      var q1 := quantile(Column(name), 0.05);
      var q3 := quantile(Column(name), 0.95);
      var k := IndexOf(names, name).value;
      columns := columns[k := MapCells(columns[k], c => RaiseTo(c, q1))];
      columns := columns[k := MapCells(columns[k], c => LowerTo(c, q3))];
      assert columns[k] == MapCells(old(columns)[k], c => Cap(c, q1, q3));
    }

    /** Step 6: the loop over the capped columns. */
    method CapListedColumns(quantile: (seq<Cell>, real) -> Float)
      requires Valid()
      modifies this
      ensures Valid() && names == old(names)
      ensures forall k :: 0 <= k < |names| ==>
        (columns[k] == if FirstLabel(names, k) && names[k] in CappedCols then CappedColumn(old(columns)[k], quantile) else old(columns)[k])
    {
      ColumnListsWellFormed("");
      ghost var f := column => CappedColumn(column, quantile);
      for i := 0 to |CappedCols|
        invariant Valid() && names == old(names)
        invariant AppliedToListed(names, CappedCols, i, old(columns), columns, f)
      {
        ghost var before := columns;
        CapOutliers(CappedCols[i], quantile);
        ListedStep(names, CappedCols, i, old(columns), before, columns, f);
      }
      assert CappedCols[..|CappedCols|] == CappedCols;
    }
  }

  /** Steps 3 to 6 run one after another on one column give `CleanedColumn`; a column that is not the first with its label is never touched. */
  lemma CleanedSteps(first: bool, name: string, c0: seq<Cell>, c1: seq<Cell>, c2: seq<Cell>, c3: seq<Cell>, c4: seq<Cell>,
                     show: real -> string, parse: string -> Option<Float>,
                     median: seq<Cell> -> Float, quantile: (seq<Cell>, real) -> Float)
    requires c1 == if first && name in NumCols then ImputedColumn(c0, parse, median) else c0
    requires c2 == if first && name in CatCols then CategoricalColumn(c1, show) else c1
    requires c3 == if first && name == "weather_condition" then MapCells(c2, WeatherCell) else c2
    requires c4 == if first && name in CappedCols then CappedColumn(c3, quantile) else c3
    ensures c4 == if first then CleanedColumn(name, c0, show, parse, median, quantile) else c0
  {
    ColumnListsWellFormed(name);
  }

  /**
   * The script from step 1 to step 6 (reading and writing the CSV files is
   * left out): labels are normalised, every column is replaced by what
   * steps 3 to 6 make of it under its new label, and the row count is kept.
   */
  method CleanDeliveries(frame: Frame, show: real -> string, parse: string -> Option<Float>,
                         median: seq<Cell> -> Float, quantile: (seq<Cell>, real) -> Float)
    requires frame.Valid()
    modifies frame
    ensures frame.Valid()
    ensures frame.names == NormalizedNames(old(frame.names))
    ensures forall k :: 0 <= k < |frame.names| ==>
      (frame.columns[k] == if FirstLabel(frame.names, k)
                           then CleanedColumn(frame.names[k], old(frame.columns)[k], show, parse, median, quantile)
                           else old(frame.columns)[k])
  {
    frame.NormalizeColumnNames();
    ghost var c0 := frame.columns;
    frame.ImputeNumericColumns(parse, median);
    ghost var c1 := frame.columns;
    frame.NormalizeCategoricalColumns(show);
    ghost var c2 := frame.columns;
    frame.MapWeatherColumn();
    ghost var c3 := frame.columns;
    frame.CapListedColumns(quantile);
    forall k | 0 <= k < |frame.names|
      ensures frame.columns[k] == if FirstLabel(frame.names, k)
                                  then CleanedColumn(frame.names[k], c0[k], show, parse, median, quantile)
                                  else c0[k]
    {
      CleanedSteps(FirstLabel(frame.names, k), frame.names[k], c0[k], c1[k], c2[k], c3[k], frame.columns[k], show, parse, median, quantile);
    }
  }
}

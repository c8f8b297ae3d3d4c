/**
 * The data the analytics page derives from `/analytics` (AnalyticsPage.jsx):
 * the flattened confusion matrix, the two class-balance rows, and the three
 * scatter series split by label.
 */
module Analytics {
  import opened Wrappers

  /** One entry of `confusionData`; a row shorter than the labels reads `undefined` (None). */
  datatype ConfusionCell = ConfusionCell(actual: string, predicted: string, value: Option<int>)

  /** `values[r][c]`; the outer index must exist (otherwise the page throws a TypeError). */
  function ValueAt(values: seq<seq<int>>, r: nat, c: nat): Option<int>
    requires r < |values|
  {
    if c < |values[r]| then Some(values[r][c]) else None
  }

  /** The inner `labels.map((predictedLabel, colIndex) => …)` for row `r`. */
  function RowCells(labels: seq<string>, values: seq<seq<int>>, r: nat): (cells: seq<ConfusionCell>)
    requires r < |labels| <= |values|
    ensures |cells| == |labels|
  {
    seq(|labels|, c requires 0 <= c < |labels| => ConfusionCell(labels[r], labels[c], ValueAt(values, r, c)))
  }

  /** The outer `flatMap`, from row `r` on. */
  function RowsFrom(labels: seq<string>, values: seq<seq<int>>, r: nat): seq<ConfusionCell>
    requires r <= |labels| <= |values|
    decreases |labels| - r
  {
    if r == |labels| then [] else RowCells(labels, values, r) + RowsFrom(labels, values, r + 1)
  }

  /** `confusionData`. */
  function ConfusionData(labels: seq<string>, values: seq<seq<int>>): seq<ConfusionCell>
    requires |labels| <= |values|
  {
    RowsFrom(labels, values, 0)
  }

  lemma MulStep(a: nat, n: nat)
    ensures (a + 1) * n == a * n + n
  {
  }

  lemma {:induction false} RowsFromLength(labels: seq<string>, values: seq<seq<int>>, r: nat)
    requires r <= |labels| <= |values|
    ensures |RowsFrom(labels, values, r)| == (|labels| - r) * |labels|
    decreases |labels| - r
  {
    if r < |labels| {
      RowsFromLength(labels, values, r + 1);
      MulStep(|labels| - (r + 1), |labels|);
    }
  }

  lemma {:induction false} RowsFromAt(labels: seq<string>, values: seq<seq<int>>, r: nat, i: nat, c: nat)
    requires r <= i < |labels| <= |values| && c < |labels|
    ensures (i - r) * |labels| + c < |RowsFrom(labels, values, r)|
    ensures RowsFrom(labels, values, r)[(i - r) * |labels| + c] == ConfusionCell(labels[i], labels[c], ValueAt(values, i, c))
    decreases i - r
  {
    var n := |labels|;
    var rows := RowsFrom(labels, values, r);
    assert rows == RowCells(labels, values, r) + RowsFrom(labels, values, r + 1);
    if i == r {
      assert (i - r) * n + c == c;
      assert rows[c] == RowCells(labels, values, r)[c];
    } else {
      var k := (i - (r + 1)) * n + c;
      RowsFromAt(labels, values, r + 1, i, c);
      MulStep(i - (r + 1), n);
      assert (i - r) * n + c == n + k;
      assert rows[n + k] == RowsFrom(labels, values, r + 1)[k];
    }
  }

  /** The position of row `r`, column `c` in an n-by-n matrix laid out row after row. */
  function CellIndex(n: nat, r: nat, c: nat): nat {
    r * n + c
  }

  /** `confusionData` has n·n cells, and the cell at r·n + c pairs labels r and c with `values[r][c]`. */
  lemma ConfusionDataRowMajor(labels: seq<string>, values: seq<seq<int>>)
    requires |labels| <= |values|
    ensures |ConfusionData(labels, values)| == |labels| * |labels|
    ensures forall r, c :: 0 <= r < |labels| && 0 <= c < |labels| ==>
      CellIndex(|labels|, r, c) < |ConfusionData(labels, values)|
      && ConfusionData(labels, values)[CellIndex(|labels|, r, c)] == ConfusionCell(labels[r], labels[c], ValueAt(values, r, c))
  {
    RowsFromLength(labels, values, 0);
    forall r, c | 0 <= r < |labels| && 0 <= c < |labels|
      ensures CellIndex(|labels|, r, c) < |ConfusionData(labels, values)|
      ensures ConfusionData(labels, values)[CellIndex(|labels|, r, c)] == ConfusionCell(labels[r], labels[c], ValueAt(values, r, c))
    {
      RowsFromAt(labels, values, 0, r, c);
    }
  }

  /** A value of a JSON object as the page sees it. */
  datatype JsValue = JStr(s: string) | JNum(n: int)

  /** `{ stage, ...distribution }`: the spread comes last, so its own keys win. */
  function StageRow(stage: string, distribution: map<string, JsValue>): map<string, JsValue> {
    map["stage" := JStr(stage)] + distribution
  }

  /** `classBalanceRows`. */
  function ClassBalanceRows(before: map<string, JsValue>, after: map<string, JsValue>): seq<map<string, JsValue>> {
    [StageRow("Before SMOTE", before), StageRow("After SMOTE", after)]
  }

  /** Two rows, "Before SMOTE" then "After SMOTE", each carrying all of its distribution's counts. */
  lemma ClassBalanceRowsSpec(before: map<string, JsValue>, after: map<string, JsValue>)
    ensures |ClassBalanceRows(before, after)| == 2
    ensures ClassBalanceRows(before, after)[0].Keys == before.Keys + {"stage"}
    ensures ClassBalanceRows(before, after)[1].Keys == after.Keys + {"stage"}
    ensures forall k :: k in before ==> ClassBalanceRows(before, after)[0][k] == before[k]
    ensures forall k :: k in after ==> ClassBalanceRows(before, after)[1][k] == after[k]
    ensures "stage" !in before ==> ClassBalanceRows(before, after)[0]["stage"] == JStr("Before SMOTE")
    ensures "stage" !in after ==> ClassBalanceRows(before, after)[1]["stage"] == JStr("After SMOTE")
  {
  }

  /** One point of `distance_vs_risk`. */
  datatype Point = Point(distanceKm: real, complexityScore: real, riskLabel: string)

  const SeriesLabels: seq<string> := ["On-Time", "At Risk", "Delayed"]

  /** `distance_vs_risk.filter((item) => item.label === label)`. */
  function Series(points: seq<Point>, wanted: string): (s: seq<Point>)
    ensures |s| <= |points|
    ensures forall q :: q in s ==> q in points && q.riskLabel == wanted
  {
    if points == [] then []
    else (if points[0].riskLabel == wanted then [points[0]] else []) + Series(points[1..], wanted)
  }

  /** A series holds every copy of each point with its label and nothing else. */
  lemma {:induction false} SeriesMultiplicity(points: seq<Point>, wanted: string, p: Point)
    ensures multiset(Series(points, wanted))[p] == if p.riskLabel == wanted then multiset(points)[p] else 0
  {
    if points != [] {
      SeriesMultiplicity(points[1..], wanted, p);
      assert points == [points[0]] + points[1..];
    }
  }

  /**
   * The three series split the points: a point labelled with one of the
   * three labels appears, with all its copies, in that series and in no
   * other; a point with any other label appears in none.
   */
  lemma ScatterPartition(points: seq<Point>, p: Point)
    ensures multiset(Series(points, "On-Time"))[p] + multiset(Series(points, "At Risk"))[p]
      + multiset(Series(points, "Delayed"))[p] == if p.riskLabel in SeriesLabels then multiset(points)[p] else 0
    ensures p.riskLabel !in SeriesLabels ==>
      p !in Series(points, "On-Time") && p !in Series(points, "At Risk") && p !in Series(points, "Delayed")
  {
    SeriesMultiplicity(points, "On-Time", p);
    SeriesMultiplicity(points, "At Risk", p);
    SeriesMultiplicity(points, "Delayed", p);
    assert p.riskLabel in SeriesLabels <==> p.riskLabel == "On-Time" || p.riskLabel == "At Risk" || p.riskLabel == "Delayed";
  }
}

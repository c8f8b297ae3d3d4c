/**
 * The first labelling script (feature_engineering.py at the repository
 * root): the delay thresholds of `classify_status`, the clipped warehouse
 * processing time, and each delivery partner's historical on-time rate.
 */
module FeatureEngineering {
  import opened Wrappers

  datatype Status = OnTime | AtRisk | Delayed

  /** The label string the script writes into `Delivery_Status`. */
  function Label(s: Status): string {
    match s
    case OnTime => "On-Time"
    case AtRisk => "At Risk"
    case Delayed => "Delayed"
  }

  /** How bad a status is: On-Time < At Risk < Delayed. */
  function Severity(s: Status): nat {
    match s
    case OnTime => 0
    case AtRisk => 1
    case Delayed => 2
  }

  /** `classify_status(delay)`; a NaN delay fails both comparisons and is Delayed. */
  function ClassifyStatus(delay: Float): (s: Status)
    ensures s == OnTime <==> delay.Finite? && delay.r <= 0.0
    ensures s == AtRisk <==> delay.Finite? && 0.0 < delay.r <= 2.0
    ensures s == Delayed <==> delay.NaN? || delay.r > 2.0
  {
    if delay.Finite? && delay.r <= 0.0 then OnTime
    else if delay.Finite? && delay.r <= 2.0 then AtRisk
    else Delayed
  }

  /** A larger delay never gets a less severe status. */
  lemma ClassifyStatusMonotone(a: real, b: real)
    requires a <= b
    ensures Severity(ClassifyStatus(Finite(a))) <= Severity(ClassifyStatus(Finite(b)))
  {
  }

  /** The three labels are distinct, so the label column determines the status. */
  lemma LabelsDistinct(s: Status, t: Status)
    ensures Label(s) == Label(t) <==> s == t
  {
  }

  /** `(expected_time_hours - delivery_time_hours).clip(lower=0)`. */
  function WarehouseProcessingTime(expected: real, delivery: real): (w: real)
    ensures w >= 0.0
    ensures w >= expected - delivery
    ensures w == expected - delivery || w == 0.0
  {
    if expected - delivery < 0.0 then 0.0 else expected - delivery
  }

  /** The columns of an input row that the script reads. */
  datatype DeliveryRow = DeliveryRow(partner: string, delayHours: Float, expectedHours: real, deliveryHours: real)

  /** An output row: the partner and the three added columns. */
  datatype EnrichedRow = EnrichedRow(partner: string, status: Status, warehouseTime: real, onTimeRate: real)

  /** How many of the rows belong to `partner`. */
  function PartnerCount(rows: seq<(string, Status)>, partner: string): nat {
    if rows == [] then 0
    else (if rows[0].0 == partner then 1 else 0) + PartnerCount(rows[1..], partner)
  }

  /** How many of `partner`'s rows are On-Time. */
  function OnTimeCount(rows: seq<(string, Status)>, partner: string): nat {
    if rows == [] then 0
    else (if rows[0].0 == partner && rows[0].1 == OnTime then 1 else 0) + OnTimeCount(rows[1..], partner)
  }

  lemma {:induction false} OnTimeCountBounded(rows: seq<(string, Status)>, partner: string)
    ensures OnTimeCount(rows, partner) <= PartnerCount(rows, partner)
  {
    if rows != [] {
      OnTimeCountBounded(rows[1..], partner);
    }
  }

  /** A partner that has a row has a positive count, so the group mean is defined. */
  lemma {:induction false} PartnerCounted(rows: seq<(string, Status)>, i: nat)
    requires i < |rows|
    ensures PartnerCount(rows, rows[i].0) >= 1
  {
    if i > 0 {
      PartnerCounted(rows[1..], i - 1);
    }
  }

  /** Every row of `partner` is On-Time exactly when the two counts agree. */
  lemma {:induction false} AllOnTime(rows: seq<(string, Status)>, partner: string)
    ensures OnTimeCount(rows, partner) == PartnerCount(rows, partner) <==>
      forall i :: 0 <= i < |rows| && rows[i].0 == partner ==> rows[i].1 == OnTime
  {
    if rows != [] {
      AllOnTime(rows[1..], partner);
      OnTimeCountBounded(rows[1..], partner);
      if forall i :: 0 <= i < |rows| && rows[i].0 == partner ==> rows[i].1 == OnTime {
        forall i | 0 <= i < |rows[1..]| && rows[1..][i].0 == partner
          ensures rows[1..][i].1 == OnTime
        {
          assert rows[1..][i] == rows[i + 1];
        }
      } else {
        var i :| 0 <= i < |rows| && rows[i].0 == partner && rows[i].1 != OnTime;
        if i > 0 {
          assert rows[1..][i - 1] == rows[i];
        }
      }
    }
  }

  /**
   * `groupby("delivery_partner")["Delivery_Status"].apply(lambda x: (x ==
   * "On-Time").mean())`, read back for row `i` by the left merge: the
   * share of row `i`'s partner's rows that are On-Time.
   */
  function PartnerRate(rows: seq<(string, Status)>, i: nat): (rate: real)
    requires i < |rows|
    ensures 0.0 <= rate <= 1.0
    ensures rate * PartnerCount(rows, rows[i].0) as real == OnTimeCount(rows, rows[i].0) as real
  {
    PartnerCounted(rows, i);
    OnTimeCountBounded(rows, rows[i].0);
    var rate := OnTimeCount(rows, rows[i].0) as real / PartnerCount(rows, rows[i].0) as real;
    rate
  }

  /** Two rows of the same partner get the same rate, whatever their own status. */
  lemma SamePartnerSameRate(rows: seq<(string, Status)>, i: nat, j: nat)
    requires i < |rows| && j < |rows| && rows[i].0 == rows[j].0
    ensures PartnerRate(rows, i) == PartnerRate(rows, j)
  {
  }

  /** The rate is 1 exactly when every row of that partner is On-Time. */
  lemma RateOneIffAllOnTime(rows: seq<(string, Status)>, i: nat)
    requires i < |rows|
    ensures PartnerRate(rows, i) == 1.0 <==>
      forall j :: 0 <= j < |rows| && rows[j].0 == rows[i].0 ==> rows[j].1 == OnTime
  {
    AllOnTime(rows, rows[i].0);
    PartnerCounted(rows, i);
    var k, n := OnTimeCount(rows, rows[i].0), PartnerCount(rows, rows[i].0);
    var rate := PartnerRate(rows, i);
    assert rate * n as real == k as real;
    if k == n {
      assert n as real > 0.0;
      assert rate * n as real == 1.0 * n as real;
      CancelFactor(rate, 1.0, n as real);
    }
  }

  /** The `(partner, status)` pairs that the groupby reads. */
  function Labelled(rows: seq<DeliveryRow>): (labelled: seq<(string, Status)>)
    ensures |labelled| == |rows|
  {
    seq(|rows|, i requires 0 <= i < |rows| => (rows[i].partner, ClassifyStatus(rows[i].delayHours)))
  }

  /**
   * `run_feature_engineering` up to the merge: the status and warehouse
   * columns row by row, then each row's partner rate; row order is kept.
   */
  method RunFeatureEngineering(rows: seq<DeliveryRow>) returns (out: seq<EnrichedRow>)
    ensures |out| == |rows|
    ensures forall i :: 0 <= i < |rows| ==>
      && out[i].partner == rows[i].partner
      && out[i].status == ClassifyStatus(rows[i].delayHours)
      && out[i].warehouseTime == WarehouseProcessingTime(rows[i].expectedHours, rows[i].deliveryHours)
      && out[i].onTimeRate == PartnerRate(Labelled(rows), i)
    ensures forall i :: 0 <= i < |rows| ==> out[i].warehouseTime >= 0.0 && 0.0 <= out[i].onTimeRate <= 1.0
    ensures forall i, j :: 0 <= i < |rows| && 0 <= j < |rows| && out[i].partner == out[j].partner ==>
      out[i].onTimeRate == out[j].onTimeRate
  {
    var labelled: seq<(string, Status)> := [];
    var warehouse: seq<real> := [];
    for i := 0 to |rows|
      invariant |labelled| == i && |warehouse| == i
      invariant labelled == Labelled(rows)[..i]
      invariant forall j :: 0 <= j < i ==>
        warehouse[j] == WarehouseProcessingTime(rows[j].expectedHours, rows[j].deliveryHours)
    {
      labelled := labelled + [(rows[i].partner, ClassifyStatus(rows[i].delayHours))];
      warehouse := warehouse + [WarehouseProcessingTime(rows[i].expectedHours, rows[i].deliveryHours)];
    }
    assert labelled == Labelled(rows);
    out := [];
    for i := 0 to |rows|
      invariant |out| == i
      invariant forall j :: 0 <= j < i ==>
        out[j] == EnrichedRow(rows[j].partner, labelled[j].1, warehouse[j], PartnerRate(labelled, j))
    {
      out := out + [EnrichedRow(rows[i].partner, labelled[i].1, warehouse[i], PartnerRate(labelled, i))];
    }
  }
}

/**
 * The training-set feature script (Amazon-Delivery-ML/feature_engineering.py):
 * the status-to-class mapping, the Traffic_Index proxy built by three masked
 * `+=` passes, and the Complexity_Score weighting, each checked against what
 * the serving side computes for the same row.
 */
module TrainingFeatures {
  import opened Text
  import Insights
  import Preprocessing

  /** `map_status`, given `str(x)` of the cell. */
  function MapStatus(x: string): (id: int)
    ensures id == 0 <==> Strip(Lower(x)) == "delivered"
    ensures id == 2 <==> Strip(Lower(x)) == "delayed"
    ensures id == 1 <==> Strip(Lower(x)) != "delivered" && Strip(Lower(x)) != "delayed"
  {
    var x := Strip(Lower(x));
    if x == "delivered" then 0
    else if x == "delayed" then 2
    else 1
  }

  /** Every mapped label is a key of `CLASS_MAP`. */
  lemma MapStatusInClassMap(x: string)
    ensures Insights.ClassName(MapStatus(x)).Some?
    ensures Insights.ClassName(MapStatus(x)).value == ["On-Time", "At Risk", "Delayed"][MapStatus(x)]
  {
  }

  /** Case and surrounding white space never change the class. */
  lemma MapStatusNormalised(x: string)
    ensures MapStatus(Lower(x)) == MapStatus(x)
    ensures MapStatus(Strip(x)) == MapStatus(x)
  {
    LowerIdempotent(x);
    LowerStripCommute(x);
    StripIdempotent(Lower(x));
  }

  /** The columns of a cleaned row that the script reads. */
  datatype TrainingRow = TrainingRow(
    status: string, weather: string, mode: string, region: string,
    distance: real, weight: real, cost: real)

  const StormyWeathers: seq<string> := ["stormy", "foggy", "rainy"]
  const SameDayModes: seq<string> := ["same day"]
  const CongestedRegions: seq<string> := ["central", "west"]

  function WeatherPoints(row: TrainingRow): int {
    if row.weather in StormyWeathers then 2 else 0
  }

  function ModePoints(row: TrainingRow): int {
    if row.mode in SameDayModes then 2 else 0
  }

  function RegionPoints(row: TrainingRow): int {
    if row.region in CongestedRegions then 1 else 0
  }

  /**
   * `df["Traffic_Index"] = 0` and the three `df.loc[mask, "Traffic_Index"]
   * += k` passes. Each row ends with the index the serving side computes.
   */
  method TrafficIndexColumn(rows: seq<TrainingRow>) returns (traffic: seq<int>)
    ensures |traffic| == |rows|
    ensures forall i :: 0 <= i < |rows| ==>
      traffic[i] == Preprocessing.TrafficIndex(rows[i].weather, rows[i].mode, rows[i].region)
    ensures forall i :: 0 <= i < |rows| ==> 0 <= traffic[i] <= 5
  {
    traffic := seq(|rows|, _ => 0);
    for i := 0 to |rows|
      invariant |traffic| == |rows|
      invariant forall j :: 0 <= j < |rows| ==> traffic[j] == if j < i then WeatherPoints(rows[j]) else 0
    {
      if rows[i].weather in StormyWeathers {
        traffic := traffic[i := traffic[i] + 2];
      }
    }
    for i := 0 to |rows|
      invariant |traffic| == |rows|
      invariant forall j :: 0 <= j < |rows| ==>
        traffic[j] == WeatherPoints(rows[j]) + if j < i then ModePoints(rows[j]) else 0
    {
      if rows[i].mode in SameDayModes {
        traffic := traffic[i := traffic[i] + 2];
      }
    }
    for i := 0 to |rows|
      invariant |traffic| == |rows|
      invariant forall j :: 0 <= j < |rows| ==>
        traffic[j] == WeatherPoints(rows[j]) + ModePoints(rows[j]) + if j < i then RegionPoints(rows[j]) else 0
    {
      if rows[i].region in CongestedRegions {
        traffic := traffic[i := traffic[i] + 1];
      }
    }
    forall i | 0 <= i < |rows|
      ensures traffic[i] == Preprocessing.TrafficIndex(rows[i].weather, rows[i].mode, rows[i].region)
    {
      Preprocessing.TrafficIndexClosedForm(rows[i].weather, rows[i].mode, rows[i].region);
    }
  }

  /** `distance_km * 0.4 + package_weight_kg * 0.3 + delivery_cost * 0.3`. */
  function Complexity(row: TrainingRow): real {
    row.distance * 0.4 + row.weight * 0.3 + row.cost * 0.3
  }

  /** Training and serving weigh the three inputs alike. */
  lemma ComplexityMatchesServing(row: TrainingRow)
    ensures Complexity(row) == Preprocessing.ComplexityScore(row.distance, row.weight, row.cost)
  {
  }

  /** The weights are positive and sum to 1: the score grows with each input and lies between their least and greatest. */
  lemma ComplexityIsWeightedMean(row: TrainingRow, row': TrainingRow, lo: real, hi: real)
    ensures row.distance <= row'.distance && row.weight <= row'.weight && row.cost <= row'.cost ==>
      Complexity(row) <= Complexity(row')
    ensures lo <= row.distance && lo <= row.weight && lo <= row.cost ==> lo <= Complexity(row)
    ensures row.distance <= hi && row.weight <= hi && row.cost <= hi ==> Complexity(row) <= hi
    ensures row.distance == row.weight == row.cost ==> Complexity(row) == row.distance
  {
  }

  /** A training row after the target mapping and the two engineered scores. */
  datatype LabelledRow = LabelledRow(classId: int, trafficIndex: int, complexity: real)

  /** Steps 1 to 3 of `feature_engineering`, column by column. */
  method EngineerTrainingRows(rows: seq<TrainingRow>) returns (out: seq<LabelledRow>)
    ensures |out| == |rows|
    ensures forall i :: 0 <= i < |rows| ==>
      && out[i].classId == MapStatus(rows[i].status)
      && Insights.ClassName(out[i].classId).Some?
      && out[i].trafficIndex == Preprocessing.TrafficIndex(rows[i].weather, rows[i].mode, rows[i].region)
      && out[i].complexity == Preprocessing.ComplexityScore(rows[i].distance, rows[i].weight, rows[i].cost)
  {
    var labels: seq<int> := [];
    for i := 0 to |rows|
      invariant |labels| == i
      invariant forall j :: 0 <= j < i ==> labels[j] == MapStatus(rows[j].status)
    {
      labels := labels + [MapStatus(rows[i].status)];
    }
    var traffic := TrafficIndexColumn(rows);
    out := [];
    for i := 0 to |rows|
      invariant |out| == i
      invariant forall j :: 0 <= j < i ==> out[j] == LabelledRow(labels[j], traffic[j], Complexity(rows[j]))
    {
      out := out + [LabelledRow(labels[i], traffic[i], Complexity(rows[i]))];
    }
    forall i | 0 <= i < |rows|
      ensures Insights.ClassName(out[i].classId).Some?
    {
      MapStatusInClassMap(rows[i].status);
    }
  }
}

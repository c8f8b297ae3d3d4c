/**
 * The dashboard's derived numbers (insights_service.py): class counts and
 * their percentages, the fixed seven-day trend, the mapping of an uploaded
 * business row onto a prediction payload, and the upload pipeline's column
 * check and prediction summary.
 *
 * Python floats are exact reals plus NaN; `round(…, 2)`, `log1p`, the CSV
 * reader's number formatting and parsing, and the classifier are left out
 * or passed in as parameters.
 */
module Insights {
  import opened Wrappers
  import Text
  import Schemas
  import Preprocessing

  /** `CLASS_MAP` (config.py): the class id each label name stands for. */
  function ClassName(id: int): (r: Option<string>)
    ensures r.Some? <==> 0 <= id <= 2
  {
    if id == 0 then Some("On-Time")
    else if id == 1 then Some("At Risk")
    else if id == 2 then Some("Delayed")
    else None
  }

  /** The three counts `_target_distribution` returns, under the keys On-Time, At Risk and Delayed. */
  datatype Distribution = Distribution(onTime: nat, atRisk: nat, delayed: nat) {
    function Total(): nat {
      onTime + atRisk + delayed
    }
  }

  /** How many statuses `map(CLASS_MAP)` turns into `name` (ids outside the map become NaN and are not counted). */
  function CountLabel(statuses: seq<int>, name: string): (n: nat)
    ensures n <= |statuses|
  {
    if statuses == [] then 0
    else (if ClassName(statuses[0]) == Some(name) then 1 else 0) + CountLabel(statuses[1..], name)
  }

  /** Counting a label is counting the occurrences of its class id. */
  lemma {:induction false} CountLabelIsMultiplicity(statuses: seq<int>, id: int)
    requires 0 <= id <= 2
    ensures CountLabel(statuses, ClassName(id).value) == multiset(statuses)[id]
  {
    if statuses != [] {
      CountLabelIsMultiplicity(statuses[1..], id);
      assert statuses == [statuses[0]] + statuses[1..];
      assert multiset(statuses) == multiset{statuses[0]} + multiset(statuses[1..]);
    }
  }

  /** `_target_distribution(df)` over the `Delivery_Status` column. */
  function TargetDistribution(statuses: seq<int>): (d: Distribution)
    ensures d.onTime == multiset(statuses)[0]
    ensures d.atRisk == multiset(statuses)[1]
    ensures d.delayed == multiset(statuses)[2]
  {
    CountLabelIsMultiplicity(statuses, 0);
    CountLabelIsMultiplicity(statuses, 1);
    CountLabelIsMultiplicity(statuses, 2);
    Distribution(CountLabel(statuses, "On-Time"), CountLabel(statuses, "At Risk"), CountLabel(statuses, "Delayed"))
  }

  /** How many statuses are class ids, counted independently of the labels. */
  function KnownCount(statuses: seq<int>): nat {
    if statuses == [] then 0 else (if 0 <= statuses[0] <= 2 then 1 else 0) + KnownCount(statuses[1..])
  }

  /** Each status is counted under at most one label, and under one exactly when it is a class id. */
  lemma {:induction false} LabelCountsSum(statuses: seq<int>)
    ensures CountLabel(statuses, "On-Time") + CountLabel(statuses, "At Risk") + CountLabel(statuses, "Delayed")
      == KnownCount(statuses)
  {
    if statuses != [] {
      LabelCountsSum(statuses[1..]);
    }
  }

  lemma {:induction false} KnownCountBounds(statuses: seq<int>)
    ensures KnownCount(statuses) <= |statuses|
    ensures (forall i :: 0 <= i < |statuses| ==> 0 <= statuses[i] <= 2) ==> KnownCount(statuses) == |statuses|
  {
    if statuses != [] {
      KnownCountBounds(statuses[1..]);
      assert forall i :: 1 <= i < |statuses| ==> statuses[1..][i - 1] == statuses[i];
    }
  }

  /** The counts add up to the number of rows whose status is 0, 1 or 2, so to all rows when every status is. */
  lemma TargetDistributionTotal(statuses: seq<int>)
    ensures TargetDistribution(statuses).Total() == KnownCount(statuses) <= |statuses|
    ensures (forall i :: 0 <= i < |statuses| ==> 0 <= statuses[i] <= 2) ==> TargetDistribution(statuses).Total() == |statuses|
  {
    LabelCountsSum(statuses);
    KnownCountBounds(statuses);
  }

  /** `value / total * 100` for a count within a positive total: a share between 0 and 100. */
  function Percent(count: nat, total: nat): (p: real)
    requires count <= total && total >= 1
    ensures 0.0 <= p <= 100.0
    ensures p * total as real == 100.0 * count as real
    ensures count == 0 ==> p == 0.0
  {
    var q := count as real / total as real;
    assert q * total as real == count as real;
    q * 100.0
  }

  /** `_risk_percentages`, before rounding to two places; the total is `max(sum, 1)`. */
  datatype Percentages = Percentages(onTime: real, atRisk: real, delayed: real)

  function RiskPercentages(d: Distribution): (p: Percentages)
    ensures 0.0 <= p.onTime <= 100.0 && 0.0 <= p.atRisk <= 100.0 && 0.0 <= p.delayed <= 100.0
    ensures d == Distribution(0, 0, 0) ==> p == Percentages(0.0, 0.0, 0.0)
  {
    var total := if d.Total() > 1 then d.Total() else 1;
    Percentages(Percent(d.onTime, total), Percent(d.atRisk, total), Percent(d.delayed, total))
  }

  /** With something counted, each share is its count over the total, times 100. */
  lemma RiskPercentagesShares(d: Distribution)
    requires d.Total() > 0
    ensures RiskPercentages(d).onTime * d.Total() as real == 100.0 * d.onTime as real
    ensures RiskPercentages(d).atRisk * d.Total() as real == 100.0 * d.atRisk as real
    ensures RiskPercentages(d).delayed * d.Total() as real == 100.0 * d.delayed as real
  {
    var t := d.Total();
    assert RiskPercentages(d) == Percentages(Percent(d.onTime, t), Percent(d.atRisk, t), Percent(d.delayed, t));
  }

  /** With at least one counted row the percentages add up to 100. */
  lemma PercentagesSumTo100(d: Distribution)
    requires d.Total() > 0
    ensures RiskPercentages(d).onTime + RiskPercentages(d).atRisk + RiskPercentages(d).delayed == 100.0
  {
    var p, t := RiskPercentages(d), d.Total() as real;
    RiskPercentagesShares(d);
    calc {
      (p.onTime + p.atRisk + p.delayed) * t;
      p.onTime * t + p.atRisk * t + p.delayed * t;
      100.0 * d.onTime as real + 100.0 * d.atRisk as real + 100.0 * d.delayed as real;
      100.0 * t;
    }
    CancelFactor(p.onTime + p.atRisk + p.delayed, 100.0, t);
  }

  /** One entry of `_recent_trend`. */
  datatype TrendPoint = TrendPoint(day: string, onTime: int, atRisk: int, delayed: int)

  /**
   * The entry for day `day`; `int(day * 0.7)` is written `7 * day / 10`, the
   * same for days 1 to 7.
   */
  function TrendAt(day: int): TrendPoint
    requires day >= 1
  {
    TrendPoint("Day " + Text.DecimalString(day), if 78 - day > 60 then 78 - day else 60,
               if 15 + day < 30 then 15 + day else 30, if 7 + 7 * day / 10 < 20 then 7 + 7 * day / 10 else 20)
  }

  /** On-Time never rises and stays at or above 60; At Risk and Delayed never fall and stay at or below 30 and 20. */
  lemma TrendShape(a: int, b: int)
    requires 1 <= a <= b
    ensures TrendAt(b).onTime <= TrendAt(a).onTime && TrendAt(b).onTime >= 60
    ensures TrendAt(a).atRisk <= TrendAt(b).atRisk <= 30
    ensures TrendAt(a).delayed <= TrendAt(b).delayed <= 20
  {
    assert 7 * a / 10 <= 7 * b / 10;
  }

  /** `_recent_trend()`: appends the entries for days 1 to 7. */
  method RecentTrend() returns (timeline: seq<TrendPoint>)
    ensures |timeline| == 7
    ensures forall i :: 0 <= i < 7 ==> timeline[i] == TrendAt(i + 1)
    ensures forall i :: 0 <= i < 7 ==> timeline[i].day == "Day " + [('1' as int + i) as char]
    ensures forall i, j :: 0 <= i <= j < 7 ==>
      && timeline[j].onTime <= timeline[i].onTime
      && timeline[i].atRisk <= timeline[j].atRisk
      && timeline[i].delayed <= timeline[j].delayed
    ensures forall i :: 0 <= i < 7 ==> timeline[i].onTime >= 60 && timeline[i].atRisk <= 30 && timeline[i].delayed <= 20
  {
    timeline := [];
    for day := 1 to 8
      invariant |timeline| == day - 1
      invariant forall i :: 0 <= i < day - 1 ==> timeline[i] == TrendAt(i + 1)
    {
      timeline := timeline + [TrendAt(day)];
    }
    forall i, j | 0 <= i <= j < 7
      ensures timeline[j].onTime <= timeline[i].onTime && timeline[i].atRisk <= timeline[j].atRisk
      ensures timeline[i].delayed <= timeline[j].delayed
      ensures timeline[i].onTime >= 60 && timeline[i].atRisk <= 30 && timeline[i].delayed <= 20
    {
      TrendShape(i + 1, j + 1);
      TrendShape(i + 1, i + 1);
    }
  }

  /** A cell of an uploaded CSV row: text, a number, or a missing value (which pandas reads as NaN). */
  datatype Cell = Text(s: string) | Number(x: real) | Missing

  /**
   * `str(cell)`: text as it is, a missing value as "nan", and a number as
   * `show` renders it.
   */
  function CellText(c: Cell, show: real -> string): string {
    match c
    case Text(s) => s
    case Number(x) => show(x)
    case Missing => "nan"
  }

  /** `float(cell)`: None where Python raises ValueError; `parse` is Python's reading of a numeric string. */
  function CellFloat(c: Cell, parse: string -> Option<Float>): Option<Float> {
    match c
    case Text(s) => parse(s)
    case Number(x) => Some(Finite(x))
    case Missing => Some(NaN)
  }

  /** Python's `max(a, b)`: `a` unless `b > a`, which is false for NaN. */
  function PyMax(a: real, b: Float): (r: real)
    ensures r >= a
    ensures b.Finite? ==> r >= b.r && (r == a || r == b.r)
  {
    if b.Finite? && b.r > a then b.r else a
  }

  /** Python's `min(a, b)`: `a` unless `b < a`, which is false for NaN. */
  function PyMin(a: real, b: Float): (r: real)
    ensures r <= a
    ensures b.Finite? ==> r <= b.r && (r == a || r == b.r)
  {
    if b.Finite? && b.r < a then b.r else a
  }

  function Div(f: Float, k: real): Float
    requires k != 0.0
  {
    if f.Finite? then Finite(f.r / k) else NaN
  }

  /** `row.get(key, default)`. */
  function Get(row: map<string, Cell>, key: string, default: Cell): Cell {
    if key in row then row[key] else default
  }

  /** `weather_map.get(weather, "clear")`. */
  function WeatherFor(weather: string): string {
    if weather == "clear" then "clear"
    else if weather == "rain" || weather == "rainy" then "rainy"
    else if weather == "storm" || weather == "stormy" then "stormy"
    else if weather == "fog" || weather == "foggy" then "foggy"
    else "clear"
  }

  /** The rating rule: a historical value at most 1 is a fraction and is scaled by 5, then clamped into [1, 5]. */
  function RatingFor(historical: Float): (rating: real)
    ensures 1.0 <= rating <= 5.0
    ensures historical.Finite? && 0.2 <= historical.r <= 1.0 ==> rating == historical.r * 5.0
    ensures historical.Finite? && 1.0 < historical.r <= 5.0 ==> rating == historical.r
    ensures historical.NaN? ==> rating == 5.0
  {
    if historical.Finite? && historical.r <= 1.0 then PyMax(1.0, Finite(PyMin(5.0, Finite(historical.r * 5.0))))
    else PyMax(1.0, Finite(PyMin(5.0, historical)))
  }

  /** The four numeric inputs of an upload row with the defaults `_map_upload_payload` uses. */
  function Historical(row: map<string, Cell>): Cell { Get(row, "historical_performance", Number(0.75)) }
  function OrderVolume(row: map<string, Cell>): Cell { Get(row, "order_volume", Number(1.0)) }
  function ShipmentDistance(row: map<string, Cell>): Cell { Get(row, "shipment_distance", Number(1.0)) }
  function WarehouseTime(row: map<string, Cell>): Cell { Get(row, "warehouse_time", Number(1.0)) }

  /** The traffic level and weather after `str(…).lower().strip()`. */
  function TrafficLevel(row: map<string, Cell>, show: real -> string): string {
    Text.Strip(Text.Lower(CellText(Get(row, "traffic_level", Text("medium")), show)))
  }
  function WeatherIndicator(row: map<string, Cell>, show: real -> string): string {
    Text.Strip(Text.Lower(CellText(Get(row, "weather_indicator", Text("clear")), show)))
  }

  /**
   * The ten fields `_map_upload_payload(row)` produces, as a prediction
   * request: the fixed partner, package and vehicle, the mode and region
   * derived from the traffic level, the normalised weather, the clamped
   * rating and the floored quantities, and the cost formula (before
   * rounding). A numeric cell that `float()` rejects raises ValueError,
   * reported here with the name of its column; the cells are converted in
   * the source's order.
   */
  function UploadRequest(row: map<string, Cell>, show: real -> string, parse: string -> Option<Float>)
    : (r: Result<Schemas.PredictRequest, string>)
    ensures r.Success? <==>
      && CellFloat(Historical(row), parse).Some? && CellFloat(OrderVolume(row), parse).Some?
      && CellFloat(ShipmentDistance(row), parse).Some? && CellFloat(WarehouseTime(row), parse).Some?
    ensures r.Failure? ==> r.error in RequiredUploadColumns
    ensures CellFloat(Historical(row), parse).None? ==> r == Failure("historical_performance")
    ensures CellFloat(Historical(row), parse).Some? && CellFloat(OrderVolume(row), parse).None? ==>
      r == Failure("order_volume")
    ensures (CellFloat(Historical(row), parse).Some? && CellFloat(OrderVolume(row), parse).Some?
             && CellFloat(ShipmentDistance(row), parse).None?) ==> r == Failure("shipment_distance")
    ensures (CellFloat(Historical(row), parse).Some? && CellFloat(OrderVolume(row), parse).Some?
             && CellFloat(ShipmentDistance(row), parse).Some? && CellFloat(WarehouseTime(row), parse).None?) ==>
      r == Failure("warehouse_time")
    ensures r.Success? ==>
      && r.value.deliveryRating == RatingFor(CellFloat(Historical(row), parse).value)
      && r.value.distanceKm == PyMax(1.0, CellFloat(ShipmentDistance(row), parse).value)
      && r.value.packageWeightKg == PyMax(0.5, Div(CellFloat(OrderVolume(row), parse).value, 10.0))
      && r.value.deliveryCost == r.value.distanceKm * 4.2 + r.value.packageWeightKg * 18.0
                                 + PyMax(1.0, CellFloat(WarehouseTime(row), parse).value) * 5.5
    ensures r.Success? ==>
      && 1.0 <= r.value.deliveryRating <= 5.0
      && r.value.distanceKm >= 1.0
      && r.value.packageWeightKg >= 0.5
      && r.value.deliveryCost >= 1.0 * 4.2 + 0.5 * 18.0 + 1.0 * 5.5
  {
    var traffic := TrafficLevel(row, show);
    var weather := WeatherIndicator(row, show);
    match CellFloat(Historical(row), parse)
    case None => Failure("historical_performance")
    case Some(historical) =>
      var rating := RatingFor(historical);
      var mode := if traffic == "low" || traffic == "medium" then "same day" else "standard";
      var region := if traffic == "high" then "west" else "north";
      match CellFloat(OrderVolume(row), parse)
      case None => Failure("order_volume")
      case Some(volume) =>
        var weight := PyMax(0.5, Div(volume, 10.0));
        match CellFloat(ShipmentDistance(row), parse)
        case None => Failure("shipment_distance")
        case Some(shipment) =>
          var distance := PyMax(1.0, shipment);
          match CellFloat(WarehouseTime(row), parse)
          case None => Failure("warehouse_time")
          case Some(warehouse) =>
            var warehouseTime := PyMax(1.0, warehouse);
            var cost := distance * 4.2 + weight * 18.0 + warehouseTime * 5.5;
            Success(Schemas.PredictRequest("delhivery", "electronics", "bike", mode, region, WeatherFor(weather),
                                           distance, weight, rating, cost))
  }

  /** `_map_upload_payload(row)`: the request's fields as the payload dictionary `build_feature_frame` reads. */
  function MapUploadPayload(row: map<string, Cell>, show: real -> string, parse: string -> Option<Float>)
    : (r: Result<map<string, Preprocessing.Value>, string>)
    ensures r.Success? <==> UploadRequest(row, show, parse).Success?
    ensures r.Success? ==> Preprocessing.HasInputs(r.value)
    ensures r.Failure? ==> r.error == UploadRequest(row, show, parse).error
  {
    match UploadRequest(row, show, parse)
    case Failure(column) => Failure(column)
    case Success(request) => Success(Preprocessing.RequestPayload(request))
  }

  /**
   * The derived mode, region and weather: "low" and "medium" traffic give
   * same-day delivery, "high" traffic the west region, and the weather
   * synonyms are normalised with anything unknown read as clear.
   */
  lemma UploadCategories(row: map<string, Cell>, show: real -> string, parse: string -> Option<Float>)
    requires UploadRequest(row, show, parse).Success?
    ensures var q := UploadRequest(row, show, parse).value;
      var traffic := TrafficLevel(row, show);
      && (q.deliveryMode == "same day" <==> traffic == "low" || traffic == "medium")
      && (q.deliveryMode != "same day" ==> q.deliveryMode == "standard")
      && (q.region == "west" <==> traffic == "high")
      && (q.region != "west" ==> q.region == "north")
      && q.weatherCondition == WeatherFor(WeatherIndicator(row, show))
      && q.deliveryPartner == "delhivery" && q.packageType == "electronics" && q.vehicleType == "bike"
  {
  }

  /** Weather synonyms map onto the schema's names, and every result is a weather the schema accepts. */
  lemma WeatherSynonyms(weather: string)
    ensures WeatherFor("rain") == "rainy" && WeatherFor("storm") == "stormy" && WeatherFor("fog") == "foggy"
    ensures WeatherFor(weather) in Schemas.Weathers
    ensures weather !in ["clear", "rain", "rainy", "storm", "stormy", "fog", "foggy"] ==> WeatherFor(weather) == "clear"
  {
  }

  /** Every categorical value of a mapped upload row lies in the literal set the request schema allows. */
  lemma UploadCategoriesValid(row: map<string, Cell>, show: real -> string, parse: string -> Option<Float>)
    requires UploadRequest(row, show, parse).Success?
    ensures Schemas.CategoriesValid(UploadRequest(row, show, parse).value)
  {
    UploadCategories(row, show, parse);
    WeatherSynonyms(WeatherIndicator(row, show));
  }

  /** `s.lower().strip()` ignores capitals and surrounding white space in `s`, and gives a lower-case stripped string. */
  lemma LowerStripNormalises(s: string)
    ensures Text.Strip(Text.Lower(Text.Lower(s))) == Text.Strip(Text.Lower(s))
    ensures Text.Strip(Text.Lower(Text.Strip(s))) == Text.Strip(Text.Lower(s))
    ensures Text.Stripped(Text.Strip(Text.Lower(s))) && Text.Lower(Text.Strip(Text.Lower(s))) == Text.Strip(Text.Lower(s))
  {
    Text.LowerIdempotent(s);
    Text.LowerStripCommute(s);
    Text.StripIdempotent(Text.Lower(s));
    Text.StripResult(Text.Lower(s));
    Text.LowerStripCommute(Text.Lower(s));
  }

  /**
   * Capitals and surrounding white space in a row's traffic level never
   * matter, the level read is always lower-case and stripped, and a row
   * without the column reads as "medium".
   */
  lemma TrafficLevelNormalised(row: map<string, Cell>, show: real -> string, level: string)
    ensures TrafficLevel(row["traffic_level" := Text(Text.Lower(level))], show) == TrafficLevel(row["traffic_level" := Text(level)], show)
    ensures TrafficLevel(row["traffic_level" := Text(Text.Strip(level))], show) == TrafficLevel(row["traffic_level" := Text(level)], show)
    ensures Text.Stripped(TrafficLevel(row, show)) && Text.Lower(TrafficLevel(row, show)) == TrafficLevel(row, show)
    ensures "traffic_level" !in row ==> TrafficLevel(row, show) == "medium"
  {
    LowerStripNormalises(level);
    LowerStripNormalises(CellText(Get(row, "traffic_level", Text("medium")), show));
    if "traffic_level" !in row {
      assert Text.Lower("medium") == "medium";
      assert Text.Strip("medium") == "medium";
    }
  }

  const RequiredUploadColumns: seq<string> := [
    "order_volume", "warehouse_time", "shipment_distance",
    "traffic_level", "weather_indicator", "historical_performance"
  ]

  /** `[col for col in required if col not in columns]`. */
  function MissingFrom(required: seq<string>, columns: seq<string>): (missing: seq<string>)
    ensures forall c :: c in missing <==> c in required && c !in columns
    ensures |missing| <= |required|
  {
    if required == [] then []
    else (if required[0] in columns then [] else [required[0]]) + MissingFrom(required[1..], columns)
  }

  /**
   * The filter keeps the order of the required list: the missing columns of
   * a concatenation are those of the first part followed by those of the
   * second.
   */
  lemma {:induction false} MissingFromAppend(a: seq<string>, b: seq<string>, columns: seq<string>)
    ensures MissingFrom(a + b, columns) == MissingFrom(a, columns) + MissingFrom(b, columns)
  {
    if a == [] {
      assert a + b == b;
    } else {
      var head := if a[0] in columns then [] else [a[0]];
      assert (a + b)[0] == a[0] && (a + b)[1..] == a[1..] + b;
      calc {
        MissingFrom(a + b, columns);
        head + MissingFrom(a[1..] + b, columns);
        { MissingFromAppend(a[1..], b, columns); }
        head + (MissingFrom(a[1..], columns) + MissingFrom(b, columns));
        (head + MissingFrom(a[1..], columns)) + MissingFrom(b, columns);
        MissingFrom(a, columns) + MissingFrom(b, columns);
      }
    }
  }

  /** `df.head(10).fillna("")`: the first ten rows with missing cells emptied. */
  function FillNa(row: map<string, Cell>): (r: map<string, Cell>)
    ensures r.Keys == row.Keys
    ensures forall k :: k in row ==> (r[k] == if row[k].Missing? then Text("") else row[k])
  {
    map k | k in row :: if row[k].Missing? then Text("") else row[k]
  }

  /** `df.head(10).fillna("")` over the whole table. */
  function Preview(rows: seq<map<string, Cell>>): (preview: seq<map<string, Cell>>)
    ensures |preview| == if |rows| < 10 then |rows| else 10
    ensures forall i :: 0 <= i < |preview| ==> preview[i] == FillNa(rows[i])
  {
    seq(if |rows| < 10 then |rows| else 10, i requires 0 <= i < |rows| && i < 10 => FillNa(rows[i]))
  }

  datatype UploadError = MissingColumns(columns: seq<string>) | NotANumber(column: string) | UnknownClass(predicted: int)

  /** The response of `process_uploaded_dataset`, without the `basic_stats` means. */
  datatype UploadSummary = UploadSummary(
    rows: nat, columns: seq<string>, preview: seq<map<string, Cell>>, prediction: Distribution)

  /**
   * The feature row `build_feature_frame` makes from a request's payload,
   * given element by element, so that a reasoning step about one row does
   * not have to unfold the payload dictionary.
   */
  function RequestFrame(request: Schemas.PredictRequest, log1p: real -> real): (frame: seq<real>)
    requires request.distanceKm + 1.0 != 0.0 && request.packageWeightKg + 1.0 != 0.0
    ensures |frame| == |Preprocessing.FeatureColumns|
  {
    seq(|Preprocessing.FeatureColumns|, i requires 0 <= i < |Preprocessing.FeatureColumns| =>
      Preprocessing.FeatureFrame(Preprocessing.RequestPayload(request), log1p)[i])
  }

  lemma RequestFrameIsFeatureFrame(request: Schemas.PredictRequest, log1p: real -> real)
    requires request.distanceKm + 1.0 != 0.0 && request.packageWeightKg + 1.0 != 0.0
    ensures RequestFrame(request, log1p) == Preprocessing.FeatureFrame(Preprocessing.RequestPayload(request), log1p)
  {
  }

  /** The class the model predicts for an upload row: None where the row cannot be mapped. */
  function PredictedClass(row: map<string, Cell>, show: real -> string, parse: string -> Option<Float>,
                          log1p: real -> real, predict: seq<real> -> int): Option<int> {
    match UploadRequest(row, show, parse)
    case Failure(_) => None
    case Success(request) => Some(predict(RequestFrame(request, log1p)))
  }

  /** The row maps onto a payload and the model's answer for it is a class id. */
  predicate RowPredicts(row: map<string, Cell>, show: real -> string, parse: string -> Option<Float>,
                        log1p: real -> real, predict: seq<real> -> int) {
    var c := PredictedClass(row, show, parse, log1p, predict);
    c.Some? && 0 <= c.value <= 2
  }

  /**
   * The class of each of the first `n` elements of `xs`, in order, when
   * every one of them has a class in 0..2; None as soon as one has none.
   */
  function Classified<T>(xs: seq<T>, n: nat, classify: T -> Option<int>): (r: Option<seq<int>>)
    requires n <= |xs|
    ensures r.Some? ==> |r.value| == n && forall i :: 0 <= i < n ==> 0 <= r.value[i] <= 2
  {
    if n == 0 then Some([])
    else
      match Classified(xs, n - 1, classify)
      case None => None
      case Some(init) =>
        var c := classify(xs[n - 1]);
        if c.Some? && 0 <= c.value <= 2 then Some(init + [c.value]) else None
  }

  /** `Classified` succeeds exactly when each of the elements has a class in 0..2, and then lists those classes. */
  lemma {:induction false} ClassifiedIff<T>(xs: seq<T>, n: nat, classify: T -> Option<int>)
    requires n <= |xs|
    ensures Classified(xs, n, classify).Some? <==>
      forall i :: 0 <= i < n ==> classify(xs[i]).Some? && 0 <= classify(xs[i]).value <= 2
    ensures Classified(xs, n, classify).Some? ==>
      forall i :: 0 <= i < n ==> Classified(xs, n, classify).value[i] == classify(xs[i]).value
  {
    if n > 0 {
      ClassifiedIff(xs, n - 1, classify);
    }
  }

  /** If the first `n` elements classify, so do the first `k` for any `k` up to `n`. */
  lemma {:induction false} ClassifiedPrefix<T>(xs: seq<T>, k: nat, n: nat, classify: T -> Option<int>)
    requires k <= n <= |xs| && Classified(xs, n, classify).Some?
    ensures Classified(xs, k, classify).Some?
    decreases n
  {
    if k < n {
      ClassifiedPrefix(xs, k, n - 1, classify);
    }
  }

  /** The model's class for one uploaded row, as a function value. */
  function Classifier(show: real -> string, parse: string -> Option<Float>, log1p: real -> real,
                      predict: seq<real> -> int): map<string, Cell> -> Option<int> {
    row => PredictedClass(row, show, parse, log1p, predict)
  }

  /** The predicted class of every row, in row order, when each row predicts. */
  function Predictions(rows: seq<map<string, Cell>>, show: real -> string, parse: string -> Option<Float>,
                       log1p: real -> real, predict: seq<real> -> int): Option<seq<int>> {
    Classified(rows, |rows|, Classifier(show, parse, log1p, predict))
  }

  /**
   * One pass of the prediction loop of `process_uploaded_dataset`: map the
   * row, build its feature row and ask the model; a cell that is not a
   * number fails with its column.
   */
  method PredictUploadRow(row: map<string, Cell>, show: real -> string, parse: string -> Option<Float>,
                          log1p: real -> real, predict: seq<real> -> int) returns (r: Result<int, string>)
    ensures r.Success? <==> PredictedClass(row, show, parse, log1p, predict).Some?
    ensures r.Success? ==> r.value == PredictedClass(row, show, parse, log1p, predict).value
    ensures r.Failure? ==> r.error in RequiredUploadColumns
  {
    var mapped := MapUploadPayload(row, show, parse);
    if mapped.Failure? {
      return Failure(mapped.error);
    }
    var payload := new Preprocessing.Dict(mapped.value);
    var frame := Preprocessing.BuildFeatureFrame(payload, log1p);
    RequestFrameIsFeatureFrame(UploadRequest(row, show, parse).value, log1p);
    r := Success(predict(frame));
  }

  /** One pass of the prediction loop with its two checks: a cell that is not a number, then a class not in `CLASS_MAP`. */
  method PredictCheckedRow(row: map<string, Cell>, show: real -> string, parse: string -> Option<Float>,
                           log1p: real -> real, predict: seq<real> -> int) returns (r: Result<int, UploadError>)
    ensures r.Success? <==> RowPredicts(row, show, parse, log1p, predict)
    ensures r.Success? ==> r.value == PredictedClass(row, show, parse, log1p, predict).value
    ensures r.Failure? ==> (r.error.NotANumber? && r.error.column in RequiredUploadColumns) || r.error.UnknownClass?
  {
    var outcome := PredictUploadRow(row, show, parse, log1p, predict);
    if outcome.Failure? {
      return Failure(NotANumber(outcome.error));
    }
    var id := outcome.value;
    if ClassName(id).None? {
      return Failure(UnknownClass(id));
    }
    r := Success(id);
  }

  /** Row `i` of the prediction loop, appended to the classes of the rows before it. */
  method PredictStep(rows: seq<map<string, Cell>>, i: nat, predicted: seq<int>, show: real -> string,
                     parse: string -> Option<Float>, log1p: real -> real, predict: seq<real> -> int)
    returns (r: Result<seq<int>, UploadError>)
    requires i < |rows| && Classified(rows, i, Classifier(show, parse, log1p, predict)) == Some(predicted)
    ensures r.Success? <==> Classified(rows, i + 1, Classifier(show, parse, log1p, predict)).Some?
    ensures r.Success? ==> Some(r.value) == Classified(rows, i + 1, Classifier(show, parse, log1p, predict))
    ensures r.Failure? ==> (r.error.NotANumber? && r.error.column in RequiredUploadColumns) || r.error.UnknownClass?
  {
    var outcome := PredictCheckedRow(rows[i], show, parse, log1p, predict);
    if outcome.Failure? {
      return Failure(outcome.error);
    }
    r := Success(predicted + [outcome.value]);
  }

  /**
   * The prediction loop of `process_uploaded_dataset`: every row in order,
   * stopping at the first row that is not numeric or whose class is not in
   * `CLASS_MAP`.
   */
  method PredictRows(rows: seq<map<string, Cell>>, show: real -> string, parse: string -> Option<Float>,
                     log1p: real -> real, predict: seq<real> -> int) returns (r: Result<seq<int>, UploadError>)
    ensures r.Success? <==> Predictions(rows, show, parse, log1p, predict).Some?
    ensures r.Success? ==> Some(r.value) == Predictions(rows, show, parse, log1p, predict)
    ensures r.Failure? ==> (r.error.NotANumber? && r.error.column in RequiredUploadColumns) || r.error.UnknownClass?
  {
    var classify := Classifier(show, parse, log1p, predict);
    var predicted: seq<int> := [];
    for i := 0 to |rows|
      invariant Classified(rows, i, classify) == Some(predicted)
    {
      var step := PredictStep(rows, i, predicted, show, parse, log1p, predict);
      if step.Failure? {
        if Classified(rows, |rows|, classify).Some? {
          ClassifiedPrefix(rows, i + 1, |rows|, classify);
          assert false;
        }
        return Failure(step.error);
      }
      predicted := step.value;
    }
    r := Success(predicted);
  }

  /**
   * `process_uploaded_dataset`: the required-column check, then for each row
   * the mapping, the feature row and the model's class, then the preview
   * and the per-class counts of the predictions.
   */
  method ProcessUploadedDataset(columns: seq<string>, rows: seq<map<string, Cell>>, show: real -> string,
                                parse: string -> Option<Float>, log1p: real -> real, predict: seq<real> -> int)
    returns (r: Result<UploadSummary, UploadError>)
    ensures MissingFrom(RequiredUploadColumns, columns) != [] ==>
      r == Failure(MissingColumns(MissingFrom(RequiredUploadColumns, columns)))
    ensures r.Success? <==>
      && MissingFrom(RequiredUploadColumns, columns) == []
      && Predictions(rows, show, parse, log1p, predict).Some?
    ensures r.Success? ==>
      && r.value.rows == |rows| && r.value.columns == columns
      && |r.value.preview| == (if |rows| < 10 then |rows| else 10)
      && (forall i :: 0 <= i < |r.value.preview| ==> r.value.preview[i] == FillNa(rows[i]))
      && r.value.prediction.Total() == |rows|
      && r.value.prediction == TargetDistribution(Predictions(rows, show, parse, log1p, predict).value)
  {
    var missing := MissingFrom(RequiredUploadColumns, columns);
    if missing != [] {
      return Failure(MissingColumns(missing));
    }
    var predicted := PredictRows(rows, show, parse, log1p, predict);
    if predicted.Failure? {
      return Failure(predicted.error);
    }
    var preview := Preview(rows);
    TargetDistributionTotal(predicted.value);
    r := Success(UploadSummary(|rows|, columns, preview, TargetDistribution(predicted.value)));
  }
}

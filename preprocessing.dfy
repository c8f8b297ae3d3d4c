/**
 * Serving-time feature construction (preprocessing.py): the traffic index,
 * the engineered features written into the payload dictionary, and the
 * 45-column model row with one-hot encoded categories.
 *
 * `np.log1p` is a parameter; every other formula is computed on exact reals.
 */
module Preprocessing {
  import Schemas

  /** A value of the payload dictionary. */
  datatype Value = Num(n: real) | Str(s: string)

  const FeatureColumns: seq<string> := [
    "distance_km", "package_weight_kg", "delivery_rating", "delivery_cost",
    "Traffic_Index", "Complexity_Score", "Distance_Weight", "Cost_per_KM",
    "Cost_per_Weight", "Log_Distance", "Log_Weight", "Log_Cost",
    "delivery_partner_blue dart", "delivery_partner_delhivery", "delivery_partner_dhl",
    "delivery_partner_ecom express", "delivery_partner_ekart", "delivery_partner_fedex",
    "delivery_partner_shadowfax", "delivery_partner_xpressbees",
    "package_type_clothing", "package_type_cosmetics", "package_type_documents",
    "package_type_electronics", "package_type_fragile items", "package_type_furniture",
    "package_type_groceries", "package_type_pharmacy",
    "vehicle_type_ev bike", "vehicle_type_ev van", "vehicle_type_scooter",
    "vehicle_type_truck", "vehicle_type_van",
    "delivery_mode_same day", "delivery_mode_standard", "delivery_mode_two day",
    "region_east", "region_north", "region_south", "region_west",
    "weather_condition_cold", "weather_condition_foggy", "weather_condition_hot",
    "weather_condition_rainy", "weather_condition_stormy"
  ]

  /** The columns copied from the engineered payload, in the order of the copying loop. */
  const NumericColumns: seq<string> := [
    "distance_km", "package_weight_kg", "delivery_rating", "delivery_cost",
    "Traffic_Index", "Complexity_Score", "Distance_Weight", "Cost_per_KM",
    "Cost_per_Weight", "Log_Distance", "Log_Weight", "Log_Cost"
  ]

  const PartnerColumns: seq<string> := [
    "delivery_partner_blue dart", "delivery_partner_delhivery", "delivery_partner_dhl",
    "delivery_partner_ecom express", "delivery_partner_ekart", "delivery_partner_fedex",
    "delivery_partner_shadowfax", "delivery_partner_xpressbees"]
  const PackageColumns: seq<string> := [
    "package_type_clothing", "package_type_cosmetics", "package_type_documents",
    "package_type_electronics", "package_type_fragile items", "package_type_furniture",
    "package_type_groceries", "package_type_pharmacy"]
  const VehicleColumns: seq<string> := [
    "vehicle_type_ev bike", "vehicle_type_ev van", "vehicle_type_scooter",
    "vehicle_type_truck", "vehicle_type_van"]
  const ModeColumns: seq<string> := ["delivery_mode_same day", "delivery_mode_standard", "delivery_mode_two day"]
  const RegionColumns: seq<string> := ["region_east", "region_north", "region_south", "region_west"]
  const WeatherColumns: seq<string> := [
    "weather_condition_cold", "weather_condition_foggy", "weather_condition_hot",
    "weather_condition_rainy", "weather_condition_stormy"]

  /** `category_to_col`, in its insertion order: each categorical field with its one-hot columns. */
  const CategoryToColumns: seq<(string, seq<string>)> := [
    ("delivery_partner", PartnerColumns),
    ("package_type", PackageColumns),
    ("vehicle_type", VehicleColumns),
    ("delivery_mode", ModeColumns),
    ("region", RegionColumns),
    ("weather_condition", WeatherColumns)
  ]

  const BadWeather: seq<string> := ["stormy", "foggy", "rainy"]
  const BusyRegions: seq<string> := ["central", "west"]

  /** `_traffic_index`: 2 for bad weather, 2 for same-day delivery, 1 for a busy region. */
  function TrafficIndex(weather: string, mode: string, region: string): (t: int)
    ensures 0 <= t <= 5
  {
    var traffic := 0;
    var traffic := if weather in BadWeather then traffic + 2 else traffic;
    var traffic := if mode == "same day" then traffic + 2 else traffic;
    if region in BusyRegions then traffic + 1 else traffic
  }

  /** The index is the weighted sum of the three conditions, so each value in 0..5 pins down which held. */
  lemma TrafficIndexClosedForm(weather: string, mode: string, region: string)
    ensures TrafficIndex(weather, mode, region) ==
      (if weather in BadWeather then 2 else 0) + (if mode == "same day" then 2 else 0)
      + (if region in BusyRegions then 1 else 0)
    ensures TrafficIndex(weather, mode, region) % 2 == 1 <==> region in BusyRegions
  {
  }

  function ComplexityScore(distance: real, weight: real, cost: real): real {
    distance * 0.4 + weight * 0.3 + cost * 0.3
  }

  /**
   * The payload carries the ten request fields with the right kinds of
   * values, and the two divisors of the engineered features are not zero
   * (where they are, the source raises ZeroDivisionError).
   */
  predicate HasInputs(m: map<string, Value>) {
    && "delivery_partner" in m && m["delivery_partner"].Str?
    && "package_type" in m && m["package_type"].Str?
    && "vehicle_type" in m && m["vehicle_type"].Str?
    && "delivery_mode" in m && m["delivery_mode"].Str?
    && "region" in m && m["region"].Str?
    && "weather_condition" in m && m["weather_condition"].Str?
    && "distance_km" in m && m["distance_km"].Num?
    && "package_weight_kg" in m && m["package_weight_kg"].Num?
    && "delivery_rating" in m && m["delivery_rating"].Num?
    && "delivery_cost" in m && m["delivery_cost"].Num?
    && m["distance_km"].n + 1.0 != 0.0
    && m["package_weight_kg"].n + 1.0 != 0.0
  }

  /** The payload of a `PredictRequest` as `model_dump()` produces it. */
  function RequestPayload(r: Schemas.PredictRequest): (m: map<string, Value>)
    ensures r.distanceKm + 1.0 != 0.0 && r.packageWeightKg + 1.0 != 0.0 <==> HasInputs(m)
    ensures Schemas.Valid(r) ==> HasInputs(m)
    ensures HasInputs(m) ==>
      && m["delivery_partner"].s == r.deliveryPartner && m["package_type"].s == r.packageType
      && m["vehicle_type"].s == r.vehicleType && m["delivery_mode"].s == r.deliveryMode
      && m["region"].s == r.region && m["weather_condition"].s == r.weatherCondition
      && m["distance_km"].n == r.distanceKm && m["package_weight_kg"].n == r.packageWeightKg
      && m["delivery_rating"].n == r.deliveryRating && m["delivery_cost"].n == r.deliveryCost
  {
    map[
      "delivery_partner" := Str(r.deliveryPartner), "package_type" := Str(r.packageType),
      "vehicle_type" := Str(r.vehicleType), "delivery_mode" := Str(r.deliveryMode),
      "region" := Str(r.region), "weather_condition" := Str(r.weatherCondition),
      "distance_km" := Num(r.distanceKm), "package_weight_kg" := Num(r.packageWeightKg),
      "delivery_rating" := Num(r.deliveryRating), "delivery_cost" := Num(r.deliveryCost)]
  }

  /** The payload after `_with_engineered_features`: the eight engineered keys written over the input. */
  function Engineered(m: map<string, Value>, log1p: real -> real): map<string, Value>
    requires HasInputs(m)
  {
    var distance, weight, cost := m["distance_km"].n, m["package_weight_kg"].n, m["delivery_cost"].n;
    m["Traffic_Index" := Num(TrafficIndex(m["weather_condition"].s, m["delivery_mode"].s, m["region"].s) as real)]
     ["Complexity_Score" := Num(ComplexityScore(distance, weight, cost))]
     ["Distance_Weight" := Num(distance * weight)]
     ["Cost_per_KM" := Num(cost / (distance + 1.0))]
     ["Cost_per_Weight" := Num(cost / (weight + 1.0))]
     ["Log_Distance" := Num(log1p(distance))]
     ["Log_Weight" := Num(log1p(weight))]
     ["Log_Cost" := Num(log1p(cost))]
  }

  /** The categorical field that the one-hot loop reads for entry `k` of `category_to_col`. */
  function Field(k: nat): string
    requires k < |CategoryToColumns|
  {
    CategoryToColumns[k].0
  }

  /**
   * Engineering leaves the ten inputs as they were (so the result still has
   * them) and makes every copied numeric column a number.
   */
  lemma EngineeredKeepsInputs(m: map<string, Value>, log1p: real -> real)
    requires HasInputs(m)
    ensures HasInputs(Engineered(m, log1p))
    ensures forall k :: 0 <= k < |CategoryToColumns| ==> Engineered(m, log1p)[Field(k)] == m[Field(k)]
    ensures forall c :: c in NumericColumns ==> c in Engineered(m, log1p) && Engineered(m, log1p)[c].Num?
  {
    var e := Engineered(m, log1p);
    forall k | 0 <= k < |CategoryToColumns|
      ensures e[Field(k)] == m[Field(k)]
    {
    }
  }

  /** A Python dictionary, shared by reference. */
  class Dict {
    var entries: map<string, Value>

    constructor (entries: map<string, Value>)
      ensures this.entries == entries
    {
      this.entries := entries;
    }
  }

  /** `_with_engineered_features(payload)`: writes the engineered keys into its argument and returns that same dictionary. */
  method WithEngineeredFeatures(payload: Dict, log1p: real -> real) returns (same: Dict)
    requires HasInputs(payload.entries)
    modifies payload
    ensures same == payload
    ensures payload.entries == Engineered(old(payload.entries), log1p)
  {
    var distance := payload.entries["distance_km"].n;
    var weight := payload.entries["package_weight_kg"].n;
    var cost := payload.entries["delivery_cost"].n;
    var traffic := TrafficIndex(payload.entries["weather_condition"].s, payload.entries["delivery_mode"].s,
                                payload.entries["region"].s);
    var e := payload.entries;
    e := e["Traffic_Index" := Num(traffic as real)];
    e := e["Complexity_Score" := Num(ComplexityScore(distance, weight, cost))];
    e := e["Distance_Weight" := Num(distance * weight)];
    e := e["Cost_per_KM" := Num(cost / (distance + 1.0))];
    e := e["Cost_per_Weight" := Num(cost / (weight + 1.0))];
    e := e["Log_Distance" := Num(log1p(distance))];
    e := e["Log_Weight" := Num(log1p(weight))];
    e := e["Log_Cost" := Num(log1p(cost))];
    ghost var want := Engineered(payload.entries, log1p);
    assert e["Traffic_Index"] == want["Traffic_Index"];
    assert e["Complexity_Score"] == want["Complexity_Score"];
    assert e["Log_Cost"] == want["Log_Cost"];
    assert e["Distance_Weight"] == want["Distance_Weight"];
    assert e["Cost_per_KM"] == want["Cost_per_KM"];
    assert e["Cost_per_Weight"] == want["Cost_per_Weight"];
    assert e["Log_Distance"] == want["Log_Distance"];
    assert e["Log_Weight"] == want["Log_Weight"];
    assert e.Keys == want.Keys;
    assert e == want;
    payload.entries := e;
    same := payload;
  }

  lemma EngineeredFieldsPresent(m: map<string, Value>, k: nat)
    requires HasInputs(m) && k < |CategoryToColumns|
    ensures Field(k) in m && m[Field(k)].Str?
  {
  }

  /** The payload has a number under each numeric column and a string under each field of the table. */
  predicate HasFields(m: map<string, Value>, numeric: seq<string>, table: seq<(string, seq<string>)>) {
    && (forall c :: c in numeric ==> c in m && m[c].Num?)
    && (forall j :: 0 <= j < |table| ==> table[j].0 in m && m[table[j].0].Str?)
  }

  /** The one-hot column name `f"{field}_{payload[field]}"` formed for entry `j` of the table. */
  function Selected(m: map<string, Value>, table: seq<(string, seq<string>)>, j: nat): string
    requires j < |table| && table[j].0 in m && m[table[j].0].Str?
  {
    table[j].0 + "_" + m[table[j].0].s
  }

  /** Column `c` is listed by, and selected for, one of the first `n` entries of the table. */
  predicate SelectedAmong(m: map<string, Value>, table: seq<(string, seq<string>)>, c: string, n: nat)
    requires n <= |table| && HasFields(m, [], table)
  {
    exists j | 0 <= j < n :: c in table[j].1 && c == Selected(m, table, j)
  }

  /** Column `c` is the one-hot column some categorical field of the payload selects. */
  predicate OneHotSet(m: map<string, Value>, c: string)
    requires HasInputs(m)
  {
    assert HasFields(m, [], CategoryToColumns) by {
      forall j | 0 <= j < |CategoryToColumns| ensures Field(j) in m && m[Field(j)].Str? {
        EngineeredFieldsPresent(m, j);
      }
    }
    SelectedAmong(m, CategoryToColumns, c, |CategoryToColumns|)
  }

  /** The numeric columns and the one-hot columns of the table are all feature columns, and no one-hot column is numeric. */
  predicate LayoutFits(features: seq<string>, numeric: seq<string>, table: seq<(string, seq<string>)>) {
    && (forall c :: c in numeric ==> c in features)
    && (forall j, c :: 0 <= j < |table| && c in table[j].1 ==> c in features && c !in numeric)
  }

  /**
   * The body of `build_feature_frame` after engineering: a row of 0 for
   * every feature column, the numeric columns copied from the payload, then
   * for each table entry the selected column set to 1 when the entry lists
   * it, and the row read out in feature-column order.
   */
  method FillRow(payload: map<string, Value>, features: seq<string>, numeric: seq<string>,
                 table: seq<(string, seq<string>)>) returns (frame: seq<real>)
    requires LayoutFits(features, numeric, table)
    requires HasFields(payload, numeric, table)
    ensures |frame| == |features|
    ensures forall i :: 0 <= i < |features| && features[i] in numeric ==> frame[i] == payload[features[i]].n
    ensures forall i :: 0 <= i < |features| && features[i] !in numeric ==>
      frame[i] == if SelectedAmong(payload, table, features[i], |table|) then 1.0 else 0.0
  {
    var row: map<string, real> := map f | f in features :: 0.0;

    for k := 0 to |numeric|
      invariant forall f :: f in features ==> f in row
      invariant forall j :: 0 <= j < k ==> row[numeric[j]] == payload[numeric[j]].n
      invariant forall c :: c in features && c !in numeric ==> row[c] == 0.0
    {
      row := row[numeric[k] := payload[numeric[k]].n];
    }

    for k := 0 to |table|
      invariant forall f :: f in features ==> f in row
      invariant forall c :: c in numeric ==> row[c] == payload[c].n
      invariant forall c :: c in features && c !in numeric ==>
        row[c] == if SelectedAmong(payload, table, c, k) then 1.0 else 0.0
    {
      var field, columns := table[k].0, table[k].1;
      var selected := field + "_" + payload[field].s;
      if selected in columns {
        row := row[selected := 1.0];
      }
    }

    frame := seq(|features|, i requires 0 <= i < |features| => row[features[i]]);
  }

  /** `FEATURE_COLUMNS` is the numeric columns followed by the lists of `category_to_col`, in order. */
  lemma FeatureColumnsLayout()
    ensures FeatureColumns == NumericColumns + PartnerColumns + PackageColumns + VehicleColumns
      + ModeColumns + RegionColumns + WeatherColumns
  {
    FeatureColumnsHead();
    FeatureColumnsMiddle();
    FeatureColumnsLast();
    assert FeatureColumns == FeatureColumns[..20] + FeatureColumns[20..33] + FeatureColumns[33..];
  }

  lemma FeatureColumnsHead()
    ensures FeatureColumns[..20] == NumericColumns + PartnerColumns
  {
    forall i | 0 <= i < 20
      ensures FeatureColumns[i] == (NumericColumns + PartnerColumns)[i]
    {
    }
  }

  lemma FeatureColumnsMiddle()
    ensures FeatureColumns[20..33] == PackageColumns + VehicleColumns
  {
    forall i | 0 <= i < 13
      ensures FeatureColumns[20 + i] == (PackageColumns + VehicleColumns)[i]
    {
    }
  }

  lemma FeatureColumnsLast()
    ensures FeatureColumns[33..] == ModeColumns + RegionColumns + WeatherColumns
  {
  }

  /** No one-hot column has the name of a numeric column. */
  lemma CategoryColumnsNotNumeric()
    ensures forall k, c :: 0 <= k < |CategoryToColumns| && c in CategoryToColumns[k].1 ==> c !in NumericColumns
  {
    PartnerColumnsNotNumeric();
    PackageColumnsNotNumeric();
    VehicleColumnsNotNumeric();
    ModeColumnsNotNumeric();
    RegionColumnsNotNumeric();
    WeatherColumnsNotNumeric();
  }

  lemma PartnerColumnsNotNumeric()
    ensures forall c :: c in PartnerColumns ==> c !in NumericColumns
  {
  }

  lemma PackageColumnsNotNumeric()
    ensures forall c :: c in PackageColumns ==> c !in NumericColumns
  {
  }

  lemma VehicleColumnsNotNumeric()
    ensures forall c :: c in VehicleColumns ==> c !in NumericColumns
  {
  }

  lemma ModeColumnsNotNumeric()
    ensures forall c :: c in ModeColumns ==> c !in NumericColumns
  {
  }

  lemma RegionColumnsNotNumeric()
    ensures forall c :: c in RegionColumns ==> c !in NumericColumns
  {
  }

  lemma WeatherColumnsNotNumeric()
    ensures forall c :: c in WeatherColumns ==> c !in NumericColumns
  {
  }

  /** Appending a list that avoids `names` to one whose entries past `a` avoid them keeps that so. */
  lemma ExtendAvoids(a: seq<string>, s: seq<string>, y: seq<string>, names: seq<string>)
    requires |a| <= |s|
    requires forall i :: |a| <= i < |s| ==> s[i] !in names
    requires forall c :: c in y ==> c !in names
    ensures forall i :: |a| <= i < |s + y| ==> (s + y)[i] !in names
  {
    forall i | |a| <= i < |s + y|
      ensures (s + y)[i] !in names
    {
      if i >= |s| {
        assert (s + y)[i] == y[i - |s|];
      }
    }
  }

  /** The feature columns after the first twelve are not numeric columns. */
  lemma FeatureColumnsAfterNumeric()
    ensures forall i :: |NumericColumns| <= i < |FeatureColumns| ==> FeatureColumns[i] !in NumericColumns
  {
    var n := NumericColumns;
    PartnerColumnsNotNumeric();
    ExtendAvoids(n, n, PartnerColumns, n);
    PackageColumnsNotNumeric();
    ExtendAvoids(n, n + PartnerColumns, PackageColumns, n);
    VehicleColumnsNotNumeric();
    ExtendAvoids(n, n + PartnerColumns + PackageColumns, VehicleColumns, n);
    ModeColumnsNotNumeric();
    ExtendAvoids(n, n + PartnerColumns + PackageColumns + VehicleColumns, ModeColumns, n);
    RegionColumnsNotNumeric();
    ExtendAvoids(n, n + PartnerColumns + PackageColumns + VehicleColumns + ModeColumns, RegionColumns, n);
    WeatherColumnsNotNumeric();
    ExtendAvoids(n, n + PartnerColumns + PackageColumns + VehicleColumns + ModeColumns + RegionColumns,
                 WeatherColumns, n);
    FeatureColumnsLayout();
  }

  /** The first twelve feature columns are the numeric columns, in order. */
  lemma FeatureColumnsStartNumeric()
    ensures forall i :: 0 <= i < |NumericColumns| ==> FeatureColumns[i] == NumericColumns[i]
  {
  }

  /** Every numeric column is a feature column. */
  lemma NumericColumnsAreFeatures()
    ensures forall c :: c in NumericColumns ==> c in FeatureColumns
  {
  }

  /** Every column named in `category_to_col` is a feature column. */
  lemma CategoryColumnsAreFeatures()
    ensures forall k, c :: 0 <= k < |CategoryToColumns| && c in CategoryToColumns[k].1 ==> c in FeatureColumns
  {
    FeatureColumnsLayout();
  }

  // No one-hot column is listed under two fields; one lemma per list keeps each proof small.
  lemma PartnerColumnsApart()
    ensures forall c :: c in PartnerColumns ==>
      c !in PackageColumns && c !in VehicleColumns && c !in ModeColumns && c !in RegionColumns && c !in WeatherColumns
  {
  }

  lemma PackageColumnsApart()
    ensures forall c :: c in PackageColumns ==>
      c !in VehicleColumns && c !in ModeColumns && c !in RegionColumns && c !in WeatherColumns
  {
  }

  lemma VehicleColumnsApart()
    ensures forall c :: c in VehicleColumns ==> c !in ModeColumns && c !in RegionColumns && c !in WeatherColumns
  {
  }

  lemma ModeColumnsApart()
    ensures forall c :: c in ModeColumns ==> c !in RegionColumns && c !in WeatherColumns
  {
  }

  lemma RegionColumnsApart()
    ensures forall c :: c in RegionColumns ==> c !in WeatherColumns
  {
  }

  /** No column is listed under two fields of `category_to_col`. */
  lemma ColumnListsDisjoint()
    ensures forall j, k, c :: 0 <= j < k < |CategoryToColumns| && c in CategoryToColumns[j].1 ==> c !in CategoryToColumns[k].1
  {
    PartnerColumnsApart();
    PackageColumnsApart();
    VehicleColumnsApart();
    ModeColumnsApart();
    RegionColumnsApart();
  }

  /**
   * A column listed for field `k` is set exactly when it is the column that
   * field's value selects, so at most one column per field is set.
   */
  lemma OneHotPerField(m: map<string, Value>, k: nat)
    requires HasInputs(m) && k < |CategoryToColumns|
    ensures HasFields(m, [], CategoryToColumns)
    ensures forall c :: c in CategoryToColumns[k].1 ==> (OneHotSet(m, c) <==> c == Selected(m, CategoryToColumns, k))
    ensures forall c, c' ::
      (c in CategoryToColumns[k].1 && c' in CategoryToColumns[k].1 && OneHotSet(m, c) && OneHotSet(m, c')) ==> c == c'
  {
    forall j | 0 <= j < |CategoryToColumns| ensures Field(j) in m && m[Field(j)].Str? {
      EngineeredFieldsPresent(m, j);
    }
    ColumnListsDisjoint();
    forall c | c in CategoryToColumns[k].1 && OneHotSet(m, c)
      ensures c == Selected(m, CategoryToColumns, k)
    {
      var j :| 0 <= j < |CategoryToColumns| && c in CategoryToColumns[j].1 && c == Selected(m, CategoryToColumns, j);
      assert j == k;
    }
  }

  /** The feature columns, the numeric columns and `category_to_col` fit together as `FillRow` needs. */
  lemma FeatureLayoutFits()
    ensures LayoutFits(FeatureColumns, NumericColumns, CategoryToColumns)
  {
    NumericColumnsAreFeatures();
    CategoryColumnsAreFeatures();
    CategoryColumnsNotNumeric();
  }

  /** Two payloads that agree on the table's fields select the same one-hot columns. */
  lemma SelectionDependsOnFields(m: map<string, Value>, m': map<string, Value>, table: seq<(string, seq<string>)>)
    requires HasFields(m, [], table) && HasFields(m', [], table)
    requires forall j :: 0 <= j < |table| ==> m[table[j].0] == m'[table[j].0]
    ensures forall c :: SelectedAmong(m, table, c, |table|) == SelectedAmong(m', table, c, |table|)
  {
    forall c ensures SelectedAmong(m, table, c, |table|) ==> SelectedAmong(m', table, c, |table|) {
      if SelectedAmong(m, table, c, |table|) {
        var j :| 0 <= j < |table| && c in table[j].1 && c == Selected(m, table, j);
        assert Selected(m', table, j) == c;
      }
    }
    forall c ensures SelectedAmong(m', table, c, |table|) ==> SelectedAmong(m, table, c, |table|) {
      if SelectedAmong(m', table, c, |table|) {
        var j :| 0 <= j < |table| && c in table[j].1 && c == Selected(m', table, j);
        assert Selected(m, table, j) == c;
      }
    }
  }

  /** The engineered payload has the fields the row needs and the categorical fields of the raw one. */
  lemma EngineeredHasFields(raw: map<string, Value>, log1p: real -> real)
    requires HasInputs(raw)
    ensures HasFields(raw, [], CategoryToColumns)
    ensures HasFields(Engineered(raw, log1p), NumericColumns, CategoryToColumns)
    ensures forall j :: 0 <= j < |CategoryToColumns| ==>
      Engineered(raw, log1p)[CategoryToColumns[j].0] == raw[CategoryToColumns[j].0]
  {
    EngineeredKeepsInputs(raw, log1p);
    InputsHaveFields(raw);
    InputsHaveFields(Engineered(raw, log1p));
  }

  /** A payload with the ten inputs has a string under each field of `category_to_col`. */
  lemma InputsHaveFields(m: map<string, Value>)
    requires HasInputs(m)
    ensures HasFields(m, [], CategoryToColumns)
  {
    forall j | 0 <= j < |CategoryToColumns|
      ensures Field(j) in m && m[Field(j)].Str?
    {
      EngineeredFieldsPresent(m, j);
    }
  }

  /** The engineered payload has the fields the row needs and selects the same one-hot columns as the raw one. */
  lemma EngineeredSelectsAsRaw(raw: map<string, Value>, log1p: real -> real)
    requires HasInputs(raw)
    ensures HasFields(Engineered(raw, log1p), NumericColumns, CategoryToColumns)
    ensures forall c ::
      SelectedAmong(Engineered(raw, log1p), CategoryToColumns, c, |CategoryToColumns|) == OneHotSet(raw, c)
  {
    EngineeredHasFields(raw, log1p);
    SelectionDependsOnFields(Engineered(raw, log1p), raw, CategoryToColumns);
  }

  /**
   * The model row of a payload, column by column in `FEATURE_COLUMNS` order:
   * the engineered numeric values, then 1 for each selected one-hot column
   * and 0 for the others.
   */
  function FeatureFrame(m: map<string, Value>, log1p: real -> real): (frame: seq<real>)
    requires HasInputs(m)
    ensures |frame| == |FeatureColumns|
  {
    EngineeredKeepsInputs(m, log1p);
    seq(|FeatureColumns|, i requires 0 <= i < |FeatureColumns| =>
      if i < |NumericColumns| then Engineered(m, log1p)[NumericColumns[i]].n
      else if OneHotSet(m, FeatureColumns[i]) then 1.0 else 0.0)
  }

  /**
   * `build_feature_frame(raw_payload)`: engineers a copy of the payload, so
   * the caller's dictionary is left as it was, and returns the row in
   * `FEATURE_COLUMNS` order: the numeric columns carry the engineered values
   * and a one-hot column is 1 exactly when a categorical field selects it.
   */
  method BuildFeatureFrame(raw: Dict, log1p: real -> real) returns (frame: seq<real>)
    requires HasInputs(raw.entries)
    ensures |frame| == |FeatureColumns|
    ensures forall i :: 0 <= i < |NumericColumns| ==>
      frame[i] == Engineered(raw.entries, log1p)[NumericColumns[i]].n
    ensures forall i :: |NumericColumns| <= i < |FeatureColumns| ==>
      frame[i] == if OneHotSet(raw.entries, FeatureColumns[i]) then 1.0 else 0.0
    ensures frame == FeatureFrame(raw.entries, log1p)
  {
    var payload := new Dict(raw.entries);
    payload := WithEngineeredFeatures(payload, log1p);
    EngineeredSelectsAsRaw(raw.entries, log1p);
    FeatureLayoutFits();
    frame := FillRow(payload.entries, FeatureColumns, NumericColumns, CategoryToColumns);
    FeatureColumnsStartNumeric();
    FeatureColumnsAfterNumeric();
  }

  /**
   * Each categorical field has exactly one literal value with no one-hot
   * column of its own (the dropped baseline category, encoded as all zeros);
   * every other literal value has its column.
   */
  predicate BaselineOnly(prefix: string, values: seq<string>, columns: seq<string>, baseline: string) {
    forall v :: v in values ==> (prefix + v in columns <==> v != baseline)
  }

  /**
   * When the columns are the prefixed values after the first, in order, and
   * the prefixed first value is not a column, that first value is the only
   * baseline.
   */
  lemma BaselineIsFirst(prefix: string, values: seq<string>, columns: seq<string>)
    requires |values| == |columns| + 1
    requires forall k :: 0 <= k < |columns| ==> columns[k] == prefix + values[k + 1]
    requires prefix + values[0] !in columns
    ensures BaselineOnly(prefix, values, columns, values[0])
  {
    forall v | v in values
      ensures prefix + v in columns <==> v != values[0]
    {
      if v != values[0] {
        var j :| 0 <= j < |values| && values[j] == v;
        assert columns[j - 1] == prefix + v;
      }
    }
  }

  lemma PartnerColumnsNamed()
    ensures forall k :: 0 <= k < |PartnerColumns| ==> PartnerColumns[k] == "delivery_partner_" + Schemas.DeliveryPartners[k + 1]
  {
  }

  lemma PartnerBaseline()
    ensures BaselineOnly("delivery_partner_", Schemas.DeliveryPartners, PartnerColumns, "amazon logistics")
  {
    PartnerColumnsNamed();
    assert "delivery_partner_" + Schemas.DeliveryPartners[0] == "delivery_partner_amazon logistics";
    BaselineIsFirst("delivery_partner_", Schemas.DeliveryPartners, PartnerColumns);
  }

  lemma PackageColumnsNamed()
    ensures forall k :: 0 <= k < |PackageColumns| ==> PackageColumns[k] == "package_type_" + Schemas.PackageTypes[k + 1]
  {
  }

  lemma PackageBaseline()
    ensures BaselineOnly("package_type_", Schemas.PackageTypes, PackageColumns, "automobile parts")
  {
    PackageColumnsNamed();
    assert "package_type_" + Schemas.PackageTypes[0] == "package_type_automobile parts";
    BaselineIsFirst("package_type_", Schemas.PackageTypes, PackageColumns);
  }

  lemma VehicleColumnsNamed()
    ensures forall k :: 0 <= k < |VehicleColumns| ==> VehicleColumns[k] == "vehicle_type_" + Schemas.VehicleTypes[k + 1]
  {
  }

  lemma VehicleBaseline()
    ensures BaselineOnly("vehicle_type_", Schemas.VehicleTypes, VehicleColumns, "bike")
  {
    VehicleColumnsNamed();
    assert "vehicle_type_" + Schemas.VehicleTypes[0] == "vehicle_type_bike";
    BaselineIsFirst("vehicle_type_", Schemas.VehicleTypes, VehicleColumns);
  }

  lemma ModeColumnsNamed()
    ensures forall k :: 0 <= k < |ModeColumns| ==> ModeColumns[k] == "delivery_mode_" + Schemas.DeliveryModes[k + 1]
  {
  }

  lemma ModeBaseline()
    ensures BaselineOnly("delivery_mode_", Schemas.DeliveryModes, ModeColumns, "express")
  {
    ModeColumnsNamed();
    assert "delivery_mode_" + Schemas.DeliveryModes[0] == "delivery_mode_express";
    BaselineIsFirst("delivery_mode_", Schemas.DeliveryModes, ModeColumns);
  }

  lemma RegionColumnsNamed()
    ensures forall k :: 0 <= k < |RegionColumns| ==> RegionColumns[k] == "region_" + Schemas.Regions[k + 1]
  {
  }

  lemma RegionBaseline()
    ensures BaselineOnly("region_", Schemas.Regions, RegionColumns, "central")
  {
    RegionColumnsNamed();
    assert "region_" + Schemas.Regions[0] == "region_central";
    BaselineIsFirst("region_", Schemas.Regions, RegionColumns);
  }

  lemma WeatherColumnsNamed()
    ensures forall k :: 0 <= k < |WeatherColumns| ==> WeatherColumns[k] == "weather_condition_" + Schemas.Weathers[k + 1]
  {
  }

  lemma WeatherBaseline()
    ensures BaselineOnly("weather_condition_", Schemas.Weathers, WeatherColumns, "clear")
  {
    WeatherColumnsNamed();
    assert "weather_condition_" + Schemas.Weathers[0] == "weather_condition_clear";
    BaselineIsFirst("weather_condition_", Schemas.Weathers, WeatherColumns);
  }

  /** The baseline of each of the six fields, in the order of `category_to_col`. */
  lemma BaselineCategories()
    ensures BaselineOnly("delivery_partner_", Schemas.DeliveryPartners, PartnerColumns, "amazon logistics")
    ensures BaselineOnly("package_type_", Schemas.PackageTypes, PackageColumns, "automobile parts")
    ensures BaselineOnly("vehicle_type_", Schemas.VehicleTypes, VehicleColumns, "bike")
    ensures BaselineOnly("delivery_mode_", Schemas.DeliveryModes, ModeColumns, "express")
    ensures BaselineOnly("region_", Schemas.Regions, RegionColumns, "central")
    ensures BaselineOnly("weather_condition_", Schemas.Weathers, WeatherColumns, "clear")
  {
    PartnerBaseline();
    PackageBaseline();
    VehicleBaseline();
    ModeBaseline();
    RegionBaseline();
    WeatherBaseline();
  }
}

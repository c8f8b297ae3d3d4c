/**
 * The request and response shapes of the prediction API (schemas.py): the
 * literal sets of the six categorical inputs, the numeric bounds of
 * `PredictRequest`, and `TokenResponse`'s default token type.
 */
module Schemas {
  const DeliveryPartners: seq<string> := [
    "amazon logistics", "blue dart", "delhivery", "dhl", "ecom express",
    "ekart", "fedex", "shadowfax", "xpressbees"
  ]
  const PackageTypes: seq<string> := [
    "automobile parts", "clothing", "cosmetics", "documents", "electronics",
    "fragile items", "furniture", "groceries", "pharmacy"
  ]
  const VehicleTypes: seq<string> := ["bike", "ev bike", "ev van", "scooter", "truck", "van"]
  const DeliveryModes: seq<string> := ["express", "same day", "standard", "two day"]
  const Regions: seq<string> := ["central", "east", "north", "south", "west"]
  const Weathers: seq<string> := ["clear", "cold", "foggy", "hot", "rainy", "stormy"]

  /** The body of `POST /predict/live`. */
  datatype PredictRequest = PredictRequest(
    deliveryPartner: string,
    packageType: string,
    vehicleType: string,
    deliveryMode: string,
    region: string,
    weatherCondition: string,
    distanceKm: real,
    packageWeightKg: real,
    deliveryRating: real,
    deliveryCost: real)

  /** The six categorical fields lie in their literal sets. */
  predicate CategoriesValid(r: PredictRequest) {
    && r.deliveryPartner in DeliveryPartners
    && r.packageType in PackageTypes
    && r.vehicleType in VehicleTypes
    && r.deliveryMode in DeliveryModes
    && r.region in Regions
    && r.weatherCondition in Weathers
  }

  /** The `Field(gt=…, ge=…, le=…)` bounds of the four numeric fields. */
  predicate BoundsValid(r: PredictRequest) {
    && 0.0 < r.distanceKm <= 5000.0
    && 0.0 < r.packageWeightKg <= 200.0
    && 1.0 <= r.deliveryRating <= 5.0
    && 0.0 < r.deliveryCost <= 200000.0
  }

  /** What pydantic accepts as a `PredictRequest`. */
  predicate Valid(r: PredictRequest) {
    CategoriesValid(r) && BoundsValid(r)
  }

  /** A valid request never makes the engineered-feature divisors `distance_km + 1` and `package_weight_kg + 1` zero. */
  lemma ValidDivisorsPositive(r: PredictRequest)
    requires Valid(r)
    ensures r.distanceKm + 1.0 > 1.0 && r.packageWeightKg + 1.0 > 1.0
  {
  }

  /** The login response; `token_type` defaults to "bearer". */
  datatype TokenResponse = TokenResponse(accessToken: string, tokenType: string := "bearer")

  lemma TokenTypeDefault(accessToken: string)
    ensures TokenResponse(accessToken).tokenType == "bearer"
    ensures TokenResponse(accessToken).accessToken == accessToken
  {
  }
}

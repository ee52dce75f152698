/**
 * The JSON documents returned by the upstream transit API, as typed records.
 *
 * A member the code reads with `[key]` is required, since its absence would be
 * a crash rather than a default. A member it reads with `.get(key, default)` is
 * a `Member` (missing, null or present) where a null value reaches the result,
 * and an `Option` where the code treats null like a missing key, or where a
 * null would crash the code. Where the code tests a whole object for truthiness
 * (`if trip_data`), `None` stands for every falsy value it treats alike: the
 * key missing, `null`, or the empty object.
 */
module Upstream {
  import opened Wrappers

  /** `{"id": ...}`: a resource identifier inside a relationship. */
  datatype ResourceId = ResourceId(id: string)

  // GET /stops: `data: [{id, attributes: {name}}]`

  datatype StopListAttributes = StopListAttributes(name: string)
  datatype StopListItem = StopListItem(id: string, attributes: StopListAttributes)
  datatype StopsDocument = StopsDocument(data: Option<seq<StopListItem>>)

  // GET /stops/{id}: `data: {attributes: {name}}`, any level possibly missing

  datatype StopAttributes = StopAttributes(name: Member<string>)
  datatype StopResource = StopResource(attributes: Option<StopAttributes>)
  datatype StopDocument = StopDocument(data: Option<StopResource>)

  // GET /routes: `data: [{id, attributes: {name, type}}]`

  datatype RouteAttributes = RouteAttributes(name: Option<string>, routeType: Option<string>)
  datatype Route = Route(id: string, attributes: Option<RouteAttributes>)
  datatype RoutesDocument = RoutesDocument(data: Option<seq<Route>>)

  // GET /trips/{id}: `data: {attributes: {headsign}}`, any level possibly missing

  datatype TripAttributes = TripAttributes(headsign: Member<string>)
  datatype Trip = Trip(attributes: Option<TripAttributes>)
  datatype TripDocument = TripDocument(data: Option<Trip>)

  // GET /predictions?filter[stop]=..&filter[direction_id]=..

  /** A to-one relationship whose `data.id` the code indexes directly. */
  datatype Linkage = Linkage(data: ResourceId)

  /** The vehicle relationship: its `data` may be null (or empty) before a vehicle is assigned. */
  datatype VehicleLinkage = VehicleLinkage(data: Option<ResourceId>)

  datatype PredictionRelationships = PredictionRelationships(
    vehicle: Option<VehicleLinkage>,
    route: Linkage,
    trip: Linkage,
    stop: Linkage)

  /** `departure_time` and `status` are required keys whose value may be null. */
  datatype PredictionAttributes = PredictionAttributes(departureTime: Option<string>, status: Option<string>)

  datatype RawPrediction = RawPrediction(attributes: PredictionAttributes, relationships: PredictionRelationships)
  datatype PredictionsDocument = PredictionsDocument(data: Option<seq<RawPrediction>>)

  /** The `filter[direction_id]` code: 0 for arrivals, 1 for departures. */
  type DirectionId = d: nat | d <= 1

  /**
   * What each upstream endpoint answers: the decoded body, or the failure that
   * `raise_for_status` or the transport raised. The per-id endpoints are
   * functions of the id in their path.
   */
  datatype Api = Api(
    stops: Result<StopsDocument>,
    stop: string -> Result<StopDocument>,
    routes: Result<RoutesDocument>,
    trip: string -> Result<TripDocument>,
    predictions: (string, DirectionId) -> Result<PredictionsDocument>)
}

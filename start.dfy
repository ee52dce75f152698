/**
 * The commuter board service: it lists stops, and for one stop joins the
 * upstream predictions with the route table and per-trip lookups into a board
 * of departures and arrivals.
 *
 * Every upstream request is an input (`Upstream.Api`); the conversion of a
 * departure timestamp to US/Eastern "hh:mm AM" text is the caller-supplied
 * `TimeFormatter`.
 */
module Start {
  import opened Wrappers
  import opened Upstream

  const NotAvailable := "N/A"
  const Amtrak := "Amtrak"
  const Mbta := "MBTA"
  const Rail := "Rail"
  const Departures: DirectionId := 1
  const Arrivals: DirectionId := 0

  /** An entry of the stop listing. */
  datatype Stop = Stop(id: string, name: string)

  /**
   * A row of the board. `time` stays null when the upstream departure time is;
   * `destination` is null when the trip's headsign is present as null.
   */
  datatype Prediction = Prediction(
    carrier: string,
    time: Option<string>,
    destination: Option<string>,
    train: string,
    track: string,
    status: Option<string>)

  /** What the board request renders: the board, or the error view. */
  datatype BoardPage =
    | Board(departures: seq<Prediction>, arrivals: seq<Prediction>, location: Option<string>)
    | ErrorPage(errorMessage: string)

  /** Route records by route id. */
  type RouteTable = map<string, Route>

  /** Turns a non-empty ISO-8601 timestamp into Eastern local "hh:mm AM" text. */
  type TimeFormatter = string -> string

  // ---------------------------------------------------------------------------
  // Substring test (Python's `sub in s` on strings)

  function Contains(s: string, sub: string): bool
    decreases |s|
  {
    sub <= s || (s != [] && Contains(s[1..], sub))
  }

  /** `sub` occurs in `s` starting at index `i`. */
  ghost predicate OccursAt(s: string, sub: string, i: int) {
    0 <= i && i + |sub| <= |s| && s[i..i + |sub|] == sub
  }

  /** The recursive test agrees with "occurs at some index". */
  lemma {:induction false} ContainsIffOccurs(s: string, sub: string)
    ensures Contains(s, sub) <==> exists i :: OccursAt(s, sub, i)
    decreases |s|
  {
    if sub <= s {
      assert OccursAt(s, sub, 0);
    } else if s == [] {
      if i :| OccursAt(s, sub, i) {
        assert false;
      }
    } else {
      ContainsIffOccurs(s[1..], sub);
      if i :| OccursAt(s[1..], sub, i) {
        assert s[1..][i..i + |sub|] == s[i + 1..i + 1 + |sub|];
        assert OccursAt(s, sub, i + 1);
      }
      if i :| OccursAt(s, sub, i) {
        assert i != 0;
        assert s[1..][i - 1..i - 1 + |sub|] == s[i..i + |sub|];
        assert OccursAt(s[1..], sub, i - 1);
      }
    }
  }

  // ---------------------------------------------------------------------------
  // Stop listing

  function StopsOf(data: seq<StopListItem>): (stops: seq<Stop>)
    ensures |stops| == |data|
    ensures forall i :: 0 <= i < |data| ==> stops[i] == Stop(data[i].id, data[i].attributes.name)
  {
    if data == [] then [] else [Stop(data[0].id, data[0].attributes.name)] + StopsOf(data[1..])
  }

  /** All stops, in upstream order; a failed request gives the empty listing. */
  function GetStops(response: Result<StopsDocument>): (stops: seq<Stop>)
    ensures response.Err? ==> stops == []
    ensures response.Ok? && response.value.data.None? ==> stops == []
    ensures response.Ok? && response.value.data.Some? ==>
      var data := response.value.data.value;
      && |stops| == |data|
      && forall i :: 0 <= i < |data| ==> stops[i] == Stop(data[i].id, data[i].attributes.name)
  {
    match response
    case Err(_) => []
    case Ok(document) => StopsOf(document.data.GetOr([]))
  }

  // ---------------------------------------------------------------------------
  // Location lookup

  /** The single-stop document has data and attributes, and its `name` member is `name`. */
  ghost predicate StopNameMember(document: StopDocument, name: Member<string>) {
    && document.data.Some?
    && document.data.value.attributes.Some?
    && document.data.value.attributes.value.name == name
  }

  /** The stop's name; `None` is a name present as null, which the source returns as `None`. */
  function GetLocation(response: Result<StopDocument>): (location: Result<Option<string>>)
    ensures response.Err? ==> location == Err(response.error)
    ensures forall name :: response.Ok? && StopNameMember(response.value, Present(name)) ==> location == Ok(Some(name))
    ensures response.Ok? && StopNameMember(response.value, Null) ==> location == Ok(None)
    ensures (&& response.Ok?
             && !StopNameMember(response.value, Null)
             && forall name :: !StopNameMember(response.value, Present(name)))
            ==> location == Ok(Some(NotAvailable))
  {
    var document :- response;
    match document.data
    case None => Ok(Some(NotAvailable))
    case Some(stop) =>
      var name := stop.attributes.GetOr(StopAttributes(Missing)).name;
      assert name != Missing ==> StopNameMember(document, name);
      Ok(name.Get(NotAvailable))
  }

  // ---------------------------------------------------------------------------
  // Route table

  /** The id-keyed table of a route listing; a later record replaces an earlier one with the same id. */
  function RouteTableOf(data: seq<Route>): (table: RouteTable)
    ensures table.Keys == set i | 0 <= i < |data| :: data[i].id
    ensures forall id :: id in table ==> table[id].id == id
  {
    if data == [] then map[]
    else
      var prefix, last := data[..|data| - 1], data[|data| - 1];
      assert (set i | 0 <= i < |data| :: data[i].id) == (set i | 0 <= i < |prefix| :: prefix[i].id) + {last.id} by {
        assert forall i :: 0 <= i < |prefix| ==> prefix[i] == data[i];
      }
      RouteTableOf(prefix)[last.id := last]
  }

  /** The table holds, for each id, the last record in the listing with that id. */
  lemma {:induction false} RouteTableLastWins(data: seq<Route>, j: nat)
    requires j < |data|
    requires forall k :: j < k < |data| ==> data[k].id != data[j].id
    ensures data[j].id in RouteTableOf(data) && RouteTableOf(data)[data[j].id] == data[j]
  {
    if j < |data| - 1 {
      var prefix := data[..|data| - 1];
      assert forall k :: j < k < |prefix| ==> prefix[k] == data[k];
      RouteTableLastWins(prefix, j);
    }
  }

  function GetAllRoutes(response: Result<RoutesDocument>): (routes: Result<RouteTable>)
    ensures response.Err? ==> routes == Err(response.error)
    ensures response.Ok? ==> routes == Ok(RouteTableOf(response.value.data.GetOr([])))
    ensures response.Ok? ==> forall id :: id in routes.value ==> routes.value[id].id == id
    ensures response.Ok? && response.value.data.None? ==> routes.value == map[]
    ensures response.Ok? && response.value.data.Some? ==>
      var data := response.value.data.value;
      routes.value.Keys == set i | 0 <= i < |data| :: data[i].id
  {
    var document :- response;
    Ok(RouteTableOf(document.data.GetOr([])))
  }

  // ---------------------------------------------------------------------------
  // Trip lookup

  /** The trip's `data` member, or the request failure. */
  function GetTrip(response: Result<TripDocument>): (trip: Result<Option<Trip>>)
    ensures trip.Ok? <==> response.Ok?
    ensures response.Err? ==> trip.error == response.error
    ensures response.Ok? ==> trip.value == response.value.data
  {
    var document :- response;
    Ok(document.data)
  }

  // ---------------------------------------------------------------------------
  // Derived fields of a board row

  /** A vehicle is assigned and its id is `id`. */
  ghost predicate AssignedVehicle(vehicle: Option<VehicleLinkage>, id: string) {
    vehicle == Some(VehicleLinkage(Some(ResourceId(id))))
  }

  function TrainId(vehicle: Option<VehicleLinkage>): (train: string)
    ensures forall id :: AssignedVehicle(vehicle, id) ==> train == id
    ensures (forall id :: !AssignedVehicle(vehicle, id)) ==> train == NotAvailable
  {
    if vehicle.Some? && vehicle.value.data.Some? then
      var id := vehicle.value.data.value.id;
      assert AssignedVehicle(vehicle, id);
      id
    else NotAvailable
  }

  /** The route is named with "Amtrak" somewhere in its name and has type "Rail". */
  ghost predicate AmtrakRoute(route: Route) {
    && route.attributes.Some?
    && route.attributes.value.name.Some?
    && (exists i :: OccursAt(route.attributes.value.name.value, Amtrak, i))
    && route.attributes.value.routeType == Some(Rail)
  }

  function Carrier(routes: RouteTable, routeId: string): (carrier: string)
    ensures carrier == Amtrak || carrier == Mbta
    ensures carrier == Amtrak <==> routeId in routes && AmtrakRoute(routes[routeId])
  {
    var attributes :=
      if routeId in routes then routes[routeId].attributes.GetOr(RouteAttributes(None, None))
      else RouteAttributes(None, None);
    var routeType := attributes.routeType.GetOr("");
    var routeName := attributes.name.GetOr("");
    ContainsIffOccurs(routeName, Amtrak);
    assert !exists i :: OccursAt("", Amtrak, i);
    if Contains(routeName, Amtrak) && routeType == Rail then Amtrak else Mbta
  }

  /** The trip has data and attributes, and its `headsign` member is `headsign`. */
  ghost predicate HeadsignMember(trip: Option<Trip>, headsign: Member<string>) {
    && trip.Some?
    && trip.value.attributes.Some?
    && trip.value.attributes.value.headsign == headsign
  }

  /** The trip's headsign; `None` is a headsign present as null, which the source passes on as `None`. */
  function Destination(trip: Option<Trip>): (destination: Option<string>)
    ensures forall h :: HeadsignMember(trip, Present(h)) ==> destination == Some(h)
    ensures HeadsignMember(trip, Null) ==> destination == None
    ensures !HeadsignMember(trip, Null) && (forall h :: !HeadsignMember(trip, Present(h))) ==> destination == Some(NotAvailable)
  {
    match trip
    case None => Some(NotAvailable)
    case Some(t) =>
      var headsign := t.attributes.GetOr(TripAttributes(Missing)).headsign;
      assert headsign != Missing ==> HeadsignMember(trip, headsign);
      headsign.Get(NotAvailable)
  }

  /** A present, non-empty departure time is formatted; null or "" is kept as it is. */
  function DisplayTime(departureTime: Option<string>, format: TimeFormatter): (time: Option<string>)
    ensures departureTime.Some? && departureTime.value != "" ==> time == Some(format(departureTime.value))
    ensures departureTime.None? || departureTime.value == "" ==> time == departureTime
  {
    if departureTime.Some? && departureTime.value != "" then Some(format(departureTime.value)) else departureTime
  }

  // ---------------------------------------------------------------------------
  // Prediction enrichment

  /** The trip lookup a raw prediction triggers. */
  function TripFor(p: RawPrediction, trips: string -> Result<TripDocument>): Result<Option<Trip>> {
    GetTrip(trips(p.relationships.trip.data.id))
  }

  /** The board row for one raw prediction, given its looked-up trip. */
  function Enrich(p: RawPrediction, routes: RouteTable, trip: Option<Trip>, format: TimeFormatter): Prediction {
    Prediction(
      Carrier(routes, p.relationships.route.data.id),
      DisplayTime(p.attributes.departureTime, format),
      Destination(trip),
      TrainId(p.relationships.vehicle),
      p.relationships.stop.data.id,
      p.attributes.status)
  }

  /** Enrichment of a whole prediction list, stopping at the first failed trip lookup. */
  function EnrichAll(data: seq<RawPrediction>, routes: RouteTable, trips: string -> Result<TripDocument>,
                     format: TimeFormatter): Result<seq<Prediction>>
  {
    if data == [] then Ok([])
    else
      var trip :- TripFor(data[0], trips);
      var rest :- EnrichAll(data[1..], routes, trips, format);
      Ok([Enrich(data[0], routes, trip, format)] + rest)
  }

  /** The board rows for one stop and direction. */
  function Predictions(api: Api, locationId: string, direction: DirectionId, routes: RouteTable,
                       format: TimeFormatter): Result<seq<Prediction>>
  {
    var document :- api.predictions(locationId, direction);
    EnrichAll(document.data.GetOr([]), routes, api.trip, format)
  }

  /** Enrichment succeeds exactly when every trip lookup does. */
  lemma {:induction false} EnrichAllSucceeds(data: seq<RawPrediction>, routes: RouteTable,
                                             trips: string -> Result<TripDocument>, format: TimeFormatter)
    ensures EnrichAll(data, routes, trips, format).Ok? <==> forall i :: 0 <= i < |data| ==> TripFor(data[i], trips).Ok?
  {
    if data != [] {
      var tail := data[1..];
      EnrichAllSucceeds(tail, routes, trips, format);
      assert forall i :: 1 <= i < |data| ==> tail[i - 1] == data[i];
    }
  }

  /** A successful enrichment keeps the length and order of the raw predictions, row by row. */
  lemma {:induction false} EnrichAllRows(data: seq<RawPrediction>, routes: RouteTable,
                                         trips: string -> Result<TripDocument>, format: TimeFormatter)
    requires EnrichAll(data, routes, trips, format).Ok?
    ensures var rows := EnrichAll(data, routes, trips, format).value;
      && |rows| == |data|
      && forall i :: 0 <= i < |data| ==>
           TripFor(data[i], trips).Ok? && rows[i] == Enrich(data[i], routes, TripFor(data[i], trips).value, format)
  {
    if data != [] {
      var tail := data[1..];
      EnrichAllRows(tail, routes, trips, format);
      var rows := EnrichAll(data, routes, trips, format).value;
      var rest := EnrichAll(tail, routes, trips, format).value;
      assert rows == [Enrich(data[0], routes, TripFor(data[0], trips).value, format)] + rest;
      forall i | 1 <= i < |data|
        ensures TripFor(data[i], trips).Ok? && rows[i] == Enrich(data[i], routes, TripFor(data[i], trips).value, format)
      {
        assert tail[i - 1] == data[i] && rows[i] == rest[i - 1];
      }
    }
  }

  /** A failed enrichment reports the failure of the first trip lookup that failed. */
  lemma {:induction false} EnrichAllFirstFailure(data: seq<RawPrediction>, routes: RouteTable,
                                                 trips: string -> Result<TripDocument>, format: TimeFormatter, j: nat)
    requires j < |data| && TripFor(data[j], trips).Err?
    requires forall k :: 0 <= k < j ==> TripFor(data[k], trips).Ok?
    ensures EnrichAll(data, routes, trips, format) == Err(TripFor(data[j], trips).error)
  {
    if j > 0 {
      assert forall k :: 0 <= k < j - 1 ==> data[1..][k] == data[k + 1];
      EnrichAllFirstFailure(data[1..], routes, trips, format, j - 1);
    }
  }

  /** Each board row's fields, derived from its raw prediction, for one stop and direction. */
  lemma PredictionsSpec(api: Api, locationId: string, direction: DirectionId, routes: RouteTable, format: TimeFormatter)
    ensures api.predictions(locationId, direction).Err? ==>
      Predictions(api, locationId, direction, routes, format) == Err(api.predictions(locationId, direction).error)
    ensures api.predictions(locationId, direction).Ok? ==>
      var data := api.predictions(locationId, direction).value.data.GetOr([]);
      (Predictions(api, locationId, direction, routes, format).Ok? <==>
         forall i :: 0 <= i < |data| ==> TripFor(data[i], api.trip).Ok?)
    ensures Predictions(api, locationId, direction, routes, format).Ok? ==>
      var data := api.predictions(locationId, direction).value.data.GetOr([]);
      var rows := Predictions(api, locationId, direction, routes, format).value;
      && |rows| == |data|
      && forall i :: 0 <= i < |data| ==>
        && rows[i].carrier == Carrier(routes, data[i].relationships.route.data.id)
        && rows[i].time == DisplayTime(data[i].attributes.departureTime, format)
        && rows[i].destination == Destination(TripFor(data[i], api.trip).value)
        && rows[i].train == TrainId(data[i].relationships.vehicle)
        && rows[i].track == data[i].relationships.stop.data.id
        && rows[i].status == data[i].attributes.status
  {
    var response := api.predictions(locationId, direction);
    if response.Ok? {
      var data := response.value.data.GetOr([]);
      EnrichAllSucceeds(data, routes, api.trip, format);
      if EnrichAll(data, routes, api.trip, format).Ok? {
        EnrichAllRows(data, routes, api.trip, format);
      }
    }
  }

  /** `done` followed by the rows of the rest, unless the rest failed. */
  function Prepend(done: seq<Prediction>, rest: Result<seq<Prediction>>): Result<seq<Prediction>> {
    match rest
    case Ok(rows) => Ok(done + rows)
    case Err(e) => Err(e)
  }

  /** Enriching a suffix is one trip lookup and one row followed by the next suffix. */
  lemma EnrichSuffix(data: seq<RawPrediction>, i: nat, routes: RouteTable,
                     trips: string -> Result<TripDocument>, format: TimeFormatter)
    requires i < |data|
    ensures TripFor(data[i], trips).Err? ==>
      EnrichAll(data[i..], routes, trips, format) == Err(TripFor(data[i], trips).error)
    ensures TripFor(data[i], trips).Ok? ==>
      EnrichAll(data[i..], routes, trips, format)
        == Prepend([Enrich(data[i], routes, TripFor(data[i], trips).value, format)],
                   EnrichAll(data[i + 1..], routes, trips, format))
  {
    assert data[i..][0] == data[i] && data[i..][1..] == data[i + 1..];
  }

  // The two lemmas below are sequence facts that serve only the loop invariant of GetPredictions.

  /** Prepending no rows changes nothing. */
  lemma PrependNothing(rest: Result<seq<Prediction>>)
    ensures Prepend([], rest) == rest
  {
    if rest.Ok? {
      assert [] + rest.value == rest.value;
    }
  }

  /** Prepending in two steps is prepending the concatenation. */
  lemma PrependTwice(done: seq<Prediction>, row: Prediction, rest: Result<seq<Prediction>>)
    ensures Prepend(done, Prepend([row], rest)) == Prepend(done + [row], rest)
  {
    if rest.Ok? {
      assert done + ([row] + rest.value) == done + [row] + rest.value;
    }
  }

  /** Fetches the predictions for a stop and direction and builds the board rows one by one. */
  method GetPredictions(api: Api, locationId: string, direction: DirectionId, routes: RouteTable,
                        format: TimeFormatter) returns (result: Result<seq<Prediction>>)
    ensures result == Predictions(api, locationId, direction, routes, format)
  {
    var response := api.predictions(locationId, direction);
    if response.Err? {
      return Err(response.error);
    }
    var data := response.value.data.GetOr([]);
    assert Predictions(api, locationId, direction, routes, format) == EnrichAll(data, routes, api.trip, format);
    var predictions: seq<Prediction> := [];
    var i := 0;
    assert data[i..] == data;
    PrependNothing(EnrichAll(data, routes, api.trip, format));
    while i < |data|
      invariant 0 <= i <= |data|
      invariant EnrichAll(data, routes, api.trip, format)
             == Prepend(predictions, EnrichAll(data[i..], routes, api.trip, format))
    {
      var prediction := data[i];
      EnrichSuffix(data, i, routes, api.trip, format);
      var vehicleId := TrainId(prediction.relationships.vehicle);
      var carrier := Carrier(routes, prediction.relationships.route.data.id);
      var trip := GetTrip(api.trip(prediction.relationships.trip.data.id));
      if trip.Err? {
        return Err(trip.error);
      }
      var destination := Destination(trip.value);
      var departureTime := prediction.attributes.departureTime;
      if departureTime.Some? && departureTime.value != "" {
        departureTime := Some(format(departureTime.value));
      }
      assert departureTime == DisplayTime(prediction.attributes.departureTime, format);
      var row := Prediction(carrier, departureTime, destination, vehicleId,
                            prediction.relationships.stop.data.id, prediction.attributes.status);
      assert row == Enrich(prediction, routes, trip.value, format);
      PrependTwice(predictions, row, EnrichAll(data[i + 1..], routes, api.trip, format));
      predictions := predictions + [row];
      i := i + 1;
    }
    assert data[i..] == [];
    assert predictions + [] == predictions;
    return Ok(predictions);
  }

  // ---------------------------------------------------------------------------
  // Board assembly

  /** Location, route table, departures and arrivals all succeed (the last two on the one table). */
  ghost predicate BoardSucceeds(api: Api, locationId: string, format: TimeFormatter) {
    && GetLocation(api.stop(locationId)).Ok?
    && GetAllRoutes(api.routes).Ok?
    && Predictions(api, locationId, Departures, GetAllRoutes(api.routes).value, format).Ok?
    && Predictions(api, locationId, Arrivals, GetAllRoutes(api.routes).value, format).Ok?
  }

  /** The board for a stop: every step in order, the first failure turning the page into the error view. */
  method CommuterBoard(api: Api, locationId: string, format: TimeFormatter) returns (page: BoardPage)
    ensures page.Board? <==> BoardSucceeds(api, locationId, format)
    ensures page.Board? ==>
      var routes := GetAllRoutes(api.routes).value;
      && page.location == GetLocation(api.stop(locationId)).value
      && page.departures == Predictions(api, locationId, Departures, routes, format).value
      && page.arrivals == Predictions(api, locationId, Arrivals, routes, format).value
    ensures var location := GetLocation(api.stop(locationId));
      location.Err? ==> page == ErrorPage(location.error)
    ensures var location, routes := GetLocation(api.stop(locationId)), GetAllRoutes(api.routes);
      location.Ok? && routes.Err? ==> page == ErrorPage(routes.error)
    ensures var location, routes := GetLocation(api.stop(locationId)), GetAllRoutes(api.routes);
      location.Ok? && routes.Ok? ==>
        var departures := Predictions(api, locationId, Departures, routes.value, format);
        var arrivals := Predictions(api, locationId, Arrivals, routes.value, format);
        && (departures.Err? ==> page == ErrorPage(departures.error))
        && (departures.Ok? && arrivals.Err? ==> page == ErrorPage(arrivals.error))
  {
    var location := GetLocation(api.stop(locationId));
    if location.Err? {
      return ErrorPage(location.error);
    }
    var routes := GetAllRoutes(api.routes);
    if routes.Err? {
      return ErrorPage(routes.error);
    }
    var departures := GetPredictions(api, locationId, Departures, routes.value, format);
    if departures.Err? {
      return ErrorPage(departures.error);
    }
    var arrivals := GetPredictions(api, locationId, Arrivals, routes.value, format);
    if arrivals.Err? {
      return ErrorPage(arrivals.error);
    }
    return Board(departures.value, arrivals.value, location.value);
  }
}

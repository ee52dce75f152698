# Commuter board, modelled in Dafny

A model of the request-to-board translation of a small Flask service over the
MBTA v3 API (`start.py`). The service lists stops. For one stop, it builds a board
of departures (direction 1) and arrivals (direction 0). Each raw prediction is
joined with the route table, which gives the carrier, and with a per-trip lookup,
which gives the destination.

- `wrappers.dfy` (module `Wrappers`): `Option`, for a value that may be missing;
  `Member`, for a JSON member that may be missing, present as null, or present,
  whose `Get` is Python's `.get(key, default)`; and `Result`, for an upstream
  request that either produced a body or raised a request error with its message.
- `upstream.dfy` (module `Upstream`): the upstream JSON documents as typed records.
  A member read with `[key]` is a required field. A member read with `.get` is a
  `Member` where a null value reaches the result (a stop's `name`, a trip's
  `headsign`), and an `Option` elsewhere. `Api` gathers what every endpoint answers: the stop list, a stop by id,
  the route list, a trip by id, and the predictions by stop and direction.
- `start.dfy` (module `Start`): the operations of `start.py`. The stop listing, the
  location, the route table and the trip lookup are functions. The enrichment
  loop is the method `GetPredictions`, proved equal to the recursive
  specification `Predictions`/`EnrichAll`. Board assembly is the method
  `CommuterBoard`.
- `start_examples.dfy` (module `StartExamples`): the two unit-test scenarios.

A null departure time stays null in the row. An empty-string departure time is
falsy in Python, so it is also kept unformatted. A stop name or trip headsign
present as null is returned as null; "N/A" replaces only a missing one.

## Model

| member | source | states |
|---|---|---|
| `Start.ContainsIffOccurs` | start.py:69 | the recursive substring test used for `'Amtrak' in route_name` holds iff the text occurs at some index |
| `Start.StopsOf` | start.py:18 | the listing has the length of `data`, and entry i is `{id: data[i].id, name: data[i].attributes.name}` |
| `Start.GetStops` | start.py:11-22 | a failed request gives the empty listing (never an error); a missing `data` gives the empty listing; otherwise order, length and each `{id, name}` are those of `data` |
| `Start.GetLocation` | start.py:33-39 | a failed request propagates its message; when data and attributes are present and the name is a string, the result is that name; a name present as null gives null; when any level is missing the result is "N/A" |
| `Start.RouteTableOf` | start.py:46 | the table's key set is exactly the set of ids in the route list, and every key maps to a record carrying that id |
| `Start.RouteTableLastWins` | start.py:46 | for repeated ids the last record in the list is the one kept |
| `Start.GetAllRoutes` | start.py:41-47 | a failed request propagates its message; otherwise the result is the dict-comprehension table of the listed routes (empty when `data` is missing), keyed by exactly the listed ids, each id mapped to a record carrying it |
| `Start.GetTrip` | start.py:49-54 | succeeds iff the request does, propagates the failure message, and yields the document's `data` |
| `Start.TrainId` | start.py:63-64 | the vehicle id when the vehicle relationship and its data are present, "N/A" otherwise |
| `Start.Carrier` | start.py:65-72 | the label is "Amtrak" or "MBTA", and it is "Amtrak" iff the route id is in the table, its name contains "Amtrak" and its type is "Rail"; an unknown route therefore gives "MBTA" |
| `Start.Destination` | start.py:75 | the trip's headsign when data and attributes are present and the headsign is a string; null when the headsign is present as null; "N/A" when any level is missing |
| `Start.DisplayTime` | start.py:76-80 | the formatter is applied exactly when the departure time is a non-empty string; null or "" passes through unchanged |
| `Start.EnrichAllSucceeds` | start.py:61-90 | enrichment of a prediction list succeeds iff every per-prediction trip lookup succeeds |
| `Start.EnrichAllRows` | start.py:61-90 | a successful enrichment has the length and order of the raw predictions, row i derived from prediction i and its own trip |
| `Start.EnrichAllFirstFailure` | start.py:73-74 | a failed trip lookup aborts the whole list with that lookup's message, the first failing one in list order |
| `Start.PredictionsSpec` | start.py:56-90 | a failed predictions request propagates its message; on success, row i has carrier, time, destination, train, track (the stop id) and status (verbatim) derived from raw prediction i |
| `Start.GetPredictions` | start.py:56-90 | the append loop, with its early exit on a failed trip lookup, yields exactly the specified result |
| `Start.CommuterBoard` | start.py:93-104 | the board is produced iff location, routes, departures and arrivals all succeed, departures and arrivals sharing one route table; otherwise it is the error page carrying the first failure's message, never a partial board |
| `StartExamples.StopsListingExample` | test.py:5-17 | the unit test's two stops come back as the expected `{id, name}` list |
| `StartExamples.LocationExample` | test.py:19-25 | the unit test's stop document resolves to "Location 1" |

## Left out

- HTTP requests, `raise_for_status` and `.json()` are not modelled. Each request is an input `Result`: a decoded body or a failure message. URLs, timeouts and the kinds of failure are not represented.
- A trip lookup is a function of the trip id, so two predictions with the same trip see the same answer. The source issues one request per prediction, and the two requests could answer differently.
- Time formatting (`fromisoformat`, the US/Eastern conversion, `strftime('%I:%M %p')`) is the caller-supplied `TimeFormatter`. It is total, so an unparseable timestamp, which crashes the source, is not modelled.
- Crashes on malformed documents are not modelled. The model makes those fields required instead: `[...]`-indexed fields, `attributes: null` under `.get(...).get(...)`, `data: null` in a list response, and route names that are null or not strings (`'Amtrak' in route_name` would raise; the model reads a missing name as "").
- Falsy `data` in the stop and trip documents (missing, null or `{}`) is one case, `None`. The source treats all three alike.
- Flask routing, `request.form` and template rendering are not modelled. The board request is `CommuterBoard` applied to a location id; a missing form field, which the source formats as the text "None", is not represented.
- The `index` page is not modelled. It only renders `GetStops`, and `GetStops` never raises, so its `except` branch is unreachable.
- Logging with `print` is not modelled; it does not affect any result.

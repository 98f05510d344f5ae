/**
 The route handlers of the location service, each a pure transition from a state and
 the request's inputs to the next state, the HTTP response, and the query (if any) the
 handler sent to the weather service. Redis is the `cache` map, the Mongo collection the
 `store` map; cache writes that the handlers do not await are taken to happen in program
 order.
 */
module LocationRoutes {

  import opened Wrappers
  import opened JsValues
  import opened CoordinateKey
  import opened WeatherService

  type Id = string

  /** A location document; no field is required, so `name` may be absent. */
  datatype Location = Location(name: Option<string>, latitude: Num, longitude: Num)

  /** A PUT body: `None` or `Undefined` means the field is absent from the body. */
  datatype Patch = Patch(name: Option<string>, latitude: Num, longitude: Num)

  /** Seconds every cache write asks Redis to keep the entry (`'EX', 3600`). */
  const Ttl: nat := 3600

  /** A Redis entry: the cached payload and the expiry it was written with. */
  datatype Entry = Entry(payload: Payload, ttl: nat)

  datatype State = State(cache: map<string, Entry>, store: map<Id, Location>)

  /**
   What goes back to the client; `Silent` is a request that is never answered because
   the handler threw (depending on the Node version, the process may then exit).
   */
  datatype Response =
    | Text(status: int, text: string)
    | Json(payload: Payload)
    | One(location: Location)
    | All(records: map<Id, Location>)
    | Silent

  /** The outcome of handling one request. */
  datatype Step = Step(state: State, response: Response, fetched: Option<Query>)

  const Added := "Location added successfully"
  const AlreadyPresent := "Location already present in db please update the location details!"
  const InvalidCoordinates := "Invalid location or coordinates"
  const NotFound := "Location not found"
  const Updated := "Location updated successfully"
  const Deleted := "Location deleted successfully"
  const ServerError := "Server error"

  /**
   The error handler of POST and PUT: `res.status(cod).send(message)`. Node refuses a
   status outside 100..999 by throwing inside the handler, so then nothing is sent.
   */
  function UpstreamError(code: int, message: string): (r: Response)
    ensures r.Text? <==> 100 <= code <= 999
    ensures r.Text? ==> r.status == code && r.text == message
    ensures !r.Text? ==> r.Silent?
  {
    if 100 <= code <= 999 then Text(code, message) else Silent
  }

  /** `${location.name}`: an absent name is rendered as `undefined`. */
  function NameText(name: Option<string>): string {
    if name.Some? then name.value else "undefined"
  }

  /** The cache key of a stored location. */
  function RecordKey(fmt: Formatter, loc: Location): string {
    Key(fmt, loc.latitude, loc.longitude)
  }

  /** Every cache entry carries the fixed expiry. */
  ghost predicate TtlFixed(s: State) {
    forall k :: k in s.cache ==> s.cache[k].ttl == Ttl
  }

  /** `findByIdAndUpdate`: the fields present in the body replace the stored ones. */
  function Apply(loc: Location, p: Patch): (r: Location)
    ensures r.name == (if p.name.Some? then p.name else loc.name)
    ensures p.latitude.Number? ==> r.latitude == p.latitude
    ensures p.latitude.Undefined? ==> r.latitude == loc.latitude
    ensures p.longitude.Number? ==> r.longitude == p.longitude
    ensures p.longitude.Undefined? ==> r.longitude == loc.longitude
  {
    Location(
      if p.name.Some? then p.name else loc.name,
      if p.latitude.Undefined? then loc.latitude else p.latitude,
      if p.longitude.Undefined? then loc.longitude else p.longitude)
  }

  /** GET /locations: every stored document. */
  function ListLocations(s: State): (r: Step)
    ensures r.state == s && r.fetched == None
    ensures r.response.All? && r.response.records == s.store
  {
    Step(s, All(s.store), None)
  }

  /** GET /locations/:id. */
  function GetLocation(s: State, id: Id): (r: Step)
    ensures r.state == s && r.fetched == None
    ensures r.response.One? <==> id in s.store
    ensures r.response.One? ==> r.response.location == s.store[id]
    ensures !r.response.One? ==> r.response == Text(404, NotFound)
  {
    if id in s.store then Step(s, One(s.store[id]), None)
    else Step(s, Text(404, NotFound), None)
  }

  /**
   POST /locations. A cached payload for the body's coordinates answers without a
   fetch and without saving; otherwise the fetched payload is cached whatever its
   `cod`, and the document is saved only when the `cod` is 200. `freshId` is the id the
   new document carries; if it is taken, `save` throws and the request goes unanswered.
   */
  function Post(s: State, fmt: Formatter, svc: Service, loc: Location, freshId: Id): (r: Step)
    ensures r.state.cache - {RecordKey(fmt, loc)} == s.cache - {RecordKey(fmt, loc)}
    ensures r.state.store == s.store || (freshId !in s.store && r.state.store == s.store[freshId := loc])
    ensures r.fetched.Some? <==> RecordKey(fmt, loc) !in s.cache
    ensures TtlFixed(s) ==> TtlFixed(r.state)
  {
    var key := RecordKey(fmt, loc);
    if key in s.cache then
      var cached := s.cache[key].payload;
      Step(s, if Accepted(cached) then Text(200, AlreadyPresent) else Text(400, InvalidCoordinates), None)
    else
      var q := ByCoords(loc.latitude, loc.longitude, false);
      match svc(q)
      case Ok(p) =>
        var cache' := s.cache[key := Entry(p, Ttl)];
        if !Accepted(p) then Step(State(cache', s.store), Text(400, InvalidCoordinates), Some(q))
        else if freshId in s.store then Step(State(cache', s.store), Silent, Some(q))
        else Step(State(cache', s.store[freshId := loc]), Text(200, Added), Some(q))
      case Rejected(code, message) => Step(s, UpstreamError(code, message), Some(q))
      case Unreachable => Step(s, Silent, Some(q))
  }

  /**
   PUT /locations/:id. The stored document's key is dropped first, whatever follows;
   the service is asked about the body's coordinates (the cache is not consulted), and
   only a 200 `cod` updates the document and caches the payload under the body's key.
   */
  function Put(s: State, fmt: Formatter, svc: Service, id: Id, patch: Patch): (r: Step)
    ensures r.state.store - {id} == s.store - {id}
    ensures r.state.store.Keys == s.store.Keys
    ensures id !in s.store ==> r.state == s
    ensures id in s.store ==>
      var touched := {RecordKey(fmt, s.store[id]), Key(fmt, patch.latitude, patch.longitude)};
      r.state.cache - touched == s.cache - touched
    ensures r.fetched.Some? <==> id in s.store
    ensures TtlFixed(s) ==> TtlFixed(r.state)
  {
    if id !in s.store then Step(s, Text(404, NotFound), None)
    else
      var current := s.store[id];
      var invalidated := s.cache - {RecordKey(fmt, current)};
      var q := ByCoords(patch.latitude, patch.longitude, false);
      match svc(q)
      case Ok(p) =>
        if Accepted(p) then
          var newKey := Key(fmt, patch.latitude, patch.longitude);
          Step(State(invalidated[newKey := Entry(p, Ttl)], s.store[id := Apply(current, patch)]),
               Text(200, Updated), Some(q))
        else Step(State(invalidated, s.store), Text(400, InvalidCoordinates), Some(q))
      case Rejected(code, message) => Step(State(invalidated, s.store), UpstreamError(code, message), Some(q))
      case Unreachable => Step(State(invalidated, s.store), Silent, Some(q))
  }

  /** DELETE /locations/:id: drop the document's key, then the document. */
  function Delete(s: State, fmt: Formatter, id: Id): (r: Step)
    ensures r.state.store.Keys == s.store.Keys - {id}
    ensures forall other :: other in r.state.store ==> r.state.store[other] == s.store[other]
    ensures id in s.store ==> r.state.cache == s.cache - {RecordKey(fmt, s.store[id])}
    ensures id !in s.store ==> r.state == s
    ensures r.fetched.None?
    ensures TtlFixed(s) ==> TtlFixed(r.state)
  {
    if id !in s.store then Step(s, Text(404, NotFound), None)
    else Step(State(s.cache - {RecordKey(fmt, s.store[id])}, s.store - {id}), Text(200, Deleted), None)
  }

  /**
   The query of a weather lookup: by coordinates when both are truthy, otherwise by
   the location's name; always in metric units.
   */
  function WeatherQuery(loc: Location): (q: Query)
    ensures q.metric
    ensures q.ByCoords? <==> Truthy(loc.latitude) && Truthy(loc.longitude)
    ensures q.ByCoords? ==> q.lat == loc.latitude && q.lon == loc.longitude
    ensures q.ByName? ==> q.name == NameText(loc.name)
  {
    if Truthy(loc.latitude) && Truthy(loc.longitude) then ByCoords(loc.latitude, loc.longitude, true)
    else ByName(NameText(loc.name), true)
  }

  /**
   GET /weather/:id: a cached payload under the document's coordinate key is served
   as is; otherwise the service is asked and a returned payload is cached under that
   same key and served. Any failure of the call is a 500.
   */
  function Weather(s: State, fmt: Formatter, svc: Service, id: Id): (r: Step)
    ensures r.state.store == s.store
    ensures id in s.store ==>
      r.state.cache - {RecordKey(fmt, s.store[id])} == s.cache - {RecordKey(fmt, s.store[id])}
    ensures id !in s.store ==> r.state == s
    ensures r.fetched.Some? <==> id in s.store && RecordKey(fmt, s.store[id]) !in s.cache
    ensures TtlFixed(s) ==> TtlFixed(r.state)
  {
    if id !in s.store then Step(s, Text(404, NotFound), None)
    else
      var loc := s.store[id];
      var key := RecordKey(fmt, loc);
      if key in s.cache then Step(s, Json(s.cache[key].payload), None)
      else
        var q := WeatherQuery(loc);
        match svc(q)
        case Ok(p) => Step(State(s.cache[key := Entry(p, Ttl)], s.store), Json(p), Some(q))
        case _ => Step(s, Text(500, ServerError), Some(q))
  }
}

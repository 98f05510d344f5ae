/**
 The Express app: requests are routed to their handlers, and a run is a sequence of
 requests handled one after another, each meeting the weather service as it is at that
 moment and, for a creation, the id the new document carries.
 */
module Server {

  import opened Wrappers
  import opened CoordinateKey
  import opened WeatherService
  import opened LocationRoutes

  datatype Request =
    | ListAll                         // GET /locations
    | Create(body: Location)          // POST /locations
    | Show(id: Id)                    // GET /locations/:location_id
    | Update(id: Id, patch: Patch)    // PUT /locations/:location_id
    | Remove(id: Id)                  // DELETE /locations/:location_id
    | Forecast(id: Id)                // GET /weather/:location_id
    | History(days: string)           // GET /history/:days

  predicate ReadOnly(req: Request) {
    req.ListAll? || req.Show? || req.History?
  }

  datatype Event = Event(request: Request, service: Service, freshId: Id)

  /** The service's reply to the query a step sent, when that reply carried a payload. */
  function ServedPayload(e: Event, r: Step): Option<Payload> {
    if r.fetched.Some? && e.service(r.fetched.value).Ok? then Some(e.service(r.fetched.value).payload)
    else None
  }

  /**
   One request. The routes that only read change nothing; the store changes only on a
   deletion or after the service accepted the query this request sent; and every cache
   entry afterwards was there before or is the payload this request was served.
   `/history/:days` never answers.
   */
  function Handle(s: State, fmt: Formatter, e: Event): (r: Step)
    ensures TtlFixed(s) ==> TtlFixed(r.state)
    ensures ReadOnly(e.request) ==> r.state == s && r.fetched == None
    ensures r.state.store != s.store ==>
      e.request.Remove? || (ServedPayload(e, r).Some? && Accepted(ServedPayload(e, r).value))
    ensures forall k :: k in r.state.cache ==>
      (k in s.cache && r.state.cache[k] == s.cache[k]) || ServedPayload(e, r) == Some(r.state.cache[k].payload)
  {
    match e.request
    case ListAll => ListLocations(s)
    case Create(body) => Post(s, fmt, e.service, body, e.freshId)
    case Show(id) => GetLocation(s, id)
    case Update(id, patch) => Put(s, fmt, e.service, id, patch)
    case Remove(id) => Delete(s, fmt, id)
    case Forecast(id) => Weather(s, fmt, e.service, id)
    case History(_) => Step(s, Silent, None)
  }

  /** The state after handling `events` in order. */
  function Run(s: State, fmt: Formatter, events: seq<Event>): State
    decreases |events|
  {
    if |events| == 0 then s
    else Run(Handle(s, fmt, events[0]).state, fmt, events[1..])
  }

  /** Every payload the service handed back during a run. */
  ghost function Served(s: State, fmt: Formatter, events: seq<Event>): set<Payload>
    decreases |events|
  {
    if |events| == 0 then {}
    else
      var r := Handle(s, fmt, events[0]);
      var here := ServedPayload(events[0], r);
      (if here.Some? then {here.value} else {}) + Served(r.state, fmt, events[1..])
  }

  ghost function Payloads(cache: map<string, Entry>): set<Payload> {
    set k | k in cache :: cache[k].payload
  }

  /** Every cache entry keeps the fixed one-hour expiry through any run. */
  lemma {:induction false} RunKeepsTtl(s: State, fmt: Formatter, events: seq<Event>)
    requires TtlFixed(s)
    ensures TtlFixed(Run(s, fmt, events))
    decreases |events|
  {
    if |events| > 0 {
      RunKeepsTtl(Handle(s, fmt, events[0]).state, fmt, events[1..]);
    }
  }

  /** A run of reads leaves both maps as they were. */
  lemma {:induction false} ReadOnlyRunChangesNothing(s: State, fmt: Formatter, events: seq<Event>)
    requires forall i :: 0 <= i < |events| ==> ReadOnly(events[i].request)
    ensures Run(s, fmt, events) == s
    decreases |events|
  {
    if |events| > 0 {
      assert Handle(s, fmt, events[0]).state == s;
      ReadOnlyRunChangesNothing(s, fmt, events[1..]);
    }
  }

  /** The cache never holds a payload that was neither there at the start nor served by the weather service. */
  lemma {:induction false} CacheHoldsOnlyServedPayloads(s: State, fmt: Formatter, events: seq<Event>)
    ensures Payloads(Run(s, fmt, events).cache) <= Payloads(s.cache) + Served(s, fmt, events)
    decreases |events|
  {
    if |events| > 0 {
      var r := Handle(s, fmt, events[0]);
      CacheHoldsOnlyServedPayloads(r.state, fmt, events[1..]);
      forall p | p in Payloads(r.state.cache)
        ensures p in Payloads(s.cache) + Served(s, fmt, events)
      {
        var k :| k in r.state.cache && r.state.cache[k].payload == p;
      }
    }
  }
}

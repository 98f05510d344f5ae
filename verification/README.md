# Weather location service: cache-aside model

A Dafny model of the request handlers of a small Express service that keeps named
locations (name, latitude, longitude) in a Mongo collection, validates them against the
OpenWeatherMap API, and caches the API's answers in Redis under the key
`${latitude}_${longitude}`, asking Redis (`'EX', 3600`) to expire each entry after one hour.

Each route handler of `index.js` is a pure transition on a `State(cache, store)`:

- `cache` maps a coordinate key to an `Entry(payload, ttl)` and stands for Redis;
- `store` maps a document id to a `Location(name, latitude, longitude)` and stands for
  the Mongo collection.

A transition returns a `Step(state, response, fetched)`. Here `fetched` is the query the
handler sent to the weather service, or `None` when it sent none.

The weather service is a parameter `svc: Query -> Reply`. A `Reply` is one of:

- `Ok(payload)`: a 2xx answer whose body carries a `cod`;
- `Rejected(code, message)`: an error answer;
- `Unreachable`: no answer at all.

The id that a newly created document carries is a parameter as well. How JavaScript
prints a number is out of reach, so the text of a coordinate is a parameter
`fmt: Num -> string`. Every route builds its key with the same `CoordinateKey.Key`.

Modules:

- `JsValues`: a coordinate is `Undefined` or a number, with JavaScript truthiness.
- `CoordinateKey`: the key template. Two pairs share a key exactly when they are equal,
  provided their latitudes print without `_` and differing coordinates print differently.
- `WeatherService`: payloads, `cod`, queries and replies.
- `LocationRoutes`: the six handlers.
- `RouteProperties`: what each handler does to the two maps, branch by branch.
- `KeySharing`: one document followed across two requests, e.g. create then delete, or
  create then look up.
- `Server`: the router, and runs of many requests.

The model follows the code, including where it departs from a plain cache-aside design:

- POST caches every 2xx payload before it checks `cod`. So a payload whose `cod` is not
  200 is cached, and later served by the weather lookup.
- POST reads a cache hit as "already present" without looking at the store.
- PUT asks the service without reading the cache. It builds the new key from the raw
  request body, not from the merged document. So after a PUT whose body leaves out a
  coordinate that the document has, a later DELETE drops the document's key but not the one the PUT cached
  (`KeySharing.DeleteMissesKeyOfPartialPut`).
- No field of a location is required. A document without a name is saved, and a
  lookup that falls back to the name query sends the text `undefined`.
- Redis failures are not absorbed, so they are not a degraded miss. A failed service
  call in POST or PUT leaves the request unanswered when the call got no response:
  the error handler reads `err.response.data` and throws. The same happens when the
  upstream `cod` is not a valid HTTP status (outside 100 to 999): Node's `writeHead`
  throws inside the error handler. The weather lookup answers 500 instead.
- A request that goes unanswered is `Silent`. The Express and Node versions are not
  pinned: under Express 4 such a throw is an unhandled rejection, and newer Node
  versions then end the process. So `Silent` may also mean the server exits.
- POST and PUT query without `units=metric` (index.js:60, 135), yet cache the payload
  under the same key that the weather lookup reads (index.js:194-198). So a lookup right
  after a create serves the standard-units payload, not a metric one
  (`KeySharing.WeatherHitsAfterPost`). The same holds after an update whose body gives
  both coordinates; after one that leaves out a coordinate the document has, the lookup
  reads the merged document's key instead.

## Model

| member | source | states |
|---|---|---|
| `CoordinateKey.KeyInjective` | index.js:61 | two coordinate pairs share a key exactly when they are equal, given that the two latitudes print without `_` and that differing coordinates print differently |
| `CoordinateKey.Key` | index.js:61 | the key is the latitude's text, the separator `_`, then the longitude's text, so it splits back into the two renderings; every route builds it this way (index.js:61, 125, 143, 168, 194) |
| `LocationRoutes.ListLocations` | index.js:43-51 | GET /locations answers with the whole store and changes nothing |
| `LocationRoutes.GetLocation` | index.js:96-109 | GET /locations/:id answers with the document exactly when the id is stored, otherwise 404, and changes nothing |
| `LocationRoutes.Apply` | index.js:140 | the update replaces exactly the fields present in the body and keeps the others |
| `LocationRoutes.UpstreamError` | index.js:89 | the error handler answers with the upstream `cod` and message exactly when the `cod` is a valid HTTP status (100 to 999), and otherwise answers nothing; PUT's handler at index.js:153 is the same |
| `LocationRoutes.Post` | index.js:55-91 | POST may change only the body's key in the cache, and may only add the new document under a free id; it queries the service exactly when the key is not cached |
| `LocationRoutes.Put` | index.js:113-155 | PUT changes no other document and never adds or removes an id. It touches no cache key other than the old document key and the body key. An unknown id changes nothing. It queries exactly when the id is known |
| `LocationRoutes.Delete` | index.js:160-183 | DELETE removes exactly the id and the document's coordinate key and keeps every other document; an unknown id changes nothing; it never queries |
| `LocationRoutes.WeatherQuery` | index.js:200-206 | the lookup queries by coordinates exactly when both are truthy, else by name, always in metric units |
| `LocationRoutes.Weather` | index.js:188-219 | the lookup never changes the store and touches only the document's coordinate key; it queries exactly when the id is known and that key is not cached |
| `RouteProperties.PostOnHit` | index.js:62-85 | on a cached key POST sends no query, writes nothing, answers "already present" if the cached `cod` is 200 and 400 otherwise |
| `RouteProperties.PostOnMiss` | index.js:67-89 | on an uncached key POST queries by coordinates and caches any 2xx payload with TTL 3600. The store gains the document exactly when `cod` is 200 and the id is free; a taken id leaves the request unanswered. A failed call changes neither map, and is answered with the upstream `cod` only when that is a valid HTTP status |
| `RouteProperties.PutUnknown` | index.js:119-122 | PUT on an unknown id answers 404, sends no query, changes nothing |
| `RouteProperties.PutKnown` | index.js:124-154 | PUT on a known id always drops the old key. Only a 200 `cod` merges the body into the document and caches the new key with TTL 3600. The old key survives only if the update rewrote it. An upstream error is answered with its `cod` only when that is a valid HTTP status |
| `RouteProperties.DeleteEffect` | index.js:163-178 | DELETE of a known id removes exactly its document and its key and answers success; an unknown id is 404 with no change |
| `RouteProperties.WeatherOnHit` | index.js:194-198 | a cached lookup serves the cached payload with no query and no change |
| `RouteProperties.WeatherOnMiss` | index.js:199-217 | an uncached lookup caches the returned payload under the coordinate key with TTL 3600 and serves that same payload; a failed call is a 500 with no change |
| `RouteProperties.WeatherUnknown` | index.js:191-214 | a lookup of an unknown id answers 404 with no query and no change |
| `RouteProperties.WeatherQueryChoice` | index.js:194-209 | on a miss, a falsy (absent or zero) coordinate makes the lookup query by name, two truthy ones by coordinates; either way a returned payload is cached under the coordinate key |
| `RouteProperties.ListChangesNothing` | index.js:43-51 | GET /locations returns every stored document and changes nothing |
| `RouteProperties.ShowChangesNothing` | index.js:96-109 | GET /locations/:id returns the document or 404 and changes nothing |
| `KeySharing.DeleteUndoesPost` | index.js:168-177 | deleting a freshly created document restores both maps exactly: DELETE drops the key that POST wrote |
| `KeySharing.WeatherHitsAfterPost` | index.js:194-198 | after a creation, the lookup of the new document hits the entry that POST cached and sends no query |
| `KeySharing.PutDropsKeyOfPost` | index.js:125-126 | after a creation, an update of the document leaves POST's key cached only if it rewrote that same key |
| `KeySharing.PutKeyMatchesRecord` | index.js:140-144 | when the body's and the document's coordinates print apart and their latitudes print without `_`, the key cached by an accepted PUT equals the updated document's key exactly when the body leaves out only coordinates the document already lacked |
| `KeySharing.DeleteMissesKeyOfPartialPut` | index.js:143-168 | after an accepted PUT whose body leaves out the latitude of a document that has one, a DELETE of that document leaves the PUT's entry cached, given that `undefined` and the document's latitude print differently and without `_` |
| `KeySharing.PostAfterDeleteFetches` | index.js:168-169 | after a deletion, a creation at the same coordinates misses the cache and queries the service |
| `KeySharing.WeatherTwiceFetchesOnce` | index.js:195-210 | two lookups in a row: the second sends no query, changes nothing and serves the same payload |
| `KeySharing.FailedLookupNotCached` | index.js:207-217 | a lookup whose call fails caches nothing, so the next lookup queries again |
| `Server.Handle` | index.js:43-227 | reads change nothing. The store changes only on a deletion, or after the service accepted this request's query. Every cache entry was there before or is the payload just served |
| `Server.RunKeepsTtl` | index.js:70 | through any run of requests, every cache entry records the one-hour expiry the code asks for |
| `Server.ReadOnlyRunChangesNothing` | index.js:43-227 | any run of GET /locations, GET /locations/:id and /history requests leaves both maps unchanged |
| `Server.CacheHoldsOnlyServedPayloads` | index.js:70-209 | after any run (cache writes at index.js:70, 144 and 209), every cached payload was cached at the start or was served by the weather service during the run |

## Left out

- Connection setup for Redis, Mongo and Express (index.js:9-35, 229-231, redisConfig.js): I/O wiring with no logic.
- The rate limiter and the access logger (middleware.js): a configuration object for a library, and a database write of fields split from a log line whose format belongs to that library.
- schemas.js is used only to shape `Location`: it declares fields and has no behaviour.
- URLs, the API key, HTTP plumbing and JSON: only the query kind (coordinates or name, metric or not) is kept. The JSON round trip through Redis is taken to be the identity.
- Number formatting: `fmt` is a parameter. `KeyInjective` and `PutKeyMatchesRecord` assume, only for the coordinates they compare, that differing values print differently and that latitudes print without `_`. Floating-point coordinates are modelled as `real`.
- `null` and `NaN` coordinates, and Mongoose's casting of body values. A POST body is taken as already cast. A PUT body's values are used as given for both the key and the update.
- Malformed ids and Mongo or Redis failures: lookups of an id not in the store are 404s, and store or cache operations always succeed. So the 500 branches for store errors (index.js:47-50, 105-108, 179-182) are not modelled.
- Ordering of cache writes that are not awaited (index.js:70, 126, 144, 169): they are taken to happen in program order. For PUT that means the old key is deleted before the new key is set, which matters only when the two keys are equal.
- The error handlers of POST and PUT pass the upstream `cod` to `res.status`; `Rejected` carries it as an integer, so a string or missing `cod` is not modelled.
- Redis expiry: each entry records the TTL the code asks for, but there is no clock, so expiry never removes an entry. The Redis client's version is not pinned. With the promise-style client the code connects with, `set` takes an options object, so the positional `'EX', 3600` may be ignored. The one-hour expiry is therefore the code's intent, not a guarantee.
- Concurrency between requests: a run handles requests one at a time.
- `/history/:days` never answers (index.js:223-227) and is modelled as `Silent` with no change.

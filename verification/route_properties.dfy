/**
 What each route does to the two maps, branch by branch: which key is written or
 dropped, when the store is touched, and that a cache hit sends no query.
 */
module RouteProperties {

  import opened Wrappers
  import opened JsValues
  import opened CoordinateKey
  import opened WeatherService
  import opened LocationRoutes

  /** POST on a cached key: no query, no write to either map, and the answer follows the cached `cod`. */
  lemma PostOnHit(s: State, fmt: Formatter, svc: Service, loc: Location, freshId: Id)
    requires RecordKey(fmt, loc) in s.cache
    ensures var r := Post(s, fmt, svc, loc, freshId);
      && r.state == s
      && r.fetched == None
      && r.response == (if Accepted(s.cache[RecordKey(fmt, loc)].payload)
                        then Text(200, AlreadyPresent) else Text(400, InvalidCoordinates))
  {
  }

  /**
   POST on an uncached key: one query by the body's coordinates. A returned payload is
   cached under the key with the fixed expiry whatever its `cod`, and the store gains
   the document exactly when the `cod` is 200 and the id is free; a failed call leaves
   both maps as they were. A taken id makes `save` throw after the cache write, and an
   upstream error whose `cod` is no HTTP status makes the error handler throw: neither answers.
   */
  lemma PostOnMiss(s: State, fmt: Formatter, svc: Service, loc: Location, freshId: Id)
    requires RecordKey(fmt, loc) !in s.cache
    ensures var r := Post(s, fmt, svc, loc, freshId);
      var q := ByCoords(loc.latitude, loc.longitude, false);
      && r.fetched == Some(q)
      && (svc(q).Ok? ==> r.state.cache == s.cache[RecordKey(fmt, loc) := Entry(svc(q).payload, Ttl)])
      && (svc(q).Ok? ==>
            (r.state.store != s.store <==> Accepted(svc(q).payload) && freshId !in s.store))
      && (svc(q).Ok? && Accepted(svc(q).payload) && freshId !in s.store ==>
            r.state.store == s.store[freshId := loc] && r.response == Text(200, Added))
      && (svc(q).Ok? && Accepted(svc(q).payload) && freshId in s.store ==> r.response == Silent)
      && (svc(q).Ok? && !Accepted(svc(q).payload) ==> r.response == Text(400, InvalidCoordinates))
      && (!svc(q).Ok? ==> r.state == s)
      && (svc(q).Rejected? && 100 <= svc(q).code <= 999 ==> r.response == Text(svc(q).code, svc(q).message))
      && (svc(q).Rejected? && !(100 <= svc(q).code <= 999) ==> r.response == Silent)
      && (svc(q).Unreachable? ==> r.response == Silent)
  {
  }

  /** PUT on an unknown id: 404, no query, nothing changes. */
  lemma PutUnknown(s: State, fmt: Formatter, svc: Service, id: Id, patch: Patch)
    requires id !in s.store
    ensures var r := Put(s, fmt, svc, id, patch);
      r.state == s && r.response == Text(404, NotFound) && r.fetched == None
  {
  }

  /**
   PUT on a known id: the document's old key is gone afterwards unless an accepted
   update rewrites that very key; the document changes and the new key is cached only
   on a 200 `cod`, and then with the merged fields and the fresh payload.
   */
  lemma PutKnown(s: State, fmt: Formatter, svc: Service, id: Id, patch: Patch)
    requires id in s.store
    ensures var r := Put(s, fmt, svc, id, patch);
      var oldKey := RecordKey(fmt, s.store[id]);
      var newKey := Key(fmt, patch.latitude, patch.longitude);
      var q := ByCoords(patch.latitude, patch.longitude, false);
      var accepted := svc(q).Ok? && Accepted(svc(q).payload);
      && r.fetched == Some(q)
      && (!accepted ==> r.state == State(s.cache - {oldKey}, s.store))
      && (accepted ==> r.state.store == s.store[id := Apply(s.store[id], patch)])
      && (accepted ==> r.state.cache == (s.cache - {oldKey})[newKey := Entry(svc(q).payload, Ttl)])
      && (oldKey in r.state.cache ==> accepted && oldKey == newKey)
      && (accepted ==> r.response == Text(200, Updated))
      && (svc(q).Ok? && !accepted ==> r.response == Text(400, InvalidCoordinates))
      && (svc(q).Rejected? && 100 <= svc(q).code <= 999 ==> r.response == Text(svc(q).code, svc(q).message))
      && (svc(q).Rejected? && !(100 <= svc(q).code <= 999) ==> r.response == Silent)
      && (svc(q).Unreachable? ==> r.response == Silent)
  {
  }

  /** DELETE: a known id loses exactly its document and its key; an unknown id is a 404 with no change. */
  lemma DeleteEffect(s: State, fmt: Formatter, id: Id)
    ensures var r := Delete(s, fmt, id);
      && (id in s.store ==>
            r.state == State(s.cache - {RecordKey(fmt, s.store[id])}, s.store - {id})
            && r.response == Text(200, Deleted))
      && (id !in s.store ==> r.state == s && r.response == Text(404, NotFound))
  {
  }

  /** Weather lookup on a hit: the cached payload is served, no query, no change. */
  lemma WeatherOnHit(s: State, fmt: Formatter, svc: Service, id: Id)
    requires id in s.store && RecordKey(fmt, s.store[id]) in s.cache
    ensures var r := Weather(s, fmt, svc, id);
      && r.state == s
      && r.fetched == None
      && r.response == Json(s.cache[RecordKey(fmt, s.store[id])].payload)
  {
  }

  /**
   Weather lookup on a miss: one query chosen from the document, and a returned payload
   is both cached under the coordinate key and served; a failed call is a 500 with no change.
   */
  lemma WeatherOnMiss(s: State, fmt: Formatter, svc: Service, id: Id)
    requires id in s.store && RecordKey(fmt, s.store[id]) !in s.cache
    ensures var r := Weather(s, fmt, svc, id);
      var q := WeatherQuery(s.store[id]);
      && r.fetched == Some(q)
      && (svc(q).Ok? ==>
            r.state == State(s.cache[RecordKey(fmt, s.store[id]) := Entry(svc(q).payload, Ttl)], s.store)
            && r.response == Json(svc(q).payload))
      && (!svc(q).Ok? ==> r.state == s && r.response == Text(500, ServerError))
  {
  }

  /** Weather lookup on an unknown id: 404, no query, no change. */
  lemma WeatherUnknown(s: State, fmt: Formatter, svc: Service, id: Id)
    requires id !in s.store
    ensures var r := Weather(s, fmt, svc, id);
      r.state == s && r.fetched == None && r.response == Text(404, NotFound)
  {
  }

  /**
   On a miss the lookup queries by name whenever either coordinate is falsy (absent or
   zero), and by coordinates only when both are truthy; whichever query is sent, a
   returned payload is cached under the document's coordinate key.
   */
  lemma WeatherQueryChoice(s: State, fmt: Formatter, svc: Service, id: Id)
    requires id in s.store && RecordKey(fmt, s.store[id]) !in s.cache
    ensures var loc := s.store[id];
      var r := Weather(s, fmt, svc, id);
      && (!Truthy(loc.latitude) || !Truthy(loc.longitude) ==>
            r.fetched == Some(ByName(NameText(loc.name), true)))
      && (Truthy(loc.latitude) && Truthy(loc.longitude) ==>
            r.fetched == Some(ByCoords(loc.latitude, loc.longitude, true)))
      && (svc(r.fetched.value).Ok? ==>
            RecordKey(fmt, loc) in r.state.cache
            && r.state.cache[RecordKey(fmt, loc)].payload == svc(r.fetched.value).payload)
  {
  }

  /** GET /locations answers with every stored document and changes nothing. */
  lemma ListChangesNothing(s: State)
    ensures var r := ListLocations(s);
      r.state == s && r.fetched == None && r.response == All(s.store)
  {
  }

  /** GET /locations/:id answers with the document or a 404 and changes nothing. */
  lemma ShowChangesNothing(s: State, id: Id)
    ensures var r := GetLocation(s, id);
      && r.state == s
      && r.fetched == None
      && r.response == (if id in s.store then One(s.store[id]) else Text(404, NotFound))
  {
  }
}

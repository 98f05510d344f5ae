/**
 The routes build the cache key from a document's coordinates with one template, so
 the key a creation or a lookup writes is the key a later update or removal drops.
 These lemmas follow a document across two requests.
 */
module KeySharing {

  import opened Wrappers
  import opened CoordinateKey
  import opened JsValues
  import opened WeatherService
  import opened LocationRoutes

  /** The POST of `loc` that creates document `freshId` from a fresh, accepted payload. */
  ghost predicate CreatesFresh(s: State, fmt: Formatter, svc: Service, loc: Location, freshId: Id) {
    && RecordKey(fmt, loc) !in s.cache
    && freshId !in s.store
    && svc(ByCoords(loc.latitude, loc.longitude, false)).Ok?
    && Accepted(svc(ByCoords(loc.latitude, loc.longitude, false)).payload)
  }

  /** Creating a document and then deleting it restores both maps exactly. */
  lemma DeleteUndoesPost(s: State, fmt: Formatter, svc: Service, loc: Location, freshId: Id)
    requires CreatesFresh(s, fmt, svc, loc, freshId)
    ensures Delete(Post(s, fmt, svc, loc, freshId).state, fmt, freshId).state == s
  {
  }

  /** After a creation, the lookup of the new document hits the entry the creation wrote. */
  lemma WeatherHitsAfterPost(s: State, fmt: Formatter, svc: Service, svc': Service, loc: Location, freshId: Id)
    requires CreatesFresh(s, fmt, svc, loc, freshId)
    ensures var mid := Post(s, fmt, svc, loc, freshId).state;
      var r := Weather(mid, fmt, svc', freshId);
      && r.fetched == None
      && r.state == mid
      && r.response == Json(svc(ByCoords(loc.latitude, loc.longitude, false)).payload)
  {
  }

  /** After a creation, an update of the new document drops the key the creation wrote, unless it rewrites it. */
  lemma PutDropsKeyOfPost(s: State, fmt: Formatter, svc: Service, svc': Service, loc: Location, freshId: Id, patch: Patch)
    requires CreatesFresh(s, fmt, svc, loc, freshId)
    ensures var mid := Post(s, fmt, svc, loc, freshId).state;
      var r := Put(mid, fmt, svc', freshId, patch);
      RecordKey(fmt, loc) in r.state.cache ==> RecordKey(fmt, loc) == Key(fmt, patch.latitude, patch.longitude)
  {
  }

  /**
   An accepted update caches under the body's key, the stored document ends up under
   the key of the merged fields: when the renderings tell the body's coordinates from the
   document's, the two keys agree exactly when every coordinate the body leaves out was
   already absent from the document.
   */
  lemma PutKeyMatchesRecord(fmt: Formatter, current: Location, patch: Patch)
    requires Separator !in fmt(patch.latitude) && Separator !in fmt(current.latitude)
    requires fmt(patch.latitude) == fmt(current.latitude) ==> patch.latitude == current.latitude
    requires fmt(patch.longitude) == fmt(current.longitude) ==> patch.longitude == current.longitude
    ensures Key(fmt, patch.latitude, patch.longitude) == RecordKey(fmt, Apply(current, patch))
      <==> ((patch.latitude.Undefined? ==> current.latitude.Undefined?)
            && (patch.longitude.Undefined? ==> current.longitude.Undefined?))
  {
    var merged := Apply(current, patch);
    KeyInjective(fmt, patch.latitude, patch.longitude, merged.latitude, merged.longitude);
  }

  /**
   An accepted update whose body leaves out the latitude caches under a key that holds
   the text `undefined`; a later deletion drops the document's own key instead, so the
   update's entry stays cached.
   */
  lemma DeleteMissesKeyOfPartialPut(s: State, fmt: Formatter, svc: Service, id: Id, patch: Patch)
    requires id in s.store && s.store[id].latitude.Number? && patch.latitude.Undefined?
    requires svc(ByCoords(patch.latitude, patch.longitude, false)).Ok?
    requires Accepted(svc(ByCoords(patch.latitude, patch.longitude, false)).payload)
    requires Separator !in fmt(Undefined) && Separator !in fmt(s.store[id].latitude)
    requires fmt(Undefined) != fmt(s.store[id].latitude)
    ensures var mid := Put(s, fmt, svc, id, patch).state;
      Key(fmt, patch.latitude, patch.longitude) in Delete(mid, fmt, id).state.cache
  {
    var merged := Apply(s.store[id], patch);
    if Key(fmt, patch.latitude, patch.longitude) == RecordKey(fmt, merged) {
      SplitAtSeparator(fmt(patch.latitude), fmt(patch.longitude), fmt(merged.latitude), fmt(merged.longitude));
    }
  }

  /** After a deletion, a creation at the same coordinates is a miss and queries the service. */
  lemma PostAfterDeleteFetches(s: State, fmt: Formatter, svc: Service, id: Id, freshId: Id)
    requires id in s.store
    ensures var mid := Delete(s, fmt, id).state;
      Post(mid, fmt, svc, s.store[id], freshId).fetched.Some?
  {
  }

  /** Two lookups of a document in a row: at most the first queries, and the second serves what the first did. */
  lemma WeatherTwiceFetchesOnce(s: State, fmt: Formatter, svc: Service, svc': Service, id: Id)
    requires Weather(s, fmt, svc, id).response.Json?
    ensures var first := Weather(s, fmt, svc, id);
      var second := Weather(first.state, fmt, svc', id);
      && second.fetched == None
      && second.state == first.state
      && second.response == first.response
  {
  }

  /** A lookup whose call fails caches nothing, so the next lookup queries again. */
  lemma FailedLookupNotCached(s: State, fmt: Formatter, svc: Service, svc': Service, id: Id)
    requires id in s.store && RecordKey(fmt, s.store[id]) !in s.cache
    requires !svc(WeatherQuery(s.store[id])).Ok?
    ensures var first := Weather(s, fmt, svc, id);
      Weather(first.state, fmt, svc', id).fetched == Some(WeatherQuery(s.store[id]))
  {
  }
}

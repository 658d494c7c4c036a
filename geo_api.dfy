/** The geocoding endpoints and their in-memory cache: a map from request key
    to payload and expiry time, with entries dropped lazily when read after
    they expire, and written only for successful, non-empty answers. */
module GeoApi {
  import opened Wrappers
  import opened Text
  import opened JsValues
  import opened Geocoding

  /** Ten minutes, in milliseconds. */
  const GeoTtl: int := 10 * 60 * 1000

  /** `geo:<lower-cased text>:<size>` and `rev:<lon>,<lat>` with both
      coordinates written with five decimals. */
  datatype CacheKey = ForwardKey(text: string, size: real) | ReverseKey(lon: string, lat: string)

  /** The JSON bodies the endpoints send with `ok: true`. */
  datatype Payload =
    | ForwardPayload(results: seq<GeoResult>, lon: real, lat: real, labelText: string)
    | ReversePayload(location: string, country: string, labelText: string)

  datatype Entry = Entry(value: Payload, exp: int)

  datatype GeoReply = Json(payload: Payload) | Fail(status: nat, message: string)

  /** `cacheGet(key)` at time `now`, on the cache contents `m`: the value of a
      live entry; nothing for a missing key; nothing for an expired entry,
      which is removed. */
  function CacheGet(m: map<CacheKey, Entry>, key: CacheKey, now: int): (r: (Option<Payload>, map<CacheKey, Entry>))
    ensures key !in m ==> r == (None, m)
    ensures key in m && now > m[key].exp ==> r.0 == None && r.1 == m - {key}
    ensures key in m && now <= m[key].exp ==> r == (Some(m[key].value), m)
  {
    if key !in m then (None, m)
    else if now > m[key].exp then (None, m - {key})
    else (Some(m[key].value), m)
  }

  /** `cacheSet(key, value)` at time `now`. */
  function CacheSet(m: map<CacheKey, Entry>, key: CacheKey, value: Payload, now: int): (r: map<CacheKey, Entry>)
    ensures key in r && r[key] == Entry(value, now + GeoTtl)
    ensures forall k :: k != key ==> (k in r <==> k in m) && (k in m ==> r[k] == m[k])
  {
    m[key := Entry(value, now + GeoTtl)]
  }

  /** A value written at `t` is read back until `t + GeoTtl` inclusive, and
      is gone (and deleted) after that. */
  lemma GetAfterSet(m: map<CacheKey, Entry>, key: CacheKey, value: Payload, t: int, now: int)
    ensures now <= t + GeoTtl ==> CacheGet(CacheSet(m, key, value, t), key, now).0 == Some(value)
    ensures now > t + GeoTtl ==>
      CacheGet(CacheSet(m, key, value, t), key, now).0 == None &&
      key !in CacheGet(CacheSet(m, key, value, t), key, now).1
  {
  }

  /** Writing one key never changes what another key reads. */
  lemma SetOtherKey(m: map<CacheKey, Entry>, key: CacheKey, other: CacheKey, value: Payload, t: int, now: int)
    requires other != key
    ensures CacheGet(CacheSet(m, key, value, t), other, now).0 == CacheGet(m, other, now).0
  {
  }

  /** The shape of every cached payload: forward keys hold a non-empty result
      list headed by the top-level point and label; reverse keys hold a
      reverse answer. */
  predicate WellFormedEntry(key: CacheKey, p: Payload) {
    match key
    case ForwardKey(_, size) =>
      1.0 <= size <= 8.0 && p.ForwardPayload? && p.results != [] &&
      p.lon == p.results[0].lon && p.lat == p.results[0].lat && p.labelText == p.results[0].labelText
    case ReverseKey(_, _) => p.ReversePayload?
  }

  /** The body sent for a list of forward results: the list and its first
      element's point and label. */
  function ForwardPayloadOf(results: seq<GeoResult>): (p: Payload)
    requires results != []
    ensures p.ForwardPayload? && p.results == results
    ensures p.lon == results[0].lon && p.lat == results[0].lat && p.labelText == results[0].labelText
  {
    ForwardPayload(results, results[0].lon, results[0].lat, results[0].labelText)
  }

  /** How the forward endpoint answers `text` (at least three characters)
      at `size`, and the cache it leaves (`before` to `after`): a live
      cached payload is served as is; otherwise a non-empty provider answer
      is served and cached under the text's key, and an empty answer or an
      error gives 404 and caches nothing (an expired entry is dropped). */
  predicate ForwardAnswered(before: map<CacheKey, Entry>, after: map<CacheKey, Entry>,
                            text: string, size: real, now: int,
                            token: string, fetch: SearchParams -> SearchReply, reply: GeoReply)
  {
    var key := ForwardKeyOf(text, size);
    var lookup := CacheGet(before, key, now);
    var found := GeocodeMany(token, text, size, fetch);
    if lookup.0.Some? then
      reply == Json(lookup.0.value) && after == before
    else if found.Done? && found.value != [] then
      reply == Json(ForwardPayloadOf(found.value)) &&
      after == CacheSet(lookup.1, key, ForwardPayloadOf(found.value), now)
    else
      reply == Fail(404, "Location not found") && after == lookup.1
  }

  /** The forward key of a request: the lower-cased text and the size. */
  function ForwardKeyOf(text: string, size: real): (k: CacheKey)
    ensures k.ForwardKey? && k.text == Lower(text) && k.size == size
  {
    ForwardKey(Lower(text), size)
  }

  /** The geocoding cache of the API router. */
  class GeoCache {
    var entries: map<CacheKey, Entry>

    ghost predicate Valid()
      reads this
    {
      forall k :: k in entries ==> WellFormedEntry(k, entries[k].value)
    }

    constructor ()
      ensures Valid() && entries == map[]
    {
      entries := map[];
    }

    method Get(key: CacheKey, now: int) returns (r: Option<Payload>)
      modifies this
      ensures (r, entries) == CacheGet(old(entries), key, now)
      ensures old(Valid()) ==> Valid()
    {
      if key !in entries {
        return None;
      }
      var hit := entries[key];
      if now > hit.exp {
        entries := entries - {key};
        return None;
      }
      r := Some(hit.value);
    }

    method Set(key: CacheKey, value: Payload, now: int)
      modifies this
      ensures entries == CacheSet(old(entries), key, value, now)
      ensures old(Valid()) && WellFormedEntry(key, value) ==> Valid()
    {
      entries := entries[key := Entry(value, now + GeoTtl)];
    }

    /** `GET /geocode?text=&size=`: a text under three characters is refused
        and nothing else happens; a live cached answer is returned as is;
        otherwise the provider is asked, and only a non-empty answer is cached. */
    method Forward(rawText: Option<string>, sizeArg: JsNumber, now: int,
                   token: string, fetch: SearchParams -> SearchReply)
      returns (reply: GeoReply)
      requires Valid()
      modifies this
      ensures Valid()
      ensures |Trim(rawText.GetOr(""))| < 3 ==>
        reply == Fail(400, "Query too short") && entries == old(entries)
      ensures |Trim(rawText.GetOr(""))| >= 3 ==>
        ForwardAnswered(old(entries), entries, Trim(rawText.GetOr("")),
                        ClampOr(sizeArg, 6.0, 1.0, 8.0), now, token, fetch, reply)
    {
      var text := Trim(rawText.GetOr(""));
      var size := ClampOr(sizeArg, 6.0, 1.0, 8.0);
      if |text| < 3 {
        return Fail(400, "Query too short");
      }
      reply := ForwardLookup(text, size, now, token, fetch);
    }

    /** The forward lookup once the text is long enough: the cache first,
        then the provider. */
    method ForwardLookup(text: string, size: real, now: int,
                         token: string, fetch: SearchParams -> SearchReply)
      returns (reply: GeoReply)
      requires Valid() && 1.0 <= size <= 8.0
      modifies this
      ensures Valid()
      ensures ForwardAnswered(old(entries), entries, text, size, now, token, fetch, reply)
    {
      var key := ForwardKeyOf(text, size);
      var cached := Get(key, now);
      if cached.Some? {
        return Json(cached.value);
      }
      var found := GeocodeMany(token, text, size, fetch);
      if found.Thrown? {
        return Fail(404, "Location not found");
      }
      var results := found.value;
      if results == [] {
        return Fail(404, "Location not found");
      }
      var payload := ForwardPayloadOf(results);
      Set(key, payload, now);
      reply := Json(payload);
    }

    /** `GET /reverse-geocode?lon=&lat=`: non-finite coordinates are refused;
        a live cached answer is returned as is; a missing result is a 404 and
        a provider error a 500, neither cached; a result is cached under the
        rounded coordinates. `fixed5` stands for `toFixed(5)`. */
    method Reverse(lon: JsNumber, lat: JsNumber, now: int, fixed5: real -> string,
                   token: string, fetch: ReverseParams -> ReverseReply)
      returns (reply: GeoReply)
      requires Valid()
      modifies this
      ensures Valid()
      ensures !lon.IsFinite() || !lat.IsFinite() ==>
        reply == Fail(400, "Invalid coordinates") && entries == old(entries)
      ensures lon.IsFinite() && lat.IsFinite() ==>
        var key := ReverseKey(fixed5(lon.value), fixed5(lat.value));
        var lookup := CacheGet(old(entries), key, now);
        var r := ReverseGeocode(token, lon.value, lat.value, fetch);
        if lookup.0.Some? then
          reply == Json(lookup.0.value) && entries == old(entries)
        else if r.Thrown? then
          reply == Fail(500, "Reverse geocoding failed") && entries == lookup.1
        else if r.value.None? then
          reply == Fail(404, "No result") && entries == lookup.1
        else
          var p := ReversePayload(r.value.value.location, r.value.value.country, r.value.value.labelText);
          reply == Json(p) && entries == CacheSet(lookup.1, key, p, now)
    {
      if !lon.IsFinite() || !lat.IsFinite() {
        return Fail(400, "Invalid coordinates");
      }
      var key := ReverseKey(fixed5(lon.value), fixed5(lat.value));
      var cached := Get(key, now);
      if cached.Some? {
        return Json(cached.value);
      }
      var r := ReverseGeocode(token, lon.value, lat.value, fetch);
      if r.Thrown? {
        return Fail(500, "Reverse geocoding failed");
      }
      if r.value.None? {
        return Fail(404, "No result");
      }
      var payload := ReversePayload(r.value.value.location, r.value.value.country, r.value.value.labelText);
      Set(key, payload, now);
      reply := Json(payload);
    }
  }
}

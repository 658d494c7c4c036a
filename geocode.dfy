/** The geocoding provider client: forward search (many results, or the first
    one), and reverse lookup with its field fallbacks. The HTTP exchange is a
    parameter `fetch` from request parameters to the provider's reply; a
    missing access token fails before any request is made. */
module Geocoding {
  import opened Wrappers
  import opened Seqs

  /** A thrown error or a value. */
  datatype Outcome<T> = Done(value: T) | Thrown(message: string)

  /** The query parameters of a forward search request. */
  datatype SearchParams = SearchParams(text: string, apiKey: string, size: real)

  /** One feature of a forward reply: its point and its `properties.label`,
      "" when absent. */
  datatype Feature = Feature(lon: real, lat: real, labelText: string)

  /** A reply: its HTTP `ok` flag and its `features` array (`None` when the
      body has no array there). */
  datatype SearchReply = SearchReply(ok: bool, features: Option<seq<Feature>>)

  datatype GeoResult = GeoResult(lon: real, lat: real, labelText: string)

  const MissingToken: string := "MAP_GEOCODE_TOKEN environment variable is not set"

  /** The size sent to the provider: `Math.max(1, Math.min(8, size))`. */
  function ProviderSize(size: real): (r: real)
    ensures 1.0 <= r <= 8.0
    ensures 1.0 <= size <= 8.0 ==> r == size
  {
    Max1(Min8(size))
  }

  function Min8(x: real): real { if x <= 8.0 then x else 8.0 }
  function Max1(x: real): real { if x >= 1.0 then x else 1.0 }

  /** A feature as a result: its coordinates, and its label or else the query. */
  function ToResult(f: Feature, query: string): (r: GeoResult)
    ensures r.lon == f.lon && r.lat == f.lat
    ensures r.labelText == (if f.labelText != "" then f.labelText else query)
  {
    GeoResult(f.lon, f.lat, if f.labelText != "" then f.labelText else query)
  }

  function ToResults(fs: seq<Feature>, query: string): (r: seq<GeoResult>)
    ensures |r| == |fs|
    ensures forall i :: 0 <= i < |fs| ==> r[i] == ToResult(fs[i], query)
  {
    if fs == [] then [] else [ToResult(fs[0], query)] + ToResults(fs[1..], query)
  }

  /** `geocodeMany(query, size)`: an error without a token or on a non-OK
      reply; otherwise one result per feature, in order. */
  function GeocodeMany(token: string, query: string, size: real, fetch: SearchParams -> SearchReply)
    : (r: Outcome<seq<GeoResult>>)
    ensures token == "" ==> r == Thrown(MissingToken)
    ensures token != "" ==>
      var reply := fetch(SearchParams(query, token, ProviderSize(size)));
      (r.Thrown? <==> !reply.ok) &&
      (r.Done? ==> r.value == ToResults(reply.features.GetOr([]), query))
  {
    if token == "" then Thrown(MissingToken)
    else
      var reply := fetch(SearchParams(query, token, ProviderSize(size)));
      if !reply.ok then Thrown("Stadia geocoding failed")
      else Done(ToResults(reply.features.GetOr([]), query))
  }

  /** `geocode(query)`: one result is asked for, and none is an error. */
  function Geocode(token: string, query: string, fetch: SearchParams -> SearchReply): (r: Outcome<GeoResult>)
    ensures r.Done? <==>
      GeocodeMany(token, query, 1.0, fetch).Done? && GeocodeMany(token, query, 1.0, fetch).value != []
    ensures r.Done? ==> r.value == GeocodeMany(token, query, 1.0, fetch).value[0]
  {
    match GeocodeMany(token, query, 1.0, fetch)
    case Thrown(m) => Thrown(m)
    case Done(results) =>
      if results == [] then Thrown("No results found for that location") else Done(results[0])
  }

  /** The parameters of a reverse request. */
  datatype ReverseParams = ReverseParams(lon: real, lat: real, apiKey: string)

  /** The `properties` of a reverse feature; "" stands for an absent field. */
  datatype Props = Props(labelText: string, locality: string, county: string, region: string,
                         neighbourhood: string, country: string, countryA: string)

  /** The first reverse feature (`None` when there is none) and its
      properties (`None` when absent). */
  datatype ReverseReply = ReverseReply(ok: bool, first: Option<Option<Props>>)

  datatype ReverseResult = ReverseResult(labelText: string, location: string, country: string)

  /** `a || b || ... || ""` over strings: the first non-empty one, else "". */
  function FirstNonEmpty(xs: seq<string>): (r: string)
    ensures r == "" <==> forall i :: 0 <= i < |xs| ==> xs[i] == ""
    ensures r != "" ==> exists i :: 0 <= i < |xs| && r == xs[i] && forall j :: 0 <= j < i ==> xs[j] == ""
  {
    if xs == [] then ""
    else if xs[0] != "" then xs[0]
    else FirstNonEmpty(xs[1..])
  }

  /** One step of the chain, for proofs over literal chains. */
  lemma FirstNonEmptyStep(x: string, rest: seq<string>)
    ensures FirstNonEmpty([x] + rest) == if x != "" then x else FirstNonEmpty(rest)
  {
    assert ([x] + rest)[1..] == rest;
  }

  /** The location field: locality, county, region, neighbourhood, label. */
  function LocationOf(p: Props): string {
    FirstNonEmpty([p.locality, p.county, p.region, p.neighbourhood, p.labelText])
  }

  /** The country field: the country name, else its abbreviation. */
  function CountryOf(p: Props): string {
    FirstNonEmpty([p.country, p.countryA])
  }

  /** `reverseGeocode(lon, lat)`: an error without a token or on a non-OK
      reply, `None` without a feature, otherwise the label (or "") and the
      location and country by their fallback chains. */
  function ReverseGeocode(token: string, lon: real, lat: real, fetch: ReverseParams -> ReverseReply)
    : (r: Outcome<Option<ReverseResult>>)
    ensures token == "" ==> r == Thrown(MissingToken)
    ensures token != "" ==>
      var reply := fetch(ReverseParams(lon, lat, token));
      (r.Thrown? <==> !reply.ok) &&
      (r.Done? ==> (r.value.None? <==> reply.first.None?))
    ensures r.Done? && r.value.Some? ==>
      var p := fetch(ReverseParams(lon, lat, token)).first.value.GetOr(Props("", "", "", "", "", "", ""));
      r.value.value == ReverseResult(p.labelText, LocationOf(p), CountryOf(p))
  {
    if token == "" then Thrown(MissingToken)
    else
      var reply := fetch(ReverseParams(lon, lat, token));
      if !reply.ok then Thrown("Stadia reverse geocoding failed")
      else match reply.first
        case None => Done(None)
        case Some(props) =>
          var p := props.GetOr(Props("", "", "", "", "", "", ""));
          Done(Some(ReverseResult(p.labelText, LocationOf(p), CountryOf(p))))
  }

  /** The location is the first present name of the chain locality, county,
      region, neighbourhood, label, and "" when all are missing; the country
      is the name, else the abbreviation. */
  lemma LocationFallback(p: Props)
    ensures LocationOf(p) ==
      if p.locality != "" then p.locality
      else if p.county != "" then p.county
      else if p.region != "" then p.region
      else if p.neighbourhood != "" then p.neighbourhood
      else p.labelText
    ensures CountryOf(p) == (if p.country != "" then p.country else p.countryA)
  {
    FirstNonEmptyStep(p.locality, [p.county, p.region, p.neighbourhood, p.labelText]);
    FirstNonEmptyStep(p.county, [p.region, p.neighbourhood, p.labelText]);
    FirstNonEmptyStep(p.region, [p.neighbourhood, p.labelText]);
    FirstNonEmptyStep(p.neighbourhood, [p.labelText]);
    FirstNonEmptyStep(p.labelText, []);
    FirstNonEmptyStep(p.country, [p.countryA]);
    FirstNonEmptyStep(p.countryA, []);
  }
}

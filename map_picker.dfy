/** The location picker of the listing form: a pin on a map, the hidden
    longitude/latitude inputs it writes, and the location and country fields
    it fills from the reverse-geocode endpoint — filling only blank fields on
    its own, overwriting them when the user asks for the pin's address, and
    leaving them alone once the user has typed. Requests are parameters: a
    response body, or `None` when the request throws. */
module MapPicker {
  import opened Wrappers
  import opened Text
  import opened Seqs
  import opened Geocoding

  /** The body of `/api/reverse-geocode`; absent fields are `None`. */
  datatype ReverseBody = ReverseBody(ok: bool, location: Option<string>, country: Option<string>)

  /** The body of `/api/geocode`: `lon`/`lat` are `None` unless they are
      finite numbers; `results` is `None` unless it is an array. */
  datatype GeocodeBody = GeocodeBody(ok: bool, results: Option<seq<GeoResult>>, lon: Option<real>, lat: Option<real>)

  /** A response value as the merge reads it: missing is "", then trimmed. */
  function Incoming(v: Option<string>): string {
    Trim(v.GetOr(""))
  }

  /** The automatic fill of one field: a blank field takes a non-empty
      value; anything the user has put there stays. */
  function FillBlank(current: string, incoming: string): (r: string)
    ensures Trim(current) != "" ==> r == current
    ensures incoming == "" ==> r == current
    ensures Trim(current) == "" && incoming != "" ==> r == incoming
  {
    if Trim(current) == "" && incoming != "" then incoming else current
  }

  /** The forced fill of one field: a non-empty value replaces it. */
  function Overwrite(current: string, incoming: string): (r: string)
    ensures incoming != "" ==> r == incoming
    ensures incoming == "" ==> r == current
  {
    if incoming != "" then incoming else current
  }

  /** Filling again from the same response changes nothing more. */
  lemma FillBlankIdempotent(current: string, raw: Option<string>)
    ensures FillBlank(FillBlank(current, Incoming(raw)), Incoming(raw)) == FillBlank(current, Incoming(raw))
    ensures FillBlank(current, Incoming(raw)) != current ==> Trim(current) == "" && Incoming(raw) != current
  {
    TrimIdempotent(raw.GetOr(""));
  }

  /** The text `locateFromText` searches for: the non-blank trimmed parts
      joined with ", ". */
  function SearchText(location: string, country: string): (r: string)
    ensures Trim(location) != "" && Trim(country) != "" ==> r == Trim(location) + ", " + Trim(country)
    ensures Trim(location) == "" ==> r == Trim(country)
    ensures Trim(country) == "" ==> r == Trim(location)
  {
    var a, b := Trim(location), Trim(country);
    var nonEmpty := (s: string) => s != "";
    var parts := Filter([a, b], nonEmpty);
    assert [a, b][1..] == [b] && [b][1..] == [];
    assert Filter([b], nonEmpty) == (if b != "" then [b] else []) + Filter([], nonEmpty);
    assert parts == (if a != "" then [a] else []) + Filter([b], nonEmpty);
    Join(parts, ", ")
  }

  /** What `locateFromText` does with the geocode answer. */
  datatype LocateAction =
    | TooShort                        // fewer than 3 characters: no request
    | Ignored                         // failed request, `ok` false, or no usable point
    | FlyTo(lon: real, lat: real)     // one result or none: go to the top-level point
    | ShowList(results: seq<GeoResult>)

  function LocateDecision(text: string, response: Option<GeocodeBody>): (r: LocateAction)
    ensures r.TooShort? <==> |text| < 3
    ensures |text| >= 3 && (response.None? || !response.value.ok) ==> r == Ignored
    ensures r.ShowList? ==> |r.results| > 1 && response.Some? && response.value.results == Some(r.results)
    ensures r.FlyTo? ==>
      response.Some? && response.value.ok && |response.value.results.GetOr([])| <= 1 &&
      response.value.lon == Some(r.lon) && response.value.lat == Some(r.lat)
    ensures |text| >= 3 && response.Some? && response.value.ok && |response.value.results.GetOr([])| > 1 ==>
      r == ShowList(response.value.results.value)
    ensures |text| >= 3 && response.Some? && response.value.ok && |response.value.results.GetOr([])| <= 1 ==>
      (r.FlyTo? <==> response.value.lon.Some? && response.value.lat.Some?)
  {
    if |text| < 3 then TooShort
    else if response.None? || !response.value.ok then Ignored
    else
      var body := response.value;
      var results := body.results.GetOr([]);
      if |results| <= 1 then
        if body.lon.None? || body.lat.None? then Ignored else FlyTo(body.lon.value, body.lat.value)
      else ShowList(results)
  }

  /** The map's first view: the configured point, zoomed in, when both
      coordinates are numbers; otherwise 0/0 for a missing one and the world
      view. */
  function StartView(lng: Option<real>, lat: Option<real>): (r: (real, real, nat))
    ensures r.2 == 15 <==> lng.Some? && lat.Some?
    ensures r.2 == 15 || r.2 == 2
    ensures r.0 == lng.GetOr(0.0) && r.1 == lat.GetOr(0.0)
  {
    (lng.GetOr(0.0), lat.GetOr(0.0), if lng.Some? && lat.Some? then 15 else 2)
  }

  /** The picker's state on one page. A missing field reads as "". */
  class Picker {
    const hasLocation: bool
    const hasCountry: bool
    var location: string
    var country: string
    var userTyped: bool
    var pin: Option<(real, real)>        // the hidden longitude/latitude inputs
    var listed: seq<GeoResult>           // the choices shown under the fields

    /** Page load: `cfgLng`/`cfgLat` are the configured coordinates, `None`
        when not numbers; both present prefill the hidden inputs. */
    constructor (hasLocation: bool, hasCountry: bool, location: string, country: string,
                 cfgLng: Option<real>, cfgLat: Option<real>)
      ensures this.hasLocation == hasLocation && this.hasCountry == hasCountry
      ensures this.location == location && this.country == country
      ensures !userTyped && listed == []
      ensures pin == (if cfgLng.Some? && cfgLat.Some? then Some((cfgLng.value, cfgLat.value)) else None)
    {
      this.hasLocation := hasLocation;
      this.hasCountry := hasCountry;
      this.location := location;
      this.country := country;
      userTyped := false;
      listed := [];
      pin := if cfgLng.Some? && cfgLat.Some? then Some((cfgLng.value, cfgLat.value)) else None;
    }

    /** Typing in either field. */
    method UserInput()
      modifies this`userTyped
      ensures userTyped
    {
      userTyped := true;
    }

    /** Whether `fillFromReverse` gets as far as merging `response`. */
    predicate Merges(force: bool, response: Option<ReverseBody>)
      reads this
    {
      hasLocation && hasCountry && (force || !userTyped) && response.Some? && response.value.ok
    }

    /** `fillFromReverse(force)`, answered by `response`. */
    method FillFromReverse(force: bool, response: Option<ReverseBody>) returns (changed: bool)
      modifies this`location, this`country, this`userTyped
      ensures !old(Merges(force, response)) ==>
        !changed && location == old(location) && country == old(country) && userTyped == old(userTyped)
      ensures old(Merges(force, response)) && force ==>
        location == Overwrite(old(location), Incoming(response.value.location)) &&
        country == Overwrite(old(country), Incoming(response.value.country)) &&
        !userTyped &&
        (changed <==> Incoming(response.value.location) != "" || Incoming(response.value.country) != "")
      ensures old(Merges(force, response)) && !force ==>
        location == FillBlank(old(location), Incoming(response.value.location)) &&
        country == FillBlank(old(country), Incoming(response.value.country)) &&
        userTyped == old(userTyped) &&
        (changed <==> location != old(location) || country != old(country))
    {
      if !hasLocation || !hasCountry {
        return false;
      }
      if !force && userTyped {
        return false;
      }
      if response.None? || !response.value.ok {
        return false;
      }
      var loc := Incoming(response.value.location);
      var ctry := Incoming(response.value.country);
      if force {
        changed := OverwriteFields(loc, ctry);
      } else {
        FillBlankIdempotent(location, response.value.location);
        FillBlankIdempotent(country, response.value.country);
        changed := FillBlankFields(loc, ctry);
      }
    }

    /** The forced branch: non-empty values overwrite, and the user's
        typing is forgotten. */
    method OverwriteFields(loc: string, ctry: string) returns (changed: bool)
      modifies this`location, this`country, this`userTyped
      ensures location == Overwrite(old(location), loc) && country == Overwrite(old(country), ctry)
      ensures !userTyped
      ensures changed <==> loc != "" || ctry != ""
    {
      changed := false;
      if loc != "" {
        location := loc;
        changed := true;
      }
      if ctry != "" {
        country := ctry;
        changed := true;
      }
      userTyped := false;
    }

    /** The automatic branch: only blank fields are filled. */
    method FillBlankFields(loc: string, ctry: string) returns (changed: bool)
      modifies this`location, this`country
      ensures location == FillBlank(old(location), loc) && country == FillBlank(old(country), ctry)
      ensures changed <==> (Trim(old(location)) == "" && loc != "") || (Trim(old(country)) == "" && ctry != "")
    {
      var blankLocation, blankCountry := Trim(location) == "", Trim(country) == "";
      changed := false;
      if blankLocation && loc != "" {
        location := loc;
        changed := true;
      }
      if blankCountry && ctry != "" {
        country := ctry;
        changed := true;
      }
    }

    /** Dropping the pin or clicking the map: the hidden inputs take the
        point and blank fields are filled from it. */
    method PinMoved(lng: real, lat: real, reverse: Option<ReverseBody>)
      modifies this
      ensures pin == Some((lng, lat)) && listed == old(listed)
      ensures userTyped == old(userTyped)
      ensures old(Merges(false, reverse)) ==>
        location == FillBlank(old(location), Incoming(reverse.value.location)) &&
        country == FillBlank(old(country), Incoming(reverse.value.country))
      ensures !old(Merges(false, reverse)) ==> location == old(location) && country == old(country)
    {
      pin := Some((lng, lat));
      var _ := FillFromReverse(false, reverse);
    }

    /** Clicking one of the listed geocode results: the pin moves there,
        blank fields are filled from its address, and the list is hidden. */
    method ResultClicked(choice: GeoResult, reverse: Option<ReverseBody>)
      modifies this
      ensures pin == Some((choice.lon, choice.lat)) && listed == []
      ensures userTyped == old(userTyped)
      ensures old(Merges(false, reverse)) ==>
        location == FillBlank(old(location), Incoming(reverse.value.location)) &&
        country == FillBlank(old(country), Incoming(reverse.value.country))
      ensures !old(Merges(false, reverse)) ==> location == old(location) && country == old(country)
    {
      PinMoved(choice.lon, choice.lat, reverse);
      listed := [];
    }

    /** "Use pin address": a forced fill and the status line it shows. */
    method UsePin(reverse: Option<ReverseBody>) returns (status: string)
      modifies this
      ensures pin == old(pin) && listed == old(listed)
      ensures status == "Pin address applied" || status == "Could not apply pin address"
      ensures status == "Pin address applied" <==>
        old(Merges(true, reverse)) &&
        (Incoming(reverse.value.location) != "" || Incoming(reverse.value.country) != "")
      ensures old(Merges(true, reverse)) ==>
        location == Overwrite(old(location), Incoming(reverse.value.location)) &&
        country == Overwrite(old(country), Incoming(reverse.value.country)) && !userTyped
      ensures !old(Merges(true, reverse)) ==>
        location == old(location) && country == old(country) && userTyped == old(userTyped)
    {
      var ok := FillFromReverse(true, reverse);
      status := if ok then "Pin address applied" else "Could not apply pin address";
    }

    /** `locateFromText()`: `response` answers the geocode request,
        `reverse` the reverse request made after flying to a single point. */
    method LocateFromText(response: Option<GeocodeBody>, reverse: Option<ReverseBody>)
      returns (action: LocateAction)
      modifies this
      ensures action == LocateDecision(SearchText(old(location), old(country)), response)
      ensures action.FlyTo? ==>
        pin == Some((action.lon, action.lat)) && listed == [] && userTyped == old(userTyped) &&
        (old(Merges(false, reverse)) ==>
          location == FillBlank(old(location), Incoming(reverse.value.location)) &&
          country == FillBlank(old(country), Incoming(reverse.value.country))) &&
        (!old(Merges(false, reverse)) ==> location == old(location) && country == old(country))
      ensures action.ShowList? ==>
        listed == action.results && pin == old(pin) &&
        location == old(location) && country == old(country) && userTyped == old(userTyped)
      ensures (action.TooShort? || action.Ignored?) ==>
        listed == old(listed) && pin == old(pin) &&
        location == old(location) && country == old(country) && userTyped == old(userTyped)
    {
      action := LocateDecision(SearchText(location, country), response);
      match action {
        case FlyTo(lon, lat) =>
          PinMoved(lon, lat, reverse);
          listed := [];
        case ShowList(results) =>
          listed := results;
        case TooShort =>
        case Ignored =>
      }
    }
  }
}

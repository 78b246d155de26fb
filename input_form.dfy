/**
 * The state of the location form and its transitions: the city search, the
 * submission, and the edits of the query and of the coordinate fields.
 *
 * `FormState` is one snapshot of the component's state fields. The pure
 * functions below are the transitions, snapshot to snapshot; the class
 * `InputSection` holds the same fields and its methods update them in place,
 * each proved to agree with its transition function.
 */
module LocationForm {
  import opened Options
  import opened LocationValidation

  /** An accepted location (`{ latitude, longitude }`, kept as strings by the source). */
  datatype LatLon = LatLon(latitude: real, longitude: real)

  /** `locationDetails`: the country and the coordinates of the accepted location. */
  datatype Details = Details(country: string, lat: real, lon: real)

  /** A date field: empty, or an ISO calendar date given as its day number since the epoch. */
  datatype DateField = Unset | Day(day: int)

  /** The `{ startDate, endDate }` handed over with a historical submission. */
  datatype DateRange = DateRange(startDate: int, endDate: int)

  /** What the geocoding service gave: a place, nothing (`null`), or an exception. */
  datatype Geocode =
    | Found(name: string, country: string, latitude: Number, longitude: Number)
    | NotFound
    | Failed

  /** The arguments of one `onDataReady` call. */
  datatype Submission = Submission(location: Option<LatLon>, locationName: string, historical: Option<DateRange>)

  /** The component's state fields (`isSearching` is left out). */
  datatype FormState = FormState(
    searchQuery: string,
    location: Option<LatLon>,
    locationName: Option<string>,
    error: Option<string>,
    validationInfo: Option<string>,
    locationDetails: Option<Details>,
    inputLat: Number,
    inputLon: Number,
    useCoordinates: bool,
    useHistorical: bool,
    startDate: DateField,
    endDate: DateField)

  /** The new state after a submission, and the `onDataReady` call it made, if any. */
  datatype Outcome = Outcome(state: FormState, delivered: Option<Submission>)

  /** The `if (!location) { ... }` block of a submission either ends the handler or lets it go on. */
  datatype Resolution = Halt(halted: FormState) | Proceed(current: FormState)

  const MSG_NOT_FOUND: string := "Location not found. Please check the spelling or try another city."
  const MSG_SEARCH_FAILED: string := "Failed to search location. Please try again."
  const MSG_NO_LOCATION: string := "Please search for a location or enter coordinates."
  const MSG_DATES_MISSING: string := "Please select both start and end dates for historical data."
  const MSG_START_NOT_BEFORE_END: string := "Start date must be before end date."
  const MSG_END_IN_FUTURE: string := "End date cannot be in the future."
  const CUSTOM: string := "Custom"
  const UNKNOWN_LOCATION: string := "Unknown Location"
  const DEGREE: string := "\U{B0}"

  /** The state on mount; an empty coordinate field parses to NaN. */
  const INITIAL: FormState :=
    FormState("", None, None, None, None, None, NonFinite, NonFinite, false, false, Unset, Unset)

  /* ---------- formatting ---------- */

  function DigitChar(d: nat): char
    requires d < 10
  {
    "0123456789"[d]
  }

  /** The decimal digits of `n`. */
  function Decimal(n: nat): (s: string)
    ensures |s| >= 1
    ensures forall i :: 0 <= i < |s| ==> '0' <= s[i] <= '9'
  {
    if n < 10 then [DigitChar(n)] else Decimal(n / 10) + [DigitChar(n % 10)]
  }

  /** `x.toFixed(2)` on an exact value: sign, then the nearest hundredth, a tie going up. */
  function Fixed2(x: real): (s: string)
    ensures |s| >= 4 && s[|s| - 3] == '.'
    ensures '0' <= s[|s| - 2] <= '9' && '0' <= s[|s| - 1] <= '9'
    ensures s[0] == '-' <==> x < 0.0
  {
    var m := if x < 0.0 then -x else x;
    var n := (m * 100.0 + 0.5).Floor;
    (if x < 0.0 then "-" else "") + Decimal(n / 100) + "." + [DigitChar(n % 100 / 10), DigitChar(n % 10)]
  }

  /** The name given to a location entered as coordinates. */
  function CoordinatesLabel(lat: real, lon: real): (r: string)
    ensures |r| > 13 && r[..13] == "Coordinates (" && r[|r| - 1] == ')'
    ensures "Coordinates (" + Fixed2(lat) <= r
  {
    "Coordinates (" + Fixed2(lat) + DEGREE + ", " + Fixed2(lon) + DEGREE + ")"
  }

  /** The confirmation shown after a successful search. */
  function Confirmation(name: string, country: string, lat: real, lon: real): (r: string)
    ensures "\U{2713} Location validated: " + name + ", " + country <= r
    ensures r[|r| - 1] == ')'
  {
    "\U{2713} Location validated: " + name + ", " + country
      + " (" + Fixed2(lat) + DEGREE + ", " + Fixed2(lon) + DEGREE + ")"
  }

  /** `o || fallback`: the empty string counts as absent. */
  function NameOr(o: Option<string>, fallback: string): (r: string)
    ensures o.Some? && o.value != "" ==> r == o.value
    ensures r == fallback || (o.Some? && r == o.value)
    ensures r == "" ==> fallback == ""
  {
    if o.Some? && o.value != "" then o.value else fallback
  }

  /* ---------- the consistency invariant ---------- */

  /**
   * An accepted location always comes with its name and with details for the
   * same coordinates, and in city mode it always belongs to a query that
   * passes the query check.
   */
  predicate Coherent(s: FormState): (c: bool)
    ensures c && s.location.Some? ==> s.locationName.Some? && s.locationDetails.Some?
    ensures c && s.location.Some? && !s.useCoordinates ==> !IsBlank(s.searchQuery)
  {
    && (s.location.Some? <==> s.locationName.Some?)
    && (s.location.Some? ==>
          && s.locationDetails.Some?
          && s.location.value == LatLon(s.locationDetails.value.lat, s.locationDetails.value.lon))
    && (s.location.Some? && !s.useCoordinates ==> AcceptableQuery(s.searchQuery))
  }

  lemma InitialIsCoherent()
    ensures Coherent(INITIAL)
  {
  }

  /** The fields the user types or toggles, which no handler below rewrites. */
  predicate SameInputs(s: FormState, r: FormState) {
    && r.searchQuery == s.searchQuery
    && r.inputLat == s.inputLat && r.inputLon == s.inputLon
    && r.useCoordinates == s.useCoordinates && r.useHistorical == s.useHistorical
    && r.startDate == s.startDate && r.endDate == s.endDate
  }

  /* ---------- handleSearch ---------- */

  /** A geocoding result that passes the combined check. */
  predicate Accepted(g: Geocode) {
    g.Found? && ValidateLocationData(g.name, g.latitude, g.longitude).valid
  }

  /**
   * `handleSearch`: check the query, ask the geocoder (its answer is `g`),
   * re-check the coordinates, then the whole location, and store it. Every
   * failure shows a message and leaves no accepted location.
   */
  function Search(s: FormState, g: Geocode): (r: FormState)
    ensures SameInputs(s, r)
    ensures Coherent(s) ==> Coherent(r)
    ensures r.location.Some? <==> AcceptableQuery(s.searchQuery) && Accepted(g)
    ensures r.location.Some? ==>
      && r.location == Some(LatLon(g.latitude.value, g.longitude.value))
      && r.locationName == Some(g.name + ", " + g.country)
      && r.locationDetails == Some(Details(g.country, g.latitude.value, g.longitude.value))
      && r.validationInfo == Some(Confirmation(g.name, g.country, g.latitude.value, g.longitude.value))
      && r.error.None?
    ensures r.location.None? ==> r.locationName.None? && r.error.Some?
    ensures !AcceptableQuery(s.searchQuery) ==>
      r.error == Some(ValidateLocationInput(s.searchQuery).message) && r.validationInfo.None?
    ensures AcceptableQuery(s.searchQuery) && g.NotFound? ==> r.error == Some(MSG_NOT_FOUND)
    ensures AcceptableQuery(s.searchQuery) && g.Failed? ==> r.error == Some(MSG_SEARCH_FAILED)
    ensures AcceptableQuery(s.searchQuery) && g.Found? && !InRange(g.latitude, g.longitude) ==>
      r.error == Some(ValidateCoordinates(g.latitude, g.longitude).message)
    ensures AcceptableQuery(s.searchQuery) && g.Found? && InRange(g.latitude, g.longitude) && !Accepted(g) ==>
      r.error == Some(Join(ValidateLocationData(g.name, g.latitude, g.longitude).errors, "; "))
  {
    var input := ValidateLocationInput(s.searchQuery);
    if !input.valid then
      s.(error := Some(input.message), location := None, locationName := None, validationInfo := None)
    else
      Lookup(s.(error := None, validationInfo := None), g)
  }

  /** The part of `handleSearch` after the query is accepted: acting on the geocoder's answer. */
  function Lookup(t: FormState, g: Geocode): (r: FormState)
    ensures SameInputs(t, r)
    ensures r.location.Some? <==> Accepted(g)
  {
    match g
    case Found(name, country, lat, lon) =>
      var coords := ValidateCoordinates(lat, lon);
      if !coords.valid then
        t.(error := Some(coords.message), location := None, locationName := None, locationDetails := None)
      else
        var full := ValidateLocationData(name, lat, lon);
        if !full.valid then
          t.(error := Some(Join(full.errors, "; ")), location := None, locationName := None,
             locationDetails := None)
        else
          t.(location := Some(LatLon(lat.value, lon.value)),
             locationName := Some(name + ", " + country),
             locationDetails := Some(Details(country, lat.value, lon.value)),
             validationInfo := Some(Confirmation(name, country, lat.value, lon.value)))
    case NotFound =>
      t.(error := Some(MSG_NOT_FOUND), location := None, locationName := None, locationDetails := None,
         validationInfo := None)
    case Failed =>
      t.(error := Some(MSG_SEARCH_FAILED), location := None, locationName := None, locationDetails := None)
  }

  /* ---------- the onChange handlers ---------- */

  /**
   * Typing in the query field: the error goes, and an accepted location is
   * dropped together with its name and confirmation.
   */
  function EditQuery(s: FormState, q: string): (r: FormState)
    ensures r.searchQuery == q && r.error.None?
    ensures Coherent(s) ==> Coherent(r) && r.location.None? && r.locationName.None?
    ensures s.location.Some? ==> r.location.None? && r.locationName.None? && r.validationInfo.None?
    ensures s.location.None? ==> r.validationInfo == s.validationInfo && r.locationName == s.locationName
    ensures r.locationDetails == s.locationDetails && r.useCoordinates == s.useCoordinates
  {
    var t := s.(searchQuery := q);
    var u := if s.location.Some? then t.(location := None, locationName := None, validationInfo := None) else t;
    u.(error := None)
  }

  /** Typing in the latitude field (`v` is what `parseFloat` will make of it). */
  function EditLatitude(s: FormState, v: Number): (r: FormState)
    ensures r.inputLat == v && r.inputLon == s.inputLon
    ensures r.location.None? && r.locationName.None? && r.error.None?
    ensures r.validationInfo == s.validationInfo && r.locationDetails == s.locationDetails
    ensures Coherent(r)
  {
    s.(inputLat := v, location := None, locationName := None, error := None)
  }

  /** Typing in the longitude field. */
  function EditLongitude(s: FormState, v: Number): (r: FormState)
    ensures r.inputLon == v && r.inputLat == s.inputLat
    ensures r.location.None? && r.locationName.None? && r.error.None?
    ensures r.validationInfo == s.validationInfo && r.locationDetails == s.locationDetails
    ensures Coherent(r)
  {
    s.(inputLon := v, location := None, locationName := None, error := None)
  }

  /* ---------- handleSubmit ---------- */

  /** The historical range passes: both dates set, start strictly before end, end not after `now`. */
  predicate RangeOk(s: FormState, now: real) {
    && s.startDate.Day? && s.endDate.Day?
    && s.startDate.day < s.endDate.day
    && s.endDate.day as real <= now
  }

  /**
   * The historical-range checks, in the source's order: a missing date, then
   * start not before end, then an end later than `now` (days since the epoch).
   */
  function DateRangeError(s: FormState, now: real): (e: Option<string>)
    ensures e.None? <==> !s.useHistorical || RangeOk(s, now)
    ensures s.useHistorical && (s.startDate.Unset? || s.endDate.Unset?) ==> e == Some(MSG_DATES_MISSING)
    ensures s.useHistorical && s.startDate.Day? && s.endDate.Day? && s.startDate.day >= s.endDate.day ==>
      e == Some(MSG_START_NOT_BEFORE_END)
    ensures (s.useHistorical && s.startDate.Day? && s.endDate.Day? && s.startDate.day < s.endDate.day
             && s.endDate.day as real > now) ==> e == Some(MSG_END_IN_FUTURE)
  {
    if !s.useHistorical then None
    else if s.startDate.Unset? || s.endDate.Unset? then Some(MSG_DATES_MISSING)
    else if s.startDate.day >= s.endDate.day then Some(MSG_START_NOT_BEFORE_END)
    else if s.endDate.day as real > now then Some(MSG_END_IN_FUTURE)
    else None
  }

  /** Direct coordinates that passed the check become the accepted location. */
  function AcceptCoordinates(s: FormState): (r: FormState)
    requires s.useCoordinates && InRange(s.inputLat, s.inputLon)
    ensures SameInputs(s, r) && Coherent(r)
    ensures r.location == Some(LatLon(s.inputLat.value, s.inputLon.value))
    ensures r.locationName == Some(CoordinatesLabel(s.inputLat.value, s.inputLon.value))
    ensures r.locationDetails == Some(Details(CUSTOM, s.inputLat.value, s.inputLon.value))
  {
    var lat := s.inputLat.value;
    var lon := s.inputLon.value;
    s.(location := Some(LatLon(lat, lon)),
       locationName := Some(CoordinatesLabel(lat, lon)),
       locationDetails := Some(Details(CUSTOM, lat, lon)))
  }

  /**
   * The `if (!location)` block: with no accepted location, a city query is
   * checked and searched (and the handler ends), direct coordinates are
   * checked and accepted, and otherwise the user is asked for a location.
   */
  function Resolve(s: FormState, g: Geocode): (r: Resolution)
    ensures s.location.Some? ==> r == Proceed(s)
    ensures r.Proceed? ==> r.current.location.Some?
    ensures r.Proceed? && s.location.None? ==> s.useCoordinates && InRange(s.inputLat, s.inputLon)
    ensures Coherent(s) ==> Coherent(if r.Halt? then r.halted else r.current)
    ensures SameInputs(s, if r.Halt? then r.halted else r.current)
    ensures s.location.None? && s.searchQuery != "" && !s.useCoordinates ==>
      r == (if AcceptableQuery(s.searchQuery) then Halt(Search(s, g))
            else Halt(s.(error := Some(ValidateLocationInput(s.searchQuery).message))))
    ensures s.location.None? && s.useCoordinates && !InRange(s.inputLat, s.inputLon) ==>
      r == Halt(s.(error := Some(ValidateCoordinates(s.inputLat, s.inputLon).message)))
    ensures s.location.None? && s.searchQuery == "" && !s.useCoordinates ==>
      r == Halt(s.(error := Some(MSG_NO_LOCATION)))
    ensures r.Proceed? && s.location.None? ==>
      && r.current.location == Some(LatLon(s.inputLat.value, s.inputLon.value))
      && r.current.locationName == Some(CoordinatesLabel(s.inputLat.value, s.inputLon.value))
      && r.current.error == s.error
  {
    if s.location.Some? then Proceed(s)
    else if s.searchQuery != "" && !s.useCoordinates then
      var input := ValidateLocationInput(s.searchQuery);
      if !input.valid then Halt(s.(error := Some(input.message)))
      else Halt(Search(s, g))
    else if s.useCoordinates then
      var coords := ValidateCoordinates(s.inputLat, s.inputLon);
      if !coords.valid then Halt(s.(error := Some(coords.message)))
      else Proceed(AcceptCoordinates(s))
    else Halt(s.(error := Some(MSG_NO_LOCATION)))
  }

  /**
   * The final re-validation of the stored location, on the name shown for it:
   * the combined check, so a location with no name never passes.
   */
  function FinalCheck(name: Option<string>, d: Details): (r: Report)
    ensures r.valid <==>
      && AcceptableQuery(NameOr(name, ""))
      && InRange(Finite(d.lat), Finite(d.lon))
      && !InitialsShape(Trim(NameOr(name, "")))
    ensures name.None? ==> !r.valid && r.errors != [] && r.errors[0] == MSG_EMPTY
  {
    ValidateLocationData(NameOr(name, ""), Finite(d.lat), Finite(d.lon))
  }

  /**
   * The rest of a submission, on the current state `cur`: the date checks, the
   * final re-validation of `seen`'s location, then the `onDataReady` call with
   * `seen`'s location and name. `recheckCustom` says whether the
   * re-validation also applies to a location entered as coordinates.
   */
  function Conclude(cur: FormState, seen: FormState, now: real, recheckCustom: bool): (o: Outcome)
    ensures o.state == cur.(error := o.state.error)
    ensures o.delivered.Some? <==>
      && DateRangeError(cur, now).None?
      && ((seen.locationDetails.Some? && (recheckCustom || seen.locationDetails.value.country != CUSTOM))
          ==> FinalCheck(seen.locationName, seen.locationDetails.value).valid)
    ensures o.delivered.Some? ==>
      o.delivered.value == Submission(seen.location, NameOr(seen.locationName, UNKNOWN_LOCATION),
        if cur.useHistorical then Some(DateRange(cur.startDate.day, cur.endDate.day)) else None)
    ensures o.delivered.Some? ==> o.state == cur
    ensures o.delivered.None? ==> o.state.error.Some?
  {
    var dateError := DateRangeError(cur, now);
    if dateError.Some? then Outcome(cur.(error := dateError), None)
    else if seen.locationDetails.Some? && (recheckCustom || seen.locationDetails.value.country != CUSTOM)
      && !FinalCheck(seen.locationName, seen.locationDetails.value).valid
    then
      Outcome(cur.(error := Some(Join(FinalCheck(seen.locationName, seen.locationDetails.value).errors, "; "))), None)
    else
      var historical := if cur.useHistorical then Some(DateRange(cur.startDate.day, cur.endDate.day)) else None;
      Outcome(cur, Some(Submission(seen.location, NameOr(seen.locationName, UNKNOWN_LOCATION), historical)))
  }

  /**
   * `handleSubmit` as written. The handler reads `location`, `locationName`
   * and `locationDetails` as they were when it started: values it sets
   * during the call are not the ones it hands to `onDataReady`.
   */
  function Submit(s: FormState, g: Geocode, now: real): (o: Outcome)
    ensures SameInputs(s, o.state)
    ensures Coherent(s) ==> Coherent(o.state)
    ensures o.delivered.Some? ==>
      && DateRangeError(s, now).None?
      && (o.delivered.value.historical.Some? <==> s.useHistorical)
      && (s.useHistorical ==> o.delivered.value.historical == Some(DateRange(s.startDate.day, s.endDate.day)))
      && o.delivered.value.location == s.location
      && (s.location.Some? || (s.useCoordinates && InRange(s.inputLat, s.inputLon)))
    ensures o.delivered.None? ==> o.state.error.Some? || o.state.location.Some?
    ensures s.location.Some? && DateRangeError(s, now).Some? ==>
      o.delivered.None? && o.state.error == DateRangeError(s, now)
    ensures s.location.Some? ==>
      (o.delivered.Some? <==>
        && DateRangeError(s, now).None?
        && (s.locationDetails.Some? ==> FinalCheck(s.locationName, s.locationDetails.value).valid))
  {
    match Resolve(s, g)
    case Halt(t) => Outcome(t, None)
    case Proceed(t) => Conclude(t, s, now, true)
  }

  /** `onDataReady` receives `historical` exactly when historical mode is on, and only for a valid range. */
  lemma SubmissionCarriesRange(s: FormState, g: Geocode, now: real)
    requires Submit(s, g, now).delivered.Some?
    ensures s.useHistorical ==> RangeOk(s, now)
    ensures Submit(s, g, now).delivered.value.historical.None? <==> !s.useHistorical
  {
  }

  /* ---------- what the as-written submission does with direct coordinates ---------- */

  /** A coordinates label never passes the query check: it contains `(`. */
  lemma CoordinatesLabelRejected(lat: real, lon: real)
    ensures !AcceptableQuery(CoordinatesLabel(lat, lon))
    ensures !FinalCheck(Some(CoordinatesLabel(lat, lon)), Details(CUSTOM, lat, lon)).valid
  {
    var text := CoordinatesLabel(lat, lon);
    assert text[12] == '(';
    assert !AllowedChar(text[12]);
  }

  /**
   * The first submission of direct coordinates calls `onDataReady` with no
   * location and the name "Unknown Location", although it accepts them.
   */
  lemma CoordinateSubmitLosesLocation(lat: real, lon: real, g: Geocode, now: real)
    requires InRange(Finite(lat), Finite(lon))
    ensures
      var s := INITIAL.(useCoordinates := true, inputLat := Finite(lat), inputLon := Finite(lon));
      && Submit(s, g, now).delivered == Some(Submission(None, UNKNOWN_LOCATION, None))
      && Submit(s, g, now).state.location == Some(LatLon(lat, lon))
  {
  }

  /**
   * Once a location has been accepted from direct coordinates, submitting it
   * always fails: the final re-validation rejects its own label.
   */
  lemma CoordinateLocationNeverSubmits(s: FormState, g: Geocode, now: real, lat: real, lon: real)
    requires s.location == Some(LatLon(lat, lon))
    requires s.locationName == Some(CoordinatesLabel(lat, lon))
    requires s.locationDetails == Some(Details(CUSTOM, lat, lon))
    ensures Submit(s, g, now).delivered.None?
    ensures Submit(s, g, now).state.error.Some?
  {
    CoordinatesLabelRejected(lat, lon);
    assert NameOr(s.locationName, "") == CoordinatesLabel(lat, lon);
  }

  /* ---------- the submission as evidently intended ---------- */

  /**
   * `handleSubmit` with the location it has just accepted handed to
   * `onDataReady`, and the re-validation of the name left to geocoded
   * locations.
   */
  function SubmitIntended(s: FormState, g: Geocode, now: real): (o: Outcome)
    ensures SameInputs(s, o.state)
    ensures Coherent(s) ==> Coherent(o.state)
    ensures Coherent(s) && o.delivered.Some? ==>
      && o.delivered.value.location.Some?
      && o.delivered.value.location == o.state.location
      && DateRangeError(s, now).None?
  {
    match Resolve(s, g)
    case Halt(t) => Outcome(t, None)
    case Proceed(t) => Conclude(t, t, now, false)
  }

  /** The submit button as evidently intended: also enabled in coordinate mode, where submitting accepts the fields. */
  predicate OfferedIntended(s: FormState, a: Action) {
    if a.PressSubmit? then s.location.Some? || s.useCoordinates else Offered(s, a)
  }

  /**
   * Direct coordinates in range, with a valid date range when one is asked
   * for, can be submitted with the intended button and are handed over with
   * their label.
   */
  lemma IntendedCoordinateSubmit(s: FormState, g: Geocode, now: real)
    requires s.location.None? && s.useCoordinates && InRange(s.inputLat, s.inputLon)
    requires !s.useHistorical || RangeOk(s, now)
    ensures OfferedIntended(s, PressSubmit(g, now)) && !Offered(s, PressSubmit(g, now))
    ensures SubmitIntended(s, g, now).delivered ==
      Some(Submission(Some(LatLon(s.inputLat.value, s.inputLon.value)),
                      CoordinatesLabel(s.inputLat.value, s.inputLon.value),
                      if s.useHistorical then Some(DateRange(s.startDate.day, s.endDate.day)) else None))
  {
    var lat, lon := s.inputLat.value, s.inputLon.value;
    var text := CoordinatesLabel(lat, lon);
    assert |text| > 0 && text[0] == 'C';
  }

  /** A location accepted from coordinates can be submitted again, unlike with `Submit`. */
  lemma IntendedResubmit(s: FormState, g: Geocode, now: real, lat: real, lon: real)
    requires s.location == Some(LatLon(lat, lon))
    requires s.locationName == Some(CoordinatesLabel(lat, lon))
    requires s.locationDetails == Some(Details(CUSTOM, lat, lon))
    requires !s.useHistorical || RangeOk(s, now)
    ensures SubmitIntended(s, g, now).delivered.Some?
    ensures SubmitIntended(s, g, now).delivered.value.location == Some(LatLon(lat, lon))
  {
  }

  /* ---------- what the form offers ---------- */

  /** One thing the user does on the form. */
  datatype Action =
    | TypeQuery(query: string)
    | PressSearch(answer: Geocode)
    | TypeLatitude(latitude: Number)
    | TypeLongitude(longitude: Number)
    | PickMethod(coordinates: bool)
    | PickHistorical(historical: bool)
    | PickStartDate(start: DateField)
    | PickEndDate(finish: DateField)
    | PressSubmit(lookup: Geocode, now: real)

  /** The "City Search" / "Direct Coordinates" buttons: switch mode, dropping the error and the accepted location. */
  function SwitchMethod(s: FormState, coordinates: bool): (r: FormState)
    ensures r.useCoordinates == coordinates
    ensures r.location.None? && r.locationName.None? && r.error.None? && Coherent(r)
    ensures r.searchQuery == s.searchQuery && r.inputLat == s.inputLat && r.inputLon == s.inputLon
    ensures r.validationInfo == s.validationInfo && r.locationDetails == s.locationDetails
    ensures r.useHistorical == s.useHistorical && r.startDate == s.startDate && r.endDate == s.endDate
  {
    s.(useCoordinates := coordinates, error := None, location := None, locationName := None)
  }

  /**
   * Whether the form shows and enables the control for `a`: the query field
   * and the search (its button, or Enter in the field, which searches even
   * with an empty query) in city mode, the coordinate fields in coordinate
   * mode, the data-type buttons once a location is held, the date fields
   * once one is held in historical mode, and the submit button only while a
   * location is held (it is also disabled while the parent is processing,
   * which only narrows what is offered).
   */
  predicate Offered(s: FormState, a: Action) {
    match a
    case TypeQuery(_) => !s.useCoordinates
    case PressSearch(_) => !s.useCoordinates
    case TypeLatitude(_) => s.useCoordinates
    case TypeLongitude(_) => s.useCoordinates
    case PickMethod(_) => true
    case PickHistorical(_) => s.location.Some?
    case PickStartDate(_) => s.useHistorical && s.location.Some?
    case PickEndDate(_) => s.useHistorical && s.location.Some?
    case PressSubmit(_, _) => s.location.Some?
  }

  /** The state after the user does `a`. */
  function Step(s: FormState, a: Action): FormState {
    match a
    case TypeQuery(q) => EditQuery(s, q)
    case PressSearch(g) => Search(s, g)
    case TypeLatitude(v) => EditLatitude(s, v)
    case TypeLongitude(v) => EditLongitude(s, v)
    case PickMethod(c) => SwitchMethod(s, c)
    case PickHistorical(h) => s.(useHistorical := h, error := None)
    case PickStartDate(d) => s.(startDate := d, error := None)
    case PickEndDate(d) => s.(endDate := d, error := None)
    case PressSubmit(g, now) => Submit(s, g, now).state
  }

  /** Whether every action of `acts` is offered in the state it is taken in, starting from `s`. */
  predicate Playable(s: FormState, acts: seq<Action>)
    decreases |acts|
  {
    acts == [] || (Offered(s, acts[0]) && Playable(Step(s, acts[0]), acts[1..]))
  }

  /** The state after the actions `acts`, starting from `s`. */
  function Run(s: FormState, acts: seq<Action>): FormState
    decreases |acts|
  {
    if acts == [] then s else Run(Step(s, acts[0]), acts[1..])
  }

  /** In coordinate mode no location is held; so it is on mount. */
  predicate CoordinatesUnheld(s: FormState) {
    s.useCoordinates ==> s.location.None?
  }

  /** Every action the form offers keeps coordinate mode without a location. */
  lemma OfferedStepKeepsCoordinatesUnheld(s: FormState, a: Action)
    requires CoordinatesUnheld(s) && Offered(s, a)
    ensures CoordinatesUnheld(Step(s, a))
  {
    if a.PressSubmit? {
      assert Submit(s, a.lookup, a.now).state.useCoordinates == s.useCoordinates;
    }
  }

  /**
   * Through the form, Direct Coordinates mode never holds a location, so the
   * submit button is never enabled in it: the block of `handleSubmit` that
   * accepts direct coordinates is never reached by a user.
   */
  lemma {:induction false} CoordinateModeNeverSubmits(s: FormState, acts: seq<Action>)
    requires CoordinatesUnheld(s) && Playable(s, acts)
    ensures CoordinatesUnheld(Run(s, acts))
    ensures Run(s, acts).useCoordinates ==> forall g, now :: !Offered(Run(s, acts), PressSubmit(g, now))
    decreases |acts|
  {
    if acts != [] {
      OfferedStepKeepsCoordinatesUnheld(s, acts[0]);
      CoordinateModeNeverSubmits(Step(s, acts[0]), acts[1..]);
    }
  }

  /* ---------- the component ---------- */

  /** The location form component: its state fields, updated by its handlers. */
  class InputSection {
    var searchQuery: string
    var location: Option<LatLon>
    var locationName: Option<string>
    var error: Option<string>
    var validationInfo: Option<string>
    var locationDetails: Option<Details>
    var inputLat: Number
    var inputLon: Number
    var useCoordinates: bool
    var useHistorical: bool
    var startDate: DateField
    var endDate: DateField

    /** The snapshot of all fields. */
    function State(): FormState
      reads this
    {
      FormState(searchQuery, location, locationName, error, validationInfo, locationDetails,
                inputLat, inputLon, useCoordinates, useHistorical, startDate, endDate)
    }

    ghost predicate Valid()
      reads this
    {
      Coherent(State())
    }

    constructor ()
      ensures Valid() && State() == INITIAL
    {
      searchQuery, location, locationName, error, validationInfo, locationDetails := "", None, None, None, None, None;
      inputLat, inputLon, useCoordinates, useHistorical, startDate, endDate := NonFinite, NonFinite, false, false, Unset, Unset;
    }

    /** `handleSearch`, with the geocoder's answer `g`. */
    method HandleSearch(g: Geocode)
      requires Valid()
      modifies this
      ensures State() == Search(old(State()), g)
      ensures Valid()
    {
      var input := ValidateLocationInput(searchQuery);
      if !input.valid {
        error := Some(input.message);
        location := None;
        locationName := None;
        validationInfo := None;
      } else {
        error := None;
        validationInfo := None;
        ApplyLookup(g);
      }
    }

    /** Acting on the geocoder's answer once the query is accepted. */
    method ApplyLookup(g: Geocode)
      modifies this
      ensures State() == Lookup(old(State()), g)
    {
      match g
      case Found(name, country, lat, lon) => {
        var coords := ValidateCoordinates(lat, lon);
        if !coords.valid {
          error := Some(coords.message);
          location := None;
          locationName := None;
          locationDetails := None;
        } else {
          var full := ValidateLocationData(name, lat, lon);
          if !full.valid {
            error := Some(Join(full.errors, "; "));
            location := None;
            locationName := None;
            locationDetails := None;
          } else {
            location := Some(LatLon(lat.value, lon.value));
            locationName := Some(name + ", " + country);
            locationDetails := Some(Details(country, lat.value, lon.value));
            validationInfo := Some(Confirmation(name, country, lat.value, lon.value));
          }
        }
      }
      case NotFound => {
        error := Some(MSG_NOT_FOUND);
        location := None;
        locationName := None;
        locationDetails := None;
        validationInfo := None;
      }
      case Failed => {
        error := Some(MSG_SEARCH_FAILED);
        location := None;
        locationName := None;
        locationDetails := None;
      }
    }

    /**
     * `handleSubmit`, with the geocoder's answer `g` (used when it searches)
     * and the clock `now`; `delivered` is the `onDataReady` call it makes.
     */
    method HandleSubmit(g: Geocode, now: real) returns (delivered: Option<Submission>)
      requires Valid()
      modifies this
      ensures Valid() && Outcome(State(), delivered) == Submit(old(State()), g, now)
    {
      // the values the handler was created with
      var seen := State();
      var proceed := ResolveLocation(g);
      if !proceed {
        return None;
      }
      delivered := FinishSubmit(seen, now);
    }

    /** The `if (!location)` block of `handleSubmit`; `proceed` is false where the handler returns. */
    method ResolveLocation(g: Geocode) returns (proceed: bool)
      requires Valid()
      modifies this
      ensures Valid()
      ensures Resolve(old(State()), g) == if proceed then Proceed(State()) else Halt(State())
    {
      ghost var expected := Resolve(State(), g);
      assert Coherent(if expected.Halt? then expected.halted else expected.current);
      proceed := true;
      if location.None? {
        if searchQuery != "" && !useCoordinates {
          var input := ValidateLocationInput(searchQuery);
          if !input.valid {
            error := Some(input.message);
          } else {
            HandleSearch(g);
          }
          proceed := false;
        } else if useCoordinates {
          var coords := ValidateCoordinates(inputLat, inputLon);
          if !coords.valid {
            error := Some(coords.message);
            proceed := false;
          } else {
            var lat, lon := inputLat.value, inputLon.value;
            location := Some(LatLon(lat, lon));
            locationName := Some(CoordinatesLabel(lat, lon));
            locationDetails := Some(Details(CUSTOM, lat, lon));
          }
        } else {
          error := Some(MSG_NO_LOCATION);
          proceed := false;
        }
      }
    }

    /**
     * The rest of `handleSubmit`: the date checks, the final re-validation of
     * the location the handler started with (`seen`), and the call.
     */
    method FinishSubmit(seen: FormState, now: real) returns (delivered: Option<Submission>)
      requires Valid()
      modifies this
      ensures Valid() && Outcome(State(), delivered) == Conclude(old(State()), seen, now, true)
    {
      if useHistorical {
        if startDate.Unset? || endDate.Unset? {
          error := Some(MSG_DATES_MISSING);
          return None;
        }
        if startDate.day >= endDate.day {
          error := Some(MSG_START_NOT_BEFORE_END);
          return None;
        }
        if endDate.day as real > now {
          error := Some(MSG_END_IN_FUTURE);
          return None;
        }
      }
      if seen.locationDetails.Some? {
        var final := FinalCheck(seen.locationName, seen.locationDetails.value);
        if !final.valid {
          error := Some(Join(final.errors, "; "));
          return None;
        }
      }
      var historical := if useHistorical then Some(DateRange(startDate.day, endDate.day)) else None;
      delivered := Some(Submission(seen.location, NameOr(seen.locationName, UNKNOWN_LOCATION), historical));
    }

    /** The query field's `onChange`. */
    method ChangeQuery(q: string)
      requires Valid()
      modifies this
      ensures Valid() && State() == EditQuery(old(State()), q)
    {
      searchQuery := q;
      if location.Some? {
        location := None;
        locationName := None;
        validationInfo := None;
      }
      error := None;
    }

    /** The latitude field's `onChange`. */
    method ChangeLatitude(v: Number)
      requires Valid()
      modifies this
      ensures Valid() && State() == EditLatitude(old(State()), v)
    {
      inputLat := v;
      location := None;
      locationName := None;
      error := None;
    }

    /** The longitude field's `onChange`. */
    method ChangeLongitude(v: Number)
      requires Valid()
      modifies this
      ensures Valid() && State() == EditLongitude(old(State()), v)
    {
      inputLon := v;
      location := None;
      locationName := None;
      error := None;
    }

    /** The "City Search" / "Direct Coordinates" buttons: switch mode and drop the accepted location. */
    method ChooseInputMethod(coordinates: bool)
      requires Valid()
      modifies this
      ensures Valid() && State() == SwitchMethod(old(State()), coordinates)
    {
      useCoordinates := coordinates;
      error := None;
      location := None;
      locationName := None;
    }

    /** The "Forecast" / "Historical" buttons. */
    method ChooseHistorical(historical: bool)
      requires Valid()
      modifies this
      ensures Valid() && State() == Step(old(State()), PickHistorical(historical))
    {
      useHistorical := historical;
      error := None;
    }

    /** The start date field's `onChange`. */
    method ChangeStartDate(d: DateField)
      requires Valid()
      modifies this
      ensures Valid() && State() == Step(old(State()), PickStartDate(d))
    {
      startDate := d;
      error := None;
    }

    /** The end date field's `onChange`. */
    method ChangeEndDate(d: DateField)
      requires Valid()
      modifies this
      ensures Valid() && State() == Step(old(State()), PickEndDate(d))
    {
      endDate := d;
      error := None;
    }
  }
}

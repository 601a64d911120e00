/**
 * What the component's event handlers and its fetch effect decide to do,
 * separated from doing it: start a weather fetch, show an error, or nothing.
 */
module Dispatch {
  import opened JsText
  import Units
  import Geocode

  const NoInternet: string := "No internet connection"
  const DefaultCity: string := "Kolkata"

  /** The arguments of one `fetchWeather(location, unitGroup)` call. */
  datatype FetchRequest = FetchRequest(location: string, unitGroup: string)

  datatype Effect = Idle | Fetch(request: FetchRequest) | ShowError(message: string)

  /**
   * `handleSearch`: nothing for a blank query; otherwise a fetch of the query
   * exactly as typed (untrimmed) in the current unit when online, and the
   * offline error when not.
   */
  function SearchEffect(location: string, unit: string, isOnline: bool): (e: Effect)
    ensures e == Idle <==> AllWhitespace(location)
    ensures e.Fetch? <==> !AllWhitespace(location) && isOnline
    ensures e.Fetch? ==> e.request == FetchRequest(location, unit)
    ensures e.ShowError? ==> e.message == NoInternet
  {
    TrimEmptyIffBlank(location);
    if Trim(location) != "" then
      if isOnline then Fetch(FetchRequest(location, unit)) else ShowError(NoInternet)
    else
      Idle
  }

  /**
   * The effect that runs on mount and whenever the unit or the connection
   * state changes: fetch the typed location, or "Kolkata" when none is typed,
   * in the current unit; offline, the error instead.
   */
  function LocationEffect(location: string, unit: string, isOnline: bool): (e: Effect)
    ensures isOnline <==> e.Fetch?
    ensures !isOnline ==> e == ShowError(NoInternet)
    ensures e.Fetch? ==> e.request.unitGroup == unit && e.request.location != ""
    ensures e.Fetch? && location != "" ==> e.request.location == location
    ensures e.Fetch? && location == "" ==> e.request.location == DefaultCity
  {
    if isOnline then
      Fetch(FetchRequest(if location != "" then location else DefaultCity, unit))
    else
      ShowError(NoInternet)
  }

  /**
   * After reverse geocoding (`handleCurrentLocation`): a fetch of the area in
   * the unit given when an area was found. The connection state is not
   * consulted on this path.
   */
  function GeolocatedEffect(area: string, unit: string): (e: Effect)
    ensures e.Fetch? <==> area != ""
    ensures e.Fetch? ==> e.request == FetchRequest(area, unit)
    ensures !e.Fetch? ==> e == Idle
  {
    if area != "" then Fetch(FetchRequest(area, unit)) else Idle
  }

  /** Offline, neither the search nor the fetch effect requests a fetch. */
  lemma OfflineNeverFetches(location: string, unit: string)
    ensures !SearchEffect(location, unit, false).Fetch?
    ensures !LocationEffect(location, unit, false).Fetch?
  {
  }

  /**
   * A search only ever fetches a query with a non-blank character in it,
   * while the fetch effect may fetch a query of spaces as typed.
   */
  lemma SearchSkipsBlankButEffectDoesNot(unit: string)
    ensures SearchEffect("  ", unit, true) == Idle
    ensures LocationEffect("  ", unit, true) == Fetch(FetchRequest("  ", unit))
  {
    assert AllWhitespace("  ") by {
      assert forall i :: 0 <= i < |"  "| ==> "  "[i] == ' ';
    }
  }

  /** A request names a location and one of the two unit groups. */
  predicate WellFormed(request: FetchRequest) {
    request.location != "" && Units.IsKnownUnit(request.unitGroup)
  }

  /** Whatever path requests a fetch, the request is well formed when the unit is. */
  lemma FetchesAreWellFormed(location: string, area: string, unit: string, isOnline: bool)
    requires Units.IsKnownUnit(unit)
    ensures SearchEffect(location, unit, isOnline).Fetch? ==> WellFormed(SearchEffect(location, unit, isOnline).request)
    ensures LocationEffect(location, unit, isOnline).Fetch? ==> WellFormed(LocationEffect(location, unit, isOnline).request)
    ensures GeolocatedEffect(area, unit).Fetch? ==> WellFormed(GeolocatedEffect(area, unit).request)
  {
  }

  /** An area taken from a geocoded address never contains a comma. */
  lemma GeolocatedAreaHasNoComma(address: string, unit: string)
    ensures var e := GeolocatedEffect(Geocode.AreaFromAddress(address), unit);
      e.Fetch? ==> ',' !in e.request.location
  {
  }
}

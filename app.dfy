/**
 * The component's state and the handlers that update it. Each handler asks
 * the decision functions of Dispatch what to do and then does it through the
 * state setters; a weather fetch is recorded as a request, since the network
 * call is not part of this model, and its end is reported by FetchSettled.
 */
module WeatherApp {
  import opened Dispatch
  import Units
  import Geocode

  datatype Option<T> = None | Some(value: T)

  /** What the component renders as a whole. */
  datatype Screen = Spinner | ErrorPanel(message: string) | Dashboard

  class App {
    /** The search box text. */
    var location: string
    /** The provider unit group, "metric" or "us". */
    var unit: string
    /** The error message, or null. */
    var error: Option<string>
    var loading: bool
    var isOnline: bool
    /** Every `fetchWeather` call made so far, oldest first. */
    var requests: seq<FetchRequest>

    /** The unit is one of the two groups, and every request made is well formed. */
    ghost predicate Valid()
      reads this
    {
      Units.IsKnownUnit(unit) && forall i :: 0 <= i < |requests| ==> WellFormed(requests[i])
    }

    /** The initial state: empty search box, metric units, no error, nothing fetched yet. */
    constructor (online: bool)
      ensures Valid()
      ensures location == "" && unit == Units.Metric && error == None
      ensures !loading && isOnline == online && requests == []
    {
      location := "";
      unit := Units.Metric;
      error := None;
      loading := false;
      isOnline := online;
      requests := [];
    }

    /** The whole-screen choice: spinner while loading, then a non-empty error, then the main view. */
    function View(): (screen: Screen)
      reads this
      ensures loading <==> screen == Spinner
      ensures screen.ErrorPanel? <==> !loading && error.Some? && error.value != ""
      ensures screen.ErrorPanel? ==> screen.message == error.value
    {
      if loading then Spinner
      else if error.Some? && error.value != "" then ErrorPanel(error.value)
      else Dashboard
    }

    /** The synchronous start of `fetchWeather`: loading on, error cleared, request sent. */
    method FetchWeather(request: FetchRequest)
      modifies this
      ensures loading && error == None
      ensures requests == old(requests) + [request]
      ensures location == old(location) && unit == old(unit) && isOnline == old(isOnline)
    {
      loading := true;
      error := None;
      requests := requests + [request];
    }

    /** `e` has been carried out: exactly its request or its error, nothing else. */
    twostate predicate Performed(e: Effect)
      reads this
    {
      && location == old(location) && unit == old(unit) && isOnline == old(isOnline)
      && requests == old(requests) + (if e.Fetch? then [e.request] else [])
      && error == (if e.Fetch? then None else if e.ShowError? then Some(e.message) else old(error))
      && loading == (e.Fetch? || old(loading))
    }

    /** Carries out a decision through the state setters. */
    method Perform(e: Effect)
      requires Valid()
      requires e.Fetch? ==> WellFormed(e.request)
      modifies this
      ensures Valid()
      ensures Performed(e)
    {
      match e
      case Idle =>
      case Fetch(request) => FetchWeather(request);
      case ShowError(message) => error := Some(message);
    }

    /** Typing in the search box. */
    method EditLocation(text: string)
      requires Valid()
      modifies this
      ensures Valid()
      ensures location == text
      ensures unit == old(unit) && error == old(error) && loading == old(loading)
      ensures isOnline == old(isOnline) && requests == old(requests)
    {
      location := text;
    }

    /** Submitting the search form. */
    method HandleSearch()
      requires Valid()
      modifies this
      ensures Valid()
      ensures Performed(SearchEffect(old(location), old(unit), old(isOnline)))
    {
      FetchesAreWellFormed(location, "", unit, isOnline);
      Perform(SearchEffect(location, unit, isOnline));
    }

    /** The fetch effect, run on mount and after every change of the unit or the connection. */
    method RunLocationEffect()
      requires Valid()
      modifies this
      ensures Valid()
      ensures Performed(LocationEffect(old(location), old(unit), old(isOnline)))
    {
      FetchesAreWellFormed(location, "", unit, isOnline);
      Perform(LocationEffect(location, unit, isOnline));
    }

    /**
     * The unit button: the unit flips, and since the new unit always differs
     * from the old one, the fetch effect runs again with it.
     */
    method HandleUnitChange()
      requires Valid()
      modifies this
      ensures Valid()
      ensures unit == Units.Toggle(old(unit)) && unit != old(unit)
      ensures var e := LocationEffect(old(location), unit, old(isOnline));
        && location == old(location) && isOnline == old(isOnline)
        && requests == old(requests) + (if e.Fetch? then [e.request] else [])
        && error == (if e.Fetch? then None else if e.ShowError? then Some(e.message) else old(error))
        && loading == (e.Fetch? || old(loading))
    {
      unit := Units.Toggle(unit);
      RunLocationEffect();
    }

    /** The browser reports a connection change; the effect runs again when the flag changed. */
    method ConnectionChanged(online: bool)
      requires Valid()
      modifies this
      ensures Valid()
      ensures isOnline == online && location == old(location) && unit == old(unit)
      ensures online == old(isOnline) ==>
        requests == old(requests) && error == old(error) && loading == old(loading)
      ensures online != old(isOnline) ==>
        var e := LocationEffect(old(location), old(unit), online);
        && requests == old(requests) + (if e.Fetch? then [e.request] else [])
        && error == (if e.Fetch? then None else Some(NoInternet))
        && loading == (online || old(loading))
    {
      if online != isOnline {
        isOnline := online;
        RunLocationEffect();
      }
    }

    /**
     * The end of a weather fetch: a failure's message becomes the error, and
     * in either case the spinner goes off. The forecast a success stores is
     * not part of this model.
     */
    method FetchSettled(failure: Option<string>)
      requires Valid()
      modifies this
      ensures Valid()
      ensures !loading
      ensures error == (if failure.Some? then failure else old(error))
      ensures location == old(location) && unit == old(unit)
      ensures isOnline == old(isOnline) && requests == old(requests)
    {
      if failure.Some? {
        error := failure;
      }
      loading := false;
    }

    /**
     * The "Current" button. Nothing changes yet; the position callback it
     * registers keeps the unit of this moment, which is returned here.
     */
    method HandleCurrentLocation() returns (clickUnit: string)
      requires Valid()
      ensures clickUnit == unit && Units.IsKnownUnit(clickUnit)
    {
      clickUnit := unit;
    }

    /**
     * A reverse-geocoded address arrives for a "Current" click made while the
     * unit was `clickUnit`: the search box shows the extracted area, the
     * geocoding spinner is switched off, and a non-empty area is fetched in
     * `clickUnit`, even when the unit has been toggled since.
     */
    method ReceiveAddress(address: string, clickUnit: string)
      requires Valid()
      requires Units.IsKnownUnit(clickUnit)
      modifies this
      ensures Valid()
      ensures location == Geocode.AreaFromAddress(address) && unit == old(unit) && isOnline == old(isOnline)
      ensures var e := GeolocatedEffect(location, clickUnit);
        && requests == old(requests) + (if e.Fetch? then [e.request] else [])
        && (e.Fetch? ==> error == None && loading)
        && (!e.Fetch? ==> error == old(error) && !loading)
    {
      var area := Geocode.AreaFromAddress(address);
      location := area;
      loading := false;
      var e := GeolocatedEffect(area, clickUnit);
      Perform(e);
    }

    /**
     * ReceiveAddress with the unit read when the address arrives: the fetched
     * data is always in the unit whose labels the dashboard shows.
     */
    method ReceiveAddressInCurrentUnit(address: string)
      requires Valid()
      modifies this
      ensures Valid()
      ensures location == Geocode.AreaFromAddress(address) && unit == old(unit) && isOnline == old(isOnline)
      ensures var e := GeolocatedEffect(location, unit);
        && requests == old(requests) + (if e.Fetch? then [e.request] else [])
        && (e.Fetch? ==> error == None && loading)
        && (!e.Fetch? ==> error == old(error) && !loading)
      ensures requests != old(requests) ==> requests[|requests| - 1].unitGroup == unit
    {
      ReceiveAddress(address, unit);
    }

    /** The "Try Again" button clears the error. */
    method DismissError()
      requires Valid()
      modifies this
      ensures Valid()
      ensures error == None
      ensures location == old(location) && unit == old(unit) && loading == old(loading)
      ensures isOnline == old(isOnline) && requests == old(requests)
    {
      error := None;
    }
  }

  /**
   * Mounting offline, dismissing the offline error the mount effect shows,
   * then searching "Paris": no request is made and the offline error is back.
   */
  method OfflineSearch() returns (screen: Screen, sent: seq<FetchRequest>)
    ensures screen == ErrorPanel(NoInternet)
    ensures sent == []
  {
    var app := new App(false);
    app.RunLocationEffect();
    app.DismissError();
    app.EditLocation("Paris");
    app.HandleSearch();
    screen, sent := app.View(), app.requests;
  }

  /**
   * Opening the app online, the first fetch settling, then pressing the unit
   * button: Kolkata, first in "metric", then in "us". The button is only on
   * screen once the spinner is gone.
   */
  method StartThenToggle() returns (beforePress: Screen, sent: seq<FetchRequest>)
    ensures beforePress == Dashboard
    ensures sent == [FetchRequest(DefaultCity, Units.Metric), FetchRequest(DefaultCity, Units.Us)]
  {
    var app := new App(true);
    app.RunLocationEffect();
    app.FetchSettled(None);
    beforePress := app.View();
    app.HandleUnitChange();
    sent := app.requests;
  }

  /**
   * "Current" clicked in "metric", the unit toggled while the position is
   * pending, then the address arrives: the dashboard labels are those of
   * "us" while the last fetch asks for "metric" data.
   */
  method StaleUnitAfterToggle() returns (shown: string, fetched: string)
    ensures shown == Units.Us && fetched == Units.Metric
  {
    var app := new App(true);
    app.RunLocationEffect();
    app.FetchSettled(None);
    var clickUnit := app.HandleCurrentLocation();
    app.HandleUnitChange();
    app.FetchSettled(None);
    var address := "12 Main St, Springfield, IL, USA";
    Geocode.StreetAddressExample(address);
    app.ReceiveAddress(address, clickUnit);
    shown, fetched := app.unit, app.requests[|app.requests| - 1].unitGroup;
  }

  /** The same sequence with the unit read on arrival: the data matches the labels. */
  method CurrentUnitAfterToggle() returns (shown: string, fetched: string)
    ensures shown == Units.Us && fetched == Units.Us
  {
    var app := new App(true);
    app.RunLocationEffect();
    app.FetchSettled(None);
    var _ := app.HandleCurrentLocation();
    app.HandleUnitChange();
    app.FetchSettled(None);
    var address := "12 Main St, Springfield, IL, USA";
    Geocode.StreetAddressExample(address);
    app.ReceiveAddressInCurrentUnit(address);
    shown, fetched := app.unit, app.requests[|app.requests| - 1].unitGroup;
  }
}

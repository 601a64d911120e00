# Weather dashboard: decision rules and view derivation

This project models the logic inside the single React component `src/App.jsx` of a
weather dashboard. The component fetches a forecast for a city from a weather
provider and renders it. The model covers the parts of the component that decide
or compute something:

- **Conditions** — the icon classifier `getWeatherIcon`. It lower-cases the
  provider's free-text condition and tests keywords in a fixed order: rain, snow,
  fog/haze, cloud, thunder/storm, with clear as the fallback. The model returns a
  `ConditionTag` instead of an icon.
- **UvIndex** — the five-band UV severity ladder, with inclusive ceilings at 2, 5,
  7 and 10.
- **Geocode** — the area name taken from a reverse-geocoded address: the text after
  the last comma, trimmed.
- **Units** — the unit toggle ("metric" ⇄ "us") and the unit labels chosen from it:
  C/F, km/h/mph, km/mi.
- **Forecast** — `prepareChartData`, the hourly strip, the daily list with its
  "Today" label, and the precipitation amount with its "0" default.
- **Dispatch** — what the search handler, the fetch effect and the geolocation
  continuation decide to do. Each decides between fetching, showing the offline
  error, or doing nothing.
- **WeatherApp** — the component state as a class `App`. Its handlers carry out
  those decisions through the state setters. Each weather fetch is recorded as a
  `FetchRequest`.

Two modules supply the JavaScript semantics these rules rely on:

- **JsText** — `toLowerCase`, `includes`, `lastIndexOf`, `substring` and `trim`.
- **JsNumber** — numeric response fields that may be `null`, `NaN` or missing, with
  JavaScript's `<=` and truthiness on them.

Three behaviours of the code a reader might not expect:

- The second unit group is the provider's `"us"`; there is no "imperial" value.
- The component indexes `days[0]` without a check, so an empty `days` list throws
  during rendering instead of being reported. The model's view functions take the
  first day's data directly.
- A null or missing condition text is not classified at all. The component calls
  `toLowerCase` on it, which throws and aborts the render. The model's classifier
  takes a string, so that case is outside it.

## Model

| member | source | states |
|---|---|---|
| JsText.LowerChar | src/App.jsx:163 | An ASCII capital maps to its small letter (code point + 32). Every other character is unchanged. The result is never an ASCII capital. |
| JsText.ToLower | src/App.jsx:163 | `toLowerCase` keeps the length and lower-cases character by character. |
| JsText.ToLowerSlice | src/App.jsx:163 | Lower-casing commutes with taking a slice. |
| JsText.ToLowerIdempotent | src/App.jsx:163 | Lower-casing twice is the same as lower-casing once. |
| JsText.Contains | src/App.jsx:164-172 | `includes` finds the empty keyword in every text and never finds a keyword longer than the text. Its exact meaning is the next row. |
| JsText.ContainsIffOccurs | src/App.jsx:164-173 | `includes` is true exactly when the keyword occurs at some index of the text. |
| JsText.ContainsAt | src/App.jsx:164-173 | An occurrence at any index makes `includes` true. |
| JsText.LastIndexOf | src/App.jsx:151 | The result is -1 or an index of the character, and no later index holds the character. |
| JsText.Substring | src/App.jsx:151 | `substring(start)` is a suffix of the text. A start inside the text gives the tail from there. A negative start gives the whole text. A start past the end gives "". |
| JsText.IsJsWhitespace | src/App.jsx:151 | Among ASCII characters, exactly space, tab, line feed, vertical tab, form feed and carriage return are trimmed. Letters, digits and the comma never are. |
| JsText.TrimStart | src/App.jsx:151 | The result is a suffix. Everything dropped is whitespace. The result does not start with whitespace. |
| JsText.TrimEnd | src/App.jsx:151 | The result is a prefix. Everything dropped is whitespace. The result does not end with whitespace. |
| JsText.Trim | src/App.jsx:151 | `trim` is a contiguous slice, with only whitespace cut on either side and none left at either end. |
| JsText.TrimEmptyIffBlank | src/App.jsx:108 | A text trims to "" exactly when every character is whitespace. |
| JsText.TrimKeepsOnly | src/App.jsx:151 | Every character of the trimmed text occurs in the original. |
| JsText.TrimOfTrimmed | src/App.jsx:151 | A text without whitespace at either end is its own trim. |
| JsText.TrimSkipsLeading | src/App.jsx:151 | A leading whitespace character does not change the trim. |
| JsText.TrimIdempotent | src/App.jsx:151 | Trimming twice is the same as trimming once. |
| Conditions.MentionsSpelledOut | src/App.jsx:164-173 | Each tag's keyword test is exactly the `includes` tests written for it. The fallback has none. |
| Conditions.Classify | src/App.jsx:162-175 | A non-clear tag's keyword occurs in the lower-cased text, and no tag tested earlier has a keyword that occurs. |
| Conditions.ClassifyIsFirstMatch | src/App.jsx:163-174 | The chain of tests equals a first-match-wins evaluation of the ordered rule list rain, snow, fog, cloud, thunderstorm. |
| Conditions.ClassifyUnique | src/App.jsx:162-175 | Any tag meeting Classify's contract is Classify's result, so the priority order fully determines the icon. |
| Conditions.RainWinsInAnyCase | src/App.jsx:163-165 | "rain" in any letter case anywhere in the text gives Rain, whatever else the text mentions. |
| Conditions.ClearIffNoKeyword | src/App.jsx:174 | The fallback is chosen exactly when no keyword of any tag occurs. |
| Conditions.EmptyIsClear | src/App.jsx:174 | The empty text classifies as Clear. |
| Conditions.ClassifyIgnoresCase | src/App.jsx:163 | A text and its lower-cased form get the same tag. |
| Conditions.SameLowerSameTag | src/App.jsx:163 | Two texts with the same lower-cased form get the same tag. |
| Conditions.CloudOutranksThunder | src/App.jsx:168-173 | A text mentioning "fog", "haze" or "cloud" never classifies as Thunderstorm. |
| Conditions.RainAndCloudExample | src/App.jsx:163-165 | "Rain, Partially cloudy" classifies as Rain. |
| Units.Toggle | src/App.jsx:116-118 | The new unit is "us" exactly when the old one is "metric", and "metric" otherwise. It is always one of the two groups and always differs from the old value. |
| Units.ToggleTwiceRestores | src/App.jsx:117 | On "metric" and "us" the toggle is an involution. |
| Units.LabelsFor | src/App.jsx:411-482 | The labels are C, km/h and km exactly when the unit is "metric", and F, mph and mi exactly when it is not. They are never mixed. |
| Units.ToggleSwitchesLabels | src/App.jsx:116-118 | One toggle always changes the label set, and two toggles restore it. |
| Units.ToggleCaption | src/App.jsx:367 | The button offers the temperature label of the unit a toggle would switch to. |
| Units.TemperatureTitle | src/App.jsx:202 | The chart's temperature title carries the temperature label of the current unit. |
| JsNumber.ToNumeric | src/App.jsx:592-598 | Before `<=`, a field converts to a number or NaN: null becomes 0, a missing field becomes NaN, NaN stays NaN, and a number stays as it is. |
| JsNumber.AtMost | src/App.jsx:592-598 | `x <= bound` holds exactly when x converts to a number that is at most the bound. |
| JsNumber.Truthy | src/App.jsx:693 | A field is truthy exactly when it converts to a non-zero number. A truthy field is always a number. |
| UvIndex.BandOf | src/App.jsx:592-600 | The band is the least severe one whose ceiling admits the reading under JavaScript `<=`. Extreme is chosen when no ceiling admits it. |
| UvIndex.UvLabel | src/App.jsx:592-600 | Each label shows exactly when the reading passes its own `<=` test and fails the previous one: "Low" at ≤ 2, "Moderate" at ≤ 5, "High" at ≤ 7, "Very High" at ≤ 10, and "Extreme" when the reading fails the test at 10. |
| UvIndex.BandIntervals | src/App.jsx:592-600 | For a numeric reading x: Low is x ≤ 2, Moderate is 2 < x ≤ 5, High is 5 < x ≤ 7, Very High is 7 < x ≤ 10, and Extreme is x > 10. |
| UvIndex.CeilingIsInclusive | src/App.jsx:592-598 | Each ceiling (2, 5, 7 or 10) belongs to its own band. |
| UvIndex.BandMonotone | src/App.jsx:592-600 | A larger reading never gives a less severe band. |
| UvIndex.IntegerLadder | src/App.jsx:592-600 | Whole readings: ≤2 is "Low", 3–5 "Moderate", 6–7 "High", 8–10 "Very High", ≥11 "Extreme". |
| UvIndex.MissingReadings | src/App.jsx:592-600 | A missing or NaN reading shows "Extreme". A null reading shows "Low". |
| Geocode.LastSegmentStartUnique | src/App.jsx:151 | An address has exactly one start of its last comma-separated segment. |
| Geocode.AreaFromAddress | src/App.jsx:151 | The area is the trim of the last comma-separated segment. It contains no comma. Without a comma it is the whole address, trimmed. |
| Geocode.AreaIsTrimmedTail | src/App.jsx:151 | Everything up to the last comma is dropped, and only the trimmed tail remains. |
| Geocode.AreaIsLastName | src/App.jsx:151 | For segments separated by ", ", a last segment without a comma and without whitespace at either end is the area, exactly as written. |
| Geocode.StreetAddressExample | src/App.jsx:151 | "12 Main St, Springfield, IL, USA" gives "USA". |
| Forecast.Map | src/App.jsx:192-211 | `map` gives one result per element, in order. |
| Forecast.PrepareChartData | src/App.jsx:191-219 | Two datasets. Labels, temperatures and precipitation probabilities each have one entry per hour, in the hours' order. The titles and axis ids are those of the temperature and precipitation series. |
| Forecast.HourlyRows | src/App.jsx:505-543 | One column per hour, in order, with that hour's time, tag, temperature and probability. Every column but the last has a divider. |
| Forecast.ChartMatchesHourlyStrip | src/App.jsx:505-552 | The chart's labels and series line up entry by entry with the hourly strip's columns. |
| Forecast.DayLabel | src/App.jsx:743-745 | The date column says "Today" at index 0 and the short date of the day's epoch at every later index. |
| Forecast.DailyRows | src/App.jsx:732-792 | One row per day, in order. The first row is labelled "Today" and every later row gets its short date. Each row shows its day's tag, minimum and maximum temperatures and precipitation probability. |
| Forecast.PrecipDisplay | src/App.jsx:693-695 | The text "0" is shown exactly when the amount is zero, null, NaN or missing. Otherwise the amount is shown as given. |
| Dispatch.SearchEffect | src/App.jsx:106-113 | A blank query does nothing. Otherwise, online fetches the query untrimmed in the current unit, and offline shows "No internet connection". |
| Dispatch.LocationEffect | src/App.jsx:97-103 | Online fetches in the current unit: the typed location, or "Kolkata" when none is typed. Offline shows "No internet connection". |
| Dispatch.GeolocatedEffect | src/App.jsx:127-129 | A non-empty area is fetched in the unit given. Otherwise nothing happens. The connection state is not consulted. |
| Dispatch.OfflineNeverFetches | src/App.jsx:97-113 | Offline, neither the search nor the effect requests a fetch. |
| Dispatch.SearchSkipsBlankButEffectDoesNot | src/App.jsx:97-113 | A query of spaces is skipped by the search but fetched as typed by the effect. |
| Dispatch.FetchesAreWellFormed | src/App.jsx:97-129 | With a known unit, every fetch requested on any path names a non-empty location and a known unit group. |
| Dispatch.GeolocatedAreaHasNoComma | src/App.jsx:126-129 | A location fetched after geolocation never contains a comma. |
| WeatherApp.App.constructor | src/App.jsx:37-42 | Initial state: empty search box, "metric", no error, not loading, the browser's connection flag, no fetch made. |
| WeatherApp.App.View | src/App.jsx:261-293 | The spinner shows exactly while loading. Otherwise the error panel shows exactly for a non-empty error, and shows that message. Otherwise the main view shows. |
| WeatherApp.App.FetchWeather | src/App.jsx:65-67 | A fetch sets loading, clears the error and records one request. Nothing else changes. |
| WeatherApp.App.Perform | src/App.jsx:97-113 | A decision is carried out exactly: its request is recorded, or its error is set, or nothing happens. The unit and every request stay well formed. |
| WeatherApp.App.EditLocation | src/App.jsx:316 | Typing replaces the search text and nothing else. |
| WeatherApp.App.HandleSearch | src/App.jsx:106-113 | The state changes exactly as SearchEffect decides for the current location, unit and connection. |
| WeatherApp.App.RunLocationEffect | src/App.jsx:97-103 | The state changes exactly as LocationEffect decides for the current location, unit and connection. |
| WeatherApp.App.HandleUnitChange | src/App.jsx:116-118 | The unit toggles and always changes. The effect then runs with the new unit, recording its request or its error. |
| WeatherApp.App.ConnectionChanged | src/App.jsx:86-103 | The flag takes the reported value. If the value changed, the effect runs with it. If not, requests, error and loading are unchanged. |
| WeatherApp.App.FetchSettled | src/App.jsx:78-83 | A fetch ends with the spinner off. A failure's message becomes the error. Nothing else changes. |
| WeatherApp.App.HandleCurrentLocation | src/App.jsx:121-129 | The "Current" button changes nothing yet. Its position callback keeps the unit of the moment of the click, which is one of the two groups. |
| WeatherApp.App.ReceiveAddress | src/App.jsx:124-158 | The search box shows the extracted area and the geocoding spinner goes off. A non-empty area is fetched in the unit kept at the click, even if the unit has changed since. The error is cleared only by that fetch. |
| WeatherApp.App.ReceiveAddressInCurrentUnit | src/App.jsx:124-158 | As ReceiveAddress, but the area is fetched in the unit current when the address arrives, so the latest request's unit is the unit on screen. |
| WeatherApp.App.DismissError | src/App.jsx:285 | "Try Again" clears the error and nothing else. |
| WeatherApp.OfflineSearch | src/App.jsx:97-113 | Mounting offline, dismissing the error the mount effect shows, then searching "Paris": no request is made and the error panel shows "No internet connection". |
| WeatherApp.StartThenToggle | src/App.jsx:97-118 | Opening the app online, letting the first fetch finish, then pressing the unit button: the main view is on screen before the press, and "Kolkata" is fetched in "metric", then in "us". |
| WeatherApp.StaleUnitAfterToggle | src/App.jsx:116-129 | Clicking "Current" in "metric", toggling to "us" before the position arrives, then receiving the address: the screen shows "us" while the last fetch asks for "metric". |
| WeatherApp.CurrentUnitAfterToggle | src/App.jsx:116-129 | The same sequence with the unit read on arrival: the last fetch and the screen both use "us". |

## Left out

- The HTTP requests to the weather and geocoding services are not modelled: the response parsing, the provider's error messages, and the forecast a successful fetch stores. A fetch is recorded as a `FetchRequest`. `FetchSettled` models only its end: the error message it is given, and `loading` going back to false.
- The geolocation API and its error callback are not modelled. `ReceiveAddress` starts from the address the geocoding service returned. A failed geocoding lookup is not modelled.
- The online/offline listeners are not modelled. `ConnectionChanged` receives the flag they would set.
- The dark-mode preference in `localStorage` and the one-second clock are browser storage and timers. They are not modelled.
- `formatDate` and the `toLocale*String` calls depend on the browser's locale and time zone. The hour label and the short date are function parameters.
- The `Math.round` displays and the temperature-bar width use floating-point rounding and division. They are not modelled. Numbers are exact `real`s.
- JSX layout, CSS classes, Chart.js registration and options (colours, tension, axis ranges) and the Windy map URL are presentation. They are not modelled.
- Forecast.HourlyRows: takes the first day's hours directly. With an empty `days` list, `weatherData.days[0].hours` throws and aborts the render, and that case is outside the model; the same holds for Forecast.DailyRows' "Today" row and Forecast.PrecipDisplay's `days[0].precip`.
- Conditions.Classify: takes a string. A null or missing condition makes `toLowerCase` throw in the source and abort the render, and that case is outside the model.
- JsText.LowerChar: lowers 'A'..'Z' only and leaves every non-ASCII capital unchanged, as JsText.ToLower below does.
- JsText.ToLower: lower-cases ASCII letters only. JavaScript's `toLowerCase` also maps non-ASCII capitals, and a few of those change the length of the text. The model leaves every non-ASCII character unchanged.
- WeatherApp.App.View: the main view is not split further by whether forecast data has arrived, since the forecast data itself is not part of the state.
- WeatherApp.App.ReceiveAddress: only the successful lookup is modelled, as the state it leaves behind. The `loading` flip before the geocoding request is not shown. The browser's check that geolocation exists is not modelled.
- React batching and re-render timing are not modelled. An effect run is modelled as following the state change that triggers it.
- Fields the dashboard displays without any decision are not modelled: the resolved address, humidity, wind direction, sunrise, sunset, pressure and dew point.

## Findings

| source | as written | input that shows it | evidently intended | confidence | as-written member | corrected member |
|---|---|---|---|---|---|---|
| src/App.jsx:121-129 | The position callback fetches in the `unit` captured when "Current" was clicked. | Click "Current" in "metric", press the unit button before the position arrives, then grant the position. The screen shows °F, mph and mi over a forecast fetched in "metric". | Fetch in the unit on screen when the address arrives, so labels and data agree. | medium, not executed | WeatherApp.StaleUnitAfterToggle | WeatherApp.App.ReceiveAddressInCurrentUnit |

# Temperature Widget — a Dafny model of its decision logic

The Temperature Widget is a small desktop window. It looks up the current air
temperature for a United States zipcode, or for a weather station named by its
identifier. A zipcode is first resolved to coordinates and a "City, ST" name by
a geocoding service. The weather-observation service is then asked for the
nearest station within 50 miles. A station identifier goes to the weather
service directly.

This project models the logic of `TempWidget.py` between the input field and
the labels:

- `Text` holds Python's `str.strip()` and `str.upper()`, the normalisation of
  the input, the zipcode pattern `^\d{5}$` (as `re.match` applies it), and the
  decimal rendering of integers in f-strings.
- `Conversion` holds Python's `round()` (half to even) over exact reals, and the
  conversion `round(c * 9/5 + 32)` applied to the already-rounded Celsius value.
- `Responses` holds the two services' replies as plain datatypes. A reply either
  raised, or came back with a status code and a body that may not decode. Each
  JSON key that may be missing is an `Option`. It also holds `Classify`: the
  status / summary code / station list / air temperature ladder that both
  fetch functions run on a weather reply.
- `Lookup` holds `get_temp_from_zipcode` (`ByZipcode`) and
  `get_synoptic_temperature` (`ByStation`). Each returns either the tuple
  `(c, f, name, id)` or the error its message box shows. Errors fall into three
  kinds: transport failure, not found, and no temperature data.
- `Widget` holds `update_temp`. `Dispatch` is the pure routing and `Refresh` is
  the pure effect on the display. The class `TempWidget` holds the four
  displayed texts (location, temperature, window title, "Updated" line).
  Its method `UpdateTemp` changes them only when a reading came back, and it
  returns the dialog shown.

The two web services are parameters of the fetch functions:
`zipService: string -> Fetch<ZipBody>` and
`weather: WeatherRequest -> Fetch<SynopticBody>`. "The weather service is never
consulted" is therefore stated as "the result does not depend on `weather`".
Message boxes are returned `Dialog` / `LookupError` values. The text of the
input field and the formatted clock reading are parameters of `UpdateTemp`.

Three behaviours of the code that are easy to miss:

- The zipcode path reports a rejected weather request as "API request failed"
  without the status. The station path adds "with status N".
- The station path reads the station's `NAME` before it looks at the
  observations. A matched station without `NAME` therefore raises (and shows
  "An error occurred"), even when it also has no temperature. The zipcode path
  never reads `NAME`.
- The pattern `^\d{5}$` also accepts five digits followed by a newline
  (`ZipcodePatternExamples`). The input is stripped first, so this never
  happens (`ZipcodeShape`, `DispatchRoutes`).

## Model

| member | source | states |
|---|---|---|
| Text.TrimStart | TempWidget.py:158 | the leading part of `strip()`: the result is a suffix of the input, everything removed is whitespace, and the result does not start with whitespace |
| Text.TrimEnd | TempWidget.py:158 | the trailing part of `strip()`: the result is a prefix of the input, everything removed is whitespace, and the result does not end with whitespace |
| Text.Strip | TempWidget.py:158 | `strip()` returns a string no longer than its input with whitespace at neither end |
| Text.StripCore | TempWidget.py:158 | `strip()` of whitespace + trimmed core + whitespace is exactly the core (the unique decomposition that defines strip) |
| Text.Upper | TempWidget.py:158 | `upper()` keeps the length and maps every character through the ASCII upper-casing |
| Text.NormalizeBlank | TempWidget.py:158-160 | the normalised input is empty exactly when the field holds only whitespace (both directions) |
| Text.NormalizeIdempotent | TempWidget.py:158 | the normalised input has no whitespace at either end, and normalising it again changes nothing |
| Text.MatchDigits | TempWidget.py:60 | `\d{n}` at the start matches exactly when the first n characters exist and are all digits; what is left is the rest of the string |
| Text.IsZipcode | TempWidget.py:58-60 | `re.match(r'^\d{5}$', s)` succeeds exactly when s starts with five digits followed by the end of the string or a single final newline |
| Text.ZipcodeShape | TempWidget.py:58-60 | on a string without trailing whitespace, `^\d{5}$` holds exactly for five-digit strings (both directions) |
| Text.ZipcodePatternExamples | TempWidget.py:58-60 | "83013" matches; "83013\n" matches too (Python's `$`); "8301", "830131", "KJAC" and "D0414" do not |
| Text.NatToDecimal | TempWidget.py:175 | `str(n)` is a non-empty string of digits, without leading zero, whose decimal value is n |
| Text.IntToDecimalRoundTrip | TempWidget.py:175 | reading back the rendered integer gives the integer (negatives carry a minus sign) |
| Conversion.RoundHalfEven | TempWidget.py:99 | `round(x)` is within one half of x, and on a tie it is even |
| Conversion.RoundNearest | TempWidget.py:138 | an integer closer than one half to x is what `round(x)` returns |
| Conversion.Fahrenheit | TempWidget.py:100 | `round(c*9/5 + 32)` is within 2/5 of 9c/5 + 32, i.e. `-2 <= 5f - (9c + 160) <= 2` |
| Conversion.FahrenheitNeverTie | TempWidget.py:139 | 9c/5 + 32 never has fractional part one half, so the tie rule never applies |
| Conversion.FahrenheitByIntegers | TempWidget.py:100 | the conversion equals the integer-only reference `floor((9c + 162) / 5)` |
| Conversion.FahrenheitUnique | TempWidget.py:100 | any integer within 2/5 of 9c/5 + 32 is the converted value |
| Conversion.FahrenheitMonotone | TempWidget.py:100 | a warmer Celsius reading never shows a colder Fahrenheit one |
| Conversion.FahrenheitExamples | TempWidget.py:139 | 0 gives 32, 100 gives 212, -40 gives -40, 21 gives 70 |
| Responses.Classify | TempWidget.py:89-111 | a raised request is a transport fault; a non-200 status is a failed request with that status; an undecodable body is a malformed-body fault; a missing SUMMARY or RESPONSE_CODE key, or code 1 with no STATION key, raises KeyError for that key; a code other than 1, or code 1 with an empty STATION list, is not-found; a matched first station without `air_temp_value_1` (and with NAME where the path reads it) is no-temperature; a matched first station whose `air_temp_value_1` value is the number x is observed with Celsius `round(x)`; on a matched reply the verdict is the first station's reading, so a missing OBSERVATIONS, an absent `value` or a non-numeric `value` gives its own fault; conversely not-found occurs only for a decoded 200 reply whose code is not 1 or whose STATION list is empty, and each other verdict only for replies of its shape |
| Responses.ReadStation | TempWidget.py:133-144 | on the station path a missing NAME raises KeyError first; then missing OBSERVATIONS raises; no-temperature exactly when `air_temp_value_1` is absent; a missing `value` raises KeyError 'value' and a non-numeric one is a bad value; a numeric value x is observed as `round(x)`, and a temperature is observed only from a numeric `value` |
| Responses.Fault.Text | TempWidget.py:113-114 | what `str(e)` shows of a caught exception in the catch-all dialog (also lines 152-153): a KeyError shows its key in single quotes, an IndexError shows "list index out of range", and transport, decoding and value errors show their own detail |
| Responses.SummaryCodeDecides | TempWidget.py:132 | a summary code other than 1 is not-found whatever the station list holds, even when it is missing |
| Responses.NameOnlyMattersWhenMissing | TempWidget.py:133-136 | reading NAME changes the verdict only for a matched first station without NAME, and then it is a KeyError on "NAME" |
| Lookup.Locate | TempWidget.py:73-78 | an undecodable body, a missing `places` key and an empty `places` list give their faults; for the first place, in the order the fields are read, a missing latitude or longitude is a KeyError on that key and one `float()` rejects is a bad value, then a missing place name or state abbreviation is a KeyError on that key; a first place with numeric latitude and longitude and both names is located as (latitude, longitude, "City, ST"); conversely a located place always comes from the first entry that way |
| Lookup.ByZipcode | TempWidget.py:62-115 | a raised geocoding request is an error; a non-200 geocoding status is "zipcode not found"; a 200 geocoding reply the place cannot be read from gives "An error occurred" with that fault; once located, a matched nearest station whose air temperature is the number x gives the reading (round(x), Fahrenheit, "City, ST", zipcode); a reading always keeps the zipcode as id, takes the name from the first place, and has Fahrenheit within 2/5 of 9c/5 + 32 |
| Lookup.ByStation | TempWidget.py:117-154 | a non-200 status is "API request failed with status N"; a matched station with a NAME whose air temperature is the number x gives the reading (round(x), Fahrenheit, NAME, upper-cased identifier); a reading always comes from the first station of a matched reply, with that station's NAME, the upper-cased identifier as id, and Fahrenheit within 2/5 of 9c/5 + 32 |
| Lookup.ZipcodeNotFoundSkipsWeather | TempWidget.py:69-71 | when the zipcode cannot be located the result is an error that does not depend on the weather service; a non-200 geocoding status is of kind not-found |
| Lookup.ZipcodePathFollowsLadder | TempWidget.py:89-111 | once located, the zipcode path returns a reading exactly when the ladder observes one; otherwise it returns the error that matches the ladder's verdict ("API request failed", "no stations near", "no temperature near", the fault), of the same kind |
| Lookup.StationPathFollowsLadder | TempWidget.py:127-150 | the station path returns a reading exactly when the ladder observes one; otherwise it returns the error that matches the ladder's verdict, of the same kind |
| Lookup.PathsAgreeOnWeather | TempWidget.py:94-102 | on the same weather reply, with NAME present, both paths succeed together with the same Celsius and Fahrenheit, or fail with the same kind |
| Lookup.MissingNameRaises | TempWidget.py:134 | a matched first station without NAME makes the station path fail with a KeyError on "NAME" |
| Lookup.MoranExample | TempWidget.py:74-102 | geocoding "83013" to Moran, WY and a reading of 5.3 give (5, 41, "Moran, WY", "83013") |
| Lookup.StationWithoutTemperatureExample | TempWidget.py:136-144 | KJAC without `air_temp_value_1` gives the no-temperature error, whose dialog text is "No temperature data available for KJAC", and no reading |
| Lookup.LookupError.Message | TempWidget.py:104-153 | each not-found or no-data dialog names the offending zipcode or station at its fixed place in the text; the station path's request-failed text ends with the status, which reads back as that number; the zipcode path's is exactly "API request failed"; the catch-all text ends with what `str(e)` shows of the fault |
| Widget.Dispatch | TempWidget.py:158-169 | the step is "blank input" exactly when the field holds only whitespace; otherwise the lookup is made with the normalised input |
| Widget.DispatchRoutes | TempWidget.py:165-169 | non-blank input goes to the zipcode path exactly when it normalises to five digits, and to the station path otherwise |
| Widget.DialogOf | TempWidget.py:160-161 | blank input and nothing else shows the "Input Required" warning; a failed lookup and nothing else shows an "Error" dialog with the error's text; a reading shows no dialog |
| Widget.Refresh | TempWidget.py:171-180 | without a reading the display is unchanged; with one, location is the name, temperature is "{c}°C / {f}°F", title is "Temperature - {id}", and the "Updated" line shows the time |
| Widget.TempWidget.constructor | TempWidget.py:7-56 | a new window shows "Enter zipcode or station", an empty temperature, the title "Temperature Widget" and no update time |
| Widget.TempWidget.Display | TempWidget.py:174-180 | the four displayed texts become the given view |
| Widget.TempWidget.UpdateTemp | TempWidget.py:156-180 | the dialog is the one of the step `Dispatch` takes, and the new display is `Refresh` of the old one by that step |
| Widget.BlankInputDoesNothing | TempWidget.py:160-162 | blank input shows the "Input Required" warning, depends on neither service, and leaves the display as it was |
| Widget.StationInputSkipsGeocoding | TempWidget.py:167-169 | input that is not five digits never depends on the geocoding service |
| Widget.TitleNamesInput | TempWidget.py:176 | after a successful update the title is "Temperature - " followed by the normalised input, on either path |
| Widget.TemperatureTextInjective | TempWidget.py:175 | the temperature text determines both the Celsius and the Fahrenheit value it shows |

## Left out

- Window construction, layout, styling and the main loop (TempWidget.py:7-56, 182-185): presentation only. The constructor keeps only the initial texts.
- The HTTP requests, URLs, query parameters, timeouts and JSON decoding: the replies are abstract `Fetch` values and the services are parameters.
- The access token (TempWidget.py:15): configuration, not logic. `WeatherRequest` leaves it out.
- Formatting of the `"lat,lon,50"` radius string (TempWidget.py:84): floating-point formatting. `ByRadius` carries the coordinates and the radius as numbers.
- Floating-point arithmetic: readings and coordinates are exact reals. `round()` is modelled exactly over reals, so float representation error, NaN and infinities are not modelled.
- The wall-clock reading and its `strftime("%I:%M %p")` formatting (TempWidget.py:178-180): the formatted time is a parameter of `UpdateTemp`.
- The text of exceptions raised inside `requests`, `float()`, `round()` and JSON decoding: `Fault` carries it as an opaque detail string.
- A JSON `null` in place of a list or object, and JSON values of unexpected types other than numbers: the datatypes only distinguish a missing key from a present one.
- Text.MatchDigits: `\d` is modelled as the ASCII digits 0-9, as in Text.IsZipcode below.
- Text.ZipcodeShape: "five digits" means five ASCII digits, as in Text.IsZipcode below.
- Text.IsZipcode: `\d` is modelled as the ASCII digits 0-9. Python's `\d` also matches other Unicode decimal digits.
- Text.Upper: upper-cases ASCII letters only. Python's `str.upper()` also maps non-ASCII letters, some of them to several characters.

/**
 * The widget's state and its one action, `update_temp`: read and normalise
 * the input field, reject blank input, dispatch to the zipcode or station
 * path, and change the displayed location, temperature, window title and
 * "Updated" line only when a reading came back.
 */
module Widget {
  import opened Common
  import opened Responses
  import opened Lookup
  import Text

  /** A message box the action shows: a warning, an error, or none. */
  datatype Dialog = NoDialog | ShowWarning(title: string, text: string) | ShowError(title: string, text: string)

  const InputRequired: Dialog := ShowWarning("Input Required", "Please enter a zipcode or station ID")

  /** The text fields the widget displays. */
  datatype View = View(location: string, temperature: string, title: string, updated: string)

  const InitialView: View := View("Enter zipcode or station", "", "Temperature Widget", "")

  /** What `update_temp` does with the text of the input field before it touches the display. */
  datatype Step =
    | BlankInput
    | Fetched(viaZipcode: bool, input: string, result: Result<Reading, LookupError>)

  /** `"{temp_c}°C / {temp_f}°F"` */
  function TemperatureText(celsius: int, fahrenheit: int): string {
    Text.IntToDecimal(celsius) + "\U{B0}C / " + Text.IntToDecimal(fahrenheit) + "\U{B0}F"
  }

  function TitleText(id: string): string {
    "Temperature - " + id
  }

  /** `"Updated: {current_time}"`, the clock reading being given already formatted. */
  function UpdatedText(now: string): string {
    "Updated: " + now
  }

  /**
   * Lines 158-169: strip and uppercase the input; blank input stops here;
   * a five-digit input goes down the zipcode path, anything else down the
   * station path.
   */
  function Dispatch(entryText: string, zipService: string -> Fetch<ZipBody>,
                    weather: WeatherRequest -> Fetch<SynopticBody>): (s: Step)
    ensures s.BlankInput? <==> Text.AllSpace(entryText)
    ensures s.Fetched? ==> s.input == Text.Normalize(entryText)
  {
    var userInput := Text.Normalize(entryText);
    Text.NormalizeBlank(entryText);
    if userInput == [] then BlankInput
    else if Text.IsZipcode(userInput) then Fetched(true, userInput, ByZipcode(userInput, zipService, weather))
    else Fetched(false, userInput, ByStation(userInput, weather))
  }

  /** Non-blank input is looked up as a zipcode exactly when it normalises to five digits, and as a station otherwise. */
  lemma DispatchRoutes(entryText: string, zipService: string -> Fetch<ZipBody>,
                       weather: WeatherRequest -> Fetch<SynopticBody>)
    requires !Text.AllSpace(entryText)
    ensures var s := Dispatch(entryText, zipService, weather);
            var n := Text.Normalize(entryText);
            && s.Fetched? && s.input == n && n != []
            && (s.viaZipcode <==> |n| == 5 && Text.AllDigits(n))
            && s.result == if s.viaZipcode then ByZipcode(n, zipService, weather) else ByStation(n, weather)
  {
    Text.NormalizeIdempotent(entryText);
    Text.ZipcodeShape(Text.Normalize(entryText));
  }

  /** Lines 171-180: the display after a step; only a reading changes it. */
  function Refresh(view: View, step: Step, now: string): (v: View)
    ensures !(step.Fetched? && step.result.Ok?) ==> v == view
    ensures step.Fetched? && step.result.Ok? ==>
              var r := step.result.value;
              v == View(r.name, TemperatureText(r.celsius, r.fahrenheit), TitleText(r.id), UpdatedText(now))
  {
    match step
    case Fetched(_, _, Ok(r)) => View(r.name, TemperatureText(r.celsius, r.fahrenheit), TitleText(r.id), UpdatedText(now))
    case _ => view
  }

  /** The dialog a step shows: the warning for blank input, or the error of a failed fetch. */
  function DialogOf(step: Step): (d: Dialog)
    ensures d == InputRequired <==> step.BlankInput?
    ensures d.NoDialog? <==> step.Fetched? && step.result.Ok?
    ensures d.ShowError? <==> step.Fetched? && step.result.Err?
    ensures d.ShowError? ==> d.title == "Error" && d.text == step.result.error.Message()
  {
    match step
    case BlankInput => InputRequired
    case Fetched(_, _, Err(e)) => ShowError("Error", e.Message())
    case Fetched(_, _, Ok(_)) => NoDialog
  }

  class TempWidget {
    var location: string
    var temperature: string
    var title: string
    var updated: string

    function Shown(): View
      reads this
    {
      View(location, temperature, title, updated)
    }

    /** Lines 7-56, without the layout: the texts a fresh window shows. */
    constructor ()
      ensures Shown() == InitialView
    {
      location := "Enter zipcode or station";
      temperature := "";
      title := "Temperature Widget";
      updated := "";
    }

    /** Lines 174-180: the label and title updates. */
    method Display(v: View)
      modifies this
      ensures Shown() == v
    {
      location, temperature, title, updated := v.location, v.temperature, v.title, v.updated;
    }

    /**
     * `update_temp`, with the input field's text, the two services and the
     * formatted wall-clock time as parameters. Returns the dialog it shows.
     */
    method UpdateTemp(entryText: string, zipService: string -> Fetch<ZipBody>,
                      weather: WeatherRequest -> Fetch<SynopticBody>, now: string) returns (dialog: Dialog)
      modifies this
      ensures var step := Dispatch(entryText, zipService, weather);
              dialog == DialogOf(step) && Shown() == Refresh(old(Shown()), step, now)
    {
      ghost var step := Dispatch(entryText, zipService, weather);
      var userInput := Text.Normalize(entryText);
      if userInput == [] {
        assert step == BlankInput;
        dialog := InputRequired;
        return;
      }
      var result;
      if Text.IsZipcode(userInput) {
        result := ByZipcode(userInput, zipService, weather);
      } else {
        result := ByStation(userInput, weather);
      }
      assert step == Fetched(Text.IsZipcode(userInput), userInput, result);
      match result {
        case Ok(r) =>
          assert step.Fetched? && step.result == Ok(r);
          var shown := View(r.name, TemperatureText(r.celsius, r.fahrenheit), TitleText(r.id), UpdatedText(now));
          assert Refresh(old(Shown()), step, now) == shown;
          Display(shown);
          dialog := NoDialog;
        case Err(e) =>
          assert step.Fetched? && step.result == Err(e);
          assert Refresh(old(Shown()), step, now) == old(Shown());
          dialog := ShowError("Error", e.Message());
      }
    }
  }

  /** Blank input shows the warning, calls neither service and leaves the display as it was. */
  lemma BlankInputDoesNothing(entryText: string, view: View, now: string,
                              zipService1: string -> Fetch<ZipBody>, weather1: WeatherRequest -> Fetch<SynopticBody>,
                              zipService2: string -> Fetch<ZipBody>, weather2: WeatherRequest -> Fetch<SynopticBody>)
    requires Text.AllSpace(entryText)
    ensures Dispatch(entryText, zipService1, weather1) == Dispatch(entryText, zipService2, weather2)
    ensures DialogOf(Dispatch(entryText, zipService1, weather1)) == InputRequired
    ensures Refresh(view, Dispatch(entryText, zipService1, weather1), now) == view
  {
  }

  /** Input that is not a zipcode never reaches the geocoding service. */
  lemma StationInputSkipsGeocoding(entryText: string, weather: WeatherRequest -> Fetch<SynopticBody>,
                                   zipService1: string -> Fetch<ZipBody>, zipService2: string -> Fetch<ZipBody>)
    requires var n := Text.Normalize(entryText); !(|n| == 5 && Text.AllDigits(n))
    ensures Dispatch(entryText, zipService1, weather) == Dispatch(entryText, zipService2, weather)
  {
    if !Text.AllSpace(entryText) {
      DispatchRoutes(entryText, zipService1, weather);
      DispatchRoutes(entryText, zipService2, weather);
    }
  }

  /** After a successful update the window title names the normalised input, on either path. */
  lemma TitleNamesInput(entryText: string, zipService: string -> Fetch<ZipBody>,
                        weather: WeatherRequest -> Fetch<SynopticBody>, view: View, now: string)
    ensures var s := Dispatch(entryText, zipService, weather);
            s.Fetched? && s.result.Ok? ==>
              Refresh(view, s, now).title == TitleText(Text.Normalize(entryText))
  {
    var s := Dispatch(entryText, zipService, weather);
    if s.Fetched? && !s.viaZipcode {
      DispatchRoutes(entryText, zipService, weather);
      Text.NormalizeIdempotent(entryText);
      Text.UpperIdempotent(Text.Strip(entryText));
    }
  }

  /** Two texts made of a marker-free head, the marker, and a tail split the same way. */
  lemma SplitAtMarker(a: string, x: string, b: string, y: string, m: char)
    requires m !in a && m !in b
    requires a + [m] + x == b + [m] + y
    ensures a == b && x == y
  {
    var s := a + [m] + x;
    assert s[|a|] == m;
    assert s == b + [m] + y;
    assert s[|b|] == m;
    assert a == s[..|a|] && b == s[..|b|];
    assert x == s[|a| + 1..] && y == s[|b| + 1..];
  }

  lemma DecimalHasNoDegree(i: int)
    ensures '\U{B0}' !in Text.IntToDecimal(i)
  {
  }

  /** The temperature text is the Celsius digits, a degree sign, and a tail holding the Fahrenheit digits. */
  lemma TemperatureTextSplits(c: int, f: int)
    ensures TemperatureText(c, f) == Text.IntToDecimal(c) + ['\U{B0}'] + ("C / " + Text.IntToDecimal(f) + "\U{B0}F")
  {
  }

  lemma TailDetermines(b1: string, b2: string)
    requires "C / " + b1 + "\U{B0}F" == "C / " + b2 + "\U{B0}F"
    ensures b1 == b2
  {
    var x1, x2 := "C / " + b1 + "\U{B0}F", "C / " + b2 + "\U{B0}F";
    assert b1 == x1[4..|x1| - 2];
    assert b2 == x2[4..|x2| - 2];
  }

  /** The temperature text determines both readings it shows. */
  lemma TemperatureTextInjective(c1: int, f1: int, c2: int, f2: int)
    requires TemperatureText(c1, f1) == TemperatureText(c2, f2)
    ensures c1 == c2 && f1 == f2
  {
    DecimalHasNoDegree(c1);
    DecimalHasNoDegree(c2);
    TemperatureTextSplits(c1, f1);
    TemperatureTextSplits(c2, f2);
    SplitAtMarker(Text.IntToDecimal(c1), "C / " + Text.IntToDecimal(f1) + "\U{B0}F",
                  Text.IntToDecimal(c2), "C / " + Text.IntToDecimal(f2) + "\U{B0}F", '\U{B0}');
    TailDetermines(Text.IntToDecimal(f1), Text.IntToDecimal(f2));
    Text.IntToDecimalRoundTrip(c1);
    Text.IntToDecimalRoundTrip(c2);
    Text.IntToDecimalRoundTrip(f1);
    Text.IntToDecimalRoundTrip(f2);
  }
}

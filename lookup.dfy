/**
 * The two fetch paths of TempWidget.py, `get_temp_from_zipcode` and
 * `get_synoptic_temperature`. The services are parameters: `zipService`
 * answers a zipcode lookup, `weather` answers a weather-service request. An
 * error dialog the source shows becomes the returned `LookupError`.
 */
module Lookup {
  import opened Common
  import opened Responses
  import Text
  import Conversion

  /** The tuple `(temp_c, temp_f, location_name, identifier)` a successful fetch returns. */
  datatype Reading = Reading(celsius: int, fahrenheit: int, name: string, id: string)

  /** The error dialogs of the two fetch functions. */
  datatype LookupError =
    | ZipcodeNotFound(zipcode: string)
    | NoStationsNear(zipcode: string)
    | StationNotFound(stationId: string)
    | NoTemperatureNear(zipcode: string)
    | NoTemperatureFor(stationId: string)
    | RequestFailed(status: Option<int>)
    | ErrorOccurred(fault: Fault)
  {
    function Kind(): ErrorKind {
      match this
      case ZipcodeNotFound(_) => NotFound
      case NoStationsNear(_) => NotFound
      case StationNotFound(_) => NotFound
      case NoTemperatureNear(_) => NoTemperatureData
      case NoTemperatureFor(_) => NoTemperatureData
      case RequestFailed(_) => TransportFailure
      case ErrorOccurred(_) => TransportFailure
    }

    /**
     * The text of the dialog, titled "Error". A not-found or no-data text
     * names the offending zipcode or station at a fixed place, and a
     * request-failed text on the station path ends with the status code.
     * The catch-all text ends with what `str(e)` shows of the fault.
     */
    function Message(): (m: string)
      ensures ZipcodeNotFound? ==> |m| == |zipcode| + 20 && m[9..9 + |zipcode|] == zipcode
      ensures NoStationsNear? ==> |m| >= 31 && m[31..] == zipcode
      ensures StationNotFound? ==> |m| == |stationId| + 20 && m[9..9 + |stationId|] == stationId
      ensures NoTemperatureNear? ==> |m| >= 35 && m[35..] == zipcode
      ensures NoTemperatureFor? ==> |m| >= 34 && m[34..] == stationId
      ensures RequestFailed? && status.Some? ==> |m| >= 31 && Text.ParseInt(m[31..]) == Some(status.value)
      ensures RequestFailed? && status.None? ==> m == "API request failed"
      ensures ErrorOccurred? ==> |m| >= 19 && m[19..] == fault.Text()
    {
      Text.IntToDecimalRoundTrip(if RequestFailed? && status.Some? then status.value else 0);
      match this
      case ZipcodeNotFound(z) => "Zipcode '" + z + "' not found"
      case NoStationsNear(z) => "No weather stations found near " + z
      case StationNotFound(s) => "Station '" + s + "' not found"
      case NoTemperatureNear(z) => "No temperature data available near " + z
      case NoTemperatureFor(s) => "No temperature data available for " + s
      case RequestFailed(None) => "API request failed"
      case RequestFailed(Some(code)) => "API request failed with status " + Text.IntToDecimal(code)
      case ErrorOccurred(f) => "An error occurred: " + f.Text()
    }
  }

  /** Coordinates and display name read from the first place of a geocoding reply. */
  datatype Located = Located(latitude: real, longitude: real, name: string)

  const SearchRadiusMiles: nat := 50

  function NumberField(n: JsonNumber, key: string): Result<real, Fault> {
    match n
    case Absent => Err(MissingKey(key))
    case NotNumeric(d) => Err(BadValue(d))
    case Number(x) => Ok(x)
  }

  /** Lines 73-78: latitude, longitude, city and state of the first place, in the order the source reads them. */
  function Locate(body: Decoded<ZipBody>): (r: Result<Located, Fault>)
    ensures r.Ok? ==>
              && body.Decoded? && body.json.places.Some? && body.json.places.value != []
              && var p := body.json.places.value[0];
                 && p.latitude == Number(r.value.latitude) && p.longitude == Number(r.value.longitude)
                 && p.placeName.Some? && p.stateAbbreviation.Some?
                 && r.value.name == p.placeName.value + ", " + p.stateAbbreviation.value
    ensures body.Undecodable? ==> r == Err(MalformedBody(body.detail))
    ensures body.Decoded? && body.json.places.None? ==> r == Err(MissingKey("places"))
    ensures body.Decoded? && body.json.places == Some([]) ==> r == Err(IndexOutOfRange)
    ensures body.Decoded? && body.json.places.Some? && body.json.places.value != [] ==>
              var p := body.json.places.value[0];
              p.latitude.Number? && p.longitude.Number? && p.placeName.Some? && p.stateAbbreviation.Some? ==>
                r == Ok(Located(p.latitude.value, p.longitude.value, p.placeName.value + ", " + p.stateAbbreviation.value))
    ensures body.Decoded? && body.json.places.Some? && body.json.places.value != [] ==>
              var p := body.json.places.value[0];
              && (p.latitude.Absent? ==> r == Err(MissingKey("latitude")))
              && (p.latitude.NotNumeric? ==> r == Err(BadValue(p.latitude.detail)))
              && (p.latitude.Number? && p.longitude.Absent? ==> r == Err(MissingKey("longitude")))
              && (p.latitude.Number? && p.longitude.NotNumeric? ==> r == Err(BadValue(p.longitude.detail)))
              && (p.latitude.Number? && p.longitude.Number? && p.placeName.None? ==> r == Err(MissingKey("place name")))
              && (p.latitude.Number? && p.longitude.Number? && p.placeName.Some? && p.stateAbbreviation.None? ==>
                    r == Err(MissingKey("state abbreviation")))
  {
    match body
    case Undecodable(d) => Err(MalformedBody(d))
    case Decoded(data) =>
      match data.places
      case None => Err(MissingKey("places"))
      case Some(places) =>
        if places == [] then Err(IndexOutOfRange)
        else
          var p := places[0];
          match NumberField(p.latitude, "latitude")
          case Err(f) => Err(f)
          case Ok(lat) =>
            match NumberField(p.longitude, "longitude")
            case Err(f) => Err(f)
            case Ok(lon) =>
              match p.placeName
              case None => Err(MissingKey("place name"))
              case Some(city) =>
                match p.stateAbbreviation
                case None => Err(MissingKey("state abbreviation"))
                case Some(state) => Ok(Located(lat, lon, city + ", " + state))
  }

  /** The weather request the zipcode path makes for a located place: nearest station within 50 miles. */
  function NearestStationRequest(place: Located): WeatherRequest {
    ByRadius(place.latitude, place.longitude, SearchRadiusMiles, 1)
  }

  /** `get_temp_from_zipcode(zipcode)`. */
  function ByZipcode(zipcode: string, zipService: string -> Fetch<ZipBody>,
                     weather: WeatherRequest -> Fetch<SynopticBody>): (r: Result<Reading, LookupError>)
    ensures zipService(zipcode).Raised? ==> r == Err(ErrorOccurred(Transport(zipService(zipcode).detail)))
    ensures zipService(zipcode).Received? && zipService(zipcode).status != SuccessStatus ==>
              r == Err(ZipcodeNotFound(zipcode))
    ensures zipService(zipcode).Received? && zipService(zipcode).status == SuccessStatus
            && Locate(zipService(zipcode).body).Err? ==>
              r == Err(ErrorOccurred(Locate(zipService(zipcode).body).error))
    ensures r.Ok? ==>
              && r.value.id == zipcode
              && zipService(zipcode).Received? && Locate(zipService(zipcode).body).Ok?
              && r.value.name == Locate(zipService(zipcode).body).value.name
              && -2 <= 5 * r.value.fahrenheit - (9 * r.value.celsius + 160) <= 2
    ensures zipService(zipcode).Received? && zipService(zipcode).status == SuccessStatus
            && Locate(zipService(zipcode).body).Ok? ==>
              var place := Locate(zipService(zipcode).body).value;
              forall x :: Reports(weather(NearestStationRequest(place)), false, x) ==>
                var c := Conversion.RoundHalfEven(x);
                r == Ok(Reading(c, Conversion.Fahrenheit(c), place.name, zipcode))
  {
    match zipService(zipcode)
    case Raised(d) => Err(ErrorOccurred(Transport(d)))
    case Received(status, body) =>
      if status != SuccessStatus then Err(ZipcodeNotFound(zipcode))
      else
        match Locate(body)
        case Err(f) => Err(ErrorOccurred(f))
        case Ok(place) =>
          match Classify(weather(NearestStationRequest(place)), false)
          case Observed(_, c) => Ok(Reading(c, Conversion.Fahrenheit(c), place.name, zipcode))
          case NoTemperature => Err(NoTemperatureNear(zipcode))
          case NoStationMatched => Err(NoStationsNear(zipcode))
          case Rejected(_) => Err(RequestFailed(None))
          case Failed(f) => Err(ErrorOccurred(f))
  }

  /** `get_synoptic_temperature(station_id)`. */
  function ByStation(stationId: string, weather: WeatherRequest -> Fetch<SynopticBody>): (r: Result<Reading, LookupError>)
    ensures var reply := weather(ByStationId(stationId));
            && (reply.Received? && reply.status != SuccessStatus ==> r == Err(RequestFailed(Some(reply.status))))
            && (r.Ok? ==>
                  && Matched(reply)
                  && FirstStation(reply).name == Some(r.value.name)
                  && r.value.id == Text.Upper(stationId)
                  && -2 <= 5 * r.value.fahrenheit - (9 * r.value.celsius + 160) <= 2)
    ensures var reply := weather(ByStationId(stationId));
            forall x :: Reports(reply, true, x) ==>
              var c := Conversion.RoundHalfEven(x);
              r == Ok(Reading(c, Conversion.Fahrenheit(c), FirstStation(reply).name.value, Text.Upper(stationId)))
  {
    match Classify(weather(ByStationId(stationId)), true)
    case Observed(station, c) => Ok(Reading(c, Conversion.Fahrenheit(c), station.name.value, Text.Upper(stationId)))
    case NoTemperature => Err(NoTemperatureFor(stationId))
    case NoStationMatched => Err(StationNotFound(stationId))
    case Rejected(code) => Err(RequestFailed(Some(code)))
    case Failed(f) => Err(ErrorOccurred(f))
  }

  /** A zipcode the geocoding service rejects yields not-found, and the weather service is never consulted. */
  lemma ZipcodeNotFoundSkipsWeather(zipcode: string, zipService: string -> Fetch<ZipBody>,
                                     weather1: WeatherRequest -> Fetch<SynopticBody>,
                                     weather2: WeatherRequest -> Fetch<SynopticBody>)
    requires !(zipService(zipcode).Received? && zipService(zipcode).status == SuccessStatus && Locate(zipService(zipcode).body).Ok?)
    ensures ByZipcode(zipcode, zipService, weather1) == ByZipcode(zipcode, zipService, weather2)
    ensures ByZipcode(zipcode, zipService, weather1).Err?
    ensures zipService(zipcode).Received? && zipService(zipcode).status != SuccessStatus ==>
              ByZipcode(zipcode, zipService, weather1).error.Kind() == NotFound
  {
  }

  /**
   * Once the zipcode is located, the zipcode path reports what the shared
   * ladder decides about the weather reply to the nearest-station request:
   * the same kind of failure, or the observed temperature.
   */
  lemma ZipcodePathFollowsLadder(zipcode: string, zipService: string -> Fetch<ZipBody>,
                                 weather: WeatherRequest -> Fetch<SynopticBody>)
    requires zipService(zipcode).Received? && zipService(zipcode).status == SuccessStatus
    requires Locate(zipService(zipcode).body).Ok?
    ensures var place := Locate(zipService(zipcode).body).value;
            var v := Classify(weather(NearestStationRequest(place)), false);
            var r := ByZipcode(zipcode, zipService, weather);
            && r.Ok? == v.Observed?
            && (v.Observed? ==> r.value == Reading(v.celsius, Conversion.Fahrenheit(v.celsius), place.name, zipcode))
            && (v.Rejected? ==> r == Err(RequestFailed(None)))
            && (v.NoStationMatched? ==> r == Err(NoStationsNear(zipcode)))
            && (v.NoTemperature? ==> r == Err(NoTemperatureNear(zipcode)))
            && (v.Failed? ==> r == Err(ErrorOccurred(v.fault)))
            && (!v.Observed? ==> r.error.Kind() == KindOf(v))
  {
  }

  /**
   * The station path reports what the shared ladder decides about the reply,
   * with the kind of failure it stands for.
   */
  lemma StationPathFollowsLadder(stationId: string, weather: WeatherRequest -> Fetch<SynopticBody>)
    ensures var v := Classify(weather(ByStationId(stationId)), true);
            var r := ByStation(stationId, weather);
            && r.Ok? == v.Observed?
            && (v.Observed? ==> r.value == Reading(v.celsius, Conversion.Fahrenheit(v.celsius), v.station.name.value, Text.Upper(stationId)))
            && (v.Rejected? ==> r == Err(RequestFailed(Some(v.status))))
            && (v.NoStationMatched? ==> r == Err(StationNotFound(stationId)))
            && (v.NoTemperature? ==> r == Err(NoTemperatureFor(stationId)))
            && (v.Failed? ==> r == Err(ErrorOccurred(v.fault)))
            && (!v.Observed? ==> r.error.Kind() == KindOf(v))
  {
  }

  /**
   * Both paths give the same verdict on the same weather reply whenever the
   * station's NAME is there: they differ only in names, ids and texts.
   */
  lemma PathsAgreeOnWeather(zipcode: string, stationId: string, zipService: string -> Fetch<ZipBody>,
                            weather: WeatherRequest -> Fetch<SynopticBody>)
    requires zipService(zipcode).Received? && zipService(zipcode).status == SuccessStatus
    requires Locate(zipService(zipcode).body).Ok?
    requires weather(NearestStationRequest(Locate(zipService(zipcode).body).value)) == weather(ByStationId(stationId))
    requires var reply := weather(ByStationId(stationId)); Matched(reply) ==> FirstStation(reply).name.Some?
    ensures var z := ByZipcode(zipcode, zipService, weather);
            var s := ByStation(stationId, weather);
            && z.Ok? == s.Ok?
            && (z.Ok? ==> z.value.celsius == s.value.celsius && z.value.fahrenheit == s.value.fahrenheit)
            && (z.Err? ==> z.error.Kind() == s.error.Kind())
  {
  }

  /** A matched station without NAME makes the station path fail even when it also has no temperature. */
  lemma MissingNameRaises(stationId: string, weather: WeatherRequest -> Fetch<SynopticBody>)
    requires Matched(weather(ByStationId(stationId)))
    requires FirstStation(weather(ByStationId(stationId))).name.None?
    ensures ByStation(stationId, weather) == Err(ErrorOccurred(MissingKey("NAME")))
  {
  }

  /** A geocoding reply for Moran, WY and a weather reply reading 5.3 degrees give (5, 41, "Moran, WY", "83013"). */
  lemma MoranExample()
    ensures var zipService := (z: string) =>
              Received(SuccessStatus, Decoded(ZipBody(Some([Place(Number(43.85), Number(-110.55), Some("Moran"), Some("WY"))]))));
            var weather := (q: WeatherRequest) =>
              Received(SuccessStatus, Decoded(SynopticBody(Some(Summary(Some(SummaryOk))),
                Some([Station(Some("MORAN"), Some(map[AirTempKey := Observation(Number(5.3))]))]))));
            ByZipcode("83013", zipService, weather) == Ok(Reading(5, 41, "Moran, WY", "83013"))
  {
    var zipService := (z: string) =>
      Received(SuccessStatus, Decoded(ZipBody(Some([Place(Number(43.85), Number(-110.55), Some("Moran"), Some("WY"))]))));
    var weather := (q: WeatherRequest) =>
      Received(SuccessStatus, Decoded(SynopticBody(Some(Summary(Some(SummaryOk))),
        Some([Station(Some("MORAN"), Some(map[AirTempKey := Observation(Number(5.3))]))]))));
    Conversion.RoundNearest(5.3, 5);
    Conversion.FahrenheitUnique(5, 41);
    assert "Moran" + ", " + "WY" == "Moran, WY";
    assert Locate(zipService("83013").body) == Ok(Located(43.85, -110.55, "Moran, WY"));
    var v := Classify(weather(NearestStationRequest(Located(43.85, -110.55, "Moran, WY"))), false);
    assert v.celsius == 5;
  }

  /** A station reply for KJAC without an air temperature gives the no-temperature error and no reading. */
  lemma StationWithoutTemperatureExample()
    ensures var weather := (q: WeatherRequest) =>
              Received(SuccessStatus, Decoded(SynopticBody(Some(Summary(Some(SummaryOk))),
                Some([Station(Some("JACKSON HOLE AIRPORT"), Some(map[]))]))));
            && ByStation("KJAC", weather) == Err(NoTemperatureFor("KJAC"))
            && ByStation("KJAC", weather).error.Message() == "No temperature data available for KJAC"
  {
  }
}

/**
 * The two web services' replies as plain values, and the response ladder
 * that both fetch paths of TempWidget.py run on a weather-service reply.
 *
 * A reply is what `requests.get` produced: either it raised (timeout,
 * connection error) or it came back with a status code and a body, which
 * `.json()` may fail to decode. JSON objects are records whose fields are
 * `Option`s: `None` stands for a key that is not there, so that indexing it
 * raises KeyError.
 */
module Responses {
  import opened Common
  import Conversion

  datatype Fetch<B> = Raised(detail: string) | Received(status: int, body: Decoded<B>)

  datatype Decoded<B> = Undecodable(detail: string) | Decoded(json: B)

  /**
   * A numeric JSON field: missing, present but not usable as a number, or a
   * number. For a place's latitude and longitude, which the geocoding service
   * sends as strings, `Number` means that `float()` accepts the text (lines
   * 74-75 of TempWidget.py), and `NotNumeric` that it raises ValueError. For an
   * observation's `value`, `Number` means a JSON number that `round()` accepts
   * (lines 99 and 138), and `NotNumeric` that `round()` raises TypeError.
   */
  datatype JsonNumber = Absent | NotNumeric(detail: string) | Number(value: real)

  /** One entry of the geocoding service's `places` list. */
  datatype Place = Place(latitude: JsonNumber, longitude: JsonNumber,
                         placeName: Option<string>, stateAbbreviation: Option<string>)

  datatype ZipBody = ZipBody(places: Option<seq<Place>>)

  /** One entry of a station's `OBSERVATIONS` object. */
  datatype Observation = Observation(value: JsonNumber)

  datatype Station = Station(name: Option<string>, observations: Option<map<string, Observation>>)

  datatype Summary = Summary(responseCode: Option<int>)

  datatype SynopticBody = SynopticBody(summary: Option<Summary>, stations: Option<seq<Station>>)

  /** The two queries made of the weather service (the access token and `vars=air_temp` go with both). */
  datatype WeatherRequest =
    | ByRadius(latitude: real, longitude: real, radiusMiles: nat, limit: nat)
    | ByStationId(stid: string)

  const AirTempKey: string := "air_temp_value_1"
  const SuccessStatus: int := 200
  const SummaryOk: int := 1

  /** The exception a fetch path catches, with what `str(e)` shows of it. */
  datatype Fault =
    | Transport(detail: string)
    | MalformedBody(detail: string)
    | MissingKey(key: string)
    | IndexOutOfRange
    | BadValue(detail: string)
  {
    function Text(): (t: string)
      ensures MissingKey? ==> |t| == |key| + 2 && t[0] == '\'' && t[|t| - 1] == '\'' && t[1..|t| - 1] == key
      ensures IndexOutOfRange? ==> t == "list index out of range"
      ensures Transport? || MalformedBody? || BadValue? ==> t == detail
    {
      match this
      case Transport(d) => d
      case MalformedBody(d) => d
      case MissingKey(k) => "'" + k + "'"
      case IndexOutOfRange => "list index out of range"
      case BadValue(d) => d
    }
  }

  /** What the ladder makes of a weather reply. */
  datatype Verdict =
    | Rejected(status: int)
    | Failed(fault: Fault)
    | NoStationMatched
    | NoTemperature
    | Observed(station: Station, celsius: int)

  /** The three kinds of failure the widget distinguishes. */
  datatype ErrorKind = TransportFailure | NotFound | NoTemperatureData

  /** A reply for which the service reports success and a first station. */
  predicate Matched(reply: Fetch<SynopticBody>) {
    && reply.Received? && reply.status == SuccessStatus && reply.body.Decoded?
    && reply.body.json.summary == Some(Summary(Some(SummaryOk)))
    && reply.body.json.stations.Some? && reply.body.json.stations.value != []
  }

  /** The first station of a matched reply. */
  function FirstStation(reply: Fetch<SynopticBody>): Station
    requires Matched(reply)
  {
    reply.body.json.stations.value[0]
  }

  /**
   * The first station of a matched reply has what the path reads (its NAME,
   * when the path reads it) and an `air_temp_value_1` whose value is the
   * number x.
   */
  predicate Reports(reply: Fetch<SynopticBody>, readsName: bool, x: real) {
    && Matched(reply)
    && (readsName ==> FirstStation(reply).name.Some?)
    && FirstStation(reply).observations.Some?
    && AirTempKey in FirstStation(reply).observations.value
    && FirstStation(reply).observations.value[AirTempKey].value == Number(x)
  }

  /**
   * The ladder of lines 91-111 and 129-150: status, summary code and station
   * list, then the first station's air temperature. `readsName` says whether
   * the station's NAME is read before its observations (the station path does,
   * the zipcode path does not).
   */
  function Classify(reply: Fetch<SynopticBody>, readsName: bool): (v: Verdict)
    ensures reply.Raised? ==> v == Failed(Transport(reply.detail))
    ensures reply.Received? && reply.status != SuccessStatus ==> v == Rejected(reply.status)
    ensures v.Rejected? ==> reply.Received? && reply.status != SuccessStatus
    ensures v.NoStationMatched? ==>
              && reply.Received? && reply.status == SuccessStatus && reply.body.Decoded?
              && reply.body.json.summary.Some? && reply.body.json.summary.value.responseCode.Some?
              && (reply.body.json.summary.value.responseCode.value != SummaryOk || reply.body.json.stations == Some([]))
    ensures v.NoTemperature? ==>
              && Matched(reply) && FirstStation(reply).observations.Some?
              && AirTempKey !in FirstStation(reply).observations.value
    ensures v.Observed? ==>
              && Matched(reply) && v.station == FirstStation(reply)
              && (readsName ==> v.station.name.Some?)
              && v.station.observations.Some? && AirTempKey in v.station.observations.value
              && v.station.observations.value[AirTempKey].value.Number?
              && v.celsius == Conversion.RoundHalfEven(v.station.observations.value[AirTempKey].value.value)
    ensures reply.Received? && reply.status == SuccessStatus && reply.body.Undecodable? ==>
              v == Failed(MalformedBody(reply.body.detail))
    ensures reply.Received? && reply.status == SuccessStatus && reply.body.Decoded? ==>
              var data := reply.body.json;
              && (data.summary.None? ==> v == Failed(MissingKey("SUMMARY")))
              && (data.summary.Some? && data.summary.value.responseCode.None? ==> v == Failed(MissingKey("RESPONSE_CODE")))
              && (data.summary.Some? && data.summary.value.responseCode.Some? && data.summary.value.responseCode.value != SummaryOk
                  ==> v == NoStationMatched)
              && (data.summary == Some(Summary(Some(SummaryOk))) && data.stations.None? ==> v == Failed(MissingKey("STATION")))
              && (data.summary == Some(Summary(Some(SummaryOk))) && data.stations == Some([]) ==> v == NoStationMatched)
    ensures Matched(reply) && readsName && FirstStation(reply).name.None? ==> v == Failed(MissingKey("NAME"))
    ensures Matched(reply) && (readsName ==> FirstStation(reply).name.Some?)
            && FirstStation(reply).observations.Some? && AirTempKey !in FirstStation(reply).observations.value ==>
              v == NoTemperature
    ensures forall x :: Reports(reply, readsName, x) ==> v == Observed(FirstStation(reply), Conversion.RoundHalfEven(x))
    ensures Matched(reply) ==> v == ReadStation(FirstStation(reply), readsName)
  {
    match reply
    case Raised(d) => Failed(Transport(d))
    case Received(status, body) =>
      if status != SuccessStatus then Rejected(status)
      else
        match body
        case Undecodable(d) => Failed(MalformedBody(d))
        case Decoded(data) =>
          match data.summary
          case None => Failed(MissingKey("SUMMARY"))
          case Some(summary) =>
            match summary.responseCode
            case None => Failed(MissingKey("RESPONSE_CODE"))
            case Some(code) =>
              if code != SummaryOk then NoStationMatched
              else
                match data.stations
                case None => Failed(MissingKey("STATION"))
                case Some(stations) =>
                  if stations == [] then NoStationMatched
                  else ReadStation(stations[0], readsName)
  }

  /** Lines 95-105 and 133-144: the first station's name (when read) and its air temperature. */
  function ReadStation(station: Station, readsName: bool): (v: Verdict)
    ensures readsName && station.name.None? ==> v == Failed(MissingKey("NAME"))
    ensures !(readsName && station.name.None?) && station.observations.None? ==> v == Failed(MissingKey("OBSERVATIONS"))
    ensures !(readsName && station.name.None?) && station.observations.Some? ==>
              (v == NoTemperature <==> AirTempKey !in station.observations.value)
    ensures forall x :: !(readsName && station.name.None?) && station.observations.Some?
                        && AirTempKey in station.observations.value
                        && station.observations.value[AirTempKey].value == Number(x) ==>
              v == Observed(station, Conversion.RoundHalfEven(x))
    ensures v.Observed? ==>
              && station.observations.Some? && AirTempKey in station.observations.value
              && station.observations.value[AirTempKey].value.Number?
    ensures !(readsName && station.name.None?) && station.observations.Some? && AirTempKey in station.observations.value ==>
              var value := station.observations.value[AirTempKey].value;
              && (value.Absent? ==> v == Failed(MissingKey("value")))
              && (value.NotNumeric? ==> v == Failed(BadValue(value.detail)))
  {
    if readsName && station.name.None? then Failed(MissingKey("NAME"))
    else
      match station.observations
      case None => Failed(MissingKey("OBSERVATIONS"))
      case Some(observations) =>
        if AirTempKey !in observations then NoTemperature
        else
          match observations[AirTempKey].value
          case Absent => Failed(MissingKey("value"))
          case NotNumeric(d) => Failed(BadValue(d))
          case Number(x) => Observed(station, Conversion.RoundHalfEven(x))
  }

  /** A summary code other than 1 means not found, whatever the station list holds (it is not even read). */
  lemma SummaryCodeDecides(code: int, stations: Option<seq<Station>>, readsName: bool)
    requires code != SummaryOk
    ensures Classify(Received(SuccessStatus, Decoded(SynopticBody(Some(Summary(Some(code))), stations))), readsName)
            == NoStationMatched
  {
  }

  /**
   * Reading the station's NAME changes the verdict only for a matched reply
   * whose first station has none: then the lookup of NAME raises KeyError,
   * whatever the observations hold.
   */
  lemma NameOnlyMattersWhenMissing(reply: Fetch<SynopticBody>)
    ensures Matched(reply) && FirstStation(reply).name.Some? ==> Classify(reply, true) == Classify(reply, false)
    ensures !Matched(reply) ==> Classify(reply, true) == Classify(reply, false)
    ensures Matched(reply) && FirstStation(reply).name.None? ==> Classify(reply, true) == Failed(MissingKey("NAME"))
  {
  }

  /** The kind of failure each non-observed verdict stands for. */
  function KindOf(v: Verdict): ErrorKind
    requires !v.Observed?
  {
    match v
    case Rejected(_) => TransportFailure
    case Failed(_) => TransportFailure
    case NoStationMatched => NotFound
    case NoTemperature => NoTemperatureData
  }
}

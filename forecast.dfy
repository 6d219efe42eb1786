/**
 * Choosing the "evening" sample of a 5-day / 3-hour forecast and flattening
 * it into the weather record the rest of the job uses.
 *
 * The provider's JSON is taken as already parsed. A key that may be missing
 * is an `Option`; temperatures, wind speed and humidity are never computed
 * with, so they are kept as the text Python would print for them.
 */
module Forecast {
  import opened Wrappers
  import opened PyText

  /** A JSON number, kept as the text Python's `str()` gives for it. */
  datatype JsonNumber = JsonNumber(text: string)

  /** The `main` object of a forecast sample. */
  datatype Readings = Readings(temp: Option<JsonNumber>, feelsLike: Option<JsonNumber>, humidity: Option<JsonNumber>)

  /** One entry of a sample's `weather` array. */
  datatype Condition = Condition(description: Option<string>)

  /** The `wind` object of a forecast sample. */
  datatype Wind = Wind(speed: Option<JsonNumber>)

  /** One element of the forecast's `list`; `None` means the key is absent. */
  datatype Sample = Sample(
    dtTxt: Option<string>,
    main: Option<Readings>,
    weather: Option<seq<Condition>>,
    wind: Option<Wind>)

  /** The decoded forecast response; `list` is `None` when the key is absent. */
  datatype ForecastResponse = ForecastResponse(list: Option<seq<Sample>>)

  /** The flat record the job builds from the chosen sample. */
  datatype WeatherRecord = WeatherRecord(
    location: string,
    forecastTimeUtc: Option<string>,
    tempF: Option<JsonNumber>,
    feelsLikeF: Option<JsonNumber>,
    humidityPct: Option<JsonNumber>,
    conditions: Option<string>,
    windMph: Option<JsonNumber>)

  /** The Python exceptions the selection can raise. */
  datatype PyError =
    | KeyError(key: string)      // `data["list"]` with no "list" key
    | IndexError                 // `data["list"][0]` on an empty list
    | ValueError(literal: string) // `int()` of an hour field that is not a number

  /** `item.get("dt_txt", "")`. */
  function DtText(item: Sample): string {
    if item.dtTxt.Some? then item.dtTxt.value else ""
  }

  /** `data.get("list", [])`. */
  function Samples(data: ForecastResponse): seq<Sample> {
    if data.list.Some? then data.list.value else []
  }

  /** The hour as `int(dt_txt[11:13])` reads it, when the timestamp is long enough. */
  function HourOf(item: Sample): Option<int>
    requires |DtText(item)| >= 13
  {
    IntOfTwoChars(DtText(item)[11..13])
  }

  /** The loop takes this sample: its hour field reads as an hour from 0 to 7. */
  predicate IsEvening(item: Sample) {
    |DtText(item)| >= 13 && HourOf(item).Some? && 0 <= HourOf(item).value <= 7
  }

  /** The loop moves past this sample: the timestamp is short, or its hour is outside 0..7. */
  predicate IsPassedOver(item: Sample) {
    |DtText(item)| < 13 || (HourOf(item).Some? && !(0 <= HourOf(item).value <= 7))
  }

  /** The loop raises on this sample: `int()` rejects its hour field. */
  predicate HasBadHour(item: Sample) {
    |DtText(item)| >= 13 && HourOf(item).None?
  }

  predicate AllPassedOver(items: seq<Sample>, lo: nat, hi: nat)
    requires lo <= hi <= |items|
  {
    forall j | lo <= j < hi :: IsPassedOver(items[j])
  }

  /** How the scan of the list ends. */
  datatype ScanEnd = Picked(index: nat) | RanOut | Raised(index: nat)

  /** The scan from position `i` on, one sample at a time. */
  function ScanFrom(items: seq<Sample>, i: nat): (s: ScanEnd)
    requires i <= |items|
    ensures s.Picked? ==> i <= s.index < |items| && IsEvening(items[s.index])
    ensures s.Raised? ==> i <= s.index < |items| && HasBadHour(items[s.index])
    decreases |items| - i
  {
    if i == |items| then RanOut
    else if IsEvening(items[i]) then Picked(i)
    else if HasBadHour(items[i]) then Raised(i)
    else ScanFrom(items, i + 1)
  }

  function Scan(items: seq<Sample>): ScanEnd {
    ScanFrom(items, 0)
  }

  /**
   * The sample the job goes on with: the loop's pick, else `list[0]`. It is
   * always a sample of the list; with no list, `data["list"]` raises KeyError.
   */
  function Chosen(data: ForecastResponse): (r: Result<Sample, PyError>)
    ensures r.Success? ==> r.value in Samples(data) && (IsEvening(r.value) || r.value == Samples(data)[0])
    ensures data.list.None? ==> r.Failure?
    ensures r.Failure? && r.error.ValueError? ==> exists k | 0 <= k < |Samples(data)| :: HasBadHour(Samples(data)[k])
  {
    var items := Samples(data);
    match Scan(items)
    case Picked(i) => Success(items[i])
    case Raised(i) => Failure(ValueError(DtText(items[i])[11..13]))
    case RanOut =>
      if data.list.None? then Failure(KeyError("list"))
      else if |items| == 0 then Failure(IndexError)
      else Success(items[0])
  }

  /**
   * The record built from the chosen sample: a missing `main` or `wind`
   * object, or a missing or empty `weather` array, leaves its fields `None`.
   */
  function Flatten(location: string, item: Sample): (r: WeatherRecord)
    ensures r.location == location
    ensures r.forecastTimeUtc == item.dtTxt
    ensures item.main.None? ==> r.tempF.None? && r.feelsLikeF.None? && r.humidityPct.None?
    ensures item.main.Some? ==>
      r.tempF == item.main.value.temp && r.feelsLikeF == item.main.value.feelsLike
      && r.humidityPct == item.main.value.humidity
    ensures item.wind.None? ==> r.windMph.None?
    ensures item.wind.Some? ==> r.windMph == item.wind.value.speed
    ensures (item.weather.None? || item.weather == Some([])) ==> r.conditions.None?
    ensures item.weather.Some? && item.weather.value != [] ==> r.conditions == item.weather.value[0].description
  {
    var main := if item.main.Some? then item.main.value else Readings(None, None, None);
    var weather := if item.weather.Some? && item.weather.value != [] then item.weather.value[0] else Condition(None);
    var wind := if item.wind.Some? then item.wind.value else Wind(None);
    WeatherRecord(location, item.dtTxt, main.temp, main.feelsLike, main.humidity, weather.description, wind.speed)
  }

  /**
   * `get_evening_weather` on a decoded response: the flattened chosen sample,
   * or the error the choice raised.
   */
  function EveningWeather(location: string, data: ForecastResponse): (r: Result<WeatherRecord, PyError>)
    ensures r.Success? <==> Chosen(data).Success?
    ensures r.Success? ==> r.value.location == location && r.value.forecastTimeUtc == Chosen(data).value.dtTxt
  {
    match Chosen(data)
    case Success(item) => Success(Flatten(location, item))
    case Failure(e) => Failure(e)
  }

  /**
   * `get_evening_weather` once the response is decoded: walk the list until
   * a sample's hour field reads 0..7, otherwise fall back to the first sample,
   * and flatten the chosen sample.
   */
  method GetEveningWeather(location: string, data: ForecastResponse) returns (r: Result<WeatherRecord, PyError>)
    ensures r == EveningWeather(location, data)
    ensures r.Success? ==> r.value.location == location
  {
    var items := Samples(data);
    var chosen: Option<Sample> := None;
    var i := 0;
    while i < |items|
      invariant 0 <= i <= |items|
      invariant chosen.None? ==> ScanFrom(items, i) == Scan(items)
      invariant chosen.Some? ==> Scan(items) == Picked(i) && i < |items| && chosen.value == items[i]
    {
      var dtTxt := DtText(items[i]);
      if |dtTxt| >= 13 {
        var hour := IntOfTwoChars(dtTxt[11..13]);
        if hour.None? {
          return Failure(ValueError(dtTxt[11..13]));
        }
        if 0 <= hour.value <= 7 {
          chosen := Some(items[i]);
          break;
        }
      }
      i := i + 1;
    }
    if chosen.None? {
      if data.list.None? {
        return Failure(KeyError("list"));
      }
      if |items| == 0 {
        return Failure(IndexError);
      }
      chosen := Some(items[0]);
    }
    r := Success(Flatten(location, chosen.value));
  }

  // ---------------------------------------------------------------------------
  // What the selection promises
  // ---------------------------------------------------------------------------

  /** Each sample is taken, passed over, or raised on: exactly one of the three. */
  lemma SampleOutcomesExclusive(item: Sample)
    ensures IsEvening(item) || IsPassedOver(item) || HasBadHour(item)
    ensures !(IsEvening(item) && IsPassedOver(item))
    ensures !(IsEvening(item) && HasBadHour(item))
    ensures !(IsPassedOver(item) && HasBadHour(item))
  {
  }

  /** Passing over everything in `[i, k)` is passing over sample `i`, then everything in `[i + 1, k)`. */
  lemma PassedOverStep(items: seq<Sample>, i: nat)
    requires i < |items|
    ensures forall k | i < k <= |items| ::
      AllPassedOver(items, i, k) <==> IsPassedOver(items[i]) && AllPassedOver(items, i + 1, k)
  {
  }

  /** From position `i`, the scan picks `k` exactly when `k` qualifies and everything in `[i, k)` is passed over. */
  lemma {:induction false} ScanFromPicks(items: seq<Sample>, i: nat)
    requires i <= |items|
    ensures forall k | i <= k < |items| ::
      ScanFrom(items, i) == Picked(k) <==> IsEvening(items[k]) && AllPassedOver(items, i, k)
    decreases |items| - i
  {
    if i < |items| {
      ScanFromPicks(items, i + 1);
      SampleOutcomesExclusive(items[i]);
      PassedOverStep(items, i);
    }
  }

  /** From position `i`, the scan raises at `k` exactly when `int()` rejects `k`'s hour and everything in `[i, k)` is passed over. */
  lemma {:induction false} ScanFromRaises(items: seq<Sample>, i: nat)
    requires i <= |items|
    ensures forall k | i <= k < |items| ::
      ScanFrom(items, i) == Raised(k) <==> HasBadHour(items[k]) && AllPassedOver(items, i, k)
    decreases |items| - i
  {
    if i < |items| {
      ScanFromRaises(items, i + 1);
      SampleOutcomesExclusive(items[i]);
      PassedOverStep(items, i);
    }
  }

  /** From position `i`, the scan runs out exactly when everything from `i` on is passed over. */
  lemma {:induction false} ScanFromRunsOut(items: seq<Sample>, i: nat)
    requires i <= |items|
    ensures ScanFrom(items, i) == RanOut <==> AllPassedOver(items, i, |items|)
    decreases |items| - i
  {
    if i < |items| {
      ScanFromRunsOut(items, i + 1);
      SampleOutcomesExclusive(items[i]);
      PassedOverStep(items, i);
    }
  }

  /**
   * The loop's pick is the first sample whose hour field reads 0..7, and
   * every sample before it was passed over; it raises on the first
   * unreadable hour field before such a sample; it runs out only when every
   * sample is passed over.
   */
  lemma ScanCharacterized(items: seq<Sample>)
    ensures forall k | 0 <= k < |items| ::
      Scan(items) == Picked(k) <==> IsEvening(items[k]) && AllPassedOver(items, 0, k)
    ensures forall k | 0 <= k < |items| ::
      Scan(items) == Raised(k) <==> HasBadHour(items[k]) && AllPassedOver(items, 0, k)
    ensures Scan(items) == RanOut <==> AllPassedOver(items, 0, |items|)
  {
    ScanFromPicks(items, 0);
    ScanFromRaises(items, 0);
    ScanFromRunsOut(items, 0);
  }

  /** A sample with a missing or short `dt_txt` is never the loop's pick. */
  lemma ShortTimestampNeverPicked(items: seq<Sample>, k: nat)
    requires k < |items| && |DtText(items[k])| < 13
    ensures Scan(items) != Picked(k)
  {
    ScanCharacterized(items);
  }

  /** When some sample qualifies and none before it raises, the record comes from the first such sample. */
  lemma FirstEveningSampleUsed(location: string, data: ForecastResponse, k: nat)
    requires data.list.Some? && k < |data.list.value|
    requires IsEvening(data.list.value[k]) && AllPassedOver(data.list.value, 0, k)
    ensures EveningWeather(location, data) == Success(Flatten(location, data.list.value[k]))
    ensures EveningWeather(location, data).value.forecastTimeUtc == data.list.value[k].dtTxt
  {
    ScanCharacterized(data.list.value);
  }

  /** When no sample qualifies and none raises, the record comes from `list[0]`. */
  lemma FallBackToFirstSample(location: string, data: ForecastResponse)
    requires data.list.Some? && data.list.value != []
    requires AllPassedOver(data.list.value, 0, |data.list.value|)
    ensures EveningWeather(location, data) == Success(Flatten(location, data.list.value[0]))
  {
    ScanCharacterized(data.list.value);
  }

  /**
   * The selection fails exactly when the list is absent (KeyError), empty
   * (IndexError), or an hour field `int()` rejects comes before any
   * qualifying sample (ValueError).
   */
  lemma EveningWeatherFails(location: string, data: ForecastResponse)
    ensures data.list.None? ==> EveningWeather(location, data) == Failure(KeyError("list"))
    ensures data.list == Some([]) ==> EveningWeather(location, data) == Failure(IndexError)
    ensures EveningWeather(location, data).Failure? <==>
      Samples(data) == [] || exists k | 0 <= k < |Samples(data)| ::
        HasBadHour(Samples(data)[k]) && AllPassedOver(Samples(data), 0, k)
  {
    var items := Samples(data);
    ScanCharacterized(items);
    if Scan(items).Raised? {
      var k := Scan(items).index;
      assert HasBadHour(items[k]) && AllPassedOver(items, 0, k);
    }
  }

  /** Whatever sample is chosen, the record carries the location and that sample's timestamp unchanged. */
  lemma RecordComesFromChosenSample(location: string, data: ForecastResponse)
    requires EveningWeather(location, data).Success?
    ensures Chosen(data).Success?
    ensures EveningWeather(location, data).value.location == location
    ensures EveningWeather(location, data).value.forecastTimeUtc == Chosen(data).value.dtTxt
    ensures Chosen(data).value in Samples(data)
    ensures IsEvening(Chosen(data).value) || Chosen(data).value == Samples(data)[0]
  {
  }

  /**
   * For the provider's own timestamp layout "YYYY-MM-DD HH:MM:SS", the
   * sample qualifies exactly when its hour HH is at most 7.
   */
  lemma ProviderTimestampQualifies(item: Sample, date: string, hour: nat, rest: string)
    requires |date| == 10 && hour < 24
    requires item.dtTxt == Some(date + " " + TwoDigits(hour) + rest)
    ensures IsEvening(item) <==> hour <= 7
    ensures !HasBadHour(item)
  {
    var dt := date + " " + TwoDigits(hour) + rest;
    assert dt[11..13] == TwoDigits(hour);
    IntOfTwoDigits(hour);
  }
}

/**
 * The weather lookup: one GET of the Dark Sky forecast URL for a pair of
 * coordinates, and the extraction of `currently.temperature` and
 * `currently.summary` from the decoded response. A missing key anywhere in the
 * lookup becomes a WeatherError carrying the coordinates; every other failure
 * is passed on unchanged.
 *
 * The HTTP transport and the JSON decoding are a parameter `get`: the decoded
 * response for a URL, or the exception the call raised.
 */
module WeatherApi {
  import opened Wrappers
  import opened Texts
  import opened Values
  import opened Exceptions
  import opened DataStructures

  const ForecastBase: string := "https://api.darksky.net/forecast/"

  /** The endpoint for the current weather at `coords`, authenticated by `key`. */
  function ForecastUrl(key: string, coords: LocationCoords): (url: string)
    ensures HasAt(url, 0, ForecastBase)
  {
    var url := ForecastBase + key + "/" + coords.lat.text + "," + coords.long.text;
    assert url[..|ForecastBase|] == ForecastBase;
    url
  }

  /** Reads the key and the two coordinate texts back out of a forecast URL. */
  function ParseForecastUrl(url: string): Option<(string, string, string)>
  {
    if !HasAt(url, 0, ForecastBase) then None
    else
      var path := url[|ForecastBase|..];
      var key := TakeUntil(path, '/');
      if |key| == |path| then None
      else
        var place := path[|key| + 1..];
        var lat := TakeUntil(place, ',');
        if |lat| == |place| then None
        else Some((key, lat, place[|lat| + 1..]))
  }

  /** A key without '/' and a latitude without ',' can be read back from the URL. */
  lemma ForecastUrlRoundTrip(key: string, coords: LocationCoords)
    requires '/' !in key && ',' !in coords.lat.text
    ensures ParseForecastUrl(ForecastUrl(key, coords)) == Some((key, coords.lat.text, coords.long.text))
  {
    var lat, long := coords.lat.text, coords.long.text;
    var place := lat + [','] + long;
    var path := key + ['/'] + place;
    var url := ForecastUrl(key, coords);
    assert url == ForecastBase + path;
    assert url[|ForecastBase|..] == path;
    TakeUntilFirst(key, '/', place);
    assert path[|key| + 1..] == place;
    TakeUntilFirst(lat, ',', long);
    assert place[|lat| + 1..] == long;
  }

  /** Distinct coordinates are fetched from distinct URLs. */
  lemma ForecastUrlInjective(key: string, a: LocationCoords, b: LocationCoords)
    requires '/' !in key && ',' !in a.lat.text && ',' !in b.lat.text
    ensures ForecastUrl(key, a) == ForecastUrl(key, b) <==> a == b
  {
    ForecastUrlRoundTrip(key, a);
    ForecastUrlRoundTrip(key, b);
  }

  /** The pair the lookup extracts: `currently.temperature` and `currently.summary`. */
  datatype CurrentWeather = CurrentWeather(temperature: Value, description: Value)

  /** `v[key]` as a Python call: the entry, or the KeyError or TypeError it raises. */
  function Lookup(v: Value, key: string): (r: Outcome<Value>)
    ensures r.Returned? <==> v.Dict? && key in v.entries
    ensures r.Returned? ==> r.value == v.entries[key]
    ensures r.Raised? ==> (r.exc == Foreign(KeyError) <==> v.Dict?)
    ensures r.Raised? && !v.Dict? ==> r.exc == Foreign(TypeError)
  {
    match Subscript(v, key)
    case Found(x) => Returned(x)
    case MissingKey => Raised(Foreign(KeyError))
    case NotSubscriptable => Raised(Foreign(TypeError))
  }

  /** The response carries a `currently` object with both keys the lookup reads. */
  predicate HasCurrentWeather(response: Value)
  {
    && response.Dict? && "currently" in response.entries
    && response.entries["currently"].Dict?
    && "temperature" in response.entries["currently"].entries
    && "summary" in response.entries["currently"].entries
  }

  /** The body of the `try`: `weather['currently']['temperature']`, then `weather['currently']['summary']`. */
  function ReadCurrently(response: Value): (r: Outcome<CurrentWeather>)
    ensures r.Returned? <==> HasCurrentWeather(response)
    ensures r.Returned? ==>
      var now := response.entries["currently"].entries;
      r.value == CurrentWeather(now["temperature"], now["summary"])
    ensures r.Raised? ==> r.exc == Foreign(KeyError) || r.exc == Foreign(TypeError)
  {
    match Lookup(response, "currently")
    case Raised(x) => Raised(x)
    case Returned(now) =>
      match Lookup(now, "temperature")
      case Raised(x) => Raised(x)
      case Returned(temperature) =>
        match Lookup(now, "summary")
        case Raised(x) => Raised(x)
        case Returned(description) => Returned(CurrentWeather(temperature, description))
  }

  /** The one WeatherError the lookup raises: its message names the coordinates, its data is them. */
  function NoWeatherFor(coords: LocationCoords): (e: Error)
    ensures e.kind == WeatherError && e.data == CoordsValue(coords)
    ensures e.message == "Could not find weather for: " + CoordsText(coords)
    ensures HasAt(e.message, 0, "Could not find weather for: ")
  {
    var prefix := "Could not find weather for: ";
    var e := NewError(WeatherError, prefix + CoordsText(coords), CoordsValue(coords));
    assert e.message[..|prefix|] == prefix;
    e
  }

  /** The `try` block, up to the point where line 23 builds the result. */
  function Attempt(key: string, coords: LocationCoords, get: string -> Outcome<Value>): (r: Outcome<CurrentWeather>)
    ensures r.Returned? <==> get(ForecastUrl(key, coords)).Returned? && HasCurrentWeather(get(ForecastUrl(key, coords)).value)
    ensures get(ForecastUrl(key, coords)).Raised? ==> r == Raised(get(ForecastUrl(key, coords)).exc)
    ensures r.Raised? && get(ForecastUrl(key, coords)).Returned? ==> r.exc == Foreign(KeyError) || r.exc == Foreign(TypeError)
  {
    match get(ForecastUrl(key, coords))
    case Raised(x) => Raised(x)
    case Returned(response) => ReadCurrently(response)
  }

  /** `except KeyError:` turns a KeyError into the WeatherError and lets everything else through. */
  function Translate<T>(attempt: Outcome<T>, coords: LocationCoords): (r: Outcome<T>)
    ensures r.Raised? ==> !IsKeyError(r.exc)
  {
    if attempt.Raised? && IsKeyError(attempt.exc) then Raised(App(NoWeatherFor(coords))) else attempt
  }

  /**
   * `get_weather(coords)` as intended: the extracted pair, the WeatherError for
   * a missing key, or whatever else the GET raised.
   */
  function GetWeather(key: string, coords: LocationCoords, get: string -> Outcome<Value>): (r: Outcome<CurrentWeather>)
    ensures r.Raised? ==> !IsKeyError(r.exc)
    ensures r.Raised? && r.exc.App? ==> r.exc.error == NoWeatherFor(coords) || get(ForecastUrl(key, coords)) == Raised(r.exc)
  {
    Translate(Attempt(key, coords, get), coords)
  }

  /** Success is exactly a response with both keys, and the pair is read from `currently`. */
  lemma GetWeatherSucceeds(key: string, coords: LocationCoords, get: string -> Outcome<Value>)
    ensures GetWeather(key, coords, get).Returned? <==>
      get(ForecastUrl(key, coords)).Returned? && HasCurrentWeather(get(ForecastUrl(key, coords)).value)
    ensures GetWeather(key, coords, get).Returned? ==>
      var now := get(ForecastUrl(key, coords)).value.entries["currently"].entries;
      GetWeather(key, coords, get).value == CurrentWeather(now["temperature"], now["summary"])
  {
  }

  /** A dictionary response without `currently`, or a `currently` object without either key, is a WeatherError. */
  lemma MissingKeyIsWeatherError(key: string, coords: LocationCoords, get: string -> Outcome<Value>)
    requires get(ForecastUrl(key, coords)).Returned?
    requires var response := get(ForecastUrl(key, coords)).value;
      response.Dict? &&
      ("currently" !in response.entries ||
       (response.entries["currently"].Dict? &&
        ("temperature" !in response.entries["currently"].entries ||
         "summary" !in response.entries["currently"].entries)))
    ensures GetWeather(key, coords, get) == Raised(App(NoWeatherFor(coords)))
  {
  }

  /** The empty response `{}` is a WeatherError whose data is the coordinates. */
  lemma EmptyResponseIsWeatherError(key: string, coords: LocationCoords, get: string -> Outcome<Value>)
    requires get(ForecastUrl(key, coords)) == Returned(Dict(map[]))
    ensures GetWeather(key, coords, get).Raised?
    ensures GetWeather(key, coords, get).exc.App?
    ensures GetWeather(key, coords, get).exc.error.kind == WeatherError
    ensures GetWeather(key, coords, get).exc.error.data == CoordsValue(coords)
  {
    MissingKeyIsWeatherError(key, coords, get);
  }

  /** A KeyError raised by the call itself is caught as well; any other exception propagates unchanged. */
  lemma RaisedByGet(key: string, coords: LocationCoords, get: string -> Outcome<Value>)
    requires get(ForecastUrl(key, coords)).Raised?
    ensures IsKeyError(get(ForecastUrl(key, coords)).exc) ==>
      GetWeather(key, coords, get) == Raised(App(NoWeatherFor(coords)))
    ensures !IsKeyError(get(ForecastUrl(key, coords)).exc) ==>
      GetWeather(key, coords, get) == Raised(get(ForecastUrl(key, coords)).exc)
  {
  }

  /** A response that cannot be subscripted by a string, or a non-dict `currently`, raises TypeError, which is not caught. */
  lemma WrongShapeIsTypeError(key: string, coords: LocationCoords, get: string -> Outcome<Value>)
    requires get(ForecastUrl(key, coords)).Returned?
    requires var response := get(ForecastUrl(key, coords)).value;
      !response.Dict? || ("currently" in response.entries && !response.entries["currently"].Dict?)
    ensures GetWeather(key, coords, get) == Raised(Foreign(TypeError))
  {
  }

  /** Only the forecast URL for these coordinates is consulted: fetches that agree there give the same outcome. */
  lemma OnlyForecastUrlIsFetched(key: string, coords: LocationCoords, get1: string -> Outcome<Value>, get2: string -> Outcome<Value>)
    requires get1(ForecastUrl(key, coords)) == get2(ForecastUrl(key, coords))
    ensures GetWeather(key, coords, get1) == GetWeather(key, coords, get2)
  {
  }

  /**
   * `get_weather(coords)` exactly as written: line 23 builds the result as
   * `Weather(temperature=..., description=...)`, keywords the four-field
   * NamedTuple does not accept, so every fetch that gets that far raises TypeError.
   */
  function GetWeatherAsWritten(key: string, coords: LocationCoords, get: string -> Outcome<Value>): (r: Outcome<Weather>)
    ensures r.Raised? ==> !IsKeyError(r.exc)
  {
    match Translate(Attempt(key, coords, get), coords)
    case Raised(x) => Raised(x)
    case Returned(now) =>
      match FromKeywords(map["temperature" := now.temperature, "description" := now.description])
      case Some(w) => Returned(w)
      case None => Raised(Foreign(TypeError))
  }

  /** The as-written lookup never returns: a good response raises TypeError instead of giving the weather. */
  lemma AsWrittenNeverReturns(key: string, coords: LocationCoords, get: string -> Outcome<Value>)
    ensures !GetWeatherAsWritten(key, coords, get).Returned?
    ensures GetWeather(key, coords, get).Returned? ==> GetWeatherAsWritten(key, coords, get) == Raised(Foreign(TypeError))
  {
    if GetWeather(key, coords, get).Returned? {
      var now := GetWeather(key, coords, get).value;
      var kw := map["temperature" := now.temperature, "description" := now.description];
      assert "temperature" in kw && "temperature" !in WeatherFields;
    }
  }
}

/**
 * The chat messages the server sends back: a template chosen from the message
 * kind's pool and rendered once, at construction, with the message's context;
 * the JSON envelope that carries the rendered text; and the weather report's
 * pipeline, which parses the query, geocodes it and fetches the weather before
 * anything is rendered.
 *
 * The template engine is the parameter `render`; the geocoder and the HTTP
 * fetch are fields of `Services`.
 */
module Models {
  import opened Wrappers
  import opened Values
  import opened Exceptions
  import opened DataStructures
  import opened Phrases
  import opened PhrasesProperties
  import opened WeatherApi
  import opened Templates

  /** The template engine: renders a template string with the variables of a context. */
  type Renderer = (string, map<string, Value>) -> string

  datatype MessageKind =
    | BaseMessage
    | Greeting
    | WeatherReport
    | ParseErrorMessage
    | LocationErrorMessage
    | WeatherErrorMessage

  /** Each kind's `TEMPLATE_CHOICES`. */
  function TemplateChoices(kind: MessageKind): (r: seq<string>)
    ensures |r| > 0
  {
    match kind
    case BaseMessage => [""]
    case Greeting => Greetings
    case WeatherReport => WeatherReports
    case ParseErrorMessage => ParseErrors
    case LocationErrorMessage => LocationErrors
    case WeatherErrorMessage => WeatherErrors
  }

  /** `{'messages': [{'type': 'text', 'text': text}]}`. */
  function Envelope(text: string): (v: Value)
    ensures EnvelopeText(v) == Some(text)
  {
    Dict(map["messages" := List([Dict(map["type" := Str("text"), "text" := Str(text)])])])
  }

  /** The text of a response that is exactly one text message, or None for any other value. */
  function EnvelopeText(v: Value): Option<string>
  {
    if v.Dict? && v.entries.Keys == {"messages"} && v.entries["messages"].List?
       && |v.entries["messages"].items| == 1
    then
      var m := v.entries["messages"].items[0];
      if m.Dict? && m.entries.Keys == {"type", "text"} && m.entries["type"] == Str("text")
         && m.entries["text"].Str?
      then Some(m.entries["text"].s)
      else None
    else None
  }

  /** A value is the envelope of `text` exactly when `text` is what it carries. */
  lemma EnvelopeRoundTrip(v: Value, text: string)
    ensures EnvelopeText(v) == Some(text) <==> v == Envelope(text)
  {
    if EnvelopeText(v) == Some(text) {
      var m := v.entries["messages"].items[0];
      assert m.entries == map["type" := Str("text"), "text" := Str(text)];
      assert v.entries["messages"].items == [m];
      assert v.entries == map["messages" := List([m])];
    }
  }

  /** A chat message: its context, the template drawn from its pool, and the body rendered from the two. */
  class Message {
    const context: map<string, Value>
    const template: string
    const body: string
    const render: Renderer

    /** The body is the template rendered with the context. */
    predicate Valid()
    {
      body == render(template, context)
    }

    /** `__init__`: store the context, draw a template at random from the pool, render the body. */
    constructor (choices: seq<string>, formBody: map<string, Value>, render: Renderer)
      requires |choices| > 0
      ensures Valid()
      ensures this.context == formBody && this.template in choices && this.render == render
    {
      this.context := formBody;
      assert choices[0] in choices;
      var t :| t in choices;
      this.template := t;
      this.render := render;
      this.body := render(t, formBody);
    }

    /** `render_body()` gives the body fixed at construction. */
    function RenderBody(): (r: string)
      requires Valid()
      ensures r == body
      ensures r == render(template, context)
    {
      render(template, context)
    }

    /** `as_json()`: the body as the single text message of a response. */
    function AsJson(): (v: Value)
      ensures EnvelopeText(v) == Some(body)
    {
      Envelope(body)
    }
  }

  /** `request.form.to_dict()` as a template context: every field, as a string. */
  function FormContext(form: map<string, string>): (ctx: map<string, Value>)
    ensures ctx.Keys == form.Keys
    ensures forall key :: key in form ==> ctx[key] == Str(form[key])
  {
    map key | key in form :: Str(form[key])
  }

  // The weather report's pipeline.

  /** The outside services: the geocoder, the HTTP fetch, and the weather service's key. */
  datatype Services = Services(geocode: string -> Outcome<Value>, fetch: string -> Outcome<Value>, darkSkyKey: string)

  /** `parse_location(form_body)`: the location the query phrases extract from the `text` field. */
  function ParseLocation(form: map<string, string>): (r: Outcome<string>)
    ensures "text" !in form ==> r == Raised(Foreign(KeyError))
    ensures "text" in form ==> (r.Returned? <==> ParseQuery(form["text"]).Some?)
    ensures r.Returned? ==> Some(r.value) == ParseQuery(form["text"])
    ensures r.Raised? && r.exc.App? ==> r.exc.error.kind == ParseError && r.exc.error.data == Str(form["text"])
    ensures "text" in form && ParseQuery(form["text"]).None? ==>
      r.Raised? && r.exc.App? && r.exc.error.kind == ParseError && r.exc.error.data == Str(form["text"])
  {
    if "text" !in form then Raised(Foreign(KeyError))
    else
      match ParseQuery(form["text"])
      case Some(location) => Returned(location)
      case None => Raised(App(NewError(ParseError, "Could not parse location from: " + form["text"], Str(form["text"]))))
  }

  /** The text "asdf" is refused with the ParseError that carries it. */
  lemma AsdfIsParseError()
    ensures ParseLocation(map["text" := "asdf"]).Raised?
    ensures ParseLocation(map["text" := "asdf"]).exc.App?
    ensures ParseLocation(map["text" := "asdf"]).exc.error.kind == ParseError
    ensures ParseLocation(map["text" := "asdf"]).exc.error.data == Str("asdf")
  {
    AsdfMatchesNothing();
  }

  /** A geocoding candidate whose `geometry.location` has these `lat` and `lng`; any other keys may be present. */
  predicate LocatedAt(candidate: Value, lat: Float, lng: Float)
  {
    && candidate.Dict? && "geometry" in candidate.entries
    && candidate.entries["geometry"].Dict? && "location" in candidate.entries["geometry"].entries
    && var location := candidate.entries["geometry"].entries["location"];
       && location.Dict? && "lat" in location.entries && "lng" in location.entries
       && location.entries["lat"] == Number(lat) && location.entries["lng"] == Number(lng)
  }

  /** `'lat'`/`'lng'` of a geocoding candidate's `geometry.location`. */
  function CandidateCoords(candidate: Value): (r: Outcome<LocationCoords>)
    ensures r.Returned? ==> LocatedAt(candidate, r.value.lat, r.value.long)
    ensures forall lat, lng :: LocatedAt(candidate, lat, lng) ==> r == Returned(LocationCoords(lat, lng))
    ensures r.Raised? ==> r.exc == Foreign(KeyError) || r.exc == Foreign(TypeError)
  {
    match Lookup(candidate, "geometry")
    case Raised(x) => Raised(x)
    case Returned(geometry) =>
      match Lookup(geometry, "location")
      case Raised(x) => Raised(x)
      case Returned(location) =>
        match Lookup(location, "lat")
        case Raised(x) => Raised(x)
        case Returned(lat) =>
          match Lookup(location, "lng")
          case Raised(x) => Raised(x)
          case Returned(lng) =>
            if lat.Number? && lng.Number? then Returned(LocationCoords(lat.n, lng.n))
            else Raised(Foreign(TypeError))
  }

  /** The LocationError for a query the geocoder knows nothing about; its data is the query. */
  function UnknownLocation(query: string): (e: Error)
    ensures e.kind == LocationError && e.data == Str(query)
  {
    NewError(LocationError, "Could not find location: " + query, Str(query))
  }

  /** `get_location(query)`: the coordinates of the geocoder's first candidate for the query. */
  function GetLocation(query: string, geocode: string -> Outcome<Value>): (r: Outcome<LocationCoords>)
    ensures r.Raised? && r.exc.App? ==> r.exc.error == UnknownLocation(query) || geocode(query) == Raised(r.exc)
  {
    match geocode(query)
    case Raised(x) => Raised(x)
    case Returned(candidates) =>
      if !candidates.List? then Raised(Foreign(TypeError))
      else if candidates.items == [] then Raised(App(UnknownLocation(query)))
      else CandidateCoords(candidates.items[0])
  }

  /** A geocoding candidate with these coordinates, as the geocoder returns it. */
  function Candidate(lat: Float, lng: Float): Value
  {
    Dict(map["geometry" := Dict(map["location" := Dict(map["lat" := Number(lat), "lng" := Number(lng)])])])
  }

  /** The first candidate's `geometry.location` becomes the coordinates; later candidates are ignored. */
  lemma FirstCandidateWins(query: string, geocode: string -> Outcome<Value>, candidates: seq<Value>, lat: Float, lng: Float)
    requires geocode(query) == Returned(List(candidates))
    requires |candidates| > 0 && LocatedAt(candidates[0], lat, lng)
    ensures GetLocation(query, geocode) == Returned(LocationCoords(lat, lng))
  {
  }

  /** The lookup succeeds with `c` exactly when the geocoder's first candidate is located at `c`. */
  lemma GetLocationSucceeds(query: string, geocode: string -> Outcome<Value>, c: LocationCoords)
    ensures GetLocation(query, geocode) == Returned(c) <==>
      && geocode(query).Returned? && geocode(query).value.List? && geocode(query).value.items != []
      && LocatedAt(geocode(query).value.items[0], c.lat, c.long)
  {
  }

  /** The test's geocoder answer, one candidate with `lat` and `lng`, gives those coordinates. */
  lemma TestCandidateIsLocated(query: string, geocode: string -> Outcome<Value>, lat: Float, lng: Float)
    requires geocode(query) == Returned(List([Candidate(lat, lng)]))
    ensures GetLocation(query, geocode) == Returned(LocationCoords(lat, lng))
  {
    assert LocatedAt(Candidate(lat, lng), lat, lng);
    FirstCandidateWins(query, geocode, [Candidate(lat, lng)], lat, lng);
  }

  /** No candidates is a LocationError whose data is the query. */
  lemma NoCandidatesIsLocationError(query: string, geocode: string -> Outcome<Value>)
    requires geocode(query) == Returned(List([]))
    ensures GetLocation(query, geocode).Raised?
    ensures GetLocation(query, geocode).exc == App(UnknownLocation(query))
    ensures GetLocation(query, geocode).exc.error.kind == LocationError
  {
  }

  /** The query is passed to the geocoder unchanged, and nothing else is asked of it. */
  lemma OnlyTheQueryIsGeocoded(query: string, g1: string -> Outcome<Value>, g2: string -> Outcome<Value>)
    requires g1(query) == g2(query)
    ensures GetLocation(query, g1) == GetLocation(query, g2)
  {
  }

  /** `get_current_weather(coords)`: the weather lookup for exactly these coordinates. */
  function GetCurrentWeather(coords: LocationCoords, services: Services): (r: Outcome<CurrentWeather>)
    ensures r.Raised? && r.exc.App? ==>
      r.exc.error == NoWeatherFor(coords) || services.fetch(ForecastUrl(services.darkSkyKey, coords)) == Raised(r.exc)
  {
    GetWeather(services.darkSkyKey, coords, services.fetch)
  }

  /** The coordinates are forwarded unchanged: the lookup for them is the one `get_weather` does. */
  lemma CurrentWeatherForwardsCoordinates(coords: LocationCoords, services: Services, get: string -> Outcome<Value>)
    requires get(ForecastUrl(services.darkSkyKey, coords)) == services.fetch(ForecastUrl(services.darkSkyKey, coords))
    ensures GetCurrentWeather(coords, services) == GetWeather(services.darkSkyKey, coords, get)
  {
    OnlyForecastUrlIsFetched(services.darkSkyKey, coords, services.fetch, get);
  }

  /** The weather report's context: the two values the lookup extracts. */
  function WeatherContext(w: CurrentWeather): (ctx: map<string, Value>)
    ensures ctx.Keys == {"temperature", "description"}
    ensures ctx["temperature"] == w.temperature && ctx["description"] == w.description
  {
    map["temperature" := w.temperature, "description" := w.description]
  }

  /** The context of the weather report, or the exception of the first stage that raised. */
  function ForecastContext(form: map<string, string>, services: Services): (r: Outcome<map<string, Value>>)
    ensures ParseLocation(form).Raised? ==> r == Raised(ParseLocation(form).exc)
    ensures r.Returned? ==> "text" in form && ParseQuery(form["text"]).Some?
    ensures r.Returned? ==> r.value.Keys == {"temperature", "description"}
  {
    match ParseLocation(form)
    case Raised(x) => Raised(x)
    case Returned(location) =>
      match GetLocation(location, services.geocode)
      case Raised(x) => Raised(x)
      case Returned(coords) =>
        match GetCurrentWeather(coords, services)
        case Raised(x) => Raised(x)
        case Returned(w) => Returned(WeatherContext(w))
  }

  /** A ParseError stops the pipeline before the geocoder is asked anything. */
  lemma ParseFailureStopsPipeline(form: map<string, string>, s1: Services, s2: Services)
    requires ParseLocation(form).Raised?
    ensures ForecastContext(form, s1) == ForecastContext(form, s2) == Raised(ParseLocation(form).exc)
  {
  }

  /** The stages run in order, each fed the previous one's result; success is all three succeeding. */
  lemma PipelineStages(form: map<string, string>, services: Services)
    ensures ForecastContext(form, services).Returned? <==>
      && ParseLocation(form).Returned?
      && GetLocation(ParseLocation(form).value, services.geocode).Returned?
      && GetCurrentWeather(GetLocation(ParseLocation(form).value, services.geocode).value, services).Returned?
    ensures ForecastContext(form, services).Returned? ==>
      ForecastContext(form, services).value ==
        WeatherContext(GetCurrentWeather(GetLocation(ParseLocation(form).value, services.geocode).value, services).value)
  {
  }

  /** The services raise nothing but foreign exceptions: no error of this program's own comes from outside. */
  ghost predicate ForeignFailuresOnly(services: Services)
  {
    && (forall q :: services.geocode(q).Raised? ==> services.geocode(q).exc.Foreign?)
    && (forall u :: services.fetch(u).Raised? ==> services.fetch(u).exc.Foreign?)
  }

  /** Which stage raised which error: a ParseError carries the text, a LocationError the location, a WeatherError the coordinates. */
  lemma PipelineErrors(form: map<string, string>, services: Services, e: Error)
    requires ForeignFailuresOnly(services)
    requires ForecastContext(form, services) == Raised(App(e))
    ensures e.kind != BaseError
    ensures e.kind == ParseError ==> "text" in form && e.data == Str(form["text"]) && ParseQuery(form["text"]).None?
    ensures e.kind == LocationError ==> exists location :: e == UnknownLocation(location)
    ensures e.kind == WeatherError ==> exists coords :: e == NoWeatherFor(coords)
  {
    var p := ParseLocation(form);
    if p.Returned? {
      var g := GetLocation(p.value, services.geocode);
      if g.Returned? {
        assert e == NoWeatherFor(g.value);
      } else {
        assert e == UnknownLocation(p.value);
      }
    }
  }

  /** `WeatherReport(form)`: the pipeline, then a message over its result; nothing is built when a stage raises. */
  method NewWeatherReport(form: map<string, string>, services: Services, render: Renderer) returns (r: Outcome<Message>)
    ensures r.Returned? <==> ForecastContext(form, services).Returned?
    ensures r.Raised? ==> r.exc == ForecastContext(form, services).exc
    ensures r.Returned? ==>
      && fresh(r.value) && r.value.Valid()
      && r.value.context == ForecastContext(form, services).value
      && r.value.template in WeatherReports && r.value.render == render
  {
    match ForecastContext(form, services)
    case Raised(x) =>
      r := Raised(x);
    case Returned(ctx) =>
      var m := new Message(TemplateChoices(WeatherReport), ctx, render);
      r := Returned(m);
  }

  // What the messages' contexts supply to their templates.

  /** An error message's context, `{'data': e.data}`, supplies every location-error template. */
  lemma ErrorContextSuppliesLocationErrors(e: Error, k: nat)
    requires k < |LocationErrors|
    ensures Supplies(GetContext(e), LocationErrors[k])
  {
    LocationErrorsNeedData(GetContext(e), k);
  }

  /** The WeatherError's data are coordinates, so its context supplies `data.lat` and `data.long`. */
  lemma NoWeatherContextSuppliesWeatherErrors(coords: LocationCoords, k: nat)
    requires k < |WeatherErrors|
    ensures Supplies(GetContext(NoWeatherFor(coords)), WeatherErrors[k])
  {
    WeatherErrorsNeedCoordinates(GetContext(NoWeatherFor(coords)), k);
  }

  /**
   * The weather report's context has only `temperature` and `description`,
   * while the report template asks for the four Weather fields: `time`,
   * `low_temperature` and `high_temperature` are not supplied.
   */
  lemma WeatherContextLacksReportFields(w: CurrentWeather, k: nat)
    requires k < |WeatherReports|
    ensures !Supplies(WeatherContext(w), WeatherReports[k])
    ensures "time" !in WeatherContext(w)
  {
    WeatherReportsNeedWeatherFields(WeatherContext(w), k);
    assert "time" in WeatherFields;
  }
}

/**
 * The webhook's one route: read the chat form, answer a `join` with a greeting
 * and a `message` with a weather report, turn each of the three typed errors of
 * the weather report into its own error message, and refuse every other form.
 *
 * The form is the request's fields as a map; routing, CORS and the HTTP
 * response object are not modelled.
 */
module App {
  import opened Wrappers
  import opened Values
  import opened Exceptions
  import opened DataStructures
  import opened WeatherApi
  import opened Templates
  import opened Models

  /** What a request leads to: a message of some kind over a context, a 400, or an exception nobody catches. */
  datatype Handled =
    | Respond(kind: MessageKind, context: map<string, Value>)
    | BadRequest
    | Uncaught(exc: Exception)

  /** `request.form.get('action')`. */
  function Action(form: map<string, string>): Option<string>
  {
    if "action" in form then Some(form["action"]) else None
  }

  predicate IsJoin(form: map<string, string>)
  {
    Action(form) == Some("join") && "name" in form
  }

  predicate IsMessage(form: map<string, string>)
  {
    Action(form) == Some("message") && "text" in form
  }

  /** The `except` clauses: the message kind each typed error is answered with, if any. */
  function ErrorMessageKind(kind: ErrorKind): (r: Option<MessageKind>)
    ensures r.None? <==> kind == BaseError
  {
    match kind
    case ParseError => Some(ParseErrorMessage)
    case LocationError => Some(LocationErrorMessage)
    case WeatherError => Some(WeatherErrorMessage)
    case BaseError => None
  }

  /** `dispatch()`: which message answers the form, and over which context. */
  function Dispatch(form: map<string, string>, services: Services): (r: Handled)
    ensures r.Respond? && r.kind == Greeting ==> IsJoin(form)
    ensures r.Respond? && r.kind != Greeting ==> IsMessage(form)
  {
    if IsJoin(form) then Respond(Greeting, FormContext(form))
    else if IsMessage(form) then
      match ForecastContext(form, services)
      case Returned(ctx) => Respond(WeatherReport, ctx)
      case Raised(App(e)) =>
        (match ErrorMessageKind(e.kind)
         case Some(kind) => Respond(kind, GetContext(e))
         case None => Uncaught(App(e)))
      case Raised(x) => Uncaught(x)
    else BadRequest
  }

  /** The HTTP outcome: a JSON body, a 400, or an uncaught exception. */
  datatype Response = Json(body: Value) | Status400 | Error500(exc: Exception)

  /** `dispatch()` with the message built and serialised: the JSON of one template of the kind's pool, rendered with the context. */
  method Handle(form: map<string, string>, services: Services, render: Renderer) returns (r: Response)
    ensures Dispatch(form, services).Respond? ==>
      var d := Dispatch(form, services);
      r.Json? && exists t :: t in TemplateChoices(d.kind) && r.body == Envelope(render(t, d.context))
    ensures Dispatch(form, services) == BadRequest <==> r == Status400
    ensures Dispatch(form, services).Uncaught? <==> r.Error500?
    ensures r.Error500? ==> r.exc == Dispatch(form, services).exc
  {
    match Dispatch(form, services)
    case Respond(kind, ctx) =>
      var m: Message;
      if kind == WeatherReport {
        // The report is the message `WeatherReport(form)` builds.
        assert IsMessage(form) && ForecastContext(form, services) == Returned(ctx);
        var report := NewWeatherReport(form, services, render);
        m := report.value;
      } else {
        m := new Message(TemplateChoices(kind), ctx, render);
      }
      r := Json(m.AsJson());
      assert m.template in TemplateChoices(kind) && r.body == Envelope(render(m.template, ctx));
    case BadRequest =>
      r := Status400;
    case Uncaught(x) =>
      r := Error500(x);
  }

  // The cases of `dispatch()`.

  /** A `join` with a name is greeted, with the whole form as the greeting's context. */
  lemma JoinIsGreeted(form: map<string, string>, services: Services)
    requires IsJoin(form)
    ensures Dispatch(form, services) == Respond(Greeting, FormContext(form))
  {
  }

  /** Any form that is neither a `join` with a name nor a `message` with a text is a bad request. */
  lemma BadRequestCases(form: map<string, string>, services: Services)
    ensures Dispatch(form, services) == BadRequest <==> !IsJoin(form) && !IsMessage(form)
  {
  }

  /** The two accepted forms never overlap, so the greeting branch never hides a weather report. */
  lemma JoinAndMessageExclude(form: map<string, string>)
    ensures !(IsJoin(form) && IsMessage(form))
  {
  }

  /** A `message` is answered by the weather report, or by the error message of the typed error its pipeline raised. */
  lemma MessageCases(form: map<string, string>, services: Services)
    requires IsMessage(form)
    ensures ForecastContext(form, services).Returned? ==>
      Dispatch(form, services) == Respond(WeatherReport, ForecastContext(form, services).value)
    ensures forall e :: ForecastContext(form, services) == Raised(App(e)) && e.kind == ParseError ==>
      Dispatch(form, services) == Respond(ParseErrorMessage, map["data" := e.data])
    ensures forall e :: ForecastContext(form, services) == Raised(App(e)) && e.kind == LocationError ==>
      Dispatch(form, services) == Respond(LocationErrorMessage, map["data" := e.data])
    ensures forall e :: ForecastContext(form, services) == Raised(App(e)) && e.kind == WeatherError ==>
      Dispatch(form, services) == Respond(WeatherErrorMessage, map["data" := e.data])
  {
    assert !IsJoin(form);
  }

  /** Only a `message` whose pipeline raises a plain Error or a foreign exception leaves an exception uncaught. */
  lemma UncaughtCases(form: map<string, string>, services: Services)
    ensures Dispatch(form, services).Uncaught? <==>
      IsMessage(form) && ForecastContext(form, services).Raised?
      && (ForecastContext(form, services).exc.Foreign? || ForecastContext(form, services).exc.error.kind == BaseError)
    ensures Dispatch(form, services).Uncaught? ==> Dispatch(form, services).exc == ForecastContext(form, services).exc
  {
  }

  /** The form of the bad-request test, `{'bad': 'data'}`, is refused. */
  lemma FormWithoutActionIsBadRequest(services: Services)
    ensures Dispatch(map["bad" := "data"], services) == BadRequest
  {
    BadRequestCases(map["bad" := "data"], services);
  }

  // The contexts dispatch hands over supply what the chosen templates refer to.

  /** A greeting's context has the `name` every template of the greeting pool uses. */
  lemma GreetingContextSuppliesGreetings(form: map<string, string>, services: Services, k: nat)
    requires Dispatch(form, services).Respond? && Dispatch(form, services).kind == Greeting
    requires k < |TemplateChoices(Greeting)|
    ensures Supplies(Dispatch(form, services).context, TemplateChoices(Greeting)[k])
  {
    GreetingsNeedName(Dispatch(form, services).context, k);
  }

  /**
   * When the services raise only foreign exceptions, every error message's
   * context supplies every template of its pool.
   */
  lemma ErrorContextsSupplyTheirTemplates(form: map<string, string>, services: Services, k: nat)
    requires ForeignFailuresOnly(services)
    requires Dispatch(form, services).Respond?
    requires Dispatch(form, services).kind in {ParseErrorMessage, LocationErrorMessage, WeatherErrorMessage}
    requires k < |TemplateChoices(Dispatch(form, services).kind)|
    ensures Supplies(Dispatch(form, services).context, TemplateChoices(Dispatch(form, services).kind)[k])
  {
    var d := Dispatch(form, services);
    var e := ForecastContext(form, services).exc.error;
    assert ForecastContext(form, services) == Raised(App(e)) && d.context == GetContext(e);
    PipelineErrors(form, services, e);
    if d.kind == ParseErrorMessage {
      ParseErrorsNeedNothing(d.context, k);
    } else if d.kind == LocationErrorMessage {
      ErrorContextSuppliesLocationErrors(e, k);
    } else {
      var coords :| e == NoWeatherFor(coords);
      NoWeatherContextSuppliesWeatherErrors(coords, k);
    }
  }
}

# Weather chat webhook, modelled in Dafny

This is a model of a small chat webhook, written in Dafny. A chat client posts a form:

- `action=join` with a `name` gets a greeting.
- `action=message` with a `text` gets a weather report.

A report is built in stages:

1. The text is matched against three ordered query phrases to extract a location.
2. The location is geocoded to coordinates.
3. The current weather for those coordinates is fetched from the Dark Sky forecast endpoint.
4. The result is rendered through a randomly chosen template.

Failure is typed. A `ParseError`, a `LocationError` or a `WeatherError` is answered by its own error message. That message is rendered over the error's `{'data': ...}` context. Any other form is a 400.

The modules follow the program's files:

- `Phrases` and `PhrasesProperties`: `phrases.py`.
- `Exceptions`: `exceptions.py`.
- `DataStructures`: `datastructures.py`.
- `WeatherApi`: `weather.py`.
- `Templates`: `templates.py`.
- `Models`: `models.py`.
- `App`: `app.py`.

`Texts` and `Values` hold the helpers these share: string search, split and join, and a Python/JSON value type. `Wrappers` holds `Option`.

External services are parameters of the model:

- The geocoder and the HTTP GET (with JSON decoding) are functions from a query or URL to an `Outcome`: a returned value or a raised exception.
- The template engine is a function `Renderer` from a template and a context to the rendered text.
- `random.choice` is a nondeterministic choice (`:|`) inside the `Models.Message` constructor.

Floats are kept as their printed text (`Values.Float`), so the URL and the error messages are exact concatenations.

The code that applies the query phrases is not shown in the source. The model assumes it uses `re.search`; the explicit `^` on the first rule alone points to this, although the tested phrases would give the same locations under `re.match`. Under that assumption:

- The leftmost starting position wins.
- `.` does not match a newline.
- `^` anchors the first rule at index 0.
- The greedy `(.+) weather` backtracks to the last ` weather` of the line.

Each rule has a hand-written recogniser (`Phrases.MatchAt`). The recogniser is proved equal to a declarative description of the match (`Phrases.IsMatch`, `Phrases.IsLeftmostMatch`).

## Model

| member | source | states |
|---|---|---|
| Phrases.MatchAtIsMatch | phrases.py:3-5 | each rule's recogniser matches at a position with a location exactly when the regex would: the literal prefix (leading class `[W,w]`, optional apostrophe), and a capture running to the end of the line or, for rule 3, up to the last " weather" within the line |
| Phrases.SearchIsLeftmostMatch | phrases.py:2-6 | searching a rule yields a location exactly when there is a match at some position and no match at any earlier position (`re.search`) |
| Phrases.LeftmostFrom | phrases.py:2-6 | the position found has a match and no earlier one does; no position found means no position matches |
| Phrases.LastWeatherAt | phrases.py:5 | the position found holds " weather" and no later one up to the bound does; no position found means none does |
| Phrases.RunEnd | phrases.py:3-5 | the run of `.` characters from i ends at the end of the text or at a newline |
| Phrases.Search | phrases.py:2-6 | a rule's search result is its match at some position where no earlier position matches; no result means no position matches |
| Phrases.ParseQuery | phrases.py:2-6 | the location is the search result of some query phrase, and every earlier phrase matches nothing; no location means no phrase matches |
| Phrases.FirstMatch | phrases.py:2-6 | a result is the result of some rule, and that rule is the earliest one that matches; no result means no rule matches |
| Phrases.CaptureRestIsRestOfLine | phrases.py:3-4 | a closing `(.+)` captures the non-empty run of non-newline characters from its start; there is no match when that run is empty |
| Phrases.MatchAtWhatsTheWeatherIn | phrases.py:3 | rule 1's recogniser agrees with the declarative description of the rule |
| Phrases.MatchAtWeatherIn | phrases.py:4 | rule 2's recogniser agrees with the declarative description of the rule |
| Phrases.MatchAtTrailingWeather | phrases.py:5 | rule 3's recogniser agrees with the declarative description of the rule |
| Phrases.WeatherEndsWithinLine | phrases.py:5 | a possible end of rule 3's capture is an occurrence of " weather" inside the capture's line |
| PhrasesProperties.ParseQueryInOrder | phrases.py:2-6 | the rules are tried in declaration order, and the first that matches gives the location |
| PhrasesProperties.FirstRuleWins | phrases.py:3 | when rule 1 matches, its location is the answer, whatever the other rules match |
| PhrasesProperties.WhatsTheWeatherInAnchored | phrases.py:3 | rule 1 matches only at the start of the text |
| PhrasesProperties.WhatsTheWeatherInLeadingClass | phrases.py:3 | for every character c, rule 1 reads x out of "c" + "hat's the weather in " + x when c is 'W', ',' or 'w', and matches nothing otherwise; the same holds without the apostrophe |
| PhrasesProperties.WithApostrophe | phrases.py:3 | the leading class with the apostrophe: accepted exactly for 'W', ',' and 'w' |
| PhrasesProperties.WithoutApostrophe | phrases.py:3 | the leading class without the apostrophe: accepted exactly for 'W', ',' and 'w' |
| PhrasesProperties.WhatsTheWeatherInYields | phrases.py:3 | "what's the weather in " + x yields x for every non-empty single-line x |
| PhrasesProperties.WhatsWithoutApostropheYields | phrases.py:3 | "whats the weather in " + x yields x: the apostrophe is optional |
| PhrasesProperties.WeatherInYields | phrases.py:4 | "weather in " + x yields x for every non-empty single-line x |
| PhrasesProperties.TrailingWeatherYields | phrases.py:5 | x + " weather" yields x when nothing in it reads "eather in " |
| PhrasesProperties.NoEatherIn | phrases.py:3-4 | a text without "eather in " matches neither of the first two rules |
| PhrasesProperties.CaptureToEnd | phrases.py:3-4 | a capture starting after the prefix takes the whole single-line rest |
| PhrasesProperties.MatchIsNonEmpty | phrases.py:3-5 | every match captures a non-empty single-line substring of the text |
| PhrasesProperties.ExtractedLocationIsNonEmpty | phrases.py:3-5 | every extracted location is non-empty, has no newline and occurs in the text |
| PhrasesProperties.TrailingWeatherIsPrefix | phrases.py:5 | on a single-line text, rule 3's location is the prefix standing before the last " weather" |
| PhrasesProperties.WhatsTheWeatherInSanFrancisco | tests.py:57-71 | "what's the weather in San Francisco" yields "San Francisco" |
| PhrasesProperties.WeatherInSanFrancisco | tests.py:57-71 | "weather in San Francisco" yields "San Francisco" |
| PhrasesProperties.SanFranciscoWeather | tests.py:57-71 | "San Francisco weather" yields "San Francisco" |
| PhrasesProperties.AsdfMatchesNothing | phrases.py:2-6 | "asdf" matches none of the query phrases |
| PhrasesProperties.TrailingWeatherAloneReadsWhatsThe | phrases.py:5 | rule 3 on its own reads "what's the" out of "what's the weather in San Francisco" |
| PhrasesProperties.EarlierRulesTakePrecedence | tests.py:63-71 | rule 3 matches "what's the weather in San Francisco" with "what's the", yet the answer is rule 1's "San Francisco" |
| Exceptions.NewError | exceptions.py:3-5 | the new error has the given kind and message, and its context carries the given data (None by default) |
| Exceptions.ErrorText | exceptions.py:7-8 | `str(e)` is the message `e` was built from: building an error of the same kind and data from it gives `e` back |
| Exceptions.GetContext | exceptions.py:10-12 | the context has exactly one key, `data`, bound to the error's data |
| Exceptions.ErrorRoundTrip | exceptions.py:3-8 | the constructor stores kind, message and data unchanged; `str` gives the message and `get_context` gives `{'data': data}` |
| Exceptions.DataDefaultsToNone | exceptions.py:3 | a construction with only a message leaves data as None, with context `{'data': None}` |
| Exceptions.KindsAddNothing | exceptions.py:15-27 | errors of any two kinds built from the same arguments have the same text and the same context |
| DataStructures.CoordsEquality | datastructures.py:4-7 | coordinates are equal exactly when both components are |
| DataStructures.CoordsValue | datastructures.py:4-7 | the coordinates as a template value: attribute `lat` is the latitude and `long` the longitude |
| DataStructures.AsDict | datastructures.py:17-22 | `as_dict` has the four field names in declaration order, each bound to that field's value |
| DataStructures.CoordsText | weather.py:20 | the printed form of the coordinates starts with `LocationCoords(lat=` and ends with `)` |
| DataStructures.CoordsTextInjective | weather.py:20 | when the latitude's text has no ',', the printed form determines the coordinates |
| DataStructures.FromKeywords | datastructures.py:10-15 | keyword construction succeeds only when the keywords are exactly the four field names, and each field of the result is the value of its keyword |
| DataStructures.KeywordsRoundTrip | datastructures.py:10-22 | keywords that build a Weather are exactly that Weather's `as_dict` |
| DataStructures.AsDictRoundTrip | datastructures.py:17-22 | rebuilding a Weather from its `as_dict` gives back the original |
| Values.Subscript | weather.py:16-17 | subscripting finds the entry exactly when the value is a dict that holds the key, is a missing key exactly when it is a dict without it, and is otherwise not subscriptable |
| Values.DictOf | datastructures.py:19-22 | a dict built from pairs has exactly the pairs' keys |
| Values.DictOfDistinct | datastructures.py:19-22 | with distinct keys, each key maps to its own value |
| WeatherApi.ForecastUrl | weather.py:10-13 | the URL starts with the Dark Sky forecast base |
| WeatherApi.ForecastUrlRoundTrip | weather.py:10-13 | the key and both coordinate texts can be read back from the URL (key without '/', latitude without ',') |
| WeatherApi.ForecastUrlInjective | weather.py:10-13 | distinct coordinates are fetched from distinct URLs |
| WeatherApi.Lookup | weather.py:16-17 | `v[key]` returns the entry exactly when v is a dict holding key; it raises KeyError for another dict and TypeError for a non-dict |
| WeatherApi.ReadCurrently | weather.py:16-17 | returns exactly when `currently` holds both `temperature` and `summary`, and the pair read is exactly those two; otherwise it raises KeyError or TypeError |
| WeatherApi.NoWeatherFor | weather.py:19-22 | the WeatherError's data are the coordinates, and its message is "Could not find weather for: " followed by the coordinates' printed form |
| WeatherApi.Attempt | weather.py:14-17 | the `try` body returns exactly when the GET returns a response with `currently.temperature` and `currently.summary`; an exception of the GET is passed on; otherwise it raises KeyError or TypeError |
| WeatherApi.Translate | weather.py:18 | no KeyError gets past the `except` |
| WeatherApi.GetWeather | weather.py:8-22 | no KeyError escapes, and any error of the program's own it raises is the coordinates' WeatherError or came from the GET |
| WeatherApi.GetWeatherSucceeds | weather.py:14-17 | the lookup succeeds exactly when the GET returns a response with `currently.temperature` and `currently.summary`, and it then gives those two values |
| WeatherApi.MissingKeyIsWeatherError | weather.py:18-22 | a dict response missing `currently`, `temperature` or `summary` gives the WeatherError of these coordinates |
| WeatherApi.EmptyResponseIsWeatherError | tests.py:131-140 | the response `{}` gives a WeatherError whose data are the coordinates |
| WeatherApi.RaisedByGet | weather.py:15-18 | a KeyError from the GET itself becomes the WeatherError; any other exception it raises propagates unchanged |
| WeatherApi.WrongShapeIsTypeError | weather.py:16-18 | a response that is not a dict, or whose `currently` is not one, raises TypeError, which is not caught |
| WeatherApi.OnlyForecastUrlIsFetched | weather.py:15 | the outcome depends only on what the one GET of the forecast URL returns |
| WeatherApi.GetWeatherAsWritten | weather.py:8-23 | the function as written: no KeyError escapes |
| WeatherApi.AsWrittenNeverReturns | weather.py:23 | the function as written never returns; every successful lookup raises TypeError |
| Templates.Holes | templates.py:1-26 | the placeholder texts between `{{` and `}}`, none holding `}` |
| Templates.HolesOfAssemble | templates.py:1-26 | the placeholders of a template assembled from plain pieces and holes are exactly those holes, in order |
| Templates.PoolsAreNonEmpty | templates.py:1-26 | every template pool is non-empty |
| Templates.GreetingHoles | templates.py:1-5 | every greeting has exactly one placeholder, `name` (with its filter) |
| Templates.WeatherReportHoles | templates.py:7-11 | the weather report's placeholders are `time`, `low_temperature`, `high_temperature` and `description`, in that order |
| Templates.ParseErrorHoles | templates.py:13-16 | the parse-error templates have no placeholders |
| Templates.LocationErrorHoles | templates.py:18-21 | each location-error template has one placeholder, `data` |
| Templates.WeatherErrorHoles | templates.py:23-26 | each weather-error template has the placeholders `data.lat` and `data.long`, in that order |
| Templates.GreetingsNeedName | templates.py:1-5 | a greeting uses only `name`, and a context supplies it exactly when it has `name` |
| Templates.ParseErrorsNeedNothing | templates.py:13-16 | a parse-error template uses no name and every context supplies it |
| Templates.LocationErrorsNeedData | templates.py:18-21 | a location-error template uses only `data`, and a context supplies it exactly when it has `data` |
| Templates.WeatherErrorsNeedCoordinates | templates.py:23-26 | a weather-error template uses only `data`, and a context supplies it exactly when its `data` has attributes `lat` and `long` |
| Templates.WeatherReportsNeedWeatherFields | templates.py:7-11 | the report's names are exactly the Weather field names, and a context supplies it exactly when it has all four |
| Templates.WeatherReportSuppliedByWeather | templates.py:8 | the `as_dict` of any Weather supplies the weather report |
| Models.TemplateChoices | models.py:18 | every kind's pool is non-empty, the default `('',)` included |
| Models.Envelope | models.py:28-37 | the envelope carries exactly the given text as its single text message |
| Models.EnvelopeRoundTrip | models.py:28-37 | a value carries text t as its one text message exactly when it is the envelope of t |
| Models.Message.constructor | models.py:20-23 | the context is stored, the template is drawn from the pool, and the body is the template rendered with the context |
| Models.Message.RenderBody | models.py:25-26 | `render_body` gives the body fixed at construction, the template rendered with the context |
| Models.Message.AsJson | models.py:28-37 | `as_json` carries the body as its one text message |
| Models.FormContext | app.py:19 | the form as a context: the same keys, each bound to its string |
| Models.ParseLocation | tests.py:63-78 | a missing `text` is taken to be a KeyError. A text with a match gives the query phrases' location. A text without one raises the ParseError whose data is the text, and that is the only error of the program's own it raises |
| Models.AsdfIsParseError | tests.py:73-78 | the text "asdf" raises a ParseError carrying "asdf" |
| Models.CandidateCoords | tests.py:86-101 | a candidate gives coordinates exactly when its `geometry.location` has `lat` and `lng`, and they are those values; otherwise it raises KeyError or TypeError |
| Models.UnknownLocation | tests.py:103-112 | the LocationError of a query carries the query as its data |
| Models.GetLocation | tests.py:80-112 | any error of the program's own is the query's LocationError or came from the geocoder |
| Models.FirstCandidateWins | tests.py:80-101 | for any first candidate whose `geometry.location` has `lat` and `lng`, those become the coordinates, whatever other keys or later candidates there are |
| Models.GetLocationSucceeds | tests.py:80-112 | the lookup gives coordinates c exactly when the geocoder returns a non-empty list whose first candidate is located at c |
| Models.TestCandidateIsLocated | tests.py:86-101 | the test's one-candidate answer gives its `lat` and `lng` as the coordinates |
| Models.NoCandidatesIsLocationError | tests.py:103-112 | no candidates raises the LocationError of the query |
| Models.OnlyTheQueryIsGeocoded | tests.py:94-97 | the outcome depends only on what the geocoder returns for the unchanged query |
| Models.GetCurrentWeather | tests.py:114-121 | any error of the program's own is these coordinates' WeatherError or came from the GET of their URL |
| Models.CurrentWeatherForwardsCoordinates | tests.py:114-121 | the lookup is `get_weather` of exactly the given coordinates |
| Models.WeatherContext | models.py:55 | the report's context is exactly `temperature` and `description`, bound to the values the lookup extracted |
| Models.ForecastContext | models.py:51-55 | a parse failure is the pipeline's outcome; success needs a text some query phrase matches, and its context has exactly `temperature` and `description` |
| Models.ParseFailureStopsPipeline | models.py:51-55 | when parsing raises, the pipeline raises that exception and never consults the services |
| Models.PipelineStages | models.py:51-55 | the pipeline succeeds exactly when parse, locate and fetch all succeed, each on the previous result, and its context is built from the fetched weather |
| Models.PipelineErrors | models.py:51-55 | with services that raise only foreign exceptions, a raised error is never a plain Error. A ParseError carries the unparsable text, a LocationError is some query's, and a WeatherError is some coordinates' |
| Models.NewWeatherReport | models.py:51-55 | a message is built exactly when the pipeline succeeds, over its context and with a report template; otherwise the pipeline's exception is raised |
| Models.ErrorContextSuppliesLocationErrors | app.py:25-26 | an error's context supplies every location-error template |
| Models.NoWeatherContextSuppliesWeatherErrors | app.py:27-28 | the WeatherError's context supplies every weather-error template |
| Models.WeatherContextLacksReportFields | templates.py:8 | the report context `{temperature, description}` does not supply the report template: it lacks `time` |
| App.ErrorMessageKind | app.py:23-28 | each typed error has its message kind; only a plain Error has none |
| App.Dispatch | app.py:16-29 | a greeting answers only a join with a name; every other message answers only a message with a text |
| App.Handle | app.py:16-29 | a response to a form is the JSON of one template of the kind's pool rendered over the context, the weather report being the message `Models.NewWeatherReport` builds; a bad request is exactly a 400; an uncaught exception is exactly a 500 carrying it |
| App.JoinIsGreeted | app.py:18-19 | a join with a name is greeted over the whole form |
| App.BadRequestCases | app.py:29 | a form is a bad request exactly when it is neither a join with a name nor a message with a text |
| App.JoinAndMessageExclude | app.py:17-20 | no form is both a join and a message |
| App.MessageCases | app.py:20-28 | a message with a text is answered by the report on success, or otherwise by the message of the typed error raised, over `{'data': e.data}` |
| App.UncaughtCases | app.py:21-28 | an exception escapes exactly when the pipeline raises a plain Error or a foreign exception, and it is that exception |
| App.FormWithoutActionIsBadRequest | tests.py:153-159 | the form `{'bad': 'data'}` is a bad request |
| App.GreetingContextSuppliesGreetings | app.py:18-19 | a greeting's context supplies every template of the pool a greeting is drawn from |
| App.ErrorContextsSupplyTheirTemplates | app.py:23-28 | with services that raise only foreign exceptions, every error message's context supplies every template of its pool |

## Left out

- Flask routing, CORS, `request.form`, the `BadRequest` exception and the server are not modelled, because they are framework glue. The form is a `map<string, string>`, and the outcome is a `Response` datatype.
- `Models.Message.AsJson`: the result is `jsonify` as a JSON value tree, not the serialised bytes or the HTTP response.
- Jinja's `render_template_string` and the `|title` filter are an uninterpreted `Renderer`, because the template engine is a foreign library. Only each template's placeholder names are modelled, and a missing variable is a `Supplies` fact rather than a render failure.
- `Models.Message.constructor` and `App.Handle`: the render call cannot raise in the model. In the source, `render_template_string(self.template, **self.context)` (models.py:26) raises TypeError when the context has a key `source`, the name of its first parameter. A join form with a field `source` therefore ends in a 500 in the source, but the model answers it with a greeting.
- `random.choice` is a nondeterministic choice with a membership postcondition, because randomness is outside the model.
- `secrets.py` is not part of this model: its key decryption reads the environment. The Dark Sky key is a `darkSkyKey` parameter.
- `geo.py` is not part of this model: it is a network client. The geocoder is the `geocode` parameter.
- `requests.get(url).json()` is the `fetch` parameter, because this is network I/O. Transport and JSON-decoding failures are foreign exceptions it may raise.
- The exactly-one-GET property is stated only as the outcome depending on a single fetch of the forecast URL, because call counting is not modelled.
- Floats are kept as their printed text, so no temperature or coordinate arithmetic and no float-to-string formatting is modelled.
- `DataStructures.CoordsEquality`: equality of coordinates is equality of their texts. Python compares the numbers, so `LocationCoords(100, 200) == LocationCoords(100.0, 200.0)` holds there but not in the model.
- Only the three query patterns are modelled, not a general regular-expression engine.
- A daily forecast, a time qualifier and "today"/"tomorrow" selection with a time label are not modelled. The code reads `currently.temperature` and `currently.summary` from the response (weather.py:16-17) and has no time group in its phrases. This model follows the code.
- `Models.ParseLocation`: `models.py` has `parse_location` only as a stub returning `''` (models.py:57-58). The model follows the behaviour the tests expect (tests.py:63-78). A form without `text` is taken to raise KeyError, as `form_body['text']` would; the tests never call it without one. Its message text "Could not parse location from: " is invented, and its data is taken to be the text.
- `Models.GetLocation`: `models.py` has `get_location` only as a stub returning `LocationCoords('', '')` (models.py:60-62). The model follows the behaviour the tests expect (tests.py:80-112). Its message text is invented, and its data is taken to be the query.
- `Models.GetLocation`: a geocoder result that is not a list raises TypeError; Python's behaviour there depends on the value's type.
- `Models.CandidateCoords`: a non-numeric `lat` or `lng` raises TypeError, where Python would build the tuple with any value.
- `DataStructures.FromKeywords`: it also refuses fields of the wrong type, which Python's NamedTuple would accept.
- `models.py` redefines `LocationCoords` with string fields (models.py:9-13). The model uses the float version from datastructures.py:4-7.
- `Forecast` uses `templates.FORECASTS` (models.py:49), which templates.py does not define. The weather report uses `WEATHER_REPORTS` instead.
- `app.py` imports `WeatherReport` and the three error-message classes (app.py:6-9), which `models.py` does not define. They are modelled as message kinds whose pools are the templates of the same name.
- The stub `Forecast.get_location` and `get_forecast` bodies (models.py:57-69) are replaced by the geocoding and weather lookups.
- The weather report's context is `{temperature, description}`, but `WEATHER_REPORTS` asks for the four `Weather` fields. `Models.WeatherContextLacksReportFields` records that it is not supplied.
- `App.ErrorContextsSupplyTheirTemplates` and `Models.PipelineErrors`: they hold only when the services raise no errors of this program's own (`Models.ForeignFailuresOnly`).

## Findings

| source | as written | input that shows it | evidently intended | confidence | as-written member | corrected member |
|---|---|---|---|---|---|---|
| weather.py:23 | `Weather(temperature=..., description=...)` passes keywords that `Weather` (datastructures.py:10-15) does not have, so the call raises TypeError | any response with `currently.temperature` and `currently.summary`, e.g. `{'currently': {'temperature': 50, 'summary': 'Sunny'}}` | return the extracted (temperature, description) pair | not executed | WeatherApi.AsWrittenNeverReturns | WeatherApi.GetWeatherSucceeds |

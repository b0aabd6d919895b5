/** The service's immutable value types: coordinates and a weather summary. */
module DataStructures {
  import opened Wrappers
  import opened Values
  import opened Texts

  /** The latitude and longitude of a location. */
  datatype LocationCoords = LocationCoords(lat: Float, long: Float)

  /** Equality of coordinates is equality of both components. */
  lemma CoordsEquality(a: LocationCoords, b: LocationCoords)
    ensures a == b <==> a.lat == b.lat && a.long == b.long
  {
  }

  /** The coordinates as the Python NamedTuple they are, for a template's `data.lat`/`data.long`. */
  function CoordsValue(c: LocationCoords): (v: Value)
    ensures AttrOf(v, "lat") == Some(Number(c.lat))
    ensures AttrOf(v, "long") == Some(Number(c.long))
  {
    var fields := [("lat", Number(c.lat)), ("long", Number(c.long))];
    assert FieldOf(fields[1..], "long") == Some(Number(c.long));
    Record("LocationCoords", fields)
  }

  const CoordsTextPrefix: string := "LocationCoords(lat="

  /** `str(c)` (equally `'{}'.format(c)`): the NamedTuple's printed form. */
  function CoordsText(c: LocationCoords): (r: string)
    ensures HasAt(r, 0, CoordsTextPrefix) && r[|r| - 1] == ')'
  {
    var r := CoordsTextPrefix + c.lat.text + ", long=" + c.long.text + ")";
    assert r[..|CoordsTextPrefix|] == CoordsTextPrefix;
    r
  }

  /** The latitude is the printed form up to the first ',' after the prefix, and the longitude stands before the closing ')'. */
  lemma CoordsTextParts(c: LocationCoords)
    requires ',' !in c.lat.text
    ensures TakeUntil(CoordsText(c)[|CoordsTextPrefix|..], ',') == c.lat.text
    ensures |CoordsTextPrefix| + |c.lat.text| + 7 <= |CoordsText(c)| - 1
    ensures CoordsText(c)[|CoordsTextPrefix| + |c.lat.text| + 7..|CoordsText(c)| - 1] == c.long.text
  {
    var rest := " long=" + c.long.text + ")";
    var t := c.lat.text + [','] + rest;
    assert CoordsText(c) == CoordsTextPrefix + t;
    assert CoordsText(c)[|CoordsTextPrefix|..] == t;
    TakeUntilFirst(c.lat.text, ',', rest);
  }

  /** A latitude without ',' makes the printed form determine the coordinates. */
  lemma CoordsTextInjective(a: LocationCoords, b: LocationCoords)
    requires ',' !in a.lat.text && ',' !in b.lat.text
    ensures CoordsText(a) == CoordsText(b) <==> a == b
  {
    CoordsTextParts(a);
    CoordsTextParts(b);
  }

  /** A summary of the weather for a location. */
  datatype Weather = Weather(low_temperature: Float, high_temperature: Float, description: string, time: string)

  /** `Weather._fields`, in declaration order. */
  const WeatherFields: seq<string> := ["low_temperature", "high_temperature", "description", "time"]

  /** `getattr(w, key)` for one of the fields. */
  function FieldValue(w: Weather, key: string): Value
    requires key in WeatherFields
  {
    if key == "low_temperature" then Number(w.low_temperature)
    else if key == "high_temperature" then Number(w.high_temperature)
    else if key == "description" then Str(w.description)
    else Str(w.time)
  }

  /** `w.as_dict()`: the dict comprehension over `_fields`, as its (key, value) pairs in order. */
  function AsDict(w: Weather): (d: seq<(string, Value)>)
    ensures |d| == |WeatherFields|
    ensures forall k :: 0 <= k < |d| ==> d[k].0 == WeatherFields[k]
    ensures d[0].1 == Number(w.low_temperature) && d[1].1 == Number(w.high_temperature)
    ensures d[2].1 == Str(w.description) && d[3].1 == Str(w.time)
  {
    seq(|WeatherFields|, k requires 0 <= k < |WeatherFields| => (WeatherFields[k], FieldValue(w, WeatherFields[k])))
  }

  /**
   * `Weather(**kw)`: defined exactly when the keywords are the four field names;
   * a field whose value is not of its annotated type is refused as well.
   */
  function FromKeywords(kw: map<string, Value>): (r: Option<Weather>)
    ensures r.Some? ==> forall key :: key in kw <==> key in WeatherFields
    ensures r.Some? ==> forall k :: 0 <= k < |WeatherFields| ==> kw[WeatherFields[k]] == FieldValue(r.value, WeatherFields[k])
  {
    if kw.Keys == {"low_temperature", "high_temperature", "description", "time"}
       && kw["low_temperature"].Number? && kw["high_temperature"].Number?
       && kw["description"].Str? && kw["time"].Str?
    then Some(Weather(kw["low_temperature"].n, kw["high_temperature"].n, kw["description"].s, kw["time"].s))
    else None
  }

  /** Rebuilding a Weather by keyword-unpacking its `as_dict()` gives back the original. */
  lemma AsDictRoundTrip(w: Weather)
    ensures FromKeywords(DictOf(AsDict(w))) == Some(w)
  {
    var d := AsDict(w);
    forall k | 0 <= k < |d| ensures d[k].0 in DictOf(d) && DictOf(d)[d[k].0] == d[k].1 {
      DictOfDistinct(d, k);
    }
    assert DictOf(d).Keys == {"low_temperature", "high_temperature", "description", "time"};
  }

  /** Conversely, keywords that build a Weather are exactly that Weather's `as_dict()`. */
  lemma KeywordsRoundTrip(kw: map<string, Value>)
    requires FromKeywords(kw).Some?
    ensures DictOf(AsDict(FromKeywords(kw).value)) == kw
  {
    var w := FromKeywords(kw).value;
    var d := AsDict(w);
    forall k | 0 <= k < |d| ensures d[k].0 in DictOf(d) && DictOf(d)[d[k].0] == d[k].1 {
      DictOfDistinct(d, k);
    }
    assert DictOf(d).Keys == kw.Keys;
  }
}

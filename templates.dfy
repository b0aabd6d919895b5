/**
 * The message templates: five constant pools of Jinja template strings, and the
 * placeholder names each one refers to.
 *
 * Rendering is not modelled here. What is modelled is the part of a template a
 * context has to supply: each `{{ expression }}` hole, and the variable and
 * attribute path at its head (`data.lat` in `{{ data.lat }}`, `name` in
 * `{{ name|title }}`, the filter after `|` being ignored).
 */
module Templates {
  import opened Wrappers
  import opened Texts
  import opened Values
  import opened DataStructures

  // Each template is written as its literal pieces and the holes between them:
  // `Assemble(["Hi ", "!"], [" name|title "])` is the text `Hi {{ name|title }}!`.
  // The longer pieces are written as two concatenated literals; the text is the
  // same, and the verifier handles the shorter literals more cheaply.

  const Greetings: seq<string> := [
    Assemble(["Hi ", "!"], [" name|title "]),
    Assemble(["Howdy ", "!"], [" name|title "]),
    Assemble(["Welcome ", "."], [" name|title "])
  ]

  const WeatherReports: seq<string> := [
    Assemble(["", " the low is ", "F and the high is ", ". ", ""],
             [" time ", " low_temperature ", " high_temperature ", " description|title "])
  ]

  const ParseErrors: seq<string> := [
    Assemble(["Sorry, I didn't understand that"], []),
    Assemble(["Huh?"], [])
  ]

  const LocationErrors: seq<string> := [
    Assemble(["Hmmm, I couldn't find ", " on the map"], [" data "]),
    Assemble(["Sorry, I don't know where ", " is"], [" data "])
  ]

  const WeatherErrors: seq<string> := [
    Assemble(["Sorry, I couldn't find " + "weather for coordinates ", ", ", ""], [" data.lat ", " data.long "]),
    Assemble(["No weather available " + "for coordinates ", ", ", ""], [" data.lat ", " data.long "])
  ]

  /**
   * The text inside each `{{ … }}` of `t`, in order. Scanning stops at a `{{`
   * that is never closed.
   */
  function Holes(t: string): (r: seq<string>)
    ensures forall k :: 0 <= k < |r| ==> '}' !in r[k]
    decreases |t|
  {
    if |t| < 2 then []
    else if t[0] == '{' && t[1] == '{' then
      var e := TakeUntil(t[2..], '}');
      var after := t[2 + |e|..];
      if HasAt(after, 0, "}}") then [e] + Holes(after[2..]) else []
    else Holes(t[1..])
  }

  /** The variable and attributes a hole refers to: its text before any filter, stripped and split at dots. */
  function Path(e: string): (r: seq<string>)
    ensures |r| >= 1
  {
    Split(Strip(TakeUntil(e, '|')), '.')
  }

  /** The path of every hole of `t`, in order. */
  function Paths(t: string): seq<seq<string>>
  {
    seq(|Holes(t)|, k requires 0 <= k < |Holes(t)| => Path(Holes(t)[k]))
  }

  /** The context variables `t` refers to. */
  function Names(t: string): set<string>
  {
    set k | 0 <= k < |Paths(t)| :: Paths(t)[k][0]
  }

  lemma {:induction false} HolesOfPlain(a: string, rest: string)
    requires '{' !in a
    ensures Holes(a + rest) == Holes(rest)
    decreases |a|
  {
    if a != [] {
      assert a[0] in a;
      assert '{' !in a[1..] by {
        forall k | 0 <= k < |a[1..]| ensures a[1..][k] != '{' { assert a[1..][k] == a[k + 1]; }
      }
      HolesOfPlain(a[1..], rest);
      assert (a + rest)[0] == a[0];
      assert (a + rest)[1..] == a[1..] + rest;
      if |a + rest| >= 2 {
        assert Holes(a + rest) == Holes(a[1..] + rest);
      }
    } else {
      assert a + rest == rest;
    }
  }

  lemma HolesOfHole(e: string, rest: string)
    requires '}' !in e
    ensures Holes("{{" + e + "}}" + rest) == [e] + Holes(rest)
  {
    var t := "{{" + e + "}}" + rest;
    assert t[2..] == e + ['}'] + ("}" + rest);
    TakeUntilFirst(e, '}', "}" + rest);
    assert t[2 + |e|..] == "}}" + rest;
    assert HasAt("}}" + rest, 0, "}}");
  }

  /** A template written out as its literal pieces with one hole between each two. */
  function Assemble(plain: seq<string>, holes: seq<string>): string
    requires |plain| == |holes| + 1
    decreases |holes|
  {
    if holes == [] then plain[0] else plain[0] + "{{" + holes[0] + "}}" + Assemble(plain[1..], holes[1..])
  }

  lemma {:induction false} HolesOfAssemble(plain: seq<string>, holes: seq<string>)
    requires |plain| == |holes| + 1
    requires forall k :: 0 <= k < |plain| ==> '{' !in plain[k]
    requires forall k :: 0 <= k < |holes| ==> '}' !in holes[k]
    ensures Holes(Assemble(plain, holes)) == holes
    decreases |holes|
  {
    if holes == [] {
      HolesOfPlain(plain[0], []);
      assert plain[0] + [] == plain[0];
    } else {
      var rest := Assemble(plain[1..], holes[1..]);
      assert plain[0] + "{{" + holes[0] + "}}" + rest == plain[0] + ("{{" + holes[0] + "}}" + rest);
      HolesOfPlain(plain[0], "{{" + holes[0] + "}}" + rest);
      HolesOfHole(holes[0], rest);
      HolesOfAssemble(plain[1..], holes[1..]);
      assert holes == [holes[0]] + holes[1..];
    }
  }

  /** A variable name: non-empty, with no blank, filter bar, dot or closing brace. */
  predicate IsName(x: string)
  {
    x != [] && ' ' !in x && '|' !in x && '.' !in x && '}' !in x
  }

  lemma NameIsOnePiece(x: string)
    requires IsName(x)
    ensures Split(x, '.') == [x]
    ensures x[0] != ' ' && x[|x| - 1] != ' '
  {
    TakeUntilAbsent(x, '.');
    assert x[0] in x && x[|x| - 1] in x;
  }

  /** `{{ x }}` and `{{ x|title }}` refer to the variable `x`. */
  lemma PathOfName(x: string)
    requires IsName(x)
    ensures Path(" " + x + " ") == [x]
    ensures Path(" " + x + "|title ") == [x]
  {
    NameIsOnePiece(x);
    StripPadded(x);
    PlainHole(x);
    FilteredHole(x);
  }

  lemma PlainHole(x: string)
    requires IsName(x) && Split(x, '.') == [x] && Strip(" " + x + " ") == x
    ensures Path(" " + x + " ") == [x]
  {
    var e := " " + x + " ";
    assert '|' !in e;
    TakeUntilAbsent(e, '|');
    assert Strip(TakeUntil(e, '|')) == x;
  }

  lemma FilteredHole(x: string)
    requires IsName(x) && Split(x, '.') == [x] && Strip(" " + x) == x
    ensures Path(" " + x + "|title ") == [x]
  {
    var e := " " + x + "|title ";
    assert e == (" " + x) + ['|'] + "title ";
    assert '|' !in " " + x;
    TakeUntilFirst(" " + x, '|', "title ");
    assert Strip(TakeUntil(e, '|')) == x;
  }

  /** `{{ x.y }}` refers to the attribute `y` of the variable `x`. */
  lemma PathOfAttribute(x: string, y: string)
    requires IsName(x) && IsName(y)
    ensures Path(" " + x + "." + y + " ") == [x, y]
  {
    var xy := x + "." + y;
    var e := " " + xy + " ";
    assert e == " " + x + "." + y + " ";
    NameIsOnePiece(x);
    NameIsOnePiece(y);
    assert xy[0] == x[0];
    assert xy[|xy| - 1] == y[|y| - 1];
    StripPadded(xy);
    assert '|' !in xy;
    assert '|' !in e;
    TakeUntilAbsent(e, '|');
    JoinPair(x, y);
    SplitJoin([x, y], '.');
  }

  lemma JoinPair(x: string, y: string)
    ensures Join([x, y], '.') == x + "." + y
  {
    assert [x, y][1..] == [y];
  }

  // The value a path reaches in a context, as the template engine looks it up.

  function Walk(v: Value, attributes: seq<string>): Option<Value>
    decreases |attributes|
  {
    if attributes == [] then Some(v)
    else match AttrOf(v, attributes[0])
      case None => None
      case Some(w) => Walk(w, attributes[1..])
  }

  /** The value `path` names in `ctx`, or None when the variable or an attribute is missing. */
  function Resolve(ctx: map<string, Value>, path: seq<string>): Option<Value>
  {
    if path == [] || path[0] !in ctx then None else Walk(ctx[path[0]], path[1..])
  }

  /** Every hole of `t` names something `ctx` has. */
  predicate Supplies(ctx: map<string, Value>, t: string)
  {
    forall k :: 0 <= k < |Paths(t)| ==> Resolve(ctx, Paths(t)[k]).Some?
  }

  // The holes of each pool.

  /** A template with the single hole `{{ x }}` or `{{ x|title }}` refers to `x` alone. */
  lemma OneNameHole(plain: seq<string>, hole: string, x: string)
    requires |plain| == 2 && '{' !in plain[0] && '{' !in plain[1] && IsName(x)
    requires hole == " " + x + " " || hole == " " + x + "|title "
    ensures Paths(Assemble(plain, [hole])) == [[x]]
  {
    assert '}' !in " " + x + "|title ";
    HolesOfAssemble(plain, [hole]);
    PathOfName(x);
  }

  lemma GreetingHoles(k: nat)
    requires k < |Greetings|
    ensures Paths(Greetings[k]) == [["name"]]
  {
    var plain := if k == 0 then ["Hi ", "!"] else if k == 1 then ["Howdy ", "!"] else ["Welcome ", "."];
    assert '{' !in plain[0] && '{' !in plain[1];
    assert " name|title " == " " + "name" + "|title ";
    OneNameHole(plain, " name|title ", "name");
  }

  /** The weather report's holes, as a template of that shape. */
  lemma FourNameHoles(plain: seq<string>, holes: seq<string>, names: seq<string>)
    requires |plain| == 5 && |holes| == 4 && |names| == 4
    requires forall i :: 0 <= i < 5 ==> '{' !in plain[i]
    requires forall i :: 0 <= i < 4 ==> IsName(names[i]) && (holes[i] == " " + names[i] + " " || holes[i] == " " + names[i] + "|title ")
    ensures Paths(Assemble(plain, holes)) == [[names[0]], [names[1]], [names[2]], [names[3]]]
  {
    forall i | 0 <= i < 4 ensures '}' !in holes[i] && Path(holes[i]) == [names[i]] {
      assert '}' !in " " + names[i] + "|title ";
      PathOfName(names[i]);
    }
    HolesOfAssemble(plain, holes);
  }

  // ReportPlainPieces, ReportNames and NameAndHole only break the report's
  // literal facts into steps the verifier can take one at a time.
  lemma ReportPlainPieces(plain: seq<string>)
    requires plain == ["", " the low is ", "F and the high is ", ". ", ""]
    ensures forall i :: 0 <= i < 5 ==> '{' !in plain[i]
  {
  }

  lemma ReportNames(holes: seq<string>, names: seq<string>)
    requires holes == [" time ", " low_temperature ", " high_temperature ", " description|title "]
    requires names == ["time", "low_temperature", "high_temperature", "description"]
    ensures forall i :: 0 <= i < 4 ==> IsName(names[i]) && (holes[i] == " " + names[i] + " " || holes[i] == " " + names[i] + "|title ")
  {
    NameAndHole("time", holes[0], " ");
    NameAndHole("low_temperature", holes[1], " ");
    NameAndHole("high_temperature", holes[2], " ");
    NameAndHole("description", holes[3], "|title ");
  }

  lemma NameAndHole(x: string, hole: string, tail: string)
    requires x == "time" || x == "low_temperature" || x == "high_temperature" || x == "description"
    requires hole == " " + x + tail
    ensures IsName(x) && hole == " " + x + tail
  {
  }

  /** The weather report refers to the four Weather fields, in a different order from the fields'. */
  lemma WeatherReportHoles(k: nat)
    requires k < |WeatherReports|
    ensures Paths(WeatherReports[k]) == [["time"], ["low_temperature"], ["high_temperature"], ["description"]]
  {
    var plain := ["", " the low is ", "F and the high is ", ". ", ""];
    var holes := [" time ", " low_temperature ", " high_temperature ", " description|title "];
    var names := ["time", "low_temperature", "high_temperature", "description"];
    ReportPlainPieces(plain);
    ReportNames(holes, names);
    FourNameHoles(plain, holes, names);
  }

  lemma ParseErrorHoles(k: nat)
    requires k < |ParseErrors|
    ensures Paths(ParseErrors[k]) == []
  {
    var plain := if k == 0 then ["Sorry, I didn't understand that"] else ["Huh?"];
    assert '{' !in plain[0] by {
      if k == 0 {
        assert plain[0] == "Sorry, I didn't " + "understand that";
        assert '{' !in "Sorry, I didn't " && '{' !in "understand that";
      }
    }
    HolesOfAssemble(plain, []);
  }

  lemma LocationErrorHoles(k: nat)
    requires k < |LocationErrors|
    ensures Paths(LocationErrors[k]) == [["data"]]
  {
    var plain := if k == 0 then ["Hmmm, I couldn't find ", " on the map"] else ["Sorry, I don't know where ", " is"];
    assert '{' !in plain[0] && '{' !in plain[1];
    assert " data " == " " + "data" + " ";
    OneNameHole(plain, " data ", "data");
  }

  /** A template with the two holes `{{ x.a }}` and `{{ x.b }}` refers to those attributes of `x`. */
  lemma TwoAttributeHoles(plain: seq<string>, x: string, a: string, b: string)
    requires |plain| == 3 && '{' !in plain[0] && '{' !in plain[1] && '{' !in plain[2]
    requires IsName(x) && IsName(a) && IsName(b)
    ensures Paths(Assemble(plain, [" " + x + "." + a + " ", " " + x + "." + b + " "])) == [[x, a], [x, b]]
  {
    var holes := [" " + x + "." + a + " ", " " + x + "." + b + " "];
    assert '}' !in holes[0] && '}' !in holes[1];
    HolesOfAssemble(plain, holes);
    PathOfAttribute(x, a);
    PathOfAttribute(x, b);
  }

  lemma CoordinateHoles(plain: seq<string>)
    requires |plain| == 3 && '{' !in plain[0] && '{' !in plain[1] && '{' !in plain[2]
    ensures Paths(Assemble(plain, [" data.lat ", " data.long "])) == [["data", "lat"], ["data", "long"]]
  {
    assert " data.lat " == " " + "data" + "." + "lat" + " ";
    assert " data.long " == " " + "data" + "." + "long" + " ";
    TwoAttributeHoles(plain, "data", "lat", "long");
  }

  lemma WeatherErrorHoles(k: nat)
    requires k < |WeatherErrors|
    ensures Paths(WeatherErrors[k]) == [["data", "lat"], ["data", "long"]]
  {
    var a, b := if k == 0 then "Sorry, I couldn't find " else "No weather available ",
                if k == 0 then "weather for coordinates " else "for coordinates ";
    assert '{' !in a && '{' !in b;
    assert '{' !in a + b;
    assert '{' !in ", " && '{' !in "";
    CoordinateHoles([a + b, ", ", ""]);
  }

  /** Every pool has a template to choose from. */
  lemma PoolsAreNonEmpty()
    ensures |Greetings| > 0 && |WeatherReports| > 0 && |ParseErrors| > 0
    ensures |LocationErrors| > 0 && |WeatherErrors| > 0
  {
  }

  // What a template with such holes demands of the context it is rendered in.

  lemma ResolveVariable(ctx: map<string, Value>, x: string)
    ensures Resolve(ctx, [x]) == if x in ctx then Some(ctx[x]) else None
  {
    assert [x][1..] == [];
  }

  lemma ResolveAttribute(ctx: map<string, Value>, x: string, a: string)
    ensures Resolve(ctx, [x, a]).Some? <==> x in ctx && AttrOf(ctx[x], a).Some?
  {
    assert [x, a][1..] == [a] && [a][1..] == [];
    if x in ctx && AttrOf(ctx[x], a).Some? {
      assert Walk(AttrOf(ctx[x], a).value, []).Some?;
    }
  }

  lemma NeedsOneVariable(ctx: map<string, Value>, t: string, x: string)
    requires Paths(t) == [[x]]
    ensures Names(t) == {x}
    ensures Supplies(ctx, t) <==> x in ctx
  {
    assert Paths(t)[0] == [x];
    ResolveVariable(ctx, x);
  }

  lemma NeedsTwoAttributes(ctx: map<string, Value>, t: string, x: string, a: string, b: string)
    requires Paths(t) == [[x, a], [x, b]]
    ensures Names(t) == {x}
    ensures Supplies(ctx, t) <==> x in ctx && AttrOf(ctx[x], a).Some? && AttrOf(ctx[x], b).Some?
  {
    var p := Paths(t);
    assert p[0] == [x, a] && p[1] == [x, b];
    ResolveAttribute(ctx, x, a);
    ResolveAttribute(ctx, x, b);
    assert Supplies(ctx, t) <==> Resolve(ctx, p[0]).Some? && Resolve(ctx, p[1]).Some?;
  }

  lemma NeedsFourVariables(ctx: map<string, Value>, t: string, names: seq<string>)
    requires |names| == 4
    requires Paths(t) == [[names[0]], [names[1]], [names[2]], [names[3]]]
    ensures forall name :: name in Names(t) <==> name in names
    ensures Supplies(ctx, t) <==> forall name :: name in names ==> name in ctx
  {
    var p := Paths(t);
    forall i | 0 <= i < 4 ensures p[i] == [names[i]] && (Resolve(ctx, p[i]).Some? <==> names[i] in ctx) {
      ResolveVariable(ctx, names[i]);
    }
    forall name | name in names ensures name in Names(t) && (Resolve(ctx, [name]).Some? <==> name in ctx) {
      var i :| 0 <= i < 4 && names[i] == name;
      assert p[i][0] == name;
    }
  }

  // What each pool demands.

  /** A greeting needs only `name`. */
  lemma GreetingsNeedName(ctx: map<string, Value>, k: nat)
    requires k < |Greetings|
    ensures Names(Greetings[k]) == {"name"}
    ensures Supplies(ctx, Greetings[k]) <==> "name" in ctx
  {
    GreetingHoles(k);
    NeedsOneVariable(ctx, Greetings[k], "name");
  }

  /** A parse-error message needs nothing. */
  lemma ParseErrorsNeedNothing(ctx: map<string, Value>, k: nat)
    requires k < |ParseErrors|
    ensures Names(ParseErrors[k]) == {}
    ensures Supplies(ctx, ParseErrors[k])
  {
    ParseErrorHoles(k);
  }

  /** A location-error message needs only `data`, whatever its value. */
  lemma LocationErrorsNeedData(ctx: map<string, Value>, k: nat)
    requires k < |LocationErrors|
    ensures Names(LocationErrors[k]) == {"data"}
    ensures Supplies(ctx, LocationErrors[k]) <==> "data" in ctx
  {
    LocationErrorHoles(k);
    NeedsOneVariable(ctx, LocationErrors[k], "data");
  }

  /** A weather-error message needs `data` with a `lat` and a `long`. */
  lemma WeatherErrorsNeedCoordinates(ctx: map<string, Value>, k: nat)
    requires k < |WeatherErrors|
    ensures Names(WeatherErrors[k]) == {"data"}
    ensures Supplies(ctx, WeatherErrors[k]) <==>
      "data" in ctx && AttrOf(ctx["data"], "lat").Some? && AttrOf(ctx["data"], "long").Some?
  {
    WeatherErrorHoles(k);
    NeedsTwoAttributes(ctx, WeatherErrors[k], "data", "lat", "long");
  }

  /** The weather report's variables are exactly the Weather field names, and it needs all four. */
  lemma WeatherReportsNeedWeatherFields(ctx: map<string, Value>, k: nat)
    requires k < |WeatherReports|
    ensures forall name :: name in Names(WeatherReports[k]) <==> name in WeatherFields
    ensures Supplies(ctx, WeatherReports[k]) <==> forall name :: name in WeatherFields ==> name in ctx
  {
    WeatherReportHoles(k);
    var names := ["time", "low_temperature", "high_temperature", "description"];
    NeedsFourVariables(ctx, WeatherReports[k], names);
    SameNames(names);
  }

  lemma SameNames(names: seq<string>)
    requires names == ["time", "low_temperature", "high_temperature", "description"]
    ensures forall name :: name in names <==> name in WeatherFields
  {
    assert WeatherFields == [names[1], names[2], names[3], names[0]];
  }

  /** Rendered with a Weather's `as_dict()`, the weather report finds every variable it uses. */
  lemma WeatherReportSuppliedByWeather(w: Weather, k: nat)
    requires k < |WeatherReports|
    ensures Supplies(DictOf(AsDict(w)), WeatherReports[k])
  {
    var d := AsDict(w);
    WeatherReportsNeedWeatherFields(DictOf(d), k);
    forall name | name in WeatherFields ensures name in DictOf(d) {
      var i :| 0 <= i < |WeatherFields| && WeatherFields[i] == name;
      assert d[i].0 == name;
    }
  }
}

/**
 * The query phrases: three ordered regular expressions that pull a location out
 * of a chat message, and the first-match driver that applies them.
 *
 *   1. `^[W,w]hat\'?s the weather in (.+)`
 *   2. `[W,w]eather in (.+)`
 *   3. `(.+) weather`
 *
 * Each rule is applied with `re.search`: the match may start anywhere (only
 * rule 1 is anchored, by its `^`), the leftmost starting index wins, and group 1
 * is the location. `.` is any character but a line feed, as without DOTALL, and
 * without MULTILINE `^` matches only at index 0. Each rule is written out as a
 * recogniser; no general regular-expression engine is modelled.
 */
module Phrases {
  import opened Wrappers
  import opened Texts

  datatype Rule =
    | WhatsTheWeatherIn   // ^[W,w]hat\'?s the weather in (.+)
    | WeatherIn           // [W,w]eather in (.+)
    | TrailingWeather     // (.+) weather

  /** `QUERY_PHRASES`, in declaration order. */
  const QueryPhrases: seq<Rule> := [WhatsTheWeatherIn, WeatherIn, TrailingWeather]

  /** The literal text of each pattern that follows its character class or its group. */
  const WhatsTail: string := "s the weather in "
  const EatherIn: string := "eather in "
  const SpaceWeather: string := " weather"

  /** `[W,w]`: the comma inside the brackets is itself a member of the class. */
  predicate InLeadingClass(c: char)
  {
    c == 'W' || c == ',' || c == 'w'
  }

  /** `.` without DOTALL. */
  predicate IsDot(c: char)
  {
    c != '\n'
  }

  /** The end of the longest run of `.` that starts at `i`: the next line feed, or the end of `s`. */
  function RunEnd(s: string, i: nat): (j: nat)
    requires i <= |s|
    ensures i <= j <= |s|
    ensures forall k :: i <= k < j ==> IsDot(s[k])
    ensures j == |s| || !IsDot(s[j])
    decreases |s| - i
  {
    if i == |s| || !IsDot(s[i]) then i else RunEnd(s, i + 1)
  }

  /** `(.+)` closing a pattern at index `i`: greedy, so all of the run of `.`, which must not be empty. */
  function CaptureRest(s: string, i: nat): Option<string>
    requires i <= |s|
  {
    var j := RunEnd(s, i);
    if i < j then Some(s[i..j]) else None
  }

  /** Rule 1 tried at index `i`; the optional apostrophe is tried present first, then absent. */
  function WhatsTheWeatherInAt(s: string, i: nat): Option<string>
    requires i <= |s|
  {
    if i != 0 || !(|s| > 0 && InLeadingClass(s[0]) && HasAt(s, 1, "hat")) then None
    else
      var withApostrophe :=
        if HasAt(s, 4, "'") && HasAt(s, 5, WhatsTail) then CaptureRest(s, 5 + |WhatsTail|) else None;
      if withApostrophe.Some? then withApostrophe
      else if HasAt(s, 4, WhatsTail) then CaptureRest(s, 4 + |WhatsTail|)
      else None
  }

  /** Rule 2 tried at index `i`. */
  function WeatherInAt(s: string, i: nat): Option<string>
    requires i <= |s|
  {
    if i < |s| && InLeadingClass(s[i]) && HasAt(s, i + 1, EatherIn) then CaptureRest(s, i + 1 + |EatherIn|)
    else None
  }

  /**
   * The backtracking of a greedy `(.+)` before ` weather`: the largest end `q` of
   * the group, with `i < q <= p`, at which ` weather` follows.
   */
  function LastWeatherAt(s: string, i: nat, p: nat): (r: Option<nat>)
    requires p <= |s|
    ensures r.Some? ==> i < r.value <= p && HasAt(s, r.value, SpaceWeather)
    ensures r.Some? ==> forall q :: r.value < q <= p ==> !HasAt(s, q, SpaceWeather)
    ensures r.None? ==> forall q :: i < q <= p ==> !HasAt(s, q, SpaceWeather)
    decreases p
  {
    if p <= i then None
    else if HasAt(s, p, SpaceWeather) then Some(p)
    else LastWeatherAt(s, i, p - 1)
  }

  /** Rule 3 tried at index `i`: the group runs from `i` to the last ` weather` on the line. */
  function TrailingWeatherAt(s: string, i: nat): Option<string>
    requires i <= |s|
  {
    match LastWeatherAt(s, i, RunEnd(s, i))
    case Some(p) => Some(s[i..p])
    case None => None
  }

  /** The location captured by `rule` when its match starts at index `i`. */
  function MatchAt(rule: Rule, s: string, i: nat): Option<string>
    requires i <= |s|
  {
    match rule
    case WhatsTheWeatherIn => WhatsTheWeatherInAt(s, i)
    case WeatherIn => WeatherInAt(s, i)
    case TrailingWeather => TrailingWeatherAt(s, i)
  }

  /** `re.search` from index `i` on: the start of the leftmost match, if there is one. */
  function LeftmostFrom(rule: Rule, s: string, i: nat): (r: Option<nat>)
    requires i <= |s|
    ensures r.Some? ==> i <= r.value <= |s| && MatchAt(rule, s, r.value).Some?
    ensures r.Some? ==> forall m :: i <= m < r.value ==> MatchAt(rule, s, m).None?
    ensures r.None? ==> forall k :: i <= k <= |s| ==> MatchAt(rule, s, k).None?
    decreases |s| - i
  {
    if MatchAt(rule, s, i).Some? then Some(i)
    else if i == |s| then None
    else LeftmostFrom(rule, s, i + 1)
  }

  /** `re.search(pattern, s).group(1)`, or None when the pattern does not match. */
  function Search(rule: Rule, s: string): (r: Option<string>)
    ensures r.Some? ==> exists i :: 0 <= i <= |s| && MatchAt(rule, s, i) == r
                          && forall m :: 0 <= m < i ==> MatchAt(rule, s, m).None?
    ensures r.None? ==> forall i :: 0 <= i <= |s| ==> MatchAt(rule, s, i).None?
  {
    match LeftmostFrom(rule, s, 0)
    case Some(k) => MatchAt(rule, s, k)
    case None => None
  }

  /** The location from the first rule, in order, that matches. */
  function FirstMatch(rules: seq<Rule>, s: string): (r: Option<string>)
    ensures r.Some? ==> exists k :: 0 <= k < |rules| && Search(rules[k], s) == r
                          && forall j :: 0 <= j < k ==> Search(rules[j], s).None?
    ensures r.None? ==> forall k :: 0 <= k < |rules| ==> Search(rules[k], s).None?
  {
    if rules == [] then None
    else
      var here := Search(rules[0], s);
      if here.Some? then here
      else
        var r := FirstMatch(rules[1..], s);
        assert forall k :: 1 <= k < |rules| ==> rules[k] == rules[1..][k - 1];
        r
  }

  /** The location that the query phrases extract from `text`, if any of them matches. */
  function ParseQuery(text: string): (r: Option<string>)
    ensures r.Some? ==> exists k :: 0 <= k < |QueryPhrases| && Search(QueryPhrases[k], text) == r
                          && forall j :: 0 <= j < k ==> Search(QueryPhrases[j], text).None?
    ensures r.None? ==> forall k :: 0 <= k < |QueryPhrases| ==> Search(QueryPhrases[k], text).None?
  {
    FirstMatch(QueryPhrases, text)
  }

  // ---------------------------------------------------------------------------
  // What a match of each rule is, stated without the recognisers.

  /** Group 1 is `loc`, starts at `i` and runs to the end of the line: `(.+)` at the end of a pattern. */
  ghost predicate RestOfLine(s: string, i: nat, loc: string)
  {
    && i + |loc| <= |s|
    && s[i..i + |loc|] == loc
    && loc != []
    && (forall k :: 0 <= k < |loc| ==> IsDot(loc[k]))
    && (i + |loc| == |s| || !IsDot(s[i + |loc|]))
  }

  /** `(.+) weather` can match `s[i..p + 8]`, with group 1 being `s[i..p]`. */
  ghost predicate WeatherEndsAt(s: string, i: nat, p: nat)
  {
    i < p && HasAt(s, p, SpaceWeather) && forall k :: i <= k < p ==> IsDot(s[k])
  }

  /** A match of `rule` starting at index `i` has group 1 equal to `loc`. */
  ghost predicate IsMatch(rule: Rule, s: string, i: nat, loc: string)
  {
    match rule
    case WhatsTheWeatherIn =>
      && i == 0 && |s| > 0 && InLeadingClass(s[0]) && HasAt(s, 1, "hat")
      && (|| (HasAt(s, 4, "'") && HasAt(s, 5, WhatsTail) && RestOfLine(s, 5 + |WhatsTail|, loc))
          || (HasAt(s, 4, WhatsTail) && RestOfLine(s, 4 + |WhatsTail|, loc)))
    case WeatherIn =>
      i < |s| && InLeadingClass(s[i]) && HasAt(s, i + 1, EatherIn) && RestOfLine(s, i + 1 + |EatherIn|, loc)
    case TrailingWeather =>
      // greedy: the end of the group is the last one at which the rest can match
      && WeatherEndsAt(s, i, i + |loc|) && s[i..i + |loc|] == loc
      && forall q :: i + |loc| < q ==> !WeatherEndsAt(s, i, q)
  }

  /** A match of `rule` starts at `i`, and none starts earlier. */
  ghost predicate IsLeftmostMatch(rule: Rule, s: string, i: nat, loc: string)
  {
    IsMatch(rule, s, i, loc) && forall k, l :: 0 <= k < i ==> !IsMatch(rule, s, k, l)
  }

  lemma CaptureRestIsRestOfLine(s: string, i: nat, loc: string)
    requires i <= |s|
    ensures CaptureRest(s, i) == Some(loc) <==> RestOfLine(s, i, loc)
  {
    var j := RunEnd(s, i);
    if RestOfLine(s, i, loc) {
      var e := i + |loc|;
      assert forall k :: i <= k < e ==> s[k] == loc[k - i] by {
        forall k | i <= k < e ensures s[k] == loc[k - i] { assert s[i..e][k - i] == s[k]; }
      }
      assert forall k :: i <= k < e ==> IsDot(s[k]);
      assert j == e;
    }
  }

  lemma MatchAtWhatsTheWeatherIn(s: string, i: nat, loc: string)
    requires i <= |s|
    ensures MatchAt(WhatsTheWeatherIn, s, i) == Some(loc) <==> IsMatch(WhatsTheWeatherIn, s, i, loc)
  {
    var n := |WhatsTail|;
    if 5 + n <= |s| { CaptureRestIsRestOfLine(s, 5 + n, loc); }
    if 4 + n <= |s| { CaptureRestIsRestOfLine(s, 4 + n, loc); }
    if HasAt(s, 4, "'") && HasAt(s, 4, WhatsTail) {
      HasAtChar(s, 4, "'", 0);
      HasAtChar(s, 4, WhatsTail, 0);
      assert false;
    }
  }

  lemma MatchAtWeatherIn(s: string, i: nat, loc: string)
    requires i <= |s|
    ensures MatchAt(WeatherIn, s, i) == Some(loc) <==> IsMatch(WeatherIn, s, i, loc)
  {
    if i < |s| && InLeadingClass(s[i]) && HasAt(s, i + 1, EatherIn) {
      CaptureRestIsRestOfLine(s, i + 1 + |EatherIn|, loc);
    }
  }

  /** Where `(.+) weather` can end, given where the line ends. */
  lemma WeatherEndsWithinLine(s: string, i: nat, q: nat)
    requires i <= |s|
    ensures WeatherEndsAt(s, i, q) <==> i < q <= RunEnd(s, i) && HasAt(s, q, SpaceWeather)
  {
  }

  lemma MatchAtTrailingWeather(s: string, i: nat, loc: string)
    requires i <= |s|
    ensures MatchAt(TrailingWeather, s, i) == Some(loc) <==> IsMatch(TrailingWeather, s, i, loc)
  {
    var j := RunEnd(s, i);
    forall q ensures WeatherEndsAt(s, i, q) <==> i < q <= j && HasAt(s, q, SpaceWeather) {
      WeatherEndsWithinLine(s, i, q);
    }
    var last := LastWeatherAt(s, i, j);
    if IsMatch(TrailingWeather, s, i, loc) {
      var p := i + |loc|;
      assert last.Some?;
      assert last.value == p;
    }
  }

  /** Each recogniser finds exactly the matches the pattern has at that index. */
  lemma {:induction false} MatchAtIsMatch(rule: Rule, s: string, i: nat, loc: string)
    requires i <= |s|
    ensures MatchAt(rule, s, i) == Some(loc) <==> IsMatch(rule, s, i, loc)
  {
    match rule
    case WhatsTheWeatherIn => MatchAtWhatsTheWeatherIn(s, i, loc);
    case WeatherIn => MatchAtWeatherIn(s, i, loc);
    case TrailingWeather => MatchAtTrailingWeather(s, i, loc);
  }

  /** `Search` is `re.search`: it yields group 1 of the leftmost match, and nothing when there is none. */
  lemma SearchIsLeftmostMatch(rule: Rule, s: string, loc: string)
    ensures Search(rule, s) == Some(loc) <==> exists i :: 0 <= i <= |s| && IsLeftmostMatch(rule, s, i, loc)
  {
    forall i, l | 0 <= i <= |s| ensures MatchAt(rule, s, i) == Some(l) <==> IsMatch(rule, s, i, l) {
      MatchAtIsMatch(rule, s, i, l);
    }
    var start := LeftmostFrom(rule, s, 0);
    if start.Some? {
      var k := start.value;
      if Search(rule, s) == Some(loc) {
        assert IsLeftmostMatch(rule, s, k, loc);
      }
      forall i | 0 <= i <= |s| && IsLeftmostMatch(rule, s, i, loc) ensures Search(rule, s) == Some(loc) {
        assert IsMatch(rule, s, k, MatchAt(rule, s, k).value);
        assert !(k < i) && !(i < k);
      }
    } else {
      forall i | 0 <= i <= |s| ensures !IsLeftmostMatch(rule, s, i, loc) {
        assert MatchAt(rule, s, i).None?;
      }
    }
  }
}

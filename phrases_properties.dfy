/** What the query phrases extract, for whole families of inputs and for the inputs the test suite uses. */
module PhrasesProperties {
  import opened Wrappers
  import opened Texts
  import opened Phrases

  /** Rule 1 can only match at the start of the text: its `^`. */
  lemma WhatsTheWeatherInAnchored(s: string, loc: string)
    ensures Search(WhatsTheWeatherIn, s) == Some(loc) <==> IsMatch(WhatsTheWeatherIn, s, 0, loc)
  {
    MatchAtIsMatch(WhatsTheWeatherIn, s, 0, loc);
    var start := LeftmostFrom(WhatsTheWeatherIn, s, 0);
    if start.Some? {
      assert start.value == 0;
    }
  }

  /** `(.+)` at the end of a pattern takes all of a text that has no line feed. */
  lemma CaptureToEnd(pre: string, x: string)
    requires x != [] && '\n' !in x
    ensures CaptureRest(pre + x, |pre|) == Some(x)
  {
    var s := pre + x;
    assert s[|pre|..|pre| + |x|] == x;
    assert forall k :: 0 <= k < |x| ==> IsDot(x[k]) by {
      forall k | 0 <= k < |x| ensures IsDot(x[k]) { assert x[k] in x; }
    }
    CaptureRestIsRestOfLine(s, |pre|, x);
  }

  /** The driver tries the rules in declaration order and stops at the first that matches. */
  lemma ParseQueryInOrder(s: string)
    ensures ParseQuery(s) == if Search(WhatsTheWeatherIn, s).Some? then Search(WhatsTheWeatherIn, s)
                             else if Search(WeatherIn, s).Some? then Search(WeatherIn, s)
                             else Search(TrailingWeather, s)
  {
    assert QueryPhrases[1..] == [WeatherIn, TrailingWeather];
    assert [WeatherIn, TrailingWeather][1..] == [TrailingWeather];
    assert [TrailingWeather][1..] == [];
    assert FirstMatch([TrailingWeather], s) == Search(TrailingWeather, s);
    assert FirstMatch([WeatherIn, TrailingWeather], s)
        == if Search(WeatherIn, s).Some? then Search(WeatherIn, s) else FirstMatch([TrailingWeather], s);
  }

  /** When rule 1 matches, the driver looks no further. */
  lemma FirstRuleWins(s: string)
    requires Search(WhatsTheWeatherIn, s).Some?
    ensures ParseQuery(s) == Search(WhatsTheWeatherIn, s)
  {
    ParseQueryInOrder(s);
  }

  lemma HasAtInPrefix(pre: string, x: string, i: nat, lit: string)
    requires HasAt(pre, i, lit)
    ensures HasAt(pre + x, i, lit)
  {
    assert (pre + x)[i..i + |lit|] == pre[i..i + |lit|];
  }

  /** The literal parts of rule 1 in "?hat's the weather in " and "?hats the weather in ". */
  lemma WhatsPrefixes(c: char)
    ensures HasAt([c] + "hat's the weather in ", 1, "hat")
    ensures HasAt([c] + "hat's the weather in ", 4, "'")
    ensures HasAt([c] + "hat's the weather in ", 5, WhatsTail)
    ensures HasAt([c] + "hats the weather in ", 1, "hat")
    ensures HasAt([c] + "hats the weather in ", 4, WhatsTail)
    ensures !HasAt([c] + "hats the weather in ", 4, "'")
  {
    var a := [c] + "hat's the weather in ";
    var b := [c] + "hats the weather in ";
    assert a[1..4] == "hat" && a[4..5] == "'" && a[5..22] == WhatsTail;
    assert b[1..4] == "hat" && b[4..21] == WhatsTail && b[4] == 's';
  }

  /**
   * Rule 1 accepts exactly 'W', ',' and 'w' as its first character, with or
   * without the apostrophe, and then yields the rest of the line.
   */
  lemma WhatsTheWeatherInLeadingClass(c: char, x: string)
    requires x != [] && '\n' !in x
    ensures Search(WhatsTheWeatherIn, [c] + "hat's the weather in " + x)
            == if c in {'W', ',', 'w'} then Some(x) else None
    ensures Search(WhatsTheWeatherIn, [c] + "hats the weather in " + x)
            == if c in {'W', ',', 'w'} then Some(x) else None
  {
    WithApostrophe(c, x);
    WithoutApostrophe(c, x);
  }

  lemma WithApostrophe(c: char, x: string)
    requires x != [] && '\n' !in x
    ensures Search(WhatsTheWeatherIn, [c] + "hat's the weather in " + x)
            == if InLeadingClass(c) then Some(x) else None
  {
    var a := [c] + "hat's the weather in ";
    var s := a + x;
    WhatsPrefixes(c);
    HasAtInPrefix(a, x, 1, "hat");
    HasAtInPrefix(a, x, 4, "'");
    HasAtInPrefix(a, x, 5, WhatsTail);
    CaptureToEnd(a, x);
    assert s[0] == c;
    WhatsTheWeatherInAnchored(s, x);
    if Search(WhatsTheWeatherIn, s).Some? {
      WhatsTheWeatherInAnchored(s, Search(WhatsTheWeatherIn, s).value);
    }
  }

  lemma WithoutApostrophe(c: char, x: string)
    requires x != [] && '\n' !in x
    ensures Search(WhatsTheWeatherIn, [c] + "hats the weather in " + x)
            == if InLeadingClass(c) then Some(x) else None
  {
    var b := [c] + "hats the weather in ";
    var s := b + x;
    WhatsPrefixes(c);
    HasAtInPrefix(b, x, 1, "hat");
    HasAtInPrefix(b, x, 4, WhatsTail);
    assert s[4] == 's';
    assert !HasAt(s, 4, "'");
    CaptureToEnd(b, x);
    assert s[0] == c;
    WhatsTheWeatherInAnchored(s, x);
    if Search(WhatsTheWeatherIn, s).Some? {
      WhatsTheWeatherInAnchored(s, Search(WhatsTheWeatherIn, s).value);
    }
  }

  /** "what's the weather in X" yields X. */
  lemma WhatsTheWeatherInYields(x: string)
    requires x != [] && '\n' !in x
    ensures ParseQuery("what's the weather in " + x) == Some(x)
  {
    WithApostrophe('w', x);
    assert "what's the weather in " + x == ['w'] + "hat's the weather in " + x;
    FirstRuleWins("what's the weather in " + x);
  }

  /** The apostrophe is optional: "whats the weather in X" yields X too. */
  lemma WhatsWithoutApostropheYields(x: string)
    requires x != [] && '\n' !in x
    ensures ParseQuery("whats the weather in " + x) == Some(x)
  {
    WithoutApostrophe('w', x);
    assert "whats the weather in " + x == ['w'] + "hats the weather in " + x;
    FirstRuleWins("whats the weather in " + x);
  }

  /** "weather in X" yields X: rule 1 fails on its first word and rule 2 matches at index 0. */
  lemma WeatherInYields(x: string)
    requires x != [] && '\n' !in x
    ensures ParseQuery("weather in " + x) == Some(x)
  {
    var pre := "w" + EatherIn;
    var s := pre + x;
    assert "weather in " + x == s;
    assert s[1] == 'e';
    if HasAt(s, 1, "hat") { HasAtChar(s, 1, "hat", 0); }
    assert MatchAt(WhatsTheWeatherIn, s, 0).None?;
    if Search(WhatsTheWeatherIn, s).Some? {
      WhatsTheWeatherInAnchored(s, Search(WhatsTheWeatherIn, s).value);
    }
    HasAtConcat("w", EatherIn, x);
    CaptureToEnd(pre, x);
    assert MatchAt(WeatherIn, s, 0) == Some(x);
    ParseQueryInOrder(s);
  }

  /** No rule 2 match, and so no rule 1 match, in a text without "eather in ". */
  lemma NoEatherIn(s: string)
    requires forall i :: !HasAt(s, i, EatherIn)
    ensures Search(WhatsTheWeatherIn, s).None?
    ensures Search(WeatherIn, s).None?
  {
    assert WhatsTail == "s the w" + EatherIn;
    if HasAt(s, 4, WhatsTail) { HasAtSuffix(s, 4, "s the w", EatherIn); }
    if HasAt(s, 5, WhatsTail) { HasAtSuffix(s, 5, "s the w", EatherIn); }
    assert MatchAt(WhatsTheWeatherIn, s, 0).None?;
    assert forall i :: 0 <= i <= |s| ==> MatchAt(WeatherIn, s, i).None?;
  }

  /** "X weather" yields X when nothing in it reads "eather in ". */
  lemma TrailingWeatherYields(x: string)
    requires x != [] && '\n' !in x
    requires forall i :: !HasAt(x + SpaceWeather, i, EatherIn)
    ensures ParseQuery(x + " weather") == Some(x)
  {
    var s := x + SpaceWeather;
    NoEatherIn(s);
    HasAtConcat(x, SpaceWeather, []);
    assert s + [] == s;
    assert s[0..|x|] == x;
    assert forall k :: 0 <= k < |x| ==> IsDot(s[k]) by {
      forall k | 0 <= k < |x| ensures IsDot(s[k]) { assert s[k] == x[k] && x[k] in x; }
    }
    assert WeatherEndsAt(s, 0, |x|);
    assert IsMatch(TrailingWeather, s, 0, x);
    MatchAtIsMatch(TrailingWeather, s, 0, x);
    ParseQueryInOrder(s);
  }

  /** Group 1 of any match is a non-empty piece of one line of the text. */
  lemma MatchIsNonEmpty(rule: Rule, s: string, i: nat, loc: string)
    requires IsMatch(rule, s, i, loc)
    ensures loc != [] && '\n' !in loc
    ensures exists j :: HasAt(s, j, loc)
  {
    var start: nat := match rule
      case WhatsTheWeatherIn =>
        if HasAt(s, 4, "'") && HasAt(s, 5, WhatsTail) && RestOfLine(s, 5 + |WhatsTail|, loc)
        then 5 + |WhatsTail| else 4 + |WhatsTail|
      case WeatherIn => i + 1 + |EatherIn|
      case TrailingWeather => i;
    assert HasAt(s, start, loc);
    assert forall j :: 0 <= j < |loc| ==> IsDot(loc[j]) by {
      forall j | 0 <= j < |loc| ensures IsDot(loc[j]) {
        assert loc[j] == s[start + j];
      }
    }
  }

  /** Every location that the phrases extract is a non-empty piece of one line of the text. */
  lemma ExtractedLocationIsNonEmpty(s: string, loc: string)
    requires ParseQuery(s) == Some(loc)
    ensures loc != [] && '\n' !in loc
    ensures exists i :: HasAt(s, i, loc)
  {
    var k :| 0 <= k < |QueryPhrases| && Search(QueryPhrases[k], s) == Some(loc);
    SearchIsLeftmostMatch(QueryPhrases[k], s, loc);
    var i :| 0 <= i <= |s| && IsLeftmostMatch(QueryPhrases[k], s, i, loc);
    MatchIsNonEmpty(QueryPhrases[k], s, i, loc);
  }

  /**
   * On a single line, rule 3's location is the text before the last " weather"
   * that is not at index 0.
   */
  lemma TrailingWeatherIsPrefix(s: string, loc: string)
    requires '\n' !in s
    requires Search(TrailingWeather, s) == Some(loc)
    ensures HasAt(s, 0, loc) && HasAt(s, |loc|, SpaceWeather)
    ensures forall q :: |loc| < q ==> !HasAt(s, q, SpaceWeather)
  {
    assert forall k :: 0 <= k < |s| ==> IsDot(s[k]) by {
      forall k | 0 <= k < |s| ensures IsDot(s[k]) { assert s[k] in s; }
    }
    SearchIsLeftmostMatch(TrailingWeather, s, loc);
    var i :| 0 <= i <= |s| && IsLeftmostMatch(TrailingWeather, s, i, loc);
    assert RunEnd(s, 0) == |s|;
    if MatchAt(TrailingWeather, s, 0).Some? {
      MatchAtIsMatch(TrailingWeather, s, 0, MatchAt(TrailingWeather, s, 0).value);
    }
    assert i == 0;
    forall q | |loc| < q ensures !HasAt(s, q, SpaceWeather) {
      assert !WeatherEndsAt(s, 0, q);
    }
  }

  // ---------------------------------------------------------------------------
  // The inputs of the test suite.

  const SanFrancisco: string := "San Francisco"

  /** A step for the verifier: the test's location literal is one non-empty line. */
  lemma SanFranciscoIsOneLine()
    ensures SanFrancisco != [] && '\n' !in SanFrancisco
  {
  }

  lemma SanFranciscoWeatherLacksEatherIn(i: nat)
    ensures !HasAt(SanFrancisco + SpaceWeather, i, EatherIn)
  {
    var s := SanFrancisco + SpaceWeather;
    if HasAt(s, i, EatherIn) {
      HasAtChar(s, i, EatherIn, 0);
    }
  }

  /** The first test phrase yields "San Francisco". */
  lemma WhatsTheWeatherInSanFrancisco()
    ensures ParseQuery("what's the weather in " + SanFrancisco) == Some(SanFrancisco)
  {
    SanFranciscoIsOneLine();
    WhatsTheWeatherInYields(SanFrancisco);
  }

  /** The second test phrase yields "San Francisco". */
  lemma WeatherInSanFrancisco()
    ensures ParseQuery("weather in " + SanFrancisco) == Some(SanFrancisco)
  {
    SanFranciscoIsOneLine();
    WeatherInYields(SanFrancisco);
  }

  /** The third test phrase yields "San Francisco". */
  lemma SanFranciscoWeather()
    ensures ParseQuery(SanFrancisco + " weather") == Some(SanFrancisco)
  {
    SanFranciscoIsOneLine();
    forall i ensures !HasAt(SanFrancisco + SpaceWeather, i, EatherIn) {
      SanFranciscoWeatherLacksEatherIn(i);
    }
    TrailingWeatherYields(SanFrancisco);
  }

  /** "asdf" matches none of the rules. */
  lemma AsdfMatchesNothing()
    ensures ParseQuery("asdf").None?
  {
    var s := "asdf";
    assert MatchAt(WhatsTheWeatherIn, s, 0).None?;
    assert forall i :: 0 <= i <= |s| ==> MatchAt(WeatherIn, s, i).None?;
    assert forall i :: 0 <= i <= |s| ==> MatchAt(TrailingWeather, s, i).None?;
    ParseQueryInOrder(s);
  }

  const WhatsThe: string := "what's the"

  lemma NoLaterWeather(q: nat)
    requires 10 < q
    ensures !HasAt(WhatsThe + SpaceWeather + " in " + SanFrancisco, q, SpaceWeather)
  {
    var s := WhatsThe + SpaceWeather + " in " + SanFrancisco;
    if HasAt(s, q, SpaceWeather) {
      HasAtChar(s, q, SpaceWeather, 1);
    }
  }

  lemma WhatsTheIsMatch()
    ensures IsMatch(TrailingWeather, WhatsThe + SpaceWeather + " in " + SanFrancisco, 0, WhatsThe)
  {
    var rest := " in " + SanFrancisco;
    var s := WhatsThe + SpaceWeather + " in " + SanFrancisco;
    assert s == WhatsThe + SpaceWeather + rest;
    HasAtConcat(WhatsThe, SpaceWeather, rest);
    assert s[0..10] == WhatsThe;
    assert forall k :: 0 <= k < 10 ==> IsDot(s[k]) by {
      assert '\n' !in WhatsThe;
      forall k | 0 <= k < 10 ensures IsDot(s[k]) { assert s[k] == WhatsThe[k]; }
    }
    assert WeatherEndsAt(s, 0, 10);
    forall q | |WhatsThe| < q ensures !WeatherEndsAt(s, 0, q) {
      NoLaterWeather(q);
    }
  }

  /** On its own, rule 3 reads "what's the" out of the first test phrase. */
  lemma TrailingWeatherAloneReadsWhatsThe()
    ensures Search(TrailingWeather, WhatsThe + SpaceWeather + " in " + SanFrancisco) == Some(WhatsThe)
  {
    var s := WhatsThe + SpaceWeather + " in " + SanFrancisco;
    WhatsTheIsMatch();
    assert IsLeftmostMatch(TrailingWeather, s, 0, WhatsThe);
    SearchIsLeftmostMatch(TrailingWeather, s, WhatsThe);
  }

  /**
   * Earlier rules take precedence: rule 3 alone would read "what's the" out of
   * the first test phrase, but rule 1 comes first and yields "San Francisco".
   */
  lemma EarlierRulesTakePrecedence()
    ensures Search(TrailingWeather, "what's the weather in " + SanFrancisco) == Some(WhatsThe)
    ensures ParseQuery("what's the weather in " + SanFrancisco) == Some(SanFrancisco)
  {
    assert "what's the weather in " == WhatsThe + SpaceWeather + " in ";
    assert "what's the weather in " + SanFrancisco == WhatsThe + SpaceWeather + " in " + SanFrancisco;
    TrailingWeatherAloneReadsWhatsThe();
    WhatsTheWeatherInSanFrancisco();
  }
}

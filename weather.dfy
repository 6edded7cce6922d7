/** The weather branch: the emoji classifier `get_weather_emoji` and the
    choice of reply made by `weather_command`. */
module Weather {
  import opened Wrappers
  import opened Text
  import opened Auth
  import opened Messages

  /** The eight emoji `get_weather_emoji` can return. */
  const SUN: string := "\U{2600}\U{FE0F}"
  const SUN_BEHIND_CLOUD: string := "\U{26C5}"
  const CLOUD: string := "\U{2601}\U{FE0F}"
  const RAIN: string := "\U{1F327}\U{FE0F}"
  const THUNDERSTORM: string := "\U{26C8}\U{FE0F}"
  const SNOWFLAKE: string := "\U{2744}\U{FE0F}"
  const FOG: string := "\U{1F32B}\U{FE0F}"
  const SUN_SMALL_CLOUD: string := "\U{1F324}\U{FE0F}"

  const ALL_EMOJI: set<string> :=
    {SUN, SUN_BEHIND_CLOUD, CLOUD, RAIN, THUNDERSTORM, SNOWFLAKE, FOG, SUN_SMALL_CLOUD}

  /** `get_weather_emoji`: lower-case the condition text, then try the
      keyword tests in order; the first that succeeds decides. */
  function WeatherEmoji(conditionText: string): (e: string)
    ensures e in ALL_EMOJI
  {
    var c := Lower(conditionText);
    if Contains(c, "sunny") || Contains(c, "clear") then SUN
    else if Contains(c, "partly cloudy") then SUN_BEHIND_CLOUD
    else if Contains(c, "cloudy") || Contains(c, "overcast") then CLOUD
    else if Contains(c, "rain") || Contains(c, "drizzle") then RAIN
    else if Contains(c, "thunder") || Contains(c, "storm") then THUNDERSTORM
    else if Contains(c, "snow") then SNOWFLAKE
    else if Contains(c, "mist") || Contains(c, "fog") then FOG
    else SUN_SMALL_CLOUD
  }

  // A reference definition of the classifier: an ordered table of keyword
  // rules read by a generic first-match search.

  datatype Rule = Rule(keywords: seq<string>, emoji: string)

  /** A rule applies when one of its keywords occurs in the text. */
  predicate Applies(rule: Rule, s: string)
  {
    exists k :: k in rule.keywords && Contains(s, k)
  }

  /** The emoji of the first rule that applies, or `otherwise`. */
  function FirstMatch(rules: seq<Rule>, s: string, otherwise: string): (e: string)
    ensures e == otherwise || exists j :: 0 <= j < |rules| && e == rules[j].emoji
  {
    if rules == [] then otherwise
    else if Applies(rules[0], s) then rules[0].emoji
    else FirstMatch(rules[1..], s, otherwise)
  }

  const RULES: seq<Rule> := [
    Rule(["sunny", "clear"], SUN),
    Rule(["partly cloudy"], SUN_BEHIND_CLOUD),
    Rule(["cloudy", "overcast"], CLOUD),
    Rule(["rain", "drizzle"], RAIN),
    Rule(["thunder", "storm"], THUNDERSTORM),
    Rule(["snow"], SNOWFLAKE),
    Rule(["mist", "fog"], FOG)
  ]

  /** No two outcomes of a table share an emoji. */
  ghost predicate DistinctOutcomes(rules: seq<Rule>, otherwise: string)
  {
    && (forall i, j :: 0 <= i < j < |rules| ==> rules[i].emoji != rules[j].emoji)
    && (forall i :: 0 <= i < |rules| ==> rules[i].emoji != otherwise)
  }

  /** The if/elif chain is the table search over `RULES` on the lower-cased
      text. */
  lemma EmojiIsFirstMatch(conditionText: string)
    ensures WeatherEmoji(conditionText) == FirstMatch(RULES, Lower(conditionText), SUN_SMALL_CLOUD)
  {
    var c := Lower(conditionText);
    AppliesPair(c, "sunny", "clear", SUN);
    AppliesSingle(c, "partly cloudy", SUN_BEHIND_CLOUD);
    AppliesPair(c, "cloudy", "overcast", CLOUD);
    AppliesPair(c, "rain", "drizzle", RAIN);
    AppliesPair(c, "thunder", "storm", THUNDERSTORM);
    AppliesSingle(c, "snow", SNOWFLAKE);
    AppliesPair(c, "mist", "fog", FOG);
    assert Applies(RULES[0], c) <==> Contains(c, "sunny") || Contains(c, "clear");
    assert Applies(RULES[1], c) <==> Contains(c, "partly cloudy");
    assert Applies(RULES[2], c) <==> Contains(c, "cloudy") || Contains(c, "overcast");
    assert Applies(RULES[3], c) <==> Contains(c, "rain") || Contains(c, "drizzle");
    assert Applies(RULES[4], c) <==> Contains(c, "thunder") || Contains(c, "storm");
    assert Applies(RULES[5], c) <==> Contains(c, "snow");
    assert Applies(RULES[6], c) <==> Contains(c, "mist") || Contains(c, "fog");
    var d := SUN_SMALL_CLOUD;
    assert FirstMatch(RULES[7..], c, d) == d;
    forall n | 0 <= n < 7
      ensures FirstMatch(RULES[n..], c, d)
           == if Applies(RULES[n], c) then RULES[n].emoji else FirstMatch(RULES[n + 1..], c, d)
    {
      assert RULES[n..][0] == RULES[n] && RULES[n..][1..] == RULES[n + 1..];
    }
    assert RULES[0..] == RULES;
  }

  lemma AppliesPair(s: string, a: string, b: string, emoji: string)
    ensures Applies(Rule([a, b], emoji), s) <==> Contains(s, a) || Contains(s, b)
  {
    assert a in [a, b] && b in [a, b];
  }

  lemma AppliesSingle(s: string, a: string, emoji: string)
    ensures Applies(Rule([a], emoji), s) <==> Contains(s, a)
  {
    assert a in [a];
  }

  lemma RulesHaveDistinctOutcomes()
    ensures DistinctOutcomes(RULES, SUN_SMALL_CLOUD)
  {
  }

  /** With distinct outcomes, the search returns rule `i`'s emoji exactly
      when rule `i` applies and no earlier rule does. */
  lemma {:induction false} FirstMatchIsRule(rules: seq<Rule>, s: string, otherwise: string, i: int)
    requires DistinctOutcomes(rules, otherwise)
    requires 0 <= i < |rules|
    ensures FirstMatch(rules, s, otherwise) == rules[i].emoji
        <==> Applies(rules[i], s) && forall j :: 0 <= j < i ==> !Applies(rules[j], s)
  {
    if i > 0 && !Applies(rules[0], s) {
      var rest := rules[1..];
      assert DistinctOutcomes(rest, otherwise) by {
        forall a, b | 0 <= a < b < |rest| ensures rest[a].emoji != rest[b].emoji {
          assert rest[a] == rules[a + 1] && rest[b] == rules[b + 1];
        }
      }
      FirstMatchIsRule(rest, s, otherwise, i - 1);
      assert forall j :: 0 <= j < i - 1 ==> rest[j] == rules[j + 1];
      assert (forall j :: 0 <= j < i ==> !Applies(rules[j], s))
         <==> (forall j :: 0 <= j < i - 1 ==> !Applies(rest[j], s));
    }
  }

  /** The search falls through to `otherwise` exactly when no rule applies. */
  lemma {:induction false} FirstMatchIsOtherwise(rules: seq<Rule>, s: string, otherwise: string)
    requires DistinctOutcomes(rules, otherwise)
    ensures FirstMatch(rules, s, otherwise) == otherwise
        <==> forall j :: 0 <= j < |rules| ==> !Applies(rules[j], s)
  {
    if rules != [] && !Applies(rules[0], s) {
      var rest := rules[1..];
      assert DistinctOutcomes(rest, otherwise) by {
        forall a, b | 0 <= a < b < |rest| ensures rest[a].emoji != rest[b].emoji {
          assert rest[a] == rules[a + 1] && rest[b] == rules[b + 1];
        }
      }
      FirstMatchIsOtherwise(rest, s, otherwise);
      assert forall j :: 0 <= j < |rest| ==> rest[j] == rules[j + 1];
    }
  }

  /** First match wins: the classifier gives the emoji of rule `i` of the
      table iff one of that rule's keywords occurs in the lower-cased text
      and no keyword of an earlier rule does. */
  lemma EmojiFirstMatchWins(conditionText: string, i: int)
    requires 0 <= i < |RULES|
    ensures WeatherEmoji(conditionText) == RULES[i].emoji
        <==> Applies(RULES[i], Lower(conditionText))
             && forall j :: 0 <= j < i ==> !Applies(RULES[j], Lower(conditionText))
  {
    EmojiIsFirstMatch(conditionText);
    RulesHaveDistinctOutcomes();
    FirstMatchIsRule(RULES, Lower(conditionText), SUN_SMALL_CLOUD, i);
  }

  /** The default emoji comes exactly from texts that contain no keyword. */
  lemma EmojiDefaultIffNoKeyword(conditionText: string)
    ensures WeatherEmoji(conditionText) == SUN_SMALL_CLOUD
        <==> forall j :: 0 <= j < |RULES| ==> !Applies(RULES[j], Lower(conditionText))
  {
    EmojiIsFirstMatch(conditionText);
    RulesHaveDistinctOutcomes();
    FirstMatchIsOtherwise(RULES, Lower(conditionText), SUN_SMALL_CLOUD);
  }

  /** The classifier ignores case: lower-casing the text first changes
      nothing. */
  lemma EmojiCaseInsensitive(conditionText: string)
    ensures WeatherEmoji(Lower(conditionText)) == WeatherEmoji(conditionText)
  {
    LowerIdempotent(conditionText);
  }

  /** "sunny" or "clear" beats every other keyword. */
  lemma SunnyOrClearBeatsAll(conditionText: string)
    requires Contains(Lower(conditionText), "sunny") || Contains(Lower(conditionText), "clear")
    ensures WeatherEmoji(conditionText) == SUN
  {
  }

  /** Every text with "partly cloudy" also contains "cloudy", and still gets
      the partly-cloudy emoji: the order of the tests is what decides. */
  lemma PartlyCloudyIsNotCloudy(conditionText: string)
    requires Contains(Lower(conditionText), "partly cloudy")
    requires !Contains(Lower(conditionText), "sunny") && !Contains(Lower(conditionText), "clear")
    ensures Contains(Lower(conditionText), "cloudy")
    ensures WeatherEmoji(conditionText) == SUN_BEHIND_CLOUD
  {
    ContainsInfix("partly ", "cloudy", "");
    assert "partly cloudy" == "partly " + "cloudy" + "";
    ContainsTransitive(Lower(conditionText), "partly cloudy", "cloudy");
  }

  /** Rain is tested before thunder: a text with both gets the rain emoji
      unless an earlier keyword occurs. */
  lemma RainBeatsThunder(conditionText: string)
    requires Contains(Lower(conditionText), "rain") && Contains(Lower(conditionText), "thunder")
    requires !Contains(Lower(conditionText), "sunny") && !Contains(Lower(conditionText), "clear")
    requires !Contains(Lower(conditionText), "cloudy") && !Contains(Lower(conditionText), "overcast")
    ensures WeatherEmoji(conditionText) == RAIN
  {
    var c := Lower(conditionText);
    if Contains(c, "partly cloudy") {
      PartlyCloudyIsNotCloudy(conditionText);
    }
  }

  /** "overcast" is tested before "fog". */
  lemma OvercastBeatsFog(conditionText: string)
    requires Contains(Lower(conditionText), "overcast")
    requires !Contains(Lower(conditionText), "sunny") && !Contains(Lower(conditionText), "clear")
    requires !Contains(Lower(conditionText), "partly cloudy")
    ensures WeatherEmoji(conditionText) == CLOUD
  {
  }

  /** Every keyword is written in Latin letters, so a condition text with no
      Latin letter at all, such as the Russian texts the provider sends for
      `lang=ru`, always gets the default emoji. */
  lemma NonLatinTextGetsDefault(conditionText: string)
    requires forall i :: 0 <= i < |conditionText| ==>
      !('A' <= conditionText[i] <= 'Z') && !('a' <= conditionText[i] <= 'z')
    ensures WeatherEmoji(conditionText) == SUN_SMALL_CLOUD
  {
    var c := Lower(conditionText);
    assert forall i :: 0 <= i < |c| ==> !('a' <= c[i] <= 'z');
    forall j, k | 0 <= j < |RULES| && k in RULES[j].keywords ensures !Contains(c, k) {
      assert k != [] && 'a' <= k[0] <= 'z';
      MissingCharExcludes(c, k, k[0]);
    }
    EmojiDefaultIffNoKeyword(conditionText);
  }

  // Sample condition texts, one lemma each.

  /** "Partly cloudy" gets the partly-cloudy emoji, not the cloud. */
  lemma EmojiOfPartlyCloudy()
    ensures WeatherEmoji("Partly cloudy") == SUN_BEHIND_CLOUD
  {
    var c := "partly cloudy";
    assert Lower("Partly cloudy") == c;
    MissingCharExcludes(c, "sunny", 's');
    MissingCharExcludes(c, "clear", 'e');
    ContainsInfix("", c, "");
    assert "" + c + "" == c;
  }

  lemma EmojiOfHeavyRain()
    ensures WeatherEmoji("Heavy rain") == RAIN
  {
    var c := "heavy rain";
    assert Lower("Heavy rain") == c;
    MissingCharExcludes(c, "sunny", 's');
    MissingCharExcludes(c, "clear", 'c');
    MissingCharExcludes(c, "partly cloudy", 'c');
    MissingCharExcludes(c, "cloudy", 'c');
    MissingCharExcludes(c, "overcast", 'c');
    ContainsInfix("heavy ", "rain", "");
    assert "heavy " + "rain" + "" == c;
  }

  lemma EmojiOfClear()
    ensures WeatherEmoji("Clear") == SUN
  {
    var c := "clear";
    assert Lower("Clear") == c;
    ContainsInfix("", c, "");
    assert "" + c + "" == c;
  }

  /** A text with no keyword gets the default emoji. */
  lemma EmojiOfUnknownCondition()
    ensures WeatherEmoji("Unknown condition") == SUN_SMALL_CLOUD
  {
    assert Lower("Unknown condition") == "unknown condition";
    UnknownConditionLacksSunKeywords();
    UnknownConditionLacksCloudKeywords();
    UnknownConditionLacksStormKeywords();
  }

  /** "unknown condition" has none of the first rule's keywords, nor those
      of the partly-cloudy rule. */
  lemma UnknownConditionLacksSunKeywords()
    ensures var c := "unknown condition";
      !Contains(c, "sunny") && !Contains(c, "clear") && !Contains(c, "partly cloudy")
  {
    var c := "unknown condition";
    MissingCharExcludes(c, "sunny", 's');
    MissingCharExcludes(c, "clear", 'l');
    MissingCharExcludes(c, "partly cloudy", 'p');
  }

  /** "unknown condition" has none of the keywords of the cloud and rain rules. */
  lemma UnknownConditionLacksCloudKeywords()
    ensures var c := "unknown condition";
      !Contains(c, "cloudy") && !Contains(c, "overcast") && !Contains(c, "rain") && !Contains(c, "drizzle")
  {
    var c := "unknown condition";
    MissingCharExcludes(c, "cloudy", 'l');
    MissingCharExcludes(c, "overcast", 'v');
    MissingCharExcludes(c, "rain", 'r');
    MissingCharExcludes(c, "drizzle", 'r');
  }

  /** "unknown condition" has none of the keywords of the storm, snow and fog
      rules. */
  lemma UnknownConditionLacksStormKeywords()
    ensures var c := "unknown condition";
      !Contains(c, "thunder") && !Contains(c, "storm") && !Contains(c, "snow")
      && !Contains(c, "mist") && !Contains(c, "fog")
  {
    var c := "unknown condition";
    MissingCharExcludes(c, "thunder", 'h');
    MissingCharExcludes(c, "storm", 's');
    MissingCharExcludes(c, "snow", 's');
    MissingCharExcludes(c, "mist", 'm');
    MissingCharExcludes(c, "fog", 'f');
  }

  // The reply of `weather_command`.

  /** The fixed location of every request. */
  const LOCATION: string := "Phuket,Thailand"

  /** The endpoint, up to the key parameter. */
  const ENDPOINT: string := "http://api.weatherapi.com/v1/current.json?key="

  /** The rest of the query after the key: the location and `lang=ru`. */
  const QUERY_TAIL: string := "&q=" + LOCATION + "&lang=ru"

  /** The request URL of a configured key: the endpoint, the key right after
      `key=`, then the location and the Russian-language parameter. The key
      can be read back from the URL, so distinct keys give distinct URLs. */
  function WeatherUrl(apiKey: string): (url: string)
    ensures ENDPOINT <= url
    ensures |url| == |ENDPOINT| + |apiKey| + |QUERY_TAIL|
    ensures url[|ENDPOINT|..|ENDPOINT| + |apiKey|] == apiKey
    ensures url[|url| - |QUERY_TAIL|..] == QUERY_TAIL
    ensures Contains(url, apiKey) && Contains(url, LOCATION)
  {
    var url := ENDPOINT + apiKey + QUERY_TAIL;
    ContainsInfix(ENDPOINT, apiKey, QUERY_TAIL);
    assert url == ENDPOINT + apiKey + "&q=" + LOCATION + "&lang=ru";
    ContainsInfix(ENDPOINT + apiKey + "&q=", LOCATION, "&lang=ru");
    url
  }

  /** Two keys give the same URL only if they are the same key. */
  lemma WeatherUrlInjective(k1: string, k2: string)
    requires WeatherUrl(k1) == WeatherUrl(k2)
    ensures k1 == k2
  {
    var u := WeatherUrl(k1);
    assert |k1| == |k2|;
    assert k1 == u[|ENDPOINT|..|ENDPOINT| + |k1|] == k2;
  }

  /** The static note sent when no key is configured. */
  const FALLBACK_TEXT: string :=
    "\U{1F334} Пхукет, Таиланд\n\n"
    + "\U{26A0}\U{FE0F} Для получения актуальной погоды нужен API ключ WeatherAPI.com\n\n"
    + "Обычная погода в Пхукете:\n"
    + "\U{1F321}\U{FE0F} Температура: 28-32\U{B0}C\n"
    + "\U{1F4A7} Влажность: 70-80%\n"
    + "\U{1F334} Тропический климат круглый год"

  /** `WEATHERAPI_KEY` counts as configured when it is set and not empty
      (Python's `if not api_key`). */
  predicate HasKey(apiKey: Option<string>): (b: bool)
    ensures apiKey == None ==> !b
    ensures apiKey == Some("") ==> !b
    ensures apiKey.Some? && apiKey.value != "" ==> b
  {
    apiKey.Some? && apiKey.value != ""
  }

  /** The fields of a provider answer that reach the reply. */
  datatype WeatherData = WeatherData(city: string, country: string, condition: string)

  /** What the HTTP round trip gives: a transport or status failure, or a
      body that either has every expected field (`Some`) or misses or
      garbles one (`None`, the `KeyError` and other exceptions). */
  datatype WeatherFetch =
    | RequestFailed
    | Received(data: Option<WeatherData>)

  /** The reply sent and the request made, if any. */
  datatype WeatherResult = WeatherResult(reply: Reply, request: Option<string>)

  /** `weather_command`: its own admission check, the credential test, then
      the provider's answer. */
  function WeatherCommand(allowed: set<int>, userId: int, apiKey: Option<string>, fetch: WeatherFetch): (r: WeatherResult)
    // A request is made only for an admitted user with a key, and goes to the key's URL.
    ensures r.request.Some? <==> IsUserAllowed(userId, allowed) && HasKey(apiKey)
    ensures r.request.Some? ==> r.request.value == WeatherUrl(apiKey.value)
    // Which reply, by case.
    ensures !IsUserAllowed(userId, allowed) <==> r.reply == Keyed(NotAuthorized)
    ensures r.reply == Plain(FALLBACK_TEXT) <==> IsUserAllowed(userId, allowed) && !HasKey(apiKey)
    ensures r.reply.Report? <==> r.request.Some? && fetch.Received? && fetch.data.Some?
    ensures r.reply == Keyed(WeatherError)
        <==> r.request.Some? && !(fetch.Received? && fetch.data.Some?)
    // A report carries the provider's fields and the classifier's emoji.
    ensures r.reply.Report? ==>
        var d := fetch.data.value;
        r.reply == Report(d.city, d.country, WeatherEmoji(d.condition), d.condition)
  {
    if !IsUserAllowed(userId, allowed) then
      WeatherResult(Keyed(NotAuthorized), None)
    else if !HasKey(apiKey) then
      WeatherResult(Plain(FALLBACK_TEXT), None)
    else
      var url := WeatherUrl(apiKey.value);
      match fetch
      case Received(Some(d)) =>
        WeatherResult(Report(d.city, d.country, WeatherEmoji(d.condition), d.condition), Some(url))
      case _ =>
        WeatherResult(Keyed(WeatherError), Some(url))
  }
}

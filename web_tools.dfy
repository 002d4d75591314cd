/**
  The tools that make one HTTP request or one search call and turn its
  outcome into a reply: `get_weather`, `search_web` and `fetch_joke`.
  The request itself is not modelled; how it ended is an argument.
 */
module WebTools {
  import opened PyStr
  import opened Wrappers

  /** How one HTTP GET ended: a response with its status code and decoded
      body text, or an exception raised anywhere inside the session
      (connecting, reading or decoding the body). */
  datatype HttpOutcome = Response(status: int, body: string) | Raised

  // ---- get_weather ----

  /** The lead-in of the reply to an exception. The literal is written in
      two parts because the verifier reads characters of one long literal
      only from its end. */
  const WeatherErrorLead := "An error occurred " + "while retrieving weather for "

  const WeatherPrefix := "https://wttr.in/"
  const WeatherSuffix := "?format=3"

  /** The URL `get_weather` requests: the city, pasted in unencoded,
      asking wttr.in for its one-line format. */
  function WeatherUrl(city: string): (url: string)
    ensures |url| == |WeatherPrefix| + |city| + |WeatherSuffix|
    ensures StartsWith(url, WeatherPrefix)
    ensures url[|url| - |WeatherSuffix|..] == WeatherSuffix
  {
    WeatherPrefix + city + WeatherSuffix
  }

  /** Reads the city back out of a weather URL. */
  function CityOfWeatherUrl(url: string): Option<string>
  {
    if |url| >= |WeatherPrefix| + |WeatherSuffix|
       && url[..|WeatherPrefix|] == WeatherPrefix
       && url[|url| - |WeatherSuffix|..] == WeatherSuffix
    then Some(url[|WeatherPrefix|..|url| - |WeatherSuffix|])
    else None
  }

  /** The requested URL names exactly the city asked for. */
  lemma WeatherUrlNamesCity(city: string)
    ensures CityOfWeatherUrl(WeatherUrl(city)) == Some(city)
  {
    var url := WeatherUrl(city);
    assert url[..|WeatherPrefix|] == WeatherPrefix;
    assert url[|url| - |WeatherSuffix|..] == WeatherSuffix;
    assert url[|WeatherPrefix|..|url| - |WeatherSuffix|] == city;
  }

  /** `get_weather`: status 200 gives the body with surrounding whitespace
      stripped; any other status gives the "could not retrieve" reply; an
      exception gives the "error occurred" reply. */
  function GetWeather(city: string, outcome: HttpOutcome): (reply: string)
    ensures outcome.Response? && outcome.status == 200 ==> reply == Strip(outcome.body)
    ensures outcome.Response? && outcome.status != 200 ==>
      reply == "Could not retrieve weather for " + city + "."
    ensures outcome.Raised? ==> reply == WeatherErrorLead + city + "."
  {
    match outcome
    case Response(status, body) =>
      if status == 200 then Strip(body) else "Could not retrieve weather for " + city + "."
    case Raised => WeatherErrorLead + city + "."
  }

  /** Whatever happened, the weather reply never starts or ends with
      whitespace. */
  lemma WeatherReplyStripped(city: string, outcome: HttpOutcome)
    ensures IsStripped(GetWeather(city, outcome))
  {
    var reply := GetWeather(city, outcome);
    if outcome.Raised? {
      assert reply[0] == 'A' && reply[|reply| - 1] == '.';
    } else if outcome.status != 200 {
      assert reply[0] == 'C' && reply[|reply| - 1] == '.';
    }
  }

  /** A weather report is the response body without its whitespace
      padding: a body that is some text padded with whitespace on both
      sides reports exactly that text. */
  lemma WeatherReportOfPaddedBody(city: string, pre: string, text: string, post: string)
    requires AllSpace(pre) && AllSpace(post) && IsStripped(text)
    ensures GetWeather(city, Response(200, pre + text + post)) == text
  {
    StripOfPadded(pre, text, post);
  }

  // ---- search_web ----

  /** How the DuckDuckGo search call ended: its result text, or an exception. */
  datatype SearchOutcome = Found(results: string) | SearchRaised

  /** `search_web`: the search result text verbatim, or an apology that
      quotes the query. */
  function SearchWeb(query: string, outcome: SearchOutcome): (reply: string)
    ensures outcome.Found? ==> reply == outcome.results
    ensures outcome.SearchRaised? ==>
      reply == "An error occurred while searching for '" + query + "'."
  {
    match outcome
    case Found(results) => results
    case SearchRaised => "An error occurred while searching for '" + query + "'."
  }

  // ---- fetch_joke ----

  /** A decoded JSON object, each value given by its text rendering (the
      text `str()` would produce); `None` when the body is not a JSON
      object. */
  type JsonObject = map<string, string>

  /** How the joke request ended. */
  datatype JokeOutcome = JokeResponse(status: int, payload: Option<JsonObject>) | JokeRaised

  const JokeUnavailable := "Could not retrieve a joke at this time."
  const JokeError := "An error occurred while fetching a joke."

  /** The joke line: set-up and punchline around a spaced dash. */
  function FormatJoke(setup: string, punchline: string): (joke: string)
    ensures StartsWith(joke, setup) && |joke| == |setup| + 3 + |punchline|
    ensures joke[|setup|..|setup| + 3] == " - " && joke[|setup| + 3..] == punchline
  {
    setup + " - " + punchline
  }

  /** The request produced a joke: status 200, a JSON object, and both keys. */
  predicate JokeDelivered(outcome: JokeOutcome) {
    outcome.JokeResponse? && outcome.status == 200 && outcome.payload.Some?
    && "setup" in outcome.payload.value && "punchline" in outcome.payload.value
  }

  /** `fetch_joke`: a non-200 status gives the "could not retrieve" reply;
      a 200 whose body is not a JSON object or lacks either key raises
      inside the `try` and so gives the "error occurred" reply, like any
      other exception. */
  function FetchJoke(outcome: JokeOutcome): (reply: string)
    ensures JokeDelivered(outcome) ==>
      reply == FormatJoke(outcome.payload.value["setup"], outcome.payload.value["punchline"])
    ensures outcome.JokeResponse? && outcome.status != 200 ==> reply == JokeUnavailable
    ensures !JokeDelivered(outcome) && !(outcome.JokeResponse? && outcome.status != 200) ==>
      reply == JokeError
  {
    match outcome
    case JokeResponse(status, payload) =>
      if status != 200 then JokeUnavailable
      else if payload.Some? && "setup" in payload.value && "punchline" in payload.value
      then FormatJoke(payload.value["setup"], payload.value["punchline"])
      else JokeError
    case JokeRaised => JokeError
  }

  /** A caller can tell a joke from a failure: the reply holds a dash
      exactly when a joke was delivered, since neither failure reply has
      one. */
  lemma JokeRecognisable(outcome: JokeOutcome)
    ensures JokeDelivered(outcome) <==> '-' in FetchJoke(outcome)
  {
    var reply := FetchJoke(outcome);
    if JokeDelivered(outcome) {
      var setup := outcome.payload.value["setup"];
      assert reply[|setup| + 1] == '-';
    } else {
      assert forall i :: 0 <= i < |JokeUnavailable| ==> JokeUnavailable[i] != '-';
      assert forall i :: 0 <= i < |JokeError| ==> JokeError[i] != '-';
    }
  }
}

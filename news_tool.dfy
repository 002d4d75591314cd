/**
  `read_news`: asks the DuckDuckGo news search (run on a worker thread) for
  up to five stories on a topic and formats them into one text. The search
  is not run; its outcome is an argument.
 */
module NewsTool {
  import opened PyStr
  import opened Wrappers

  /** One search result: a dictionary from field name to the text of its
      value. */
  type NewsItem = map<string, string>

  /** How the search ended: its result list (`None` when it returned
      nothing at all), or an exception anywhere inside the `try`. */
  datatype NewsOutcome = Fetched(results: Option<seq<NewsItem>>) | NewsRaised

  /** `item.get(key, default)`. */
  function Get(item: NewsItem, key: string, default: string): (v: string)
    ensures key in item ==> v == item[key]
    ensures key !in item ==> v == default
  {
    if key in item then item[key] else default
  }

  function Title(item: NewsItem): string { Get(item, "title", "Untitled") }
  function Source(item: NewsItem): string { Get(item, "source", "Unknown Source") }
  function Date(item: NewsItem): string { Get(item, "date", "") }

  /** The summary falls back from `body` to `snippet` to a fixed text. */
  function Summary(item: NewsItem): (summary: string)
    ensures "body" in item ==> summary == item["body"]
    ensures "body" !in item && "snippet" in item ==> summary == item["snippet"]
    ensures "body" !in item && "snippet" !in item ==> summary == "No details available."
  {
    Get(item, "body", Get(item, "snippet", "No details available."))
  }

  /** The first line of a story: title, then source and date in
      parentheses. */
  function Headline(item: NewsItem): string
  {
    "- " + Title(item) + " (" + Source(item) + ", " + Date(item) + ")\n"
  }

  /** One formatted story: its headline, then the summary on a line of its
      own, then a closing newline. */
  function Entry(item: NewsItem): (e: string)
    ensures StartsWith(e, Headline(item))
    ensures e[|Headline(item)|..] == "  Summary: " + Summary(item) + "\n"
  {
    Headline(item) + "  Summary: " + Summary(item) + "\n"
  }

  /** A result with no fields at all is shown with every default: its
      headline reads "- Untitled (Unknown Source, )" and its summary line
      says that no details are available. */
  lemma EntryOfEmptyItem()
    ensures Headline(map[]) == "- Untitled (Unknown Source, )\n"
    ensures Summary(map[]) == "No details available."
  {
    var empty: NewsItem := map[];
    assert Title(empty) == "Untitled" && Source(empty) == "Unknown Source" && Date(empty) == "";
  }

  function Header(topic: string): string { "Here is the latest news on " + topic + ":" }

  function NoNewsReply(topic: string): string
  {
    "I couldn't find any recent news stories regarding '" + topic + "'."
  }

  function NewsErrorReply(topic: string): string
  {
    "I encountered an error while searching for news on " + topic + "."
  }

  /** The formatted story of each result, in result order. */
  function Entries(results: seq<NewsItem>): (entries: seq<string>)
    ensures |entries| == |results|
    ensures forall k :: 0 <= k < |results| ==> entries[k] == Entry(results[k])
  {
    seq(|results|, k requires 0 <= k < |results| => Entry(results[k]))
  }

  /** Formatting one more result appends its story. */
  lemma EntriesAppend(results: seq<NewsItem>, i: nat)
    requires i < |results|
    ensures Entries(results[..i + 1]) == Entries(results[..i]) + [Entry(results[i])]
  {
    assert Entries(results[..i + 1])[i] == Entry(results[i]);
  }

  /** The text for a non-empty result list: `|results| + 1` pieces, the
      header and then one story per result in result order, joined with
      newlines. */
  function Report(topic: string, results: seq<NewsItem>): (r: string)
    ensures StartsWith(r, Header(topic))
  {
    Join("\n", [Header(topic)] + Entries(results))
  }

  /** The result list is absent or empty (Python's `not results`). */
  predicate NoResults(results: Option<seq<NewsItem>>) {
    results.None? || results.value == []
  }

  /** `read_news`. The list of pieces grows by one story per result, in
      order, and is joined at the end, as in the source. */
  method ReadNews(topic: string, outcome: NewsOutcome) returns (reply: string)
    ensures outcome.NewsRaised? ==> reply == NewsErrorReply(topic)
    ensures outcome.Fetched? && NoResults(outcome.results) ==> reply == NoNewsReply(topic)
    ensures outcome.Fetched? && !NoResults(outcome.results) ==>
      reply == Report(topic, outcome.results.value)
  {
    if outcome.NewsRaised? {
      return NewsErrorReply(topic);
    }
    if NoResults(outcome.results) {
      return NoNewsReply(topic);
    }
    var results := outcome.results.value;
    var formattedNews := [Header(topic)];
    for i := 0 to |results|
      invariant formattedNews == [Header(topic)] + Entries(results[..i])
    {
      EntriesAppend(results, i);
      formattedNews := formattedNews + [Entry(results[i])];
    }
    assert results[..|results|] == results;
    reply := Join("\n", formattedNews);
  }

  /** The report grows in result order: one more result appends a newline
      and its story, leaving what came before untouched. */
  lemma {:induction false} ReportAppend(topic: string, results: seq<NewsItem>, item: NewsItem)
    ensures Report(topic, results + [item]) == Report(topic, results) + "\n" + Entry(item)
  {
    var before := [Header(topic)] + Entries(results);
    assert [Header(topic)] + Entries(results + [item]) == before + [Entry(item)];
    JoinAppend("\n", before, Entry(item));
  }

  /** The report of the first `n` results is a prefix of the whole report. */
  lemma ReportPrefix(topic: string, results: seq<NewsItem>, n: nat)
    requires n <= |results|
    ensures StartsWith(Report(topic, results), Report(topic, results[..n]))
  {
    var pieces := [Header(topic)] + Entries(results);
    assert pieces[..n + 1] == [Header(topic)] + Entries(results[..n]);
    JoinPrefix("\n", pieces, n + 1);
  }

  /** Its length: the header, and a newline plus the story for each result. */
  lemma ReportLength(topic: string, results: seq<NewsItem>)
    ensures |Report(topic, results)| == |Header(topic)| + |results| + TotalLength(Entries(results))
  {
    var pieces := [Header(topic)] + Entries(results);
    JoinLength("\n", pieces);
    assert pieces[1..] == Entries(results);
  }
}

/** tools/search.js: a web search through the Serper API, rendered as a
    Markdown list of at most five results. The HTTP call is an input: the
    decoded `organic` field (absent or a list), or the message of the error
    the request threw. */
module Search {
  import opened Wrappers
  import opened Js
  import Seqs
  import Text

  /** One entry of `response.data.organic`; `None` marks an absent field. */
  datatype OrganicResult = OrganicResult(title: Option<string>, link: Option<string>, snippet: Option<string>)

  const MissingKey := "Error: Search API key not configured."
  const NoResults := "No results found."
  const ShownResults := 5

  /** The Markdown line for one result; absent fields render as `undefined`. */
  function ResultLine(r: OrganicResult): string
  {
    "- [" + ShowOrUndefined(r.title) + "](" + ShowOrUndefined(r.link) + "): " + ShowOrUndefined(r.snippet)
  }

  /** The first five results, or all of them when there are fewer. */
  function TopResults(results: seq<OrganicResult>): (r: seq<OrganicResult>)
    ensures |r| == if |results| < ShownResults then |results| else ShownResults
    ensures r == results[..|r|]
  {
    if |results| <= ShownResults then results else results[..ShownResults]
  }

  /** The text `webSearch(query)` resolves to, given the outcome of the request. */
  function WebSearch(apiKey: Option<string>, response: Result<Option<seq<OrganicResult>>, string>): (r: string)
    ensures !Truthy(apiKey) ==> r == MissingKey
    ensures Truthy(apiKey) && response.Err? ==> r == "Error performing search: " + response.error
    ensures Truthy(apiKey) && response == Ok(None) ==> r == NoResults
    ensures Truthy(apiKey) && response == Ok(Some([])) ==> r == NoResults
  {
    if !Truthy(apiKey) then MissingKey
    else match response
      case Err(message) => "Error performing search: " + message
      case Ok(organic) =>
        var results := if organic.Some? then organic.value else [];
        if |results| == 0 then NoResults
        else Text.Join(Seqs.Map(TopResults(results), ResultLine), "\n")
  }

  /** With results, the text starts with the first result's line and ends
      with the line of the last result shown, with no trailing newline. */
  lemma ResultsFraming(apiKey: Option<string>, results: seq<OrganicResult>)
    requires Truthy(apiKey) && |results| > 0
    ensures var r, n := WebSearch(apiKey, Ok(Some(results))), |TopResults(results)|;
      Text.StartsWith(r, ResultLine(results[0])) && Text.EndsWith(r, ResultLine(results[n - 1]))
  {
    Text.JoinEnds(Seqs.Map(TopResults(results), ResultLine), "\n");
  }

  /** Only the first five results are shown: anything after them is ignored. */
  lemma LaterResultsIgnored(apiKey: Option<string>, results: seq<OrganicResult>, more: seq<OrganicResult>)
    requires |results| >= ShownResults
    ensures WebSearch(apiKey, Ok(Some(results + more))) == WebSearch(apiKey, Ok(Some(results)))
  {
    assert TopResults(results + more) == TopResults(results);
  }

  /** A single result is shown as its own line, with no separator. */
  lemma SingleResultOneLine(apiKey: Option<string>, r: OrganicResult)
    requires Truthy(apiKey)
    ensures WebSearch(apiKey, Ok(Some([r]))) == ResultLine(r)
  {
  }

  /** One more result (while fewer than five are shown) adds exactly one
      line, after a newline. */
  lemma OneMoreResultOneMoreLine(apiKey: Option<string>, results: seq<OrganicResult>, r: OrganicResult)
    requires Truthy(apiKey) && 0 < |results| < ShownResults
    ensures WebSearch(apiKey, Ok(Some(results + [r])))
         == WebSearch(apiKey, Ok(Some(results))) + "\n" + ResultLine(r)
  {
    Seqs.MapAppend(results, [r], ResultLine);
    Text.JoinAppend(Seqs.Map(results, ResultLine), ResultLine(r), "\n");
  }
}

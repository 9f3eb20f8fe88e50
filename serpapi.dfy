/** The web-search adapter: the availability guard, the query parameters
    and their defaults, the mapping of HTTP failures to fixed messages, the
    parsing of a results page into a list (answer box first), and the text
    handed back to the language model.  The HTTP GET is the parameter
    `fetch`. */
module SerpApi {
  import opened Common

  const BaseUrl: string := "https://serpapi.com/search"
  const Engine: string := "google"
  const DefaultNum: int := 5
  const DefaultCountry: string := "us"
  const DefaultLanguage: string := "en"
  /** Request timeout, in milliseconds. */
  const Timeout: int := 10000

  const NotAvailable: string := "Web search service not available"
  const InvalidKey: string := "Invalid SERP API key"
  const RateLimited: string := "Search rate limit exceeded"
  const Unavailable: string := "Web search temporarily unavailable"
  const QuickAnswer: string := "Quick Answer"

  /** `isAvailable()`: `Boolean(apiKey)`. */
  predicate IsAvailable(apiKey: Option<string>)
  {
    Truthy(apiKey)
  }

  datatype SearchOptions = SearchOptions(num: Option<int>, country: Option<string>, language: Option<string>)

  /** The query string sent to the search API. */
  datatype SearchParams = SearchParams(apiKey: string, engine: string, q: Option<string>, num: int, gl: string, hl: string)

  datatype OrganicResult = OrganicResult(title: Option<string>, link: Option<string>, snippet: Option<string>, position: Option<int>)

  datatype AnswerBox = AnswerBox(answer: Option<string>, snippet: Option<string>)

  /** The fields of the response body the adapter reads. */
  datatype SearchData = SearchData(organicResults: Option<seq<OrganicResult>>, answerBox: Option<AnswerBox>)

  /** One entry of the parsed list; `isAnswerBox` is the `type: 'answer_box'`
      marker of the entry made from the answer box. */
  datatype SearchResult = SearchResult(title: Option<string>, link: Option<string>, snippet: Option<string>,
                                       position: Option<int>, isAnswerBox: bool)

  /** `options.x || default` for the three options. */
  function Params(apiKey: string, query: Option<string>, options: SearchOptions): (p: SearchParams)
    ensures p.apiKey == apiKey && p.engine == Engine && p.q == query
    ensures p.num == (if options.num.Some? && options.num.value != 0 then options.num.value else DefaultNum)
    ensures p.gl == (if Truthy(options.country) then options.country.value else DefaultCountry)
    ensures p.hl == (if Truthy(options.language) then options.language.value else DefaultLanguage)
  {
    SearchParams(apiKey, Engine, query,
                 if options.num.Some? && options.num.value != 0 then options.num.value else DefaultNum,
                 if Truthy(options.country) then options.country.value else DefaultCountry,
                 if Truthy(options.language) then options.language.value else DefaultLanguage)
  }

  /** With no options the query asks for five results from google.com in
      English for the US. */
  lemma DefaultParams(apiKey: string, query: Option<string>)
    ensures Params(apiKey, query, SearchOptions(None, None, None)) == SearchParams(apiKey, "google", query, 5, "us", "en")
  {
  }

  function FromOrganic(r: OrganicResult): SearchResult
  {
    SearchResult(r.title, r.link, r.snippet, r.position, false)
  }

  /** The entry made from the answer box: its `answer` when that is truthy,
      otherwise its `snippet`. */
  function FromAnswerBox(b: AnswerBox): (r: SearchResult)
    ensures r.title == Some(QuickAnswer) && r.link.None? && r.position.None? && r.isAnswerBox
    ensures r.snippet == if Truthy(b.answer) then b.answer else b.snippet
  {
    SearchResult(Some(QuickAnswer), None, if Truthy(b.answer) then b.answer else b.snippet, None, true)
  }

  /** `parseSearchResults(data)`: every organic result in order, preceded by
      one "Quick Answer" entry when the page has an answer box. */
  method ParseSearchResults(data: SearchData) returns (results: seq<SearchResult>)
    ensures results == ParsedResults(data)
  {
    results := [];
    if data.organicResults.Some? {
      var organic := data.organicResults.value;
      var i := 0;
      while i < |organic|
        invariant 0 <= i <= |organic|
        invariant |results| == i
        invariant forall k :: 0 <= k < i ==> results[k] == FromOrganic(organic[k])
      {
        results := results + [FromOrganic(organic[i])];
        i := i + 1;
      }
    }
    if data.answerBox.Some? {
      results := [FromAnswerBox(data.answerBox.value)] + results;
    }
  }

  /** The list `parseSearchResults` builds, as a value. */
  function ParsedResults(data: SearchData): (results: seq<SearchResult>)
    ensures var organic := if data.organicResults.Some? then data.organicResults.value else [];
            var offset := if data.answerBox.Some? then 1 else 0;
            && |results| == |organic| + offset
            && (data.answerBox.Some? ==> results[0] == FromAnswerBox(data.answerBox.value))
            && (forall i :: 0 <= i < |organic| ==> results[offset + i] == FromOrganic(organic[i]))
  {
    var organic := if data.organicResults.Some? then data.organicResults.value else [];
    var parsed := seq(|organic|, i requires 0 <= i < |organic| => FromOrganic(organic[i]));
    if data.answerBox.Some? then [FromAnswerBox(data.answerBox.value)] + parsed else parsed
  }

  /** The message `search` throws for a failed request. */
  function ErrorMessage(status: Option<int>): (m: string)
    ensures status == Some(401) ==> m == InvalidKey
    ensures status == Some(429) ==> m == RateLimited
    ensures status != Some(401) && status != Some(429) ==> m == Unavailable
  {
    if status == Some(401) then InvalidKey
    else if status == Some(429) then RateLimited
    else Unavailable
  }

  /** `search(query, options)`. */
  function Search(apiKey: Option<string>, query: Option<string>, options: SearchOptions,
                  fetch: SearchParams -> HttpResult<SearchData>): (r: Result<seq<SearchResult>>)
    ensures !IsAvailable(apiKey) ==> r == Err(NotAvailable)
    ensures IsAvailable(apiKey) ==>
              var sent := fetch(Params(apiKey.value, query, options));
              && (sent.HttpError? ==> r == Err(ErrorMessage(sent.status)))
              && (sent.Response? ==> r == Ok(ParsedResults(sent.data)))
  {
    if !IsAvailable(apiKey) then Err(NotAvailable)
    else
      match fetch(Params(apiKey.value, query, options))
      case HttpError(status, _) => Err(ErrorMessage(status))
      case Response(data) => Ok(ParsedResults(data))
  }

  /** Without a key the search fails the same way whatever the network would
      have answered: no request is made. */
  lemma UnavailableMakesNoRequest(apiKey: Option<string>, query: Option<string>, options: SearchOptions,
                                  f1: SearchParams -> HttpResult<SearchData>, f2: SearchParams -> HttpResult<SearchData>)
    requires !IsAvailable(apiKey)
    ensures Search(apiKey, query, options, f1) == Search(apiKey, query, options, f2) == Err(NotAvailable)
  {
  }

  /** The tool definition offered to the language model. */
  const ToolDef: ToolDefinition :=
    ToolDefinition("search_web",
                   "Search the web for current information about travel, destinations, weather, events, or any other topics",
                   [ToolParameter("query", "The search query", None),
                    ToolParameter("country", "Country code for localized results (e.g., \"us\", \"uk\", \"ca\")", Some("us"))],
                   ["query"])

  /** One line of the tool output: title, snippet, and the link in
      parentheses only when there is a (non-empty) link. */
  function FormatResult(r: SearchResult): (line: string)
    ensures Truthy(r.link) ==> line == Show(r.title) + ": " + Show(r.snippet) + " (" + r.link.value + ")"
    ensures !Truthy(r.link) ==> line == Show(r.title) + ": " + Show(r.snippet) + " "
  {
    Show(r.title) + ": " + Show(r.snippet) + " " + (if Truthy(r.link) then "(" + r.link.value + ")" else "")
  }

  function FormatResults(results: seq<SearchResult>): (parts: seq<string>)
    ensures |parts| == |results|
    ensures forall i :: 0 <= i < |results| ==> parts[i] == FormatResult(results[i])
  {
    seq(|results|, i requires 0 <= i < |results| => FormatResult(results[i]))
  }

  /** `executeFunction(functionCall)`: parses the arguments, searches with the
      given country and formats the results, one per paragraph. */
  function ExecuteFunction(apiKey: Option<string>, call: FunctionCall,
                           fetch: SearchParams -> HttpResult<SearchData>): (r: Result<string>)
    ensures call.arguments.Err? ==> r == Err(call.arguments.error)
    ensures call.arguments.Ok? ==>
              var args := call.arguments.value;
              var found := Search(apiKey, if "query" in args then Some(args["query"]) else None,
                                  SearchOptions(None, if "country" in args then Some(args["country"]) else None, None), fetch);
              && (found.Err? ==> r == Err(found.error))
              && (found.Ok? ==> r == Ok(Join(FormatResults(found.value), "\n\n")))
  {
    match call.arguments
    case Err(e) => Err(e)
    case Ok(args) =>
      var query := if "query" in args then Some(args["query"]) else None;
      var country := if "country" in args then Some(args["country"]) else None;
      match Search(apiKey, query, SearchOptions(None, country, None), fetch)
      case Err(e) => Err(e)
      case Ok(results) => Ok(Join(FormatResults(results), "\n\n"))
  }

  /** An answer box renders first, without a link. */
  lemma AnswerBoxRendersFirst(b: AnswerBox, organic: seq<OrganicResult>)
    requires Truthy(b.answer)
    ensures var lines := FormatResults(ParsedResults(SearchData(Some(organic), Some(b))));
            |lines| == |organic| + 1 && lines[0] == "Quick Answer: " + b.answer.value + " "
  {
  }
}

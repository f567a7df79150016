/** The dashboard's trend research box: a query form whose submit runs a
    grounded search and shows its answer with the sources it cites. */
module Dashboard {
  import opened Types
  import opened Text
  import opened Session
  import opened Gemini

  /** The submit button is disabled while a search runs or while the query
      box is empty (an all-white-space query leaves it enabled). */
  function SubmitDisabled(isSearching: bool, query: string): (disabled: bool)
    ensures !disabled <==> !isSearching && |query| > 0
  {
    isSearching || query == ""
  }

  /** A search starts only for a query that trimming does not empty, that
      is, one that is not all white space. */
  predicate SearchStarts(query: string)
  {
    !Blank(query)
  }

  /** The sources block is shown under an answer exactly when it cites something. */
  function ShowsSources(result: Option<SearchResult>): (shown: bool)
    ensures shown <==> result.Some? && |result.value.sources| > 0
  {
    match result
    case None => false
    case Some(r) => r.sources != []
  }

  /** A white-space query is the one case where the button can be pressed
      and nothing happens. */
  lemma BlankQueryEnabledButIgnored(query: string)
    requires query != "" && Blank(query)
    ensures !SubmitDisabled(false, query)
    ensures !SearchStarts(query)
  {
  }

  /** What the page holds while a search is in flight. */
  datatype Pending = Pending(query: string, isSearching: bool, result: Option<SearchResult>)

  class DashboardPage {
    const store: Store
    var searchQuery: string
    var isSearching: bool
    var searchResult: Option<SearchResult>
    /** The state at the moment the request was sent, if one was. */
    ghost var inFlight: Option<Pending>

    constructor (store: Store)
      ensures this.store == store
      ensures searchQuery == "" && !isSearching && searchResult == None && inFlight == None
    {
      this.store := store;
      searchQuery := "";
      isSearching := false;
      searchResult := None;
      inFlight := None;
    }

    /** The query box's change handler. */
    method EditQuery(text: string)
      modifies this
      ensures searchQuery == text
      ensures isSearching == old(isSearching) && searchResult == old(searchResult)
      ensures inFlight == old(inFlight)
    {
      searchQuery := text;
    }

    /** `handleSearch`, run to completion: a blank query changes nothing;
        otherwise the old answer is cleared and the spinner is on while the
        untrimmed query is searched in the current language, and afterwards
        the page shows the new answer, or no answer when the search failed
        (a missing key included), with the spinner off. */
    method HandleSearch(apiKey: Option<string>, model: Model)
      modifies this
      ensures !SearchStarts(old(searchQuery)) ==> unchanged(this)
      ensures SearchStarts(old(searchQuery)) ==>
        var call := SearchTrends(apiKey, old(searchQuery), store.language, model);
        && inFlight == Some(Pending(old(searchQuery), true, None))
        && (call.result.Ok? ==> searchResult == Some(call.result.value))
        && (call.result.Err? ==> searchResult == None)
        && !isSearching
        && searchQuery == old(searchQuery)
    {
      var blank := TrimsToEmpty(searchQuery);
      if blank {
        return;
      }
      isSearching := true;
      searchResult := None;
      inFlight := Some(Pending(searchQuery, isSearching, searchResult));

      var call := SearchTrends(apiKey, searchQuery, store.language, model);
      if call.result.Ok? {
        searchResult := Some(call.result.value);
      }
      isSearching := false;
    }
  }

  /** A completed search shows sources only when the search succeeded and
      the first candidate's grounding named at least one web page. */
  lemma ShownSourcesComeFromGrounding(apiKey: Option<string>, query: string, language: Language, model: Model)
    requires HasKey(apiKey)
    ensures var call := SearchTrends(apiKey, query, language, model);
      var shown := ShowsSources(if call.result.Ok? then Some(call.result.value) else None);
      var answer := model(SearchRequest(query, language));
      shown <==> answer.Ok? && GroundingSources(FirstCandidateChunks(answer.value)) != []
  {
  }
}

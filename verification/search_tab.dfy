/** The news search tab (src/components/chat/SearchTab.jsx). */
module SearchTab {
  import opened Js
  import opened Http
  import opened Sessions
  import Endpoints

  const SEARCH_FAILED: string := "Search failed. Please try again."

  datatype SearchState = SearchState(query: string, results: seq<NewsItem>, loading: bool)

  /** The search handler shared by both generations of the tab, which differ
      only in the text of the failure alert. A blank query does nothing.
      Otherwise the query goes out exactly as typed; a success replaces the
      results with `data.results || []`, a failure (or a null body, whose
      read throws) keeps the previous results and alerts `failed`. Loading
      ends either way. */
  function Search(st: SearchState, outcome: Outcome<Body<NewsItem>>, failed: string): (r: Step<SearchState>)
    requires outcome.Ok? ==> ListShaped(outcome.value, "results")
    ensures IsBlank(st.query) ==> r == Step(st, [])
    ensures !IsBlank(st.query) ==>
      && |r.effects| > 0
      && r.effects[0] == Call(Post(Endpoints.SEARCH, QueryPayload(st.query)))
      && !r.state.loading && r.state.query == st.query
    ensures !IsBlank(st.query) && outcome.Ok? && !outcome.value.NullBody? ==>
      && r.state.results == ListOrEmpty(outcome.value, "results").value
      && |r.effects| == 1
    ensures !IsBlank(st.query) && (outcome.Fail? || outcome.value.NullBody?) ==>
      && r.state.results == st.results
      && r.effects == [Call(Post(Endpoints.SEARCH, QueryPayload(st.query))), Alert(failed)]
  {
    if IsBlank(st.query) then Step(st, [])
    else
      var call := Call(Post(Endpoints.SEARCH, QueryPayload(st.query)));
      var found := if outcome.Ok? then ListOrEmpty(outcome.value, "results") else None;
      match found
      case Some(items) => Step(st.(results := items, loading := false), [call])
      case None => Step(st.(loading := false), [call, Alert(failed)])
  }

  /** Two alert texts give the same state, the same requests and effects
      that differ only in the alert itself. */
  lemma AlertTextOnly(st: SearchState, outcome: Outcome<Body<NewsItem>>, a: string, b: string)
    requires outcome.Ok? ==> ListShaped(outcome.value, "results")
    ensures Search(st, outcome, a).state == Search(st, outcome, b).state
    ensures Calls(Search(st, outcome, a).effects) == Calls(Search(st, outcome, b).effects)
    ensures |Search(st, outcome, a).effects| == |Search(st, outcome, b).effects|
    ensures forall i :: 0 <= i < |Search(st, outcome, a).effects| && !Search(st, outcome, a).effects[i].Alert? ==>
      Search(st, outcome, a).effects[i] == Search(st, outcome, b).effects[i]
    ensures forall i :: 0 <= i < |Search(st, outcome, a).effects| && Search(st, outcome, a).effects[i].Alert? ==>
      Search(st, outcome, a).effects[i] == Alert(a) && Search(st, outcome, b).effects[i] == Alert(b)
  {
    var x := Search(st, outcome, a);
    var y := Search(st, outcome, b);
    if !IsBlank(st.query) && (outcome.Fail? || outcome.value.NullBody?) {
      var q := Post(Endpoints.SEARCH, QueryPayload(st.query));
      assert x.effects == [] + [Call(q)] + [Alert(a)];
      assert y.effects == [] + [Call(q)] + [Alert(b)];
      CallsOfOne([], q, [Alert(a)]);
      CallsOfOne([], q, [Alert(b)]);
    } else if !IsBlank(st.query) {
      assert x.effects == y.effects;
    }
  }

  /** Whatever the previous results were, a search that succeeds shows the
      list of its own response and nothing of the old list. */
  lemma ResultsReplacedWholesale(a: SearchState, b: SearchState, outcome: Outcome<Body<NewsItem>>, failed: string)
    requires outcome.Ok? ==> ListShaped(outcome.value, "results")
    requires a.query == b.query && !IsBlank(a.query)
    requires outcome.Ok? && !outcome.value.NullBody?
    ensures Search(a, outcome, failed).state.results == Search(b, outcome, failed).state.results
    ensures Search(a, outcome, failed).effects == Search(b, outcome, failed).effects
  {
  }

  /** The effects of a search: one request for a non-blank query, and an
      alert, the only other effect, exactly when the search fails. */
  lemma SearchShape(st: SearchState, outcome: Outcome<Body<NewsItem>>, failed: string)
    requires outcome.Ok? ==> ListShaped(outcome.value, "results")
    ensures !IsBlank(st.query) ==>
      Calls(Search(st, outcome, failed).effects) == [Post(Endpoints.SEARCH, QueryPayload(st.query))]
    ensures Alert(failed) in Search(st, outcome, failed).effects <==>
      !IsBlank(st.query) && (outcome.Fail? || outcome.value.NullBody?)
    ensures forall e :: e in Search(st, outcome, failed).effects && !e.Call? ==> e == Alert(failed)
  {
    var r := Search(st, outcome, failed);
    if !IsBlank(st.query) {
      var q := Post(Endpoints.SEARCH, QueryPayload(st.query));
      if outcome.Fail? || outcome.value.NullBody? {
        assert r.effects == [] + [Call(q)] + [Alert(failed)];
        CallsOfOne([], q, [Alert(failed)]);
      } else {
        assert r.effects == [] + [Call(q)] + [];
        CallsOfOne([], q, []);
      }
    }
  }

  /** `handleSearch` of this tab: a blank query is a no-op; otherwise the
      query is posted once, the results are replaced only by a readable
      response, the alert "Search failed. Please try again." appears exactly
      when the search fails, and loading ends. */
  function HandleSearch(st: SearchState, outcome: Outcome<Body<NewsItem>>): (r: Step<SearchState>)
    requires outcome.Ok? ==> ListShaped(outcome.value, "results")
    ensures IsBlank(st.query) ==> r == Step(st, [])
    ensures !IsBlank(st.query) ==>
      Calls(r.effects) == [Post(Endpoints.SEARCH, QueryPayload(st.query))] && !r.state.loading
    ensures Alert(SEARCH_FAILED) in r.effects <==>
      !IsBlank(st.query) && (outcome.Fail? || outcome.value.NullBody?)
    ensures forall e :: e in r.effects && !e.Call? ==> e == Alert(SEARCH_FAILED)
    ensures !IsBlank(st.query) && outcome.Ok? && !outcome.value.NullBody? ==>
      r.state.results == ListOrEmpty(outcome.value, "results").value
    ensures IsBlank(st.query) || outcome.Fail? || outcome.value.NullBody? ==> r.state.results == st.results
  {
    SearchShape(st, outcome, SEARCH_FAILED);
    Search(st, outcome, SEARCH_FAILED)
  }

  /** The search button is disabled while a search is in flight. */
  predicate SearchEnabled(st: SearchState) {
    !st.loading
  }

  /** A click on the search button: nothing while a search is in flight,
      otherwise `handleSearch`, so a click posts a query exactly when the
      button is enabled and the query is not blank. */
  function OnSearchClick(st: SearchState, outcome: Outcome<Body<NewsItem>>): (r: Step<SearchState>)
    requires outcome.Ok? ==> ListShaped(outcome.value, "results")
    ensures Calls(r.effects) != [] <==> SearchEnabled(st) && !IsBlank(st.query)
    ensures !SearchEnabled(st) || IsBlank(st.query) ==> r == Step(st, [])
  {
    if SearchEnabled(st) then HandleSearch(st, outcome) else Step(st, [])
  }

  /** A key press in the query field: Enter calls `handleSearch`, with no
      loading check; any other key does nothing. */
  function OnKeyPress(st: SearchState, enter: bool, outcome: Outcome<Body<NewsItem>>): (r: Step<SearchState>)
    requires outcome.Ok? ==> ListShaped(outcome.value, "results")
    ensures !enter ==> r == Step(st, [])
    ensures enter ==> r == HandleSearch(st, outcome)
    ensures enter && !IsBlank(st.query) ==> Calls(r.effects) != []
  {
    if enter then HandleSearch(st, outcome) else Step(st, [])
  }

  /** Unlike the button, the Enter key does start a second search while one
      is in flight. */
  lemma EnterIgnoresLoading(st: SearchState, outcome: Outcome<Body<NewsItem>>)
    requires outcome.Ok? ==> ListShaped(outcome.value, "results")
    requires st.loading && !IsBlank(st.query)
    ensures !SearchEnabled(st)
    ensures Calls(OnKeyPress(st, true, outcome).effects) == [Post(Endpoints.SEARCH, QueryPayload(st.query))]
  {
  }
}

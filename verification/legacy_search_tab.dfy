/** The src/chat search tab (src/chat/SearchTab.jsx). It keeps the
    same state as the src/components/chat tab and runs the same handler. */
module LegacySearchTab {
  import opened Js
  import opened Http
  import opened Sessions
  import SearchTab
  import Endpoints

  const SEARCH_FAILED: string := "Search failed"

  /** `handleSearch`: the src/components/chat tab's handler, alerting "Search failed".
      Compared with that tab, the resulting state is always the same,
      the same requests go out, and the effects differ at most in the
      alert text. */
  function HandleSearch(st: SearchTab.SearchState, outcome: Outcome<Body<NewsItem>>): (r: Step<SearchTab.SearchState>)
    requires outcome.Ok? ==> ListShaped(outcome.value, "results")
    ensures r.state == SearchTab.HandleSearch(st, outcome).state
    ensures Calls(r.effects) == Calls(SearchTab.HandleSearch(st, outcome).effects)
    ensures |r.effects| == |SearchTab.HandleSearch(st, outcome).effects|
    ensures forall i :: 0 <= i < |r.effects| && !r.effects[i].Alert? ==>
      r.effects[i] == SearchTab.HandleSearch(st, outcome).effects[i]
    ensures forall i :: 0 <= i < |r.effects| && r.effects[i].Alert? ==>
      r.effects[i] == Alert(SEARCH_FAILED)
      && SearchTab.HandleSearch(st, outcome).effects[i] == Alert(SearchTab.SEARCH_FAILED)
  {
    SearchTab.AlertTextOnly(st, outcome, SEARCH_FAILED, SearchTab.SEARCH_FAILED);
    SearchTab.Search(st, outcome, SEARCH_FAILED)
  }
}

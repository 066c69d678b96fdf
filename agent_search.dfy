/**
 * The agent search page of src/components/search/AgentSearch.tsx: which
 * ranked list the page searches (the global one, or the selected area's),
 * the name / username search over it, and the area options it offers.
 */
module AgentSearch {
  import opened Wrappers
  import opened Seqs
  import opened Text
  import opened Rankings

  predicate IsArea(r: AreaRanking, area: string) {
    r.area == area
  }

  /** `areaRankings.find(ranking => ranking.area === area)`. */
  function FindArea(areaRankings: seq<AreaRanking>, area: string): (r: Option<AreaRanking>)
    ensures r.None? <==> forall i :: 0 <= i < |areaRankings| ==> !IsArea(areaRankings[i], area)
    ensures r.Some? ==>
      exists k :: 0 <= k < |areaRankings| && areaRankings[k] == r.value && IsArea(r.value, area) &&
        forall i :: 0 <= i < k ==> !IsArea(areaRankings[i], area)
  {
    var k := FindIndex(areaRankings, (r: AreaRanking) => IsArea(r, area));
    if k < 0 then None else Some(areaRankings[k])
  }

  /** `filteredAgents`: the global list when no area is selected, else that area's list, or none. */
  function AreaCandidates(topAgents: seq<AgentRanking>, areaRankings: seq<AreaRanking>, selectedArea: string)
    : (r: seq<AgentRanking>)
    ensures selectedArea == "" ==> r == topAgents
    ensures selectedArea != "" && FindArea(areaRankings, selectedArea).None? ==> r == []
    ensures selectedArea != "" && FindArea(areaRankings, selectedArea).Some? ==>
              r == FindArea(areaRankings, selectedArea).value.agents
  {
    if selectedArea == "" then topAgents
    else match FindArea(areaRankings, selectedArea)
      case None => []
      case Some(ranking) => ranking.agents
  }

  /** The search predicate: the name or the username contains the query, ignoring case. */
  predicate MatchesQuery(agent: AgentRanking, query: string) {
    ContainsIgnoringCase(agent.name, query) || ContainsIgnoringCase(agent.username, query)
  }

  /** `searchResults`: the candidates matching the query, in order. */
  function SearchResults(candidates: seq<AgentRanking>, query: string): (r: seq<AgentRanking>)
    ensures IsSubsequence(r, candidates)
    ensures forall a :: a in r <==> a in candidates && MatchesQuery(a, query)
    ensures forall a :: multiset(r)[a] == if MatchesQuery(a, query) then multiset(candidates)[a] else 0
  {
    FilterIsSubsequence(candidates, (a: AgentRanking) => MatchesQuery(a, query));
    FilterMembers(candidates, (a: AgentRanking) => MatchesQuery(a, query));
    FilterCounts(candidates, (a: AgentRanking) => MatchesQuery(a, query));
    Filter(candidates, (a: AgentRanking) => MatchesQuery(a, query))
  }

  /** An empty query keeps every candidate. */
  lemma EmptySearchKeepsAll(candidates: seq<AgentRanking>)
    ensures SearchResults(candidates, "") == candidates
  {
    forall i | 0 <= i < |candidates| ensures MatchesQuery(candidates[i], "") {
      EmptyQueryMatches(candidates[i].name);
    }
    FilterAll(candidates, (a: AgentRanking) => MatchesQuery(a, ""));
  }

  /** The area selector's options: the areas of the area rankings, in their order. */
  function AreaOptions(areaRankings: seq<AreaRanking>): (r: seq<string>)
    ensures |r| == |areaRankings|
    ensures forall i :: 0 <= i < |r| ==> r[i] == areaRankings[i].area
  {
    Map(areaRankings, (r: AreaRanking) => r.area)
  }

  /**
   * Over the rankings the hook computes, selecting one of the cities searches
   * the first 10 agents of the global list that serve it, with their global
   * ranks; a city outside the list gives nothing to search.
   */
  lemma SelectedCityCandidates(top: seq<AgentRanking>, cities: seq<string>, clients: seq<Client>, area: string)
    requires area != ""
    ensures area in cities ==>
      AreaCandidates(top, AreaRankings(top, cities, clients), area) == Take(Filter(top, InArea(area)), AreaListSize)
    ensures area !in cities ==> AreaCandidates(top, AreaRankings(top, cities, clients), area) == []
  {
    var rankings := AreaRankings(top, cities, clients);
    if area in cities {
      var i :| 0 <= i < |cities| && cities[i] == area;
      assert IsArea(rankings[i], area);
    } else {
      forall i | 0 <= i < |rankings| ensures !IsArea(rankings[i], area) {
        assert rankings[i].area == cities[i];
      }
    }
  }

  /** The page's selection state. */
  class SearchPage {
    var searchQuery: string
    var selectedArea: string

    constructor ()
      ensures searchQuery == "" && selectedArea == ""
    {
      searchQuery := "";
      selectedArea := "";
    }

    method SetSearchQuery(q: string)
      modifies this
      ensures searchQuery == q && selectedArea == old(selectedArea)
    {
      searchQuery := q;
    }

    method SetSelectedArea(area: string)
      modifies this
      ensures selectedArea == area && searchQuery == old(searchQuery)
    {
      selectedArea := area;
    }

    /** The list the page shows for the current selection. */
    function Results(topAgents: seq<AgentRanking>, areaRankings: seq<AreaRanking>): seq<AgentRanking>
      reads this
    {
      SearchResults(AreaCandidates(topAgents, areaRankings, selectedArea), searchQuery)
    }
  }
}

/**
  Argument normalisers shared by the Cassandra resolvers: the pipeline key
  a source filter selects, the three topic slots of a conjunctive query,
  and the date range.
 */
module Shared {
  import opened Js

  /** Every pipeline a message can come from. */
  const AllSources: seq<string> :=
    ["bing", "customevents", "tadaweb", "facebook", "twitter", "radio", "reddit", "instagram"]

  lemma AllSourcesAreDistinct()
    ensures |AllSources| == 8
    ensures forall i, j :: 0 <= i < j < |AllSources| ==> AllSources[i] != AllSources[j]
  {
  }

  const AllPipelines := "all"

  /**
    The one pipeline key a source filter selects: "all" for a missing or
    empty filter, otherwise its first source; the other sources are ignored.
   */
  function ToPipelineKey(sourceFilter: Option<seq<string>>): (key: string)
    ensures sourceFilter.None? || sourceFilter.value == [] ==> key == AllPipelines
    ensures sourceFilter.Some? && sourceFilter.value != [] ==> key == sourceFilter.value[0]
  {
    if sourceFilter.None? || |sourceFilter.value| == 0 then AllPipelines
    else sourceFilter.value[0]
  }

  /** Sources after the first never change the key. */
  lemma PipelineKeyIgnoresRest(first: string, rest: seq<string>, other: seq<string>)
    ensures ToPipelineKey(Some([first] + rest)) == ToPipelineKey(Some([first] + other)) == first
  {
  }

  /** The edges that go into the topic slots: the main edge and at most two filtered edges. */
  function SelectedEdges(mainEdge: string, filteredEdges: seq<string>): seq<string>
  {
    [mainEdge] + filteredEdges[..if |filteredEdges| < 2 then |filteredEdges| else 2]
  }

  /**
    The three topic slots of a conjunctive query. Without filtered edges they
    are the main edge and two nulls; otherwise the main edge and the first
    two filtered edges, sorted ascending, padded with trailing nulls. The
    caller's array is only read: the method may not modify it.
   */
  method ToConjunctionTopics(mainEdge: string, filteredEdges: array?<string>) returns (topics: seq<Option<string>>)
    ensures |topics| == 3
    ensures filteredEdges == null || filteredEdges.Length == 0 ==> topics == [Some(mainEdge), None, None]
    ensures filteredEdges != null && filteredEdges.Length > 0 ==>
      var selected := SelectedEdges(mainEdge, filteredEdges[..]);
      && (forall i :: 0 <= i < |selected| ==> topics[i].Some?)
      && (forall i :: |selected| <= i < 3 ==> topics[i] == None)
      && multiset(seq(|selected|, i requires 0 <= i < |selected| => topics[i].value)) == multiset(selected)
      && (forall i, j :: 0 <= i < j < |selected| ==> StrLeq(topics[i].value, topics[j].value))
  {
    if filteredEdges == null || filteredEdges.Length == 0 {
      return [Some(mainEdge), None, None];
    }
    var extraFilters := filteredEdges[..if filteredEdges.Length < 2 then filteredEdges.Length else 2];
    var sorted := Sort([mainEdge] + extraFilters);
    topics := seq(|sorted|, i requires 0 <= i < |sorted| => Some(sorted[i]));
    while |topics| < 3
      invariant |sorted| <= |topics| <= 3
      invariant forall i :: 0 <= i < |sorted| ==> topics[i] == Some(sorted[i])
      invariant forall i :: |sorted| <= i < |topics| ==> topics[i] == None
    {
      topics := topics + [None];
    }
    assert seq(|sorted|, i requires 0 <= i < |sorted| => topics[i].value) == sorted;
    forall i, j | 0 <= i < j < |sorted|
      ensures StrLeq(topics[i].value, topics[j].value)
    {
      SortedPairwise(sorted, i, j);
    }
  }

  /** The range a query covers; period and period type are always empty. */
  datatype DateRange<D> = DateRange(period: string, periodType: string, fromDate: D, toDate: D)

  function ParseFromToDate<D>(fromDate: D, toDate: D): (range: DateRange<D>)
    ensures range.fromDate == fromDate && range.toDate == toDate
    ensures range.period == "" && range.periodType == ""
  {
    DateRange("", "", fromDate, toDate)
  }
}

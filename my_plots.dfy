/** The allottee's own plots (`UserMyPlots`): its records, the search box,
    the status-colour cards and the status indicator. */
module MyPlots {
  import opened Lists
  import opened Text
  import opened Wrappers

  datatype Plot = Plot(
    plotId: string,
    industrialArea: string,
    zone: string,
    approvedArea: int,
    currentStatus: string,
    complianceRate: real,
    allotmentDate: string,
    statusColor: string)

  const Green := "#2E7D32"
  const Amber := "#F9A825"

  /** The three plots the page shows. */
  const Records: seq<Plot> := [
    Plot("CG-RAI-2024-0847", "Raipur Industrial Area", "Zone A", 5000, "Active - Compliant", 94.5,
         "2020-03-15", "#2E7D32"),
    Plot("CG-RAI-2024-0848", "Raipur Industrial Area", "Zone A", 8000, "Under Review", 88.2,
         "2021-07-22", "#F9A825"),
    Plot("CG-BHI-2024-0234", "Bhilai Industrial Complex", "Zone B", 6500, "Active - Compliant", 96.8,
         "2019-11-08", "#2E7D32")
  ]

  /** The search callback: the query, ignoring case, occurs in the plot id or
      in the area name. There is no test for an empty query. */
  predicate Matches(p: Plot, q: string)
  {
    IncludesIgnoringCase(p.plotId, q) || IncludesIgnoringCase(p.industrialArea, q)
  }

  /** The search callback for a fixed query. */
  function MatchesWith(q: string): Plot -> bool
  {
    p => Matches(p, q)
  }

  /** `filteredPlots`: the plots the query finds, in order. */
  function FilteredPlots(ps: seq<Plot>, q: string): (r: seq<Plot>)
    ensures IsSubsequence(r, ps)
    ensures forall i :: 0 <= i < |r| ==> r[i] in ps && Matches(r[i], q)
    ensures forall i :: 0 <= i < |ps| && Matches(ps[i], q) ==> ps[i] in r
    ensures forall x :: multiset(r)[x] == if Matches(x, q) then multiset(ps)[x] else 0
  {
    FilterMultiplicity(ps, MatchesWith(q));
    Filter(ps, MatchesWith(q))
  }

  /** The empty query lists every plot: every string contains "". */
  lemma EmptyQueryShowsAll(ps: seq<Plot>)
    ensures FilteredPlots(ps, "") == ps
  {
    forall i | 0 <= i < |ps| ensures Matches(ps[i], "") {
      ContainsEmpty(ToLower(ps[i].plotId));
    }
    FilterKeepsAll(ps, MatchesWith(""));
  }

  /** Two queries that differ only in letter case list the same plots. */
  lemma SearchIgnoresCase(ps: seq<Plot>, q1: string, q2: string)
    requires ToLower(q1) == ToLower(q2)
    ensures FilteredPlots(ps, q1) == FilteredPlots(ps, q2)
  {
    FilterAgrees(ps, MatchesWith(q1), MatchesWith(q2));
  }

  /** The query of the example below. */
  const BhilaiQuery := "bhilai"

  /** "bhilai" occurs in the third plot's area name. */
  lemma BhilaiHit()
    ensures Matches(Records[2], BhilaiQuery)
  {
    OccurrenceIncluded(Records[2].industrialArea, BhilaiQuery, 0);
  }

  /** The Raipur area name has no 'b' in either case, so "bhilai" misses it. */
  lemma RaipurAreaMisses()
    ensures !IncludesIgnoringCase("Raipur Industrial Area", BhilaiQuery)
  {
    MissingLowerNotIncluded("Raipur Industrial Area", BhilaiQuery, 0);
  }

  /** Neither Raipur plot id has a 'b' in either case. */
  lemma RaipurIdsMiss()
    ensures !IncludesIgnoringCase(Records[0].plotId, BhilaiQuery)
    ensures !IncludesIgnoringCase(Records[1].plotId, BhilaiQuery)
  {
    MissingLowerNotIncluded(Records[0].plotId, BhilaiQuery, 0);
    MissingLowerNotIncluded(Records[1].plotId, BhilaiQuery, 0);
  }

  /** Searching "bhilai" lists only CG-BHI-2024-0234, found by its area name
      (its id holds only "bhi"). */
  lemma BhilaiShowsOnePlot()
    ensures FilteredPlots(Records, BhilaiQuery) == [Records[2]]
  {
    BhilaiVerdicts();
    FilterPicks(Records, MatchesWith(BhilaiQuery), 2, 2);
  }

  /** Of the three plots, "bhilai" finds the third alone. */
  lemma BhilaiVerdicts()
    ensures forall i :: 0 <= i < |Records| ==> (MatchesWith(BhilaiQuery)(Records[i]) <==> i == 2)
  {
    var p := MatchesWith(BhilaiQuery);
    assert p(Records[2]) by { BhilaiHit(); }
    RaipurAreaMisses();
    RaipurIdsMiss();
  }

  function HasColor(color: string): Plot -> bool
  {
    (p: Plot) => p.statusColor == color
  }

  /** The Compliant card counts the green plots, the Under Review card the
      amber ones: the first and third, and the second. */
  lemma StatusColorCounts()
    ensures Count(Records, HasColor(Green)) == 2
    ensures Count(Records, HasColor(Amber)) == 1
  {
    ColorOf(Green, 0, 2);
    ColorOf(Amber, 1, 1);
  }

  /** A colour carried by exactly the plots j and k (one plot when j == k). */
  lemma ColorOf(color: string, j: int, k: int)
    requires 0 <= j <= k < |Records| && Records[j].statusColor == color && Records[k].statusColor == color
    requires forall i :: 0 <= i < |Records| && i != j && i != k ==> Records[i].statusColor != color
    ensures Count(Records, HasColor(color)) == if j == k then 1 else 2
  {
    FilterPicks(Records, HasColor(color), j, k);
  }

  datatype Indicator = NoIssues | UnderReview

  /** The status indicator: "No Issues" exactly for a green plot, "Under
      Review" for every other colour. */
  function StatusIndicator(p: Plot): (r: Indicator)
    ensures r == NoIssues <==> p.statusColor == Green
    ensures r == UnderReview <==> p.statusColor != Green
  {
    if p.statusColor == Green then NoIssues else UnderReview
  }

  /** The indicators agree with the cards: two plots show No Issues, one
      shows Under Review. */
  lemma IndicatorsOfRecords()
    ensures forall i :: 0 <= i < |Records| ==> (StatusIndicator(Records[i]) == UnderReview <==> i == 1)
  {
  }

  /** View Details: the plot id handed to the optional `onViewPlotDetail`
      callback, or nothing when the page was given no callback. */
  function ViewDetails(hasCallback: bool, p: Plot): (call: Option<string>)
    ensures call.Some? <==> hasCallback
    ensures call.Some? ==> call.value == p.plotId
  {
    if hasCallback then Some(p.plotId) else None
  }
}

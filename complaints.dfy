/** The allottee's complaint list (`UserComplaints`): its records, the
    status/search filter, the status cards and the View Details action. */
module Complaints {
  import opened Lists
  import opened Text
  import opened Wrappers

  datatype Complaint = Complaint(
    complaintId: string,
    plotId: string,
    issueType: string,
    submissionDate: string,
    status: string,
    lastUpdated: string,
    statusColor: string)

  /** The five complaints the page shows. */
  const Records: seq<Complaint> := [
    Complaint("CSIDC-2026-0142", "CG-RAI-2024-0847", "Incorrect Satellite Detection", "2026-02-10",
              "Under Review", "2 hours ago", "#F9A825"),
    Complaint("CSIDC-2026-0128", "CG-RAI-2024-0848", "Boundary Discrepancy", "2026-02-08",
              "Inspection Scheduled", "1 day ago", "#0F4C5C"),
    Complaint("CSIDC-2026-0095", "CG-BHI-2024-0234", "Utility Issue", "2026-02-01",
              "Resolved", "3 days ago", "#2E7D32"),
    Complaint("CSIDC-2026-0067", "CG-RAI-2024-0847", "Payment Dispute", "2026-01-25",
              "Rejected", "1 week ago", "#C62828"),
    Complaint("CSIDC-2026-0032", "CG-RAI-2024-0848", "Encroachment Complaint", "2026-01-15",
              "Submitted", "2 weeks ago", "#6B7C93")
  ]

  /** The values of the page's two filter controls. */
  datatype Filters = Filters(status: string, search: string)

  const InitialFilters := Filters("All", "")

  /** The filter callback as written: two early returns. */
  predicate Matches(c: Complaint, f: Filters)
  {
    if f.status != "All" && c.status != f.status then false
    else if f.search != "" && !IncludesIgnoringCase(c.complaintId, f.search)
            && !IncludesIgnoringCase(c.plotId, f.search) then false
    else true
  }

  function MatchesWith(f: Filters): Complaint -> bool
  {
    c => Matches(c, f)
  }

  /** A complaint is listed iff its status matches and the search finds its
      complaint id or its plot id. */
  predicate Selected(c: Complaint, f: Filters)
  {
    && (f.status == "All" || c.status == f.status)
    && (IncludesIgnoringCase(c.complaintId, f.search) || IncludesIgnoringCase(c.plotId, f.search))
  }

  /** `filteredComplaints`: the complaints that pass both tests, in order. */
  function FilteredComplaints(cs: seq<Complaint>, f: Filters): (r: seq<Complaint>)
    ensures IsSubsequence(r, cs)
    ensures forall i :: 0 <= i < |r| ==> r[i] in cs && Selected(r[i], f)
    ensures forall i :: 0 <= i < |cs| && Selected(cs[i], f) ==> cs[i] in r
    ensures forall x :: multiset(r)[x] == if Selected(x, f) then multiset(cs)[x] else 0
  {
    assert forall c :: Matches(c, f) == Selected(c, f) by {
      forall c ensures Matches(c, f) == Selected(c, f) {
        ContainsEmpty(ToLower(c.complaintId));
      }
    }
    FilterMultiplicity(cs, MatchesWith(f));
    Filter(cs, MatchesWith(f))
  }

  /** "All" with an empty search lists every complaint. */
  lemma NoFilterShowsAll(cs: seq<Complaint>)
    ensures FilteredComplaints(cs, InitialFilters) == cs
  {
    FilterKeepsAll(cs, MatchesWith(InitialFilters));
  }

  /** The plot ids of the first and fourth complaints contain "0847". */
  lemma SearchHits()
    ensures IncludesIgnoringCase(Records[0].plotId, "0847")
    ensures IncludesIgnoringCase(Records[3].plotId, "0847")
  {
    OccurrenceIncluded(Records[0].plotId, "0847", 12);
    OccurrenceIncluded(Records[3].plotId, "0847", 12);
  }

  /** An id without a '7' cannot contain "0847". */
  lemma LacksSevenMisses(s: string)
    requires forall i :: 0 <= i < |s| ==> s[i] != '7'
    ensures !IncludesIgnoringCase(s, "0847")
  {
    MissingLetterNotIncluded(s, "0847", 3);
  }

  /** No id of the other three complaints contains a '7'. */
  lemma SearchMisses()
    ensures forall k :: k in {1, 2, 4} ==>
      !IncludesIgnoringCase(Records[k].complaintId, "0847") && !IncludesIgnoringCase(Records[k].plotId, "0847")
  {
    forall k | k in {1, 2, 4}
      ensures !IncludesIgnoringCase(Records[k].complaintId, "0847") && !IncludesIgnoringCase(Records[k].plotId, "0847")
    {
      LacksSevenMisses(Records[k].complaintId);
      LacksSevenMisses(Records[k].plotId);
    }
  }

  /** Searching "0847" finds the two complaints about plot CG-RAI-2024-0847. */
  lemma SearchByPlot()
    ensures FilteredComplaints(Records, InitialFilters.(search := "0847")) == [Records[0], Records[3]]
  {
    SearchHits();
    SearchMisses();
    FilterPicks(Records, MatchesWith(InitialFilters.(search := "0847")), 0, 3);
  }

  function HasStatus(status: string): Complaint -> bool
  {
    (c: Complaint) => c.status == status
  }

  /** Status cards, computed over all complaints whatever the filters. */
  function StatusCount(status: string): nat
  {
    Count(Records, HasStatus(status))
  }

  /** The statuses the four cards count, in display order. */
  const CardStatuses: seq<string> := ["Under Review", "Inspection Scheduled", "Resolved", "Rejected"]

  /** Each card counts exactly one complaint: the complaint at the card's
      own position in the list. */
  lemma StatusCards()
    ensures forall k :: 0 <= k < |CardStatuses| ==> StatusCount(CardStatuses[k]) == 1
  {
    forall k | 0 <= k < |CardStatuses| ensures StatusCount(CardStatuses[k]) == 1 {
      UniqueStatus(CardStatuses[k], k);
    }
  }

  /** The fifth complaint is "Submitted", a status no card counts. */
  lemma SubmittedHasNoCard()
    ensures Records[4].status !in CardStatuses
  {
    forall k | 0 <= k < |CardStatuses| ensures CardStatuses[k] != Records[4].status {
      assert CardStatuses[k][0] != 'S';
    }
  }

  /** So the four cards add up to one less than the total of 5. */
  lemma CardsMissOne()
    ensures StatusCount(CardStatuses[0]) + StatusCount(CardStatuses[1])
            + StatusCount(CardStatuses[2]) + StatusCount(CardStatuses[3]) == |Records| - 1
  {
    StatusCards();
  }

  /** A status carried by exactly one complaint counts 1. */
  lemma UniqueStatus(status: string, k: int)
    requires 0 <= k < |Records| && Records[k].status == status
    requires forall j :: 0 <= j < |Records| && j != k ==> Records[j].status != status
    ensures StatusCount(status) == 1
  {
    FilterPicks(Records, HasStatus(status), k, k);
  }

  /** View Details: the id handed to the optional `onViewComplaint` callback,
      or nothing when the page was given no callback. */
  function ViewDetails(hasCallback: bool, c: Complaint): (call: Option<string>)
    ensures call.Some? <==> hasCallback
    ensures call.Some? ==> call.value == c.complaintId
  {
    if hasCallback then Some(c.complaintId) else None
  }
}

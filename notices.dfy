/** The allottee's notice board (`UserNotices`): its records, the category and
    priority filter, the High Priority card, the category icon and the
    download rule. */
module Notices {
  import opened Lists
  import opened Wrappers

  datatype Notice = Notice(
    id: string,
    title: string,
    category: string,
    date: string,
    priority: string,
    plotId: Option<string>,
    downloadable: bool,
    statusColor: string)

  /** The six notices the page shows (descriptions left out). */
  const Records: seq<Notice> := [
    Notice("NOT-2026-001", "Annual Compliance Inspection Scheduled", "Inspection", "2026-02-10",
           "High", Some("CG-RAI-2024-0847"), true, "#0F4C5C"),
    Notice("NOT-2026-002", "Minor Boundary Discrepancy Detected", "Alert", "2026-02-08",
           "High", Some("CG-RAI-2024-0848"), true, "#F9A825"),
    Notice("NOT-2026-003", "Quarterly Maintenance Fee Due", "Payment", "2026-02-05",
           "Medium", Some("CG-RAI-2024-0847"), false, "#C62828"),
    Notice("NOT-2026-004", "Compliance Certificate Issued", "Certificate", "2026-02-01",
           "Low", Some("CG-BHI-2024-0234"), true, "#2E7D32"),
    Notice("NOT-2026-005", "New Environmental Compliance Guidelines", "General", "2026-01-28",
           "Medium", None, true, "#0F4C5C"),
    Notice("NOT-2026-006", "Encroachment Complaint Resolution", "Compliance", "2026-01-25",
           "Low", Some("CG-RAI-2024-0848"), false, "#2E7D32")
  ]

  /** The values of the page's two filter controls. */
  datatype Filters = Filters(category: string, priority: string)

  const InitialFilters := Filters("All", "All")

  /** The filter callback as written: two early returns. */
  predicate Matches(n: Notice, f: Filters)
  {
    if f.category != "All" && n.category != f.category then false
    else if f.priority != "All" && n.priority != f.priority then false
    else true
  }

  /** The filter callback for fixed control values. */
  function MatchesWith(f: Filters): Notice -> bool
  {
    n => Matches(n, f)
  }

  /** A notice is listed iff both its category and its priority pass. */
  predicate Selected(n: Notice, f: Filters)
  {
    (f.category == "All" || n.category == f.category) && (f.priority == "All" || n.priority == f.priority)
  }

  /** `filteredNotices`: the notices that pass both tests, in order. */
  function FilteredNotices(ns: seq<Notice>, f: Filters): (r: seq<Notice>)
    ensures IsSubsequence(r, ns)
    ensures forall i :: 0 <= i < |r| ==> r[i] in ns && Selected(r[i], f)
    ensures forall i :: 0 <= i < |ns| && Selected(ns[i], f) ==> ns[i] in r
    ensures forall x :: multiset(r)[x] == if Selected(x, f) then multiset(ns)[x] else 0
  {
    FilterMultiplicity(ns, MatchesWith(f));
    Filter(ns, MatchesWith(f))
  }

  /** "All"/"All" lists every notice unchanged. */
  lemma NoFilterShowsAll(ns: seq<Notice>)
    ensures FilteredNotices(ns, InitialFilters) == ns
  {
    FilterKeepsAll(ns, MatchesWith(InitialFilters));
  }

  /** Filtering on both controls is filtering on the category, then on the
      priority. */
  lemma {:induction false} FiltersCompose(ns: seq<Notice>, category: string, priority: string)
    ensures FilteredNotices(ns, Filters(category, priority))
         == FilteredNotices(FilteredNotices(ns, Filters(category, "All")), Filters("All", priority))
  {
    var p, q := MatchesWith(Filters(category, "All")), MatchesWith(Filters("All", priority));
    FilterConjunction(ns, MatchesWith(Filters(category, priority)), p, q);
  }

  /** The only Inspection notice is High priority, so Inspection with Low
      lists nothing. */
  lemma InspectionLowShowsNothing()
    ensures FilteredNotices(Records, Filters("Inspection", "Low")) == []
  {
    FilterDropsAll(Records, MatchesWith(Filters("Inspection", "Low")));
  }

  function IsHighPriority(n: Notice): bool { n.priority == "High" }

  /** The High Priority card counts the first two notices, whatever the filters. */
  lemma HighPriorityCount()
    ensures Count(Records, IsHighPriority) == 2
  {
    FilterPicks(Records, IsHighPriority, 0, 1);
  }

  datatype Action = ViewDetails | DownloadPdf

  /** The buttons under a notice: View Details always, then Download PDF
      exactly when the notice is downloadable. */
  function Actions(n: Notice): (r: seq<Action>)
    ensures |r| >= 1 && r[0] == ViewDetails
    ensures DownloadPdf in r <==> n.downloadable
    ensures |r| <= 2
  {
    if n.downloadable then [ViewDetails, DownloadPdf] else [ViewDetails]
  }

  /** The "Plot: ..." line appears exactly when the notice has a non-empty
      plot id (an empty string is falsy and hides the line, as a missing one
      does). */
  function PlotLine(n: Notice): (r: Option<string>)
    ensures r.Some? <==> n.plotId.Some? && n.plotId.value != ""
    ensures r.Some? ==> r.value == "Plot: " + n.plotId.value
  {
    if n.plotId.Some? && n.plotId.value != "" then Some("Plot: " + n.plotId.value) else None
  }

  /** Only the General notice lacks a plot line. */
  lemma PlotLines()
    ensures forall i :: 0 <= i < |Records| ==> (PlotLine(Records[i]).None? <==> i == 4)
  {
  }

  datatype Icon = Calendar | AlertCircle | IndianRupee | CheckCircle | FileText | Bell

  /** `getCategoryIcon`: one icon per named category, the bell for "General"
      and for any other string. */
  function CategoryIcon(category: string): (icon: Icon)
    ensures icon == Calendar <==> category == "Inspection"
    ensures icon == AlertCircle <==> category == "Alert"
    ensures icon == IndianRupee <==> category == "Payment"
    ensures icon == CheckCircle <==> category == "Certificate"
    ensures icon == FileText <==> category == "Compliance"
    ensures icon == Bell <==> category !in ["Inspection", "Alert", "Payment", "Certificate", "Compliance"]
  {
    match category
    case "Inspection" => Calendar
    case "Alert" => AlertCircle
    case "Payment" => IndianRupee
    case "Certificate" => CheckCircle
    case "Compliance" => FileText
    case _ => Bell
  }

  /** Every category in the data but "General" has an icon of its own. */
  lemma GeneralGetsBell()
    ensures CategoryIcon("General") == Bell
    ensures forall i :: 0 <= i < |Records| && Records[i].category != "General" ==> CategoryIcon(Records[i].category) != Bell
  {
  }

  /** The badge colours: red on light red for High, orange on light orange
      for Medium, grey on light grey for anything else. */
  function PriorityBadge(priority: string): (colors: (string, string))
    ensures priority == "High" <==> colors == ("#FEE", "#C62828")
    ensures priority == "Medium" <==> colors == ("#FFF3E0", "#F57C00")
    ensures priority != "High" && priority != "Medium" <==> colors == ("#F4F6F8", "#6B7C93")
  {
    if priority == "High" then ("#FEE", "#C62828")
    else if priority == "Medium" then ("#FFF3E0", "#F57C00")
    else ("#F4F6F8", "#6B7C93")
  }
}

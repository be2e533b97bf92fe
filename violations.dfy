/** The admin violations list (`ViolationsPage`): its records, the filter the
    severity, status and search controls drive, the stat cards and the
    severity colour. */
module Violations {
  import opened Lists
  import opened Text

  datatype Violation = Violation(
    plotId: string,
    industrialArea: string,
    violationType: string,
    severity: string,
    detectionDate: string,
    status: string,
    allottee: string,
    deviation: int)

  /** The five records the page shows. */
  const Records: seq<Violation> := [
    Violation("CG-RAI-2024-0847", "Raipur Industrial Area", "Unauthorized Extension", "High",
              "2026-02-09", "Pending", "Sai Industries Pvt. Ltd.", 1200),
    Violation("CG-KOR-2024-0234", "Korba Industrial Zone", "Encroachment", "High",
              "2026-02-08", "Notice Issued", "Mineral Processing Corp.", 2400),
    Violation("CG-BIL-2024-0456", "Bilaspur Trade Center", "Minor Deviation", "Low",
              "2026-02-07", "Under Review", "Tech Solutions Ltd.", 150),
    Violation("CG-RAI-2024-0932", "Raipur Zone B", "Boundary Deviation", "Medium",
              "2026-02-06", "Under Review", "Modern Manufacturing Co.", 800),
    Violation("CG-DUR-2024-0789", "Durg Industrial Estate", "Vacant Plot Misuse", "Medium",
              "2026-02-05", "Pending", "Green Energy Corp.", 500)
  ]

  /** The values of the page's four filter controls. */
  datatype Filters = Filters(region: string, severity: string, status: string, search: string)

  const InitialFilters := Filters("All Regions", "All", "All", "")

  /** The filter callback as written: three early returns. */
  predicate Matches(v: Violation, f: Filters)
  {
    if f.severity != "All" && v.severity != f.severity then false
    else if f.status != "All" && v.status != f.status then false
    else if f.search != "" && !IncludesIgnoringCase(v.plotId, f.search)
            && !IncludesIgnoringCase(v.allottee, f.search) then false
    else true
  }

  /** The search box finds a record by plot id or by allottee, ignoring case. */
  predicate SearchFinds(v: Violation, q: string)
  {
    IncludesIgnoringCase(v.plotId, q) || IncludesIgnoringCase(v.allottee, q)
  }

  /** A record is listed iff it passes the severity, status and search tests. */
  predicate Selected(v: Violation, f: Filters)
  {
    && (f.severity == "All" || v.severity == f.severity)
    && (f.status == "All" || v.status == f.status)
    && SearchFinds(v, f.search)
  }

  /** `filteredViolations`: the records that pass every active test, in order. */
  function FilteredViolations(vs: seq<Violation>, f: Filters): (r: seq<Violation>)
    ensures IsSubsequence(r, vs)
    ensures forall i :: 0 <= i < |r| ==> r[i] in vs && Selected(r[i], f)
    ensures forall i :: 0 <= i < |vs| && Selected(vs[i], f) ==> vs[i] in r
    ensures forall x :: multiset(r)[x] == if Selected(x, f) then multiset(vs)[x] else 0
  {
    assert forall v :: Matches(v, f) == Selected(v, f) by {
      forall v ensures Matches(v, f) == Selected(v, f) {
        ContainsEmpty(ToLower(v.plotId));
      }
    }
    FilterMultiplicity(vs, MatchesWith(f));
    Filter(vs, MatchesWith(f))
  }

  /** The filter callback for fixed control values. */
  function MatchesWith(f: Filters): Violation -> bool
  {
    v => Matches(v, f)
  }

  function HasSeverity(severity: string): Violation -> bool
  {
    (v: Violation) => v.severity == severity
  }

  function HasStatus(status: string): Violation -> bool
  {
    (v: Violation) => v.status == status
  }

  /** Stat cards, computed over all records whatever the filters. */
  function TotalCount(): (n: nat)
    ensures n == 5
  {
    |Records|
  }

  function HighSeverityCount(): nat { Count(Records, HasSeverity("High")) }
  function PendingCount(): nat { Count(Records, HasStatus("Pending")) }
  function ResolvedCount(): nat { Count(Records, HasStatus("Resolved")) }

  /** The High Severity card counts the first two records. */
  lemma HighSeverityCard()
    ensures HighSeverityCount() == 2
  {
    FilterPicks(Records, HasSeverity("High"), 0, 1);
  }

  /** The Pending card counts the first and the last record. */
  lemma PendingCard()
    ensures PendingCount() == 2
  {
    StatusOfTwo("Pending", 0, 4);
  }

  /** No record is resolved, so the Resolved card reads 0. */
  lemma ResolvedCard()
    ensures ResolvedCount() == 0
  {
    FilterDropsAll(Records, HasStatus("Resolved"));
  }

  /** A status carried by exactly the records j and k counts 2. */
  lemma StatusOfTwo(status: string, j: int, k: int)
    requires 0 <= j < k < |Records| && Records[j].status == status && Records[k].status == status
    requires forall i :: 0 <= i < |Records| && i != j && i != k ==> Records[i].status != status
    ensures Count(Records, HasStatus(status)) == 2
  {
    FilterPicks(Records, HasStatus(status), j, k);
  }

  /** Severity "All", status "All" and an empty search list every record unchanged. */
  lemma NoFilterShowsAll(vs: seq<Violation>, region: string)
    ensures FilteredViolations(vs, Filters(region, "All", "All", "")) == vs
  {
    FilterKeepsAll(vs, MatchesWith(Filters(region, "All", "All", "")));
  }

  /** The region control is never read: changing it never changes the list. */
  lemma RegionIgnored(vs: seq<Violation>, f: Filters, region: string)
    ensures FilteredViolations(vs, f.(region := region)) == FilteredViolations(vs, f)
  {
    FilterAgrees(vs, MatchesWith(f.(region := region)), MatchesWith(f));
  }

  /** No record is "Resolved", so choosing that status empties the list. */
  lemma ResolvedShowsNothing(f: Filters)
    requires f.status == "Resolved"
    ensures FilteredViolations(Records, f) == []
  {
    forall i | 0 <= i < |Records| ensures !Matches(Records[i], f) {
      assert Records[i].status != f.status;
    }
    FilterDropsAll(Records, MatchesWith(f));
  }

  /** Two searches that differ only in letter case list the same records. */
  lemma SearchIgnoresCase(vs: seq<Violation>, f: Filters, q: string)
    requires ToLower(q) == ToLower(f.search)
    ensures FilteredViolations(vs, f.(search := q)) == FilteredViolations(vs, f)
  {
    forall v ensures Matches(v, f.(search := q)) == Matches(v, f) {
      ContainsEmpty(ToLower(v.plotId));
    }
    FilterAgrees(vs, MatchesWith(f.(search := q)), MatchesWith(f));
  }

  const Red := "#C62828"
  const Amber := "#F9A825"
  const Blue := "#3498DB"
  const Grey := "#6B7C93"

  /** `getSeverityColor`: High, Medium and Low each get their own colour,
      anything else the grey default. */
  function SeverityColor(severity: string): (c: string)
    ensures severity == "High" <==> c == Red
    ensures severity == "Medium" <==> c == Amber
    ensures severity == "Low" <==> c == Blue
    ensures severity != "High" && severity != "Medium" && severity != "Low" <==> c == Grey
  {
    match severity
    case "High" => Red
    case "Medium" => Amber
    case "Low" => Blue
    case _ => Grey
  }
}

/** The admin industrial-areas list (`IndustrialAreasPage`): its records, the
    district/status/search filter, the status colour, the violations tile
    highlight and the summary totals. */
module IndustrialAreas {
  import opened Lists
  import opened Text

  datatype IndustrialArea = IndustrialArea(
    id: string,
    name: string,
    district: string,
    region: string,
    totalPlots: int,
    occupiedPlots: int,
    vacantPlots: int,
    totalArea: int,
    violations: int,
    complianceRate: real,
    status: string,
    lastInspection: string)

  /** The six areas the page shows. */
  const Areas: seq<IndustrialArea> := [
    IndustrialArea("IA-RAI-001", "Raipur Industrial Area", "Raipur", "Central",
                   324, 298, 26, 245000, 5, 98.5, "Excellent", "2026-02-08"),
    IndustrialArea("IA-BHI-002", "Bhilai Industrial Complex", "Durg", "Central",
                   187, 165, 22, 178000, 13, 83.2, "Good", "2026-02-06"),
    IndustrialArea("IA-KOR-003", "Korba Industrial Zone", "Korba", "North",
                   156, 142, 14, 132000, 21, 74.8, "Needs Attention", "2026-02-05"),
    IndustrialArea("IA-DUR-004", "Durg Manufacturing Zone", "Durg", "Central",
                   203, 189, 14, 156000, 8, 92.1, "Excellent", "2026-02-07"),
    IndustrialArea("IA-BIL-005", "Bilaspur Trade Center", "Bilaspur", "North",
                   145, 128, 17, 98000, 6, 94.5, "Excellent", "2026-02-04"),
    IndustrialArea("IA-RAJ-006", "Rajnandgaon Industrial Estate", "Rajnandgaon", "Central",
                   98, 82, 16, 67000, 4, 95.9, "Excellent", "2026-02-03")
  ]

  /** The values of the page's three filter controls. */
  datatype Filters = Filters(search: string, district: string, status: string)

  const InitialFilters := Filters("", "All Districts", "All")

  /** The filter callback as written: three early returns. */
  predicate Matches(a: IndustrialArea, f: Filters)
  {
    if f.district != "All Districts" && a.district != f.district then false
    else if f.status != "All" && a.status != f.status then false
    else if f.search != "" && !IncludesIgnoringCase(a.name, f.search)
            && !IncludesIgnoringCase(a.district, f.search) then false
    else true
  }

  function MatchesWith(f: Filters): IndustrialArea -> bool
  {
    a => Matches(a, f)
  }

  /** A record is listed iff it passes the district, status and search tests;
      the search looks at the name and at the district. */
  predicate Selected(a: IndustrialArea, f: Filters)
  {
    && (f.district == "All Districts" || a.district == f.district)
    && (f.status == "All" || a.status == f.status)
    && (IncludesIgnoringCase(a.name, f.search) || IncludesIgnoringCase(a.district, f.search))
  }

  /** `filteredAreas`: the areas that pass every active test, in order. */
  function FilteredAreas(areas: seq<IndustrialArea>, f: Filters): (r: seq<IndustrialArea>)
    ensures IsSubsequence(r, areas)
    ensures forall i :: 0 <= i < |r| ==> r[i] in areas && Selected(r[i], f)
    ensures forall i :: 0 <= i < |areas| && Selected(areas[i], f) ==> areas[i] in r
    ensures forall x :: multiset(r)[x] == if Selected(x, f) then multiset(areas)[x] else 0
  {
    assert forall a :: Matches(a, f) == Selected(a, f) by {
      forall a ensures Matches(a, f) == Selected(a, f) {
        ContainsEmpty(ToLower(a.name));
      }
    }
    FilterMultiplicity(areas, MatchesWith(f));
    Filter(areas, MatchesWith(f))
  }

  /** "All Districts", "All" and an empty search list every area. */
  lemma NoFilterShowsAll(areas: seq<IndustrialArea>)
    ensures FilteredAreas(areas, InitialFilters) == areas
  {
    FilterKeepsAll(areas, MatchesWith(InitialFilters));
  }

  /** The Bhilai complex's name does not contain "durg". */
  lemma BhilaiNameLacksDurg()
    ensures !IncludesIgnoringCase(Areas[1].name, "durg")
  {
    MissingLetterNotIncluded(Areas[1].name, "durg", 3);
  }

  /** The search matches the district too: "durg" lists the Bhilai complex,
      whose district is Durg although its name does not contain "durg"
      (BhilaiNameLacksDurg). */
  lemma SearchCoversDistrict()
    ensures Areas[1] in FilteredAreas(Areas, Filters("durg", "All Districts", "All"))
  {
    var f := Filters("durg", "All Districts", "All");
    assert Selected(Areas[1], f) by {
      OccurrenceIncluded(Areas[1].district, "durg", 0);
    }
    ListsSelected(Areas, f, 1);
  }

  /** Every selected area is listed. */
  lemma ListsSelected(areas: seq<IndustrialArea>, f: Filters, i: int)
    requires 0 <= i < |areas| && Selected(areas[i], f)
    ensures areas[i] in FilteredAreas(areas, f)
  {
  }

  const Green := "#2E7D32"
  const Amber := "#F9A825"
  const Red := "#C62828"
  const Grey := "#6B7C93"

  /** `getStatusColor`. */
  function StatusColor(status: string): (c: string)
    ensures status == "Excellent" <==> c == Green
    ensures status == "Good" <==> c == Amber
    ensures status == "Needs Attention" <==> c == Red
    ensures status != "Excellent" && status != "Good" && status != "Needs Attention" <==> c == Grey
  {
    match status
    case "Excellent" => Green
    case "Good" => Amber
    case "Needs Attention" => Red
    case _ => Grey
  }

  /** The violations tile turns red above ten violations. */
  predicate ViolationsHighlighted(a: IndustrialArea) { a.violations > 10 }

  /** Summary tiles, computed over all areas whatever the filters. */
  function TotalPlots(): int { Sum(Areas, (a: IndustrialArea) => a.totalPlots) }
  function TotalViolations(): int { Sum(Areas, (a: IndustrialArea) => a.violations) }
  function AverageComplianceRate(): real
  {
    SumReal(Areas, (a: IndustrialArea) => a.complianceRate) / |Areas| as real
  }

  /** 1113 plots, 57 violations, and an average of 539.0 / 6, which one
      decimal place shows as 89.8. */
  lemma SummaryTotals()
    ensures TotalPlots() == 1113
    ensures TotalViolations() == 57
    ensures AverageComplianceRate() == 539.0 / 6.0
    ensures 89.75 <= AverageComplianceRate() < 89.85
  {
  }

  /** Only the Bhilai and Korba areas have their violations tile highlighted. */
  lemma HighlightedAreas()
    ensures Filter(Areas, ViolationsHighlighted) == [Areas[1], Areas[2]]
  {
  }
}

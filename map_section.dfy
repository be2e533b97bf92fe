/** The landing page's interactive map of industrial areas
    (`IndustrialMapSection`): its records, the four-control filter, marker
    colour and size, and the hover card's violation count. */
module IndustrialMap {
  import opened Lists
  import opened Text
  import opened Wrappers

  datatype IndustrialArea = IndustrialArea(
    id: string,
    name: string,
    district: string,
    totalPlots: int,
    occupied: int,
    vacant: int,
    encroachments: int,
    unauthorizedConstruction: int,
    complianceRate: real,
    status: string,
    x: int,
    y: int)

  /** The six areas the map shows; statuses are lower-case. */
  const Areas: seq<IndustrialArea> := [
    IndustrialArea("IA001", "Raipur Industrial Area", "Raipur", 324, 298, 26, 3, 2, 98.5, "compliant", 45, 55),
    IndustrialArea("IA002", "Bhilai Industrial Complex", "Durg", 187, 165, 22, 8, 5, 83.2, "moderate", 52, 48),
    IndustrialArea("IA003", "Korba Industrial Zone", "Korba", 156, 142, 14, 12, 9, 72.4, "high-risk", 58, 28),
    IndustrialArea("IA004", "Bilaspur Trade Center", "Bilaspur", 243, 228, 15, 4, 3, 94.7, "compliant", 65, 38),
    IndustrialArea("IA005", "Rajnandgaon Manufacturing Hub", "Rajnandgaon", 198, 175, 23, 11, 7, 80.1, "moderate", 38, 62),
    IndustrialArea("IA006", "Jagdalpur Industrial Estate", "Bastar", 89, 84, 5, 1, 1, 97.8, "compliant", 42, 82)
  ]

  /** The statuses an area can have. */
  predicate KnownStatus(status: string)
  {
    status == "compliant" || status == "moderate" || status == "high-risk"
  }

  /** The options of the compliance drop-down other than "All". */
  predicate ComplianceOption(o: string)
  {
    o == "Compliant" || o == "Moderate" || o == "High Risk"
  }

  /** The values of the map's four filter controls. */
  datatype Filters = Filters(district: string, compliance: string, search: string, highRiskOnly: bool)

  const InitialFilters := Filters("All Districts", "All", "", false)

  /** The filter callback as written: four early returns. */
  predicate Matches(a: IndustrialArea, f: Filters)
  {
    if f.district != "All Districts" && a.district != f.district then false
    else if f.compliance != "All" && a.status != f.compliance then false
    else if f.highRiskOnly && a.status != "high-risk" then false
    else if f.search != "" && !IncludesIgnoringCase(a.name, f.search) then false
    else true
  }

  function MatchesWith(f: Filters): IndustrialArea -> bool
  {
    a => Matches(a, f)
  }

  /** A record is listed iff it passes all four tests; the search looks at the
      name only. */
  predicate Selected(a: IndustrialArea, f: Filters)
  {
    && (f.district == "All Districts" || a.district == f.district)
    && (f.compliance == "All" || a.status == f.compliance)
    && (!f.highRiskOnly || a.status == "high-risk")
    && IncludesIgnoringCase(a.name, f.search)
  }

  /** `filteredAreas` as written: the areas that pass every test, in order. */
  function FilteredAreas(areas: seq<IndustrialArea>, f: Filters): (r: seq<IndustrialArea>)
    ensures IsSubsequence(r, areas)
    ensures forall i :: 0 <= i < |r| ==> r[i] in areas && Selected(r[i], f)
    ensures forall i :: 0 <= i < |areas| && Selected(areas[i], f) ==> areas[i] in r
    ensures forall x :: multiset(r)[x] == if Selected(x, f) then multiset(areas)[x] else 0
  {
    assert forall a :: Matches(a, f) == Selected(a, f) by {
      forall a ensures Matches(a, f) == Selected(a, f) {
        ContainsEmpty(ToLower(a.name));
      }
    }
    FilterMultiplicity(areas, MatchesWith(f));
    Filter(areas, MatchesWith(f))
  }

  /** With every control at its initial value the map shows every area. */
  lemma NoFilterShowsAll(areas: seq<IndustrialArea>)
    ensures FilteredAreas(areas, InitialFilters) == areas
  {
    FilterKeepsAll(areas, MatchesWith(InitialFilters));
  }

  /** The drop-down's options are capitalised and "High Risk" has a space,
      so none equals a status: choosing any of them empties the map. */
  lemma ComplianceOptionsMatchNothing(areas: seq<IndustrialArea>, f: Filters)
    requires forall i :: 0 <= i < |areas| ==> KnownStatus(areas[i].status)
    requires ComplianceOption(f.compliance)
    ensures FilteredAreas(areas, f) == []
  {
    FilterDropsAll(areas, MatchesWith(f));
  }

  /** "High Risk Only" alone leaves the Korba zone, the one high-risk area. */
  lemma HighRiskOnlyShowsKorba()
    ensures FilteredAreas(Areas, InitialFilters.(highRiskOnly := true)) == [Areas[2]]
  {
    FilterPicks(Areas, MatchesWith(InitialFilters.(highRiskOnly := true)), 2, 2);
  }

  /** Unlike the admin list, the map's search ignores the district: "durg"
      does not find the Bhilai complex, which lies in Durg district. */
  lemma SearchIgnoresDistrict()
    ensures Areas[1].district == "Durg"
    ensures Areas[1] !in FilteredAreas(Areas, InitialFilters.(search := "durg"))
  {
    var f := InitialFilters.(search := "durg");
    assert !Selected(Areas[1], f) by {
      MissingLetterNotIncluded(Areas[1].name, "durg", 3);
    }
  }

  /** The status a compliance option was evidently meant to select. */
  function StatusForOption(o: string): (status: string)
    ensures ComplianceOption(o) ==> KnownStatus(status)
    ensures !ComplianceOption(o) ==> status == o
  {
    match o
    case "Compliant" => "compliant"
    case "Moderate" => "moderate"
    case "High Risk" => "high-risk"
    case _ => o
  }

  /** The filter callback with the option translated to a status. */
  predicate MatchesCorrected(a: IndustrialArea, f: Filters)
  {
    Matches(a, f.(compliance := StatusForOption(f.compliance)))
  }

  function MatchesCorrectedWith(f: Filters): IndustrialArea -> bool
  {
    a => MatchesCorrected(a, f)
  }

  /** The filter with the compliance option translated to the status it names. */
  function CorrectedFilteredAreas(areas: seq<IndustrialArea>, f: Filters): (r: seq<IndustrialArea>)
    ensures IsSubsequence(r, areas)
    ensures forall i :: 0 <= i < |r| ==> r[i] in areas && Selected(r[i], f.(compliance := StatusForOption(f.compliance)))
    ensures forall i :: 0 <= i < |areas| && Selected(areas[i], f.(compliance := StatusForOption(f.compliance)))
              ==> areas[i] in r
    ensures forall x :: multiset(r)[x] == if Selected(x, f.(compliance := StatusForOption(f.compliance))) then multiset(areas)[x] else 0
  {
    var g := f.(compliance := StatusForOption(f.compliance));
    assert forall a :: MatchesCorrected(a, f) == Selected(a, g) by {
      forall a ensures MatchesCorrected(a, f) == Selected(a, g) {
        ContainsEmpty(ToLower(a.name));
      }
    }
    FilterMultiplicity(areas, MatchesCorrectedWith(f));
    Filter(areas, MatchesCorrectedWith(f))
  }

  /** Translated, "High Risk" shows the Korba zone, the one high-risk area,
      where the filter as written shows nothing. */
  lemma CorrectedHighRiskShowsKorba()
    ensures CorrectedFilteredAreas(Areas, InitialFilters.(compliance := "High Risk")) == [Areas[2]]
  {
    FilterPicks(Areas, MatchesCorrectedWith(InitialFilters.(compliance := "High Risk")), 2, 2);
  }

  /** Translated, "Moderate" shows the Bhilai and Rajnandgaon areas. */
  lemma CorrectedModerateShowsTwo()
    ensures CorrectedFilteredAreas(Areas, InitialFilters.(compliance := "Moderate")) == [Areas[1], Areas[4]]
  {
    FilterPicks(Areas, MatchesCorrectedWith(InitialFilters.(compliance := "Moderate")), 1, 4);
  }

  const Green := "#2E7D32"
  const Amber := "#F9A825"
  const Red := "#C62828"
  const Teal := "#0F4C5C"

  /** `getMarkerColor`: one colour per status, teal for anything else. */
  function MarkerColor(status: string): (c: string)
    ensures status == "compliant" <==> c == Green
    ensures status == "moderate" <==> c == Amber
    ensures status == "high-risk" <==> c == Red
    ensures !KnownStatus(status) <==> c == Teal
  {
    match status
    case "compliant" => Green
    case "moderate" => Amber
    case "high-risk" => Red
    case _ => Teal
  }

  /** Marker radius: selection wins over hovering, which wins over neither. */
  function MarkerSize(a: IndustrialArea, selected: Option<IndustrialArea>, hovered: Option<IndustrialArea>): (r: int)
    ensures r in {4, 6, 8}
    ensures r == 8 <==> selected.Some? && selected.value.id == a.id
    ensures r == 4 <==> !(selected.Some? && selected.value.id == a.id) && !(hovered.Some? && hovered.value.id == a.id)
  {
    var isSelected := selected.Some? && selected.value.id == a.id;
    var isHovered := hovered.Some? && hovered.value.id == a.id;
    if isSelected then 8 else if isHovered then 6 else 4
  }

  /** The hover card's "Active Violations". */
  function ActiveViolations(a: IndustrialArea): int
  {
    a.encroachments + a.unauthorizedConstruction
  }

  /** The hover card counts for the six areas. */
  lemma ActiveViolationsOfAreas()
    ensures seq(|Areas|, i requires 0 <= i < |Areas| => ActiveViolations(Areas[i])) == [5, 13, 21, 7, 18, 2]
  {
  }
}

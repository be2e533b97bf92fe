# CSIDC land-monitoring portal: verified model of its rules

The portal is a React prototype for the Chhattisgarh State Industrial
Development Corporation. Officers watch industrial plots for violations. Plot
holders ("allottees") see their plots, complaints and notices. All its data is
hard-coded, so its behaviour is a set of small rules inside the components.
This project restates those rules in Dafny and proves what they promise:

- **Navigation** (`app.dfy`): the application shell.
  - Its six state fields are held in a class, `Navigation.App`. Each handler
    is proved against a pure transition function.
  - The thirteen render guards are modelled as `VisiblePage`.
  - The invariant that no dashboard is current while signed out is proved
    preserved.
- **Risk** (`risk.dfy`): the satellite map's plot classifier.
  - It covers the height-violation tier, the clamped and rounded weighted risk
    score, the compliance cascade and the detection flags.
  - Arithmetic is over `real`, and `Math.round(x)` is `Floor(x + 0.5)`.
- **List screens**, each a filter callback over an in-memory array, plus
  counts or sums over the full array:
  - `Violations`, `IndustrialAreas`, `IndustrialMap`, `Complaints`,
    `Notices` and `MyPlots`;
  - every filter is proved to be the order-preserving subsequence of records
    that satisfy a declarative selection predicate, each kept with its
    multiplicity;
  - the page-specific facts and quirks are proved on the actual records.
- **Forms and UI state**: the sign-in dialog (`Login`), the grievance form
  (`RaiseIssue`) and the officers' dashboard header (`AdminDashboard`).
  - Each is a class whose methods are proved against pure transition
    functions.
  - Each mutating method also keeps its class's invariant; for the dashboard
    and the dialog's edits, the invariants are also proved over whole runs of
    events.
- **Shared helpers**: `Text` (ASCII `toLowerCase`, `includes`, `trim`) and
  `Lists` (`filter`, count, sums and the subsequence relation).

Timers are explicit steps:
- `Login.Completed` is the dialog's one-second callback. It sees the form as
  it was at submit time, so the pending login is a snapshot.
- `RaiseIssue.ResetFired` is one firing of the five-second reset. The number
  of timers still running is part of the state.

Behaviour the model exhibits as written:
- the violations list ignores its region control (`Violations.RegionIgnored`);
- after switching the user type while the dialog loads, the completed dialog
  shows the other type's default role (`Login.StaleRoleAfterSwitch`);
- with two quick submits, the first timer hides the second success message
  (`RaiseIssue.EarlierTimerHidesLaterSuccess`).

## Model

| member | source | states |
|---|---|---|
| Navigation.HomePage | src/App.tsx:36-41 | an officer lands on the dashboard and an allottee on the allottee dashboard, each a page of their own portal |
| Navigation.VisiblePage | src/App.tsx:71-167 | the rendered page is the current one; landing shows exactly when current, whatever the sign-in state; an officers' page needs a signed-in officer, an allottees' page a signed-in allottee; the detail pages need a non-empty selected id; signed out, nothing but landing shows |
| Navigation.VisibleIsRendered | src/App.tsx:71-167 | a page's guard holds exactly when it is the one page rendered, so at most one page is visible |
| Navigation.SignedIn | src/App.tsx:29-43 | an empty user id or password changes nothing; otherwise signed in with the given type, dialog closed, on that type's home page, selected ids kept |
| Navigation.SignedOut | src/App.tsx:45-49 | signed out, type reset to officer, landing page; selected ids and dialog untouched |
| Navigation.Navigated | src/App.tsx:51-57 | a dashboard requested while signed out opens the dialog and changes nothing else; any other request sets the page, unchecked |
| Navigation.PlotDetailOpened | src/App.tsx:59-62 | stores the plot id and switches to the plot page, nothing else |
| Navigation.ComplaintDetailOpened | src/App.tsx:64-67 | stores the complaint id and switches to the complaint page, nothing else |
| Navigation.LoginModalSet | src/App.tsx:169-173 | opening or closing the dialog changes only the dialog flag |
| Navigation.HandlersKeepInvariant | src/App.tsx:29-67 | every handler keeps "no dashboard is current while signed out" |
| Navigation.SignInShowsHome | src/App.tsx:29-43 | after a successful sign-in the signed-in type's home page is what renders |
| Navigation.SignOutShowsLanding | src/App.tsx:45-49 | after sign-out the landing page renders and no other page is visible |
| Navigation.DashboardNeedsSignIn | src/App.tsx:51-57 | asking for a dashboard while signed out opens the dialog and leaves the rendered page unchanged |
| Navigation.ComplaintDetailShown | src/App.tsx:154-160 | a signed-in allottee opening a complaint with a non-empty id sees the complaint page |
| Navigation.AllotteePlotDetailBlank | src/App.tsx:94-100 | as written, an allottee's View Details on their plot renders no page at all |
| Navigation.CorrectedVisiblePage | src/App.tsx:94-100 | the intended plot-page guard: any signed-in user with a selected plot; every other page keeps its guard; signed out still shows nothing but landing |
| Navigation.CorrectedPlotDetailShown | src/App.tsx:131-137 | with the corrected guard, View Details shows the plot page to allottees as well |
| Navigation.SignInFlow | src/App.tsx:169-173 | dialog and shell together: choose a type, type an id and password, submit, let the timer fire; the chosen type's home page shows, the dialog is closed |
| Navigation.App.constructor | src/App.tsx:22-27 | landing, signed out, officer type, nothing selected, dialog closed; the invariant holds |
| Navigation.App.HandleLogin | src/App.tsx:29-43 | the new state is `SignedIn` of the old; the no-dashboard-while-signed-out invariant is kept |
| Navigation.App.HandleLogout | src/App.tsx:45-49 | the new state is `SignedOut` of the old; the no-dashboard-while-signed-out invariant is kept |
| Navigation.App.NavigateToPage | src/App.tsx:51-57 | the new state is `Navigated` of the old; the no-dashboard-while-signed-out invariant is kept |
| Navigation.App.NavigateToPlotDetail | src/App.tsx:59-62 | the new state is `PlotDetailOpened` of the old; the no-dashboard-while-signed-out invariant is kept |
| Navigation.App.NavigateToComplaintDetail | src/App.tsx:64-67 | the new state is `ComplaintDetailOpened` of the old; the no-dashboard-while-signed-out invariant is kept |
| Navigation.App.SetLoginModalOpen | src/App.tsx:171 | the new state is `LoginModalSet` of the old; the no-dashboard-while-signed-out invariant is kept |
| Risk.HeightViolationStatus | src/components/Sentinel2MonitoringMap.tsx:120-128 | critical iff above the zoning limit; otherwise high iff the excess over the approved height is above 2, medium iff in (0.5, 2], compliant iff at most 0.5 |
| Risk.Round | src/components/Sentinel2MonitoringMap.tsx:140 | the result is within half a unit of the input, halves rounding up |
| Risk.Clamp | src/components/Sentinel2MonitoringMap.tsx:136-138 | the result lies in [0, 100]; a value already there is unchanged, one below 0 becomes 0 and one above 100 becomes 100 |
| Risk.NdbiBase | src/components/Sentinel2MonitoringMap.tsx:132 | the NDBI divisor is never zero; a non-zero previous NDBI is used as is, a zero one is replaced by 0.01 |
| Risk.RiskScore | src/components/Sentinel2MonitoringMap.tsx:130-141 | the score is an integer in [0, 100] |
| Risk.ComplianceStatus | src/components/Sentinel2MonitoringMap.tsx:143-151 | Critical Violation iff the height tier is critical or the score exceeds 80; Compliant iff the tier is compliant and the score is at most 40 |
| Risk.ComplianceIsWorseTier | src/components/Sentinel2MonitoringMap.tsx:143-151 | the label is the worse of the height tier and the score tier |
| Risk.RiskScoreMonotoneInArea | src/components/Sentinel2MonitoringMap.tsx:133-138 | with a positive approved area, more detected area never lowers the score |
| Risk.RiskScoreMonotoneInHeight | src/components/Sentinel2MonitoringMap.tsx:134-138 | with a positive approved height, more detected height never lowers the score |
| Risk.DetectionFlags | src/components/Sentinel2MonitoringMap.tsx:749-771 | vegetation change iff the NDVI moved by more than 0.3 up or down; built-up expansion likewise for the NDBI; with a positive approved height, the height flag iff the score's height deviation is positive |
| Risk.UnchangedPlotScoresZero | src/components/Sentinel2MonitoringMap.tsx:130-141 | a plot whose indices, area and height all match the previous and approved values has raw score 0, risk score 0 and no detection flag |
| Risk.HeightTierImpliesFlag | src/components/Sentinel2MonitoringMap.tsx:771 | a high or medium height tier always shows the height flag as detected |
| Risk.FirstPlotIsCritical | src/components/Sentinel2MonitoringMap.tsx:25-42 | plot CG-RAI-2024-0847 is critical, its raw score 103.2 clamps to 100, its label is Critical Violation, and both change flags show |
| Risk.PlotLabels | src/components/Sentinel2MonitoringMap.tsx:24-101 | all four plots can be scored; plots 848 and 850 score 5 and 12 and are Compliant, plot 849 is a Critical Violation |
| Lists.Filter | src/components/ViolationsPage.tsx:82-88 | `filter` returns an order-preserving subsequence of its input holding exactly the elements that pass the callback |
| Lists.FilterMultiplicity | src/components/ViolationsPage.tsx:82-88 | `filter` keeps every copy of an element that passes and no copy of one that does not |
| Text.IncludesIffMatchesAt | src/components/ViolationsPage.tsx:85-86 | the case-insensitive search finds a query iff it matches some position of the text letter by letter, up to case |
| Text.Trim | src/components/Dashboard.tsx:54 | `trim` returns the slice of the input with only whitespace on either side of it, and neither starts nor ends with whitespace |
| Violations.FilteredViolations | src/components/ViolationsPage.tsx:82-88 | the list is an order-preserving subsequence holding exactly the records whose severity, status and search (plot id or allottee, ignoring case) pass, each as many times as in the input |
| Violations.NoFilterShowsAll | src/components/ViolationsPage.tsx:83-85 | "All", "All" and an empty search list every record unchanged, whatever the region |
| Violations.RegionIgnored | src/components/ViolationsPage.tsx:77-88 | changing the region control never changes the list |
| Violations.SearchIgnoresCase | src/components/ViolationsPage.tsx:85-86 | two searches equal up to letter case list the same records |
| Violations.ResolvedShowsNothing | src/components/ViolationsPage.tsx:84 | no record is Resolved, so that status empties the list whatever the other controls |
| Violations.TotalCount | src/components/ViolationsPage.tsx:219 | the Total card reads 5 |
| Violations.HighSeverityCard | src/components/ViolationsPage.tsx:220 | the High Severity card counts 2 over the full list |
| Violations.PendingCard | src/components/ViolationsPage.tsx:221 | the Pending card counts 2 over the full list |
| Violations.ResolvedCard | src/components/ViolationsPage.tsx:222 | the Resolved card counts 0 |
| Violations.SeverityColor | src/components/ViolationsPage.tsx:90-97 | High, Medium and Low each get their own colour, exactly; anything else gets the grey default |
| IndustrialAreas.FilteredAreas | src/components/IndustrialAreasPage.tsx:117-123 | the list is an order-preserving subsequence holding exactly the areas whose district, status and search (name or district, ignoring case) pass, each as many times as in the input |
| IndustrialAreas.NoFilterShowsAll | src/components/IndustrialAreasPage.tsx:118-120 | "All Districts", "All" and an empty search list every area |
| IndustrialAreas.SearchCoversDistrict | src/components/IndustrialAreasPage.tsx:120-121 | "durg" lists the Bhilai complex by its district although its name lacks "durg" |
| IndustrialAreas.StatusColor | src/components/IndustrialAreasPage.tsx:125-132 | Excellent, Good and Needs Attention map to green, amber and red, exactly; anything else to grey |
| IndustrialAreas.SummaryTotals | src/components/IndustrialAreasPage.tsx:134-136 | over all areas: 1113 plots, 57 violations, an average compliance of 539.0 / 6, which rounds to 89.8 |
| IndustrialAreas.HighlightedAreas | src/components/IndustrialAreasPage.tsx:348-350 | only the Bhilai and Korba areas have more than ten violations |
| IndustrialMap.FilteredAreas | src/components/IndustrialMapSection.tsx:109-115 | the map shows an order-preserving subsequence holding exactly the areas whose district, compliance, high-risk-only and name search pass, each as many times as in the input |
| IndustrialMap.NoFilterShowsAll | src/components/IndustrialMapSection.tsx:109-115 | with every control initial the map shows every area |
| IndustrialMap.ComplianceOptionsMatchNothing | src/components/IndustrialMapSection.tsx:111 | as written, choosing Compliant, Moderate or High Risk empties the map for any areas with the three lower-case statuses |
| IndustrialMap.HighRiskOnlyShowsKorba | src/components/IndustrialMapSection.tsx:112 | "High Risk Only" leaves exactly the Korba zone |
| IndustrialMap.SearchIgnoresDistrict | src/components/IndustrialMapSection.tsx:113 | the map search reads only the name: "durg" does not find the Bhilai complex of Durg district |
| IndustrialMap.StatusForOption | src/components/IndustrialMapSection.tsx:169-172 | each compliance option translates to a status an area can have; any other value is kept |
| IndustrialMap.CorrectedFilteredAreas | src/components/IndustrialMapSection.tsx:109-115 | the corrected filter lists exactly the areas selected under the translated option, in order, each as many times as in the input |
| IndustrialMap.CorrectedHighRiskShowsKorba | src/components/IndustrialMapSection.tsx:172 | corrected, High Risk shows the Korba zone |
| IndustrialMap.CorrectedModerateShowsTwo | src/components/IndustrialMapSection.tsx:171 | corrected, Moderate shows the Bhilai and Rajnandgaon areas |
| IndustrialMap.MarkerColor | src/components/IndustrialMapSection.tsx:117-124 | each status gets its own colour, exactly; any other value the teal default |
| IndustrialMap.MarkerSize | src/components/IndustrialMapSection.tsx:263-265 | radius 8 iff selected, 4 iff neither selected nor hovered, otherwise 6 |
| IndustrialMap.ActiveViolationsOfAreas | src/components/IndustrialMapSection.tsx:338 | the hover card's encroachments plus unauthorized constructions for the six areas |
| Complaints.FilteredComplaints | src/components/UserComplaints.tsx:73-78 | the list is an order-preserving subsequence holding exactly the complaints whose status and search (complaint id or plot id, ignoring case) pass, each as many times as in the input |
| Complaints.NoFilterShowsAll | src/components/UserComplaints.tsx:74-75 | "All" and an empty search list every complaint |
| Complaints.SearchByPlot | src/components/UserComplaints.tsx:75-76 | "0847" finds exactly the two complaints about plot CG-RAI-2024-0847 |
| Complaints.StatusCards | src/components/UserComplaints.tsx:203-206 | the Under Review, Scheduled, Resolved and Rejected cards each count 1 |
| Complaints.SubmittedHasNoCard | src/components/UserComplaints.tsx:201-206 | the fifth complaint's status, Submitted, has no card |
| Complaints.CardsMissOne | src/components/UserComplaints.tsx:202-206 | the four status cards add up to one less than the Total card |
| Complaints.ViewDetails | src/components/UserComplaints.tsx:312 | View Details hands over exactly the row's complaint id, and nothing without a callback |
| Notices.FilteredNotices | src/components/UserNotices.tsx:94-98 | the list is an order-preserving subsequence holding exactly the notices whose category and priority pass, each as many times as in the input |
| Notices.NoFilterShowsAll | src/components/UserNotices.tsx:95-96 | "All"/"All" lists every notice unchanged |
| Notices.FiltersCompose | src/components/UserNotices.tsx:94-98 | filtering on both controls is filtering on the category, then on the priority |
| Notices.InspectionLowShowsNothing | src/components/UserNotices.tsx:95-96 | Inspection with Low lists nothing |
| Notices.HighPriorityCount | src/components/UserNotices.tsx:234 | the High Priority card counts 2 over the full list |
| Notices.Actions | src/components/UserNotices.tsx:343-352 | View Details always comes first; Download PDF appears iff the notice is downloadable |
| Notices.PlotLine | src/components/UserNotices.tsx:318-323 | the plot line appears iff the notice has a non-empty plot id, and then names it |
| Notices.PlotLines | src/components/UserNotices.tsx:21-87 | of the six notices only the General one has no plot line |
| Notices.CategoryIcon | src/components/UserNotices.tsx:100-109 | each of the five named categories gets its own icon, exactly; any other string the bell |
| Notices.GeneralGetsBell | src/components/UserNotices.tsx:100-109 | General gets the bell, and every other category in the data an icon of its own |
| Notices.PriorityBadge | src/components/UserNotices.tsx:330-331 | High, Medium and anything else get distinct badge colours, exactly |
| MyPlots.FilteredPlots | src/components/UserMyPlots.tsx:58-61 | the list is an order-preserving subsequence holding exactly the plots whose id or area name contains the query, ignoring case, each as many times as in the input |
| MyPlots.EmptyQueryShowsAll | src/components/UserMyPlots.tsx:59-60 | the empty query lists every plot |
| MyPlots.SearchIgnoresCase | src/components/UserMyPlots.tsx:58-61 | two queries equal up to letter case list the same plots |
| MyPlots.BhilaiShowsOnePlot | src/components/UserMyPlots.tsx:42-61 | "bhilai" lists only CG-BHI-2024-0234 |
| MyPlots.StatusColorCounts | src/components/UserMyPlots.tsx:200-213 | the Compliant card counts 2 green plots, the Under Review card 1 amber plot |
| MyPlots.StatusIndicator | src/components/UserMyPlots.tsx:309-318 | No Issues iff the colour is green, Under Review otherwise |
| MyPlots.IndicatorsOfRecords | src/components/UserMyPlots.tsx:21-52 | of the three plots only the second shows Under Review |
| MyPlots.ViewDetails | src/components/UserMyPlots.tsx:264 | View Details hands over exactly the plot's id, and nothing without a callback |
| Login.DefaultRole | src/components/LoginModal.tsx:86-105 | an officer's default role is Regional Officer, an allottee's Industry Allottee |
| Login.DefaultRolesDiffer | src/components/LoginModal.tsx:41 | the two defaults are equal iff the user types are |
| Login.Submitted | src/components/LoginModal.tsx:23-32 | an empty id or password only sets the error; otherwise the error is cleared, loading starts, the timer captures the form's values, nothing else changes |
| Login.Completed | src/components/LoginModal.tsx:35-42 | hands over the captured login, stops loading, empties id and password, and resets the role to the captured type's default |
| Login.Edited | src/components/LoginModal.tsx:86-105 | no edit touches loading, the pending login or the error; each field edit sets exactly that field; a type button sets the type and its default role and keeps the id and password |
| Login.EditsKeepPending | src/components/LoginModal.tsx:136-180 | any run of edits keeps loading, the pending login and the error |
| Login.StepsKeepValid | src/components/LoginModal.tsx:23-42 | every step keeps "loading iff a login is pending, and no error while loading" |
| Login.DeliversSubmittedValues | src/components/LoginModal.tsx:35-41 | submit, any edits, then the timer: exactly the values held at submit time are handed over |
| Login.EmptyFieldNeverLogsIn | src/components/LoginModal.tsx:27-30 | with an empty field nothing is pending after the submit, whatever follows, and the error shows |
| Login.StaleRoleAfterSwitch | src/components/LoginModal.tsx:41 | switching the type while loading leaves, after completion, a role that is not the current type's default |
| Login.Rendered | src/components/LoginModal.tsx:21 | nothing when closed; otherwise the heading follows the type, the error banner shows iff there is an error, and submit is disabled iff loading |
| Login.LoginModal.constructor | src/components/LoginModal.tsx:12-19 | the initial form, which is valid |
| Login.LoginModal.Submit | src/components/LoginModal.tsx:23-32 | the new state is `Submitted` of the old; a valid state stays valid |
| Login.LoginModal.Complete | src/components/LoginModal.tsx:35-42 | the new state and the login handed over are `Completed` of the old; a valid state stays valid |
| Login.LoginModal.Apply | src/components/LoginModal.tsx:86-105 | the new state is `Edited` of the old; a valid state stays valid |
| RaiseIssue.NatToString | src/components/UserRaiseIssue.tsx:23 | at least one decimal digit, no leading zero, one digit iff below 10 |
| RaiseIssue.NatToStringValue | src/components/UserRaiseIssue.tsx:23 | the digits read back as the number |
| RaiseIssue.PadStart | src/components/UserRaiseIssue.tsx:23 | a short string is preceded by fill characters up to the width; a long one is unchanged |
| RaiseIssue.ComplaintId | src/components/UserRaiseIssue.tsx:23 | 15 characters, the fixed prefix, then four digits that read back as the draw |
| RaiseIssue.ComplaintIdInjective | src/components/UserRaiseIssue.tsx:23 | two draws give the same id iff they are equal |
| RaiseIssue.SampleIds | src/components/UserRaiseIssue.tsx:23 | draws 7 and 1234 give CSIDC-2026-0007 and CSIDC-2026-1234 |
| RaiseIssue.Submitted | src/components/UserRaiseIssue.tsx:19-26 | sets the new id, shows success, starts one timer; the fields stay as typed |
| RaiseIssue.FieldsCleared | src/components/UserRaiseIssue.tsx:348-354 | empties the five fields and nothing else |
| RaiseIssue.ResetFired | src/components/UserRaiseIssue.tsx:28-35 | hides success and empties the five fields; the generated id is kept |
| RaiseIssue.ClearAndResetAgree | src/components/UserRaiseIssue.tsx:28-35 | clearing is idempotent, and the reset clears what Clear Form clears |
| RaiseIssue.StepsKeepValid | src/components/UserRaiseIssue.tsx:19-36 | every step keeps "success shows only while a timer runs" |
| RaiseIssue.EarlierTimerHidesLaterSuccess | src/components/UserRaiseIssue.tsx:28-35 | two quick submits: the first timer hides the second submit's message while the second timer still runs |
| RaiseIssue.RaiseIssueForm.constructor | src/components/UserRaiseIssue.tsx:11-17 | the initial, empty form |
| RaiseIssue.RaiseIssueForm.Submit | src/components/UserRaiseIssue.tsx:19-26 | the new state is `Submitted` of the old; a valid state stays valid |
| RaiseIssue.RaiseIssueForm.ResetAfterDelay | src/components/UserRaiseIssue.tsx:28-35 | the new state is `ResetFired` of the old; a valid state stays valid |
| RaiseIssue.RaiseIssueForm.ClearForm | src/components/UserRaiseIssue.tsx:348-354 | the new state is `FieldsCleared` of the old; a valid state stays valid |
| AdminDashboard.KpiTarget | src/components/Dashboard.tsx:60-66 | the violations list iff Active Violations or Unauthorized Construction, the reports iff Compliance Rate, nowhere otherwise |
| AdminDashboard.KpiCards | src/components/Dashboard.tsx:324-375 | of the five cards, two lead to violations and one to reports; Total Plots and Vacant Plots lead nowhere |
| AdminDashboard.SearchFiresIffNotBlank | src/components/Dashboard.tsx:52-58 | a search fires iff the query holds a non-whitespace character |
| AdminDashboard.Handled | src/components/Dashboard.tsx:186-424 | each opener toggles its dropdown, closes the other and requests nothing; the notifications close button only closes that dropdown and requests nothing; a profile item only closes the profile dropdown and requests Settings iff it is Settings, sign-out iff it is Logout, nothing otherwise; the banner's X only dismisses the banner and requests nothing; dismissal is sticky; View Details and the KPI cards leave the dashboard unchanged, View Details requesting the violations list and a KPI card its target page, or nothing when it has none |
| AdminDashboard.RunsKeepValid | src/components/Dashboard.tsx:186-253 | over any run of events the two dropdowns are never open together |
| AdminDashboard.BannerShownUntilDismissed | src/components/Dashboard.tsx:400-424 | after any run the banner is hidden iff the run held a dismissal |
| AdminDashboard.DismissalIsPermanent | src/components/Dashboard.tsx:420-421 | once dismissed the banner stays dismissed whatever follows |
| AdminDashboard.DashboardView.constructor | src/components/Dashboard.tsx:13-15 | both dropdowns closed, banner shown |
| AdminDashboard.DashboardView.Handle | src/components/Dashboard.tsx:186-310 | the new state and the request are `Handled` of the old state and the event; a valid state stays valid |

## Left out

- Rendering, styling, charts, SVG geometry and hover colours: presentation
  only.
- The landing page, settings, reports, plot detail, complaint detail, user
  dashboard and the static maps: no logic beyond display and navigation
  dispatch.
- `alert()` calls (notification clicks, profile items, the dashboard search):
  host calls. A search is modelled only as whether it fires.
- `Math.random()`: the draw is the parameter `n` with 0 <= n < 10000.
- The one-second and five-second delays: their firings are explicit steps.
  The order in which timers fire is the order in which the steps are applied.
- Dates, `toLocaleDateString`, the notices' "This Month" count: these depend
  on the host's clock and time zone.
- `toFixed` and `toLocaleString`: display of IEEE floats. The model keeps the
  real value and proves the bounds that round to the digits shown.
- Floating point: all arithmetic is over `real`.
- Text.ToLower: covers ASCII letters only; every string in the data is ASCII.
- Text.Trim: strips the ASCII whitespace set only, not the other Unicode
  spaces.
- Risk.RiskScore: requires non-zero previous NDVI, approved area and approved
  height. These divisors are unguarded, and a zero one gives NaN or Infinity
  in the browser.
- Risk.RiskScoreMonotoneInArea: stated for a positive approved area only.
  With a negative one, the division reverses the order.
- Risk.RiskScoreMonotoneInHeight: stated for a positive approved height only,
  for the same reason.
- The text fields of the grievance form: their setters are plain
  assignments, so they are not modelled one by one.
- The dialog's show-password and remember-me toggles: they affect nothing
  that is modelled.
- The grievance form's browser `required` validation and its
  "Minimum 50 characters" hint: not rules the code enforces.

## Findings

| source | as written | input that shows it | evidently intended | confidence | as-written member | corrected member |
|---|---|---|---|---|---|---|
| src/components/IndustrialMapSection.tsx:111 | the compliance filter compares an area's lower-case status ("compliant", "moderate", "high-risk") with the option text ("Compliant", "Moderate", "High Risk") | choosing "High Risk" empties the map, though the Korba zone is high-risk | each option selects the areas with the status it names | not executed | IndustrialMap.ComplianceOptionsMatchNothing | IndustrialMap.CorrectedFilteredAreas |
| src/App.tsx:94 | the plot page renders only for a signed-in officer, yet the allottees' plot list hands its View Details to the same navigator (src/App.tsx:135) | a signed-in allottee clicks View Details on CG-RAI-2024-0847: the page switches to the plot page and nothing renders | any signed-in user with a selected plot sees the plot page; the plot page's own navigation offers only officers' pages (src/components/PlotDetailPage.tsx:6), so whether allottees were meant to reach it is a reading of the code, not certain | not executed | Navigation.AllotteePlotDetailBlank | Navigation.CorrectedVisiblePage |

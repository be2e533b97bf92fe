/** The officers' dashboard (`Dashboard`): KPI card routing, the header
    search, the notification and profile dropdowns and the dismissible alert
    banner. */
module AdminDashboard {
  import opened Wrappers
  import opened Text
  import opened Navigation

  /** `handleKPIClick`: the page a KPI card leads to, if any. */
  function KpiTarget(kpiLabel: string): (target: Option<Page>)
    ensures target == Some(Violations) <==> kpiLabel == "Active Violations" || kpiLabel == "Unauthorized Construction"
    ensures target == Some(Reports) <==> kpiLabel == "Compliance Rate"
    ensures target.Some? ==> target == Some(Violations) || target == Some(Reports)
  {
    if kpiLabel == "Active Violations" || kpiLabel == "Unauthorized Construction" then Some(Violations)
    else if kpiLabel == "Compliance Rate" then Some(Reports)
    else None
  }

  /** The five KPI cards, in display order. */
  const KpiLabels: seq<string> := ["Total Plots", "Active Violations", "Unauthorized Construction", "Vacant Plots", "Compliance Rate"]

  /** Two cards lead to the violations list and one to the reports; the
      Total Plots and Vacant Plots cards lead nowhere. */
  lemma KpiCards()
    ensures KpiTarget(KpiLabels[0]).None? && KpiTarget(KpiLabels[3]).None?
    ensures KpiTarget(KpiLabels[1]) == Some(Violations) && KpiTarget(KpiLabels[2]) == Some(Violations)
    ensures KpiTarget(KpiLabels[4]) == Some(Reports)
  {
  }

  /** `handleSearch`: a search runs only for a query that is not blank once
      trimmed. */
  predicate SearchFires(query: string)
  {
    Trim(query) != ""
  }

  /** A search fires exactly when the query holds a character that is not
      whitespace. */
  lemma SearchFiresIffNotBlank(query: string)
    ensures SearchFires(query) <==> exists i :: 0 <= i < |query| && !IsWhitespace(query[i])
  {
    TrimEmptyIffBlank(query);
  }

  /** The dashboard's own state. */
  datatype DashState = DashState(showNotifications: bool, showProfile: bool, dismissedAlert: bool)

  const InitialDashState := DashState(false, false, false)

  /** What the header and the banner let the officer do. */
  datatype Event =
    | ToggleNotifications       // the bell
    | ToggleProfile             // the profile button
    | CloseNotifications        // the dropdown's X, or a notification clicked
    | ProfileItem(item: string) // View Profile, Settings, Help & Support, Logout
    | DismissAlert              // the banner's X
    | AlertDetails             // the banner's View Details
    | KpiClicked(kpiLabel: string)

  /** What an event asks of the application besides the dashboard's state. */
  datatype Request = NoRequest | GoTo(page: Page) | SignOut

  /** The dashboard after one event, and the request the event makes. Each
      dropdown's opener closes the other; the close button, a profile item
      and the banner's X change only their own flag; View Details and the
      KPI cards change nothing and only make a request. */
  function Handled(s: DashState, e: Event): (r: (DashState, Request))
    ensures e == ToggleNotifications ==>
              r.0 == s.(showNotifications := !s.showNotifications, showProfile := false)
    ensures e == ToggleProfile ==>
              r.0 == s.(showProfile := !s.showProfile, showNotifications := false)
    ensures e != ToggleNotifications && e != ToggleProfile ==>
              (r.0.showNotifications ==> s.showNotifications) && (r.0.showProfile ==> s.showProfile)
    ensures s.dismissedAlert ==> r.0.dismissedAlert
    ensures r.0.dismissedAlert <==> s.dismissedAlert || e == DismissAlert
    ensures e == AlertDetails ==> r.1 == GoTo(Violations)
    ensures e.KpiClicked? ==> (r.1 == NoRequest <==> KpiTarget(e.kpiLabel).None?)
    ensures e.KpiClicked? && KpiTarget(e.kpiLabel).Some? ==> r.1 == GoTo(KpiTarget(e.kpiLabel).value)
    ensures e == CloseNotifications ==> !r.0.showNotifications
    ensures e.ProfileItem? ==> !r.0.showProfile
    ensures e.ProfileItem? ==> (r.1 == GoTo(Settings) <==> e.item == "Settings")
    ensures e.ProfileItem? ==> (r.1 == SignOut <==> e.item == "Logout")
    ensures e.ProfileItem? && e.item != "Settings" && e.item != "Logout" ==> r.1 == NoRequest
    ensures !e.ProfileItem? && !e.KpiClicked? && e != AlertDetails ==> r.1 == NoRequest
    ensures e == CloseNotifications ==> r.0 == s.(showNotifications := false)
    ensures e.ProfileItem? ==> r.0 == s.(showProfile := false)
    ensures e == DismissAlert ==> r.0 == s.(dismissedAlert := true)
    ensures e == AlertDetails || e.KpiClicked? ==> r.0 == s
  {
    match e
    case ToggleNotifications => (s.(showNotifications := !s.showNotifications, showProfile := false), NoRequest)
    case ToggleProfile => (s.(showProfile := !s.showProfile, showNotifications := false), NoRequest)
    case CloseNotifications => (s.(showNotifications := false), NoRequest)
    case ProfileItem(item) =>
      (s.(showProfile := false),
       if item == "Settings" then GoTo(Settings) else if item == "Logout" then SignOut else NoRequest)
    case DismissAlert => (s.(dismissedAlert := true), NoRequest)
    case AlertDetails => (s, GoTo(Violations))
    case KpiClicked(kpiLabel) => (s, if KpiTarget(kpiLabel).Some? then GoTo(KpiTarget(kpiLabel).value) else NoRequest)
  }

  /** Never both dropdowns open. */
  predicate Valid(s: DashState)
  {
    !(s.showNotifications && s.showProfile)
  }

  /** A run of events, in order. */
  function HandledAll(s: DashState, es: seq<Event>): DashState
    decreases |es|
  {
    if es == [] then s else HandledAll(Handled(s, es[0]).0, es[1..])
  }

  /** Over any run of events the dropdowns are never open together. */
  lemma {:induction false} RunsKeepValid(s: DashState, es: seq<Event>)
    requires Valid(s)
    ensures Valid(HandledAll(s, es))
    decreases |es|
  {
    if es != [] {
      RunsKeepValid(Handled(s, es[0]).0, es[1..]);
    }
  }

  /** The banner is shown until the first dismissal and never again. */
  lemma {:induction false} BannerShownUntilDismissed(s: DashState, es: seq<Event>)
    requires !s.dismissedAlert
    ensures HandledAll(s, es).dismissedAlert <==> DismissAlert in es
    decreases |es|
  {
    if es != [] {
      var t := Handled(s, es[0]).0;
      if es[0] == DismissAlert {
        DismissalIsPermanent(t, es[1..]);
      } else {
        BannerShownUntilDismissed(t, es[1..]);
        assert DismissAlert in es <==> DismissAlert in es[1..];
      }
    }
  }

  /** Once dismissed, the banner stays dismissed whatever follows. */
  lemma {:induction false} DismissalIsPermanent(s: DashState, es: seq<Event>)
    requires s.dismissedAlert
    ensures HandledAll(s, es).dismissedAlert
    decreases |es|
  {
    if es != [] {
      DismissalIsPermanent(Handled(s, es[0]).0, es[1..]);
    }
  }

  /** The dashboard as the component holds it. */
  class DashboardView {
    var showNotifications: bool
    var showProfile: bool
    var dismissedAlert: bool

    function State(): DashState
      reads this
    {
      DashState(showNotifications, showProfile, dismissedAlert)
    }

    constructor ()
      ensures State() == InitialDashState && Valid(State())
    {
      showNotifications, showProfile, dismissedAlert := false, false, false;
    }

    method Handle(e: Event) returns (request: Request)
      modifies this
      ensures (State(), request) == Handled(old(State()), e)
      ensures Valid(old(State())) ==> Valid(State())
    {
      request := NoRequest;
      match e {
        case ToggleNotifications =>
          showNotifications := !showNotifications;
          showProfile := false;
        case ToggleProfile =>
          showProfile := !showProfile;
          showNotifications := false;
        case CloseNotifications =>
          showNotifications := false;
        case ProfileItem(item) =>
          if item == "Settings" {
            request := GoTo(Settings);
          } else if item == "Logout" {
            request := SignOut;
          }
          showProfile := false;
        case DismissAlert =>
          dismissedAlert := true;
        case AlertDetails =>
          request := GoTo(Violations);
        case KpiClicked(kpiLabel) =>
          var target := KpiTarget(kpiLabel);
          if target.Some? {
            request := GoTo(target.value);
          }
      }
    }
  }
}

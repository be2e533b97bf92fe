/** The application shell (`App`): which page is current, whether someone is
    signed in and as what, the two selected ids, whether the sign-in dialog is
    open, the handlers that change these, and the guards that decide which
    page component is rendered. */
module Navigation {
  import opened Wrappers
  import opened Login

  datatype Page = Landing | Dashboard | Violations | PlotDetail | Reports | IndustrialAreas | Settings
                | UserDashboard | UserPlots | UserRaiseIssue | UserComplaints | UserComplaintDetail | UserNotices

  /** The pages of the officers' portal. */
  predicate IsAdminPage(p: Page)
  {
    p.Dashboard? || p.Violations? || p.PlotDetail? || p.Reports? || p.IndustrialAreas? || p.Settings?
  }

  /** The pages of the allottees' portal. */
  predicate IsUserPage(p: Page)
  {
    p.UserDashboard? || p.UserPlots? || p.UserRaiseIssue? || p.UserComplaints?
    || p.UserComplaintDetail? || p.UserNotices?
  }

  datatype AppState = AppState(
    currentPage: Page,
    isLoginModalOpen: bool,
    isAuthenticated: bool,
    userType: UserType,
    selectedPlotId: Option<string>,
    selectedComplaintId: Option<string>)

  const InitialState := AppState(Landing, false, false, Admin, None, None)

  /** A selected id guards a detail page the way a JavaScript string does:
      null and "" are both false. */
  predicate Truthy(id: Option<string>)
  {
    id.Some? && id.value != ""
  }

  /** The page each user type lands on after signing in. */
  function HomePage(t: UserType): (p: Page)
    ensures t == Admin ==> p == Dashboard && IsAdminPage(p)
    ensures t == User ==> p == UserDashboard && IsUserPage(p)
  {
    if t == Admin then Dashboard else UserDashboard
  }

  /** The render condition of one page, as the thirteen guards of the page
      list spell it out. */
  predicate Visible(s: AppState, p: Page)
  {
    if p == Landing then s.currentPage == Landing
    else if IsAdminPage(p) then
      s.currentPage == p && s.isAuthenticated && s.userType == Admin
      && (p == PlotDetail ==> Truthy(s.selectedPlotId))
    else
      s.currentPage == p && s.isAuthenticated && s.userType == User
      && (p == UserComplaintDetail ==> Truthy(s.selectedComplaintId))
  }

  /** The page component rendered, if any. Landing shows whatever the sign-in
      state; an officers' page needs an officer signed in, an allottees' page
      an allottee; the two detail pages also need a selected id. */
  function VisiblePage(s: AppState): (r: Option<Page>)
    ensures r.Some? ==> r.value == s.currentPage
    ensures r == Some(Landing) <==> s.currentPage == Landing
    ensures r.Some? && IsAdminPage(r.value) ==> s.isAuthenticated && s.userType == Admin
    ensures r.Some? && IsUserPage(r.value) ==> s.isAuthenticated && s.userType == User
    ensures r == Some(PlotDetail) ==> Truthy(s.selectedPlotId)
    ensures r == Some(UserComplaintDetail) ==> Truthy(s.selectedComplaintId)
    ensures !s.isAuthenticated ==> r.None? || r == Some(Landing)
  {
    var p := s.currentPage;
    if p == Landing then Some(Landing)
    else if IsAdminPage(p) then
      if s.isAuthenticated && s.userType == Admin && (p == PlotDetail ==> Truthy(s.selectedPlotId))
      then Some(p) else None
    else
      if s.isAuthenticated && s.userType == User && (p == UserComplaintDetail ==> Truthy(s.selectedComplaintId))
      then Some(p) else None
  }

  /** The guards and the rendered page agree: a page is visible exactly when
      it is the one page rendered, so at most one page is ever visible. */
  lemma VisibleIsRendered(s: AppState, p: Page)
    ensures Visible(s, p) <==> VisiblePage(s) == Some(p)
  {
  }

  /** `handleLogin`. Credentials with an empty user id or password change
      nothing; others sign in with the given user type, close the dialog and
      go to that type's home page. */
  function SignedIn(s: AppState, c: Credentials): (t: AppState)
    ensures c.userId == "" || c.password == "" ==> t == s
    ensures c.userId != "" && c.password != "" ==>
              && t.isAuthenticated && t.userType == c.userType && !t.isLoginModalOpen
              && t.currentPage == HomePage(c.userType)
              && t.selectedPlotId == s.selectedPlotId && t.selectedComplaintId == s.selectedComplaintId
  {
    if c.userId != "" && c.password != "" then
      s.(isAuthenticated := true, userType := c.userType, isLoginModalOpen := false,
         currentPage := HomePage(c.userType))
    else s
  }

  /** `handleLogout`: signed out, back to the officer type and the landing
      page; the selected ids and the dialog are left as they were. */
  function SignedOut(s: AppState): (t: AppState)
    ensures !t.isAuthenticated && t.userType == Admin && t.currentPage == Landing
    ensures t.selectedPlotId == s.selectedPlotId && t.selectedComplaintId == s.selectedComplaintId
    ensures t.isLoginModalOpen == s.isLoginModalOpen
  {
    s.(isAuthenticated := false, userType := Admin, currentPage := Landing)
  }

  /** `navigateToPage`: a dashboard asked for while signed out opens the
      sign-in dialog and stays on the current page; any other request
      switches page, with no further check. */
  function Navigated(s: AppState, p: Page): (t: AppState)
    ensures (p == Dashboard || p == UserDashboard) && !s.isAuthenticated ==>
              t == s.(isLoginModalOpen := true)
    ensures !((p == Dashboard || p == UserDashboard) && !s.isAuthenticated) ==>
              t == s.(currentPage := p)
  {
    if (p == Dashboard || p == UserDashboard) && !s.isAuthenticated then s.(isLoginModalOpen := true)
    else s.(currentPage := p)
  }

  /** `navigateToPlotDetail`: remember the plot, show its page. */
  function PlotDetailOpened(s: AppState, plotId: string): (t: AppState)
    ensures t == s.(selectedPlotId := Some(plotId), currentPage := PlotDetail)
  {
    s.(selectedPlotId := Some(plotId), currentPage := PlotDetail)
  }

  /** `navigateToComplaintDetail`: remember the complaint, show its page. */
  function ComplaintDetailOpened(s: AppState, complaintId: string): (t: AppState)
    ensures t == s.(selectedComplaintId := Some(complaintId), currentPage := UserComplaintDetail)
  {
    s.(selectedComplaintId := Some(complaintId), currentPage := UserComplaintDetail)
  }

  /** The landing page's login buttons and the dialog's close actions. */
  function LoginModalSet(s: AppState, open: bool): (t: AppState)
    ensures t == s.(isLoginModalOpen := open)
  {
    s.(isLoginModalOpen := open)
  }

  /** No dashboard is current while signed out. */
  predicate Invariant(s: AppState)
  {
    !s.isAuthenticated ==> s.currentPage != Dashboard && s.currentPage != UserDashboard
  }

  /** Every handler keeps the invariant. */
  lemma HandlersKeepInvariant(s: AppState, c: Credentials, p: Page, id: string, open: bool)
    requires Invariant(s)
    ensures Invariant(SignedIn(s, c)) && Invariant(SignedOut(s)) && Invariant(Navigated(s, p))
    ensures Invariant(PlotDetailOpened(s, id)) && Invariant(ComplaintDetailOpened(s, id))
    ensures Invariant(LoginModalSet(s, open))
  {
  }

  /** A successful sign-in shows the signed-in type's home page. */
  lemma SignInShowsHome(s: AppState, c: Credentials)
    requires c.userId != "" && c.password != ""
    ensures VisiblePage(SignedIn(s, c)) == Some(HomePage(c.userType))
  {
  }

  /** Signing out shows the landing page and nothing of either portal. */
  lemma SignOutShowsLanding(s: AppState)
    ensures VisiblePage(SignedOut(s)) == Some(Landing)
    ensures forall p :: Visible(SignedOut(s), p) <==> p == Landing
  {
  }

  /** Asking for a dashboard while signed out opens the dialog and leaves
      what is shown unchanged. */
  lemma DashboardNeedsSignIn(s: AppState, p: Page)
    requires !s.isAuthenticated && (p == Dashboard || p == UserDashboard)
    ensures Navigated(s, p).isLoginModalOpen
    ensures VisiblePage(Navigated(s, p)) == VisiblePage(s)
  {
  }

  /** An allottee who opens a complaint with a non-empty id sees its page. */
  lemma ComplaintDetailShown(s: AppState, id: string)
    requires s.isAuthenticated && s.userType == User && id != ""
    ensures VisiblePage(ComplaintDetailOpened(s, id)) == Some(UserComplaintDetail)
  {
  }

  /** As written, the allottee's View Details on one of their plots leads to
      the plot page, whose guard admits officers only: nothing is rendered. */
  lemma AllotteePlotDetailBlank(s: AppState, id: string)
    requires s.isAuthenticated && s.userType == User
    ensures VisiblePage(PlotDetailOpened(s, id)).None?
  {
  }

  /** The plot page guard as evidently intended: any signed-in user with a
      selected plot may see it; every other page keeps its guard. */
  function CorrectedVisiblePage(s: AppState): (r: Option<Page>)
    ensures r.Some? ==> r.value == s.currentPage
    ensures r == Some(PlotDetail) <==> s.currentPage == PlotDetail && s.isAuthenticated && Truthy(s.selectedPlotId)
    ensures s.currentPage != PlotDetail ==> r == VisiblePage(s)
    ensures !s.isAuthenticated ==> r.None? || r == Some(Landing)
  {
    if s.currentPage == PlotDetail then
      if s.isAuthenticated && Truthy(s.selectedPlotId) then Some(PlotDetail) else None
    else VisiblePage(s)
  }

  /** With the corrected guard, View Details shows the plot page to both
      officers and allottees. */
  lemma CorrectedPlotDetailShown(s: AppState, id: string)
    requires s.isAuthenticated && id != ""
    ensures CorrectedVisiblePage(PlotDetailOpened(s, id)) == Some(PlotDetail)
  {
  }

  /** The whole sign-in flow from a fresh start: open the dialog, choose a
      user type, type an id and a password, submit, let the timer fire and
      hand the login to `handleLogin`. The chosen type's home page shows. */
  lemma SignInFlow(t: UserType, userId: string, password: string)
    requires userId != "" && password != ""
    ensures var f := Edited(Edited(Edited(InitialForm, SelectType(t)), SetUserId(userId)), SetPassword(password));
            var done := Completed(Submitted(f));
            var s := SignedIn(LoginModalSet(InitialState, true), done.1);
            VisiblePage(s) == Some(HomePage(t)) && !s.isLoginModalOpen && s.userType == t
  {
  }

  /** The shell as the component holds it: one field per piece of state. */
  class App {
    var currentPage: Page
    var isLoginModalOpen: bool
    var isAuthenticated: bool
    var userType: UserType
    var selectedPlotId: Option<string>
    var selectedComplaintId: Option<string>

    function State(): AppState
      reads this
    {
      AppState(currentPage, isLoginModalOpen, isAuthenticated, userType, selectedPlotId, selectedComplaintId)
    }

    constructor ()
      ensures State() == InitialState && Invariant(State())
    {
      currentPage, isLoginModalOpen, isAuthenticated := Landing, false, false;
      userType, selectedPlotId, selectedComplaintId := Admin, None, None;
    }

    method HandleLogin(c: Credentials)
      modifies this
      ensures State() == SignedIn(old(State()), c)
      ensures Invariant(old(State())) ==> Invariant(State())
    {
      if c.userId != "" && c.password != "" {
        isAuthenticated := true;
        userType := c.userType;
        isLoginModalOpen := false;
        if c.userType == Admin {
          currentPage := Dashboard;
        } else {
          currentPage := UserDashboard;
        }
      }
    }

    method HandleLogout()
      modifies this
      ensures State() == SignedOut(old(State()))
      ensures Invariant(old(State())) ==> Invariant(State())
    {
      isAuthenticated := false;
      userType := Admin;
      currentPage := Landing;
    }

    method NavigateToPage(p: Page)
      modifies this
      ensures State() == Navigated(old(State()), p)
      ensures Invariant(old(State())) ==> Invariant(State())
    {
      if (p == Dashboard || p == UserDashboard) && !isAuthenticated {
        isLoginModalOpen := true;
      } else {
        currentPage := p;
      }
    }

    method NavigateToPlotDetail(plotId: string)
      modifies this
      ensures State() == PlotDetailOpened(old(State()), plotId)
      ensures Invariant(old(State())) ==> Invariant(State())
    {
      selectedPlotId := Some(plotId);
      currentPage := PlotDetail;
    }

    method NavigateToComplaintDetail(complaintId: string)
      modifies this
      ensures State() == ComplaintDetailOpened(old(State()), complaintId)
      ensures Invariant(old(State())) ==> Invariant(State())
    {
      selectedComplaintId := Some(complaintId);
      currentPage := UserComplaintDetail;
    }

    method SetLoginModalOpen(open: bool)
      modifies this
      ensures State() == LoginModalSet(old(State()), open)
      ensures Invariant(old(State())) ==> Invariant(State())
    {
      isLoginModalOpen := open;
    }
  }
}

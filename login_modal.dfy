/** The sign-in dialog (`LoginModal`): its form state, the two-phase submit
    (validation, then the delayed completion that hands the credentials to
    the application) and the user-type toggle.

    The one-second timer is modelled as an explicit `Complete` step. The
    timer's callback sees the form as it was when the form was submitted, so
    the pending login is kept as a snapshot taken by `Submit`. */
module Login {
  import opened Wrappers

  datatype UserType = Admin | User

  /** What the dialog hands to `onLogin`. */
  datatype Credentials = Credentials(userId: string, password: string, role: string, userType: UserType)

  const MissingFieldsError := "Please enter both User ID and Password"

  /** The role each user type starts with. */
  function DefaultRole(t: UserType): (role: string)
    ensures t == Admin ==> role == "Regional Officer"
    ensures t == User ==> role == "Industry Allottee"
  {
    if t == Admin then "Regional Officer" else "Industry Allottee"
  }

  /** The two defaults differ, so the role tells the two types apart. */
  lemma DefaultRolesDiffer(t: UserType, u: UserType)
    ensures DefaultRole(t) == DefaultRole(u) <==> t == u
  {
    assert "Regional Officer"[0] != "Industry Allottee"[0];
  }

  /** The dialog's state: the form fields, the error line, the loading flag,
      the selected user type and the login the running timer will deliver. */
  datatype Form = Form(
    userId: string,
    password: string,
    role: string,
    error: string,
    isLoading: bool,
    userType: UserType,
    pending: Option<Credentials>)

  const InitialForm := Form("", "", "Regional Officer", "", false, Admin, None)

  /** The dialog is loading exactly while a timer is pending, and no error is
      shown while it loads. */
  predicate Valid(f: Form)
  {
    (f.isLoading <==> f.pending.Some?) && (f.isLoading ==> f.error == "")
  }

  /** `handleSubmit`. An empty user id or password shows the error and
      starts nothing; otherwise the error is cleared, the dialog starts
      loading and the timer captures the form's current values. The submit
      button is disabled while loading, so a submit never happens then. */
  function Submitted(f: Form): (g: Form)
    requires !f.isLoading
    ensures f.userId == "" || f.password == "" ==>
              g == f.(error := MissingFieldsError)
    ensures f.userId != "" && f.password != "" ==>
              && g.error == "" && g.isLoading
              && g.pending == Some(Credentials(f.userId, f.password, f.role, f.userType))
              && g.(error := f.error, isLoading := false, pending := f.pending) == f
  {
    var cleared := f.(error := "");
    if cleared.userId == "" || cleared.password == "" then cleared.(error := MissingFieldsError)
    else cleared.(isLoading := true, pending := Some(Credentials(f.userId, f.password, f.role, f.userType)))
  }

  /** The timer's callback: it stops loading, delivers the captured login,
      empties the user id and password and resets the role to the default of
      the user type captured at submit time. The error line and the
      currently selected user type are left as they are. */
  function Completed(f: Form): (r: (Form, Credentials))
    requires f.pending.Some?
    ensures r.1 == f.pending.value
    ensures !r.0.isLoading && r.0.pending.None?
    ensures r.0.userId == "" && r.0.password == ""
    ensures r.0.role == DefaultRole(f.pending.value.userType)
    ensures r.0.error == f.error && r.0.userType == f.userType
  {
    var c := f.pending.value;
    (f.(isLoading := false, pending := None, userId := "", password := "", role := DefaultRole(c.userType)), c)
  }

  /** What the user can change while the dialog is open. */
  datatype Edit = SetUserId(userId: string) | SetPassword(password: string) | SetRole(role: string)
                | SelectType(userType: UserType)

  /** One edit: typing into a field, choosing a role, or pressing one of
      the two user-type buttons, which also resets the role. */
  function Edited(f: Form, e: Edit): (g: Form)
    ensures g.isLoading == f.isLoading && g.pending == f.pending && g.error == f.error
    ensures e.SelectType? ==> g.userType == e.userType && g.role == DefaultRole(e.userType)
    ensures !e.SelectType? ==> g.userType == f.userType
    ensures e.SetUserId? ==> g == f.(userId := e.userId)
    ensures e.SetPassword? ==> g == f.(password := e.password)
    ensures e.SetRole? ==> g == f.(role := e.role)
    ensures e.SelectType? ==> g.userId == f.userId && g.password == f.password
  {
    match e
    case SetUserId(v) => f.(userId := v)
    case SetPassword(v) => f.(password := v)
    case SetRole(v) => f.(role := v)
    case SelectType(t) => f.(userType := t, role := DefaultRole(t))
  }

  /** A run of edits, in order. */
  function EditedAll(f: Form, es: seq<Edit>): (g: Form)
    decreases |es|
  {
    if es == [] then f else EditedAll(Edited(f, es[0]), es[1..])
  }

  /** Edits never touch the loading flag, the pending login or the error. */
  lemma {:induction false} EditsKeepPending(f: Form, es: seq<Edit>)
    ensures EditedAll(f, es).pending == f.pending
    ensures EditedAll(f, es).isLoading == f.isLoading
    ensures EditedAll(f, es).error == f.error
    decreases |es|
  {
    if es != [] {
      EditsKeepPending(Edited(f, es[0]), es[1..]);
    }
  }

  /** Every step keeps the dialog valid. */
  lemma StepsKeepValid(f: Form, e: Edit)
    requires Valid(f)
    ensures !f.isLoading ==> Valid(Submitted(f))
    ensures f.pending.Some? ==> Valid(Completed(f).0)
    ensures Valid(Edited(f, e))
  {
  }

  /** The round trip of a login: a valid submit followed by any edits and
      then the timer delivers exactly what the form held at submit time. */
  lemma {:induction false} DeliversSubmittedValues(f: Form, es: seq<Edit>)
    requires !f.isLoading && f.userId != "" && f.password != ""
    ensures EditedAll(Submitted(f), es).pending.Some?
    ensures Completed(EditedAll(Submitted(f), es)).1 == Credentials(f.userId, f.password, f.role, f.userType)
  {
    EditsKeepPending(Submitted(f), es);
  }

  /** An empty user id or password never produces a login: nothing is
      pending after the submit, whatever is edited afterwards. */
  lemma {:induction false} EmptyFieldNeverLogsIn(f: Form, es: seq<Edit>)
    requires Valid(f) && !f.isLoading && (f.userId == "" || f.password == "")
    ensures EditedAll(Submitted(f), es).pending.None?
    ensures EditedAll(Submitted(f), es).error == MissingFieldsError
  {
    EditsKeepPending(Submitted(f), es);
  }

  /** Because the timer sees the submit-time user type, switching the type
      while the dialog loads leaves, after completion, a role that is the
      default of the other type. */
  lemma StaleRoleAfterSwitch()
    ensures var f := Submitted(InitialForm.(userId := "officer", password := "secret"));
            var g := Completed(Edited(f, SelectType(User))).0;
            g.userType == User && g.role != DefaultRole(g.userType)
  {
    DefaultRolesDiffer(Admin, User);
  }

  /** What the dialog shows. */
  datatype Screen = Screen(title: string, subtitle: string, errorBanner: Option<string>,
                           submitLabel: string, submitEnabled: bool)

  /** The dialog renders nothing when closed; when open, its heading follows
      the user type, the error banner appears exactly when there is an error,
      and the submit button is disabled and relabelled while loading. */
  function Rendered(isOpen: bool, f: Form): (r: Option<Screen>)
    ensures r.None? <==> !isOpen
    ensures r.Some? ==> (r.value.errorBanner.Some? <==> f.error != "")
    ensures r.Some? ==> (r.value.submitEnabled <==> !f.isLoading)
    ensures r.Some? ==> (r.value.title == "Authorized Access" <==> f.userType == Admin)
  {
    if !isOpen then None
    else Some(Screen(
      if f.userType == Admin then "Authorized Access" else "Allottee Portal",
      if f.userType == Admin then "For Official Use Only" else "Industry Allottee Login",
      if f.error != "" then Some(f.error) else None,
      if f.isLoading then "Authenticating..." else "Login",
      !f.isLoading))
  }

  /** The dialog as the component holds it: one field per piece of state. */
  class LoginModal {
    var userId: string
    var password: string
    var role: string
    var error: string
    var isLoading: bool
    var userType: UserType
    var pending: Option<Credentials>

    function State(): Form
      reads this
    {
      Form(userId, password, role, error, isLoading, userType, pending)
    }

    constructor ()
      ensures State() == InitialForm && Valid(State())
    {
      userId, password, role, error := "", "", "Regional Officer", "";
      isLoading, userType, pending := false, Admin, None;
    }

    method Submit()
      requires !isLoading
      modifies this
      ensures State() == Submitted(old(State()))
      ensures Valid(old(State())) ==> Valid(State())
    {
      error := "";
      if userId == "" || password == "" {
        error := MissingFieldsError;
        return;
      }
      isLoading := true;
      pending := Some(Credentials(userId, password, role, userType));
    }

    method Complete() returns (login: Credentials)
      requires pending.Some?
      modifies this
      ensures (State(), login) == Completed(old(State()))
      ensures Valid(old(State())) ==> Valid(State())
    {
      login := pending.value;
      isLoading := false;
      pending := None;
      userId := "";
      password := "";
      role := DefaultRole(login.userType);
    }

    method Apply(e: Edit)
      modifies this
      ensures State() == Edited(old(State()), e)
      ensures Valid(old(State())) ==> Valid(State())
    {
      match e
      case SetUserId(v) => userId := v;
      case SetPassword(v) => password := v;
      case SetRole(v) => role := v;
      case SelectType(t) =>
        userType := t;
        role := DefaultRole(t);
    }
  }
}

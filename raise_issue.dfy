/** The allottee's grievance form (`UserRaiseIssue`): the complaint id it
    generates, the success message, the delayed reset and Clear Form.

    The random draw `Math.floor(Math.random() * 10000)` is a parameter `n`
    with 0 <= n < 10000, and each five-second timer is an explicit step. */
module RaiseIssue {

  predicate IsDigit(c: char) { '0' <= c <= '9' }

  predicate AllDigits(s: string)
  {
    forall i :: 0 <= i < |s| ==> IsDigit(s[i])
  }

  function DigitChar(d: nat): (c: char)
    requires d < 10
    ensures IsDigit(c) && c as int - '0' as int == d
  {
    ('0' as int + d) as char
  }

  /** `n.toString()` for a natural number: its decimal digits, without
      leading zeros. */
  function NatToString(n: nat): (s: string)
    ensures |s| >= 1 && AllDigits(s)
    ensures s[0] == '0' ==> n == 0
    ensures n < 10 <==> |s| == 1
    decreases n
  {
    if n < 10 then [DigitChar(n)] else NatToString(n / 10) + [DigitChar(n % 10)]
  }

  /** The number a string of decimal digits denotes. */
  function DigitsValue(s: string): nat
    requires AllDigits(s)
    decreases |s|
  {
    if s == [] then 0 else DigitsValue(s[..|s| - 1]) * 10 + (s[|s| - 1] as int - '0' as int)
  }

  /** Reading the digits back gives the number: `toString` loses nothing. */
  lemma {:induction false} NatToStringValue(n: nat)
    ensures DigitsValue(NatToString(n)) == n
    decreases n
  {
    if n >= 10 {
      var s := NatToString(n);
      assert s[..|s| - 1] == NatToString(n / 10);
      NatToStringValue(n / 10);
    }
  }

  /** A number below 10000 has at most four digits. */
  lemma {:induction false} NatToStringShort(n: nat)
    requires n < 10000
    ensures |NatToString(n)| <= 4
  {
    if n >= 10 {
      NatToStringShort(n / 10);
      if n / 10 >= 10 {
        NatToStringShort(n / 100);
        if n / 100 >= 10 {
          assert |NatToString(n / 1000)| == 1;
        }
      }
    }
  }

  /** `k` copies of `c`. */
  function Repeat(c: char, k: nat): (r: string)
    ensures |r| == k && forall i :: 0 <= i < k ==> r[i] == c
  {
    seq(k, _ => c)
  }

  /** `s.padStart(width, c)`: s preceded by as many copies of c as it takes
      to reach the width; a string already that long is left alone. */
  function PadStart(s: string, width: nat, c: char): (r: string)
    ensures |s| >= width ==> r == s
    ensures |s| < width ==> |r| == width && r == Repeat(c, width - |s|) + s
  {
    if |s| >= width then s else Repeat(c, width - |s|) + s
  }

  /** Leading zeros do not change the value of a digit string. */
  lemma {:induction false} LeadingZerosValue(k: nat, s: string)
    requires AllDigits(s)
    ensures AllDigits(Repeat('0', k) + s)
    ensures DigitsValue(Repeat('0', k) + s) == DigitsValue(s)
    decreases |s| + k
  {
    var z := Repeat('0', k) + s;
    if s == [] {
      assert z == Repeat('0', k);
      if k > 0 {
        assert z[..|z| - 1] == Repeat('0', k - 1) + [];
        LeadingZerosValue(k - 1, []);
      }
    } else {
      assert z[..|z| - 1] == Repeat('0', k) + s[..|s| - 1];
      LeadingZerosValue(k, s[..|s| - 1]);
    }
  }

  const IdPrefix := "CSIDC-2026-"

  /** The complaint id of draw n: the fixed prefix, then n zero-padded to
      four digits. It is 15 characters long, ends in four digits, and those
      digits read back as n. */
  function ComplaintId(n: nat): (id: string)
    requires n < 10000
    ensures |id| == 15 && id[..11] == IdPrefix
    ensures AllDigits(id[11..])
    ensures DigitsValue(id[11..]) == n
  {
    var digits := NatToString(n);
    NatToStringShort(n);
    NatToStringValue(n);
    LeadingZerosValue(4 - |digits|, digits);
    var id := IdPrefix + PadStart(digits, 4, '0');
    assert id[11..] == PadStart(digits, 4, '0');
    id
  }

  /** Different draws give different ids. */
  lemma ComplaintIdInjective(n: nat, m: nat)
    requires n < 10000 && m < 10000
    ensures ComplaintId(n) == ComplaintId(m) <==> n == m
  {
  }

  /** Two sample draws: 7 gives CSIDC-2026-0007 and 1234 gives CSIDC-2026-1234. */
  lemma SampleIds()
    ensures ComplaintId(7) == "CSIDC-2026-0007"
    ensures ComplaintId(1234) == "CSIDC-2026-1234"
  {
  }

  /** The form: five fields, the success flag, the last generated id and the
      number of reset timers still running. */
  datatype IssueForm = IssueForm(
    selectedPlot: string,
    issueCategory: string,
    description: string,
    contactEmail: string,
    contactPhone: string,
    showSuccess: bool,
    generatedId: string,
    pendingResets: nat)

  const InitialForm := IssueForm("", "", "", "", "", false, "", 0)

  /** `handleSubmit` with draw n: the new id and the success message appear,
      the fields stay as typed, and one more reset timer starts. */
  function Submitted(f: IssueForm, n: nat): (g: IssueForm)
    requires n < 10000
    ensures g.generatedId == ComplaintId(n) && g.showSuccess
    ensures g.pendingResets == f.pendingResets + 1
    ensures g.(showSuccess := f.showSuccess, generatedId := f.generatedId, pendingResets := f.pendingResets) == f
  {
    f.(generatedId := ComplaintId(n), showSuccess := true, pendingResets := f.pendingResets + 1)
  }

  /** The five fields emptied, everything else as it was. */
  function FieldsCleared(f: IssueForm): (g: IssueForm)
    ensures g.selectedPlot == "" && g.issueCategory == "" && g.description == ""
    ensures g.contactEmail == "" && g.contactPhone == ""
    ensures g.showSuccess == f.showSuccess && g.generatedId == f.generatedId
    ensures g.pendingResets == f.pendingResets
  {
    f.(selectedPlot := "", issueCategory := "", description := "", contactEmail := "", contactPhone := "")
  }

  /** One reset timer fires: the success message goes and the fields are
      emptied; the generated id is kept. */
  function ResetFired(f: IssueForm): (g: IssueForm)
    requires f.pendingResets > 0
    ensures !g.showSuccess && g.generatedId == f.generatedId
    ensures g.pendingResets == f.pendingResets - 1
    ensures g == FieldsCleared(f).(showSuccess := false, pendingResets := f.pendingResets - 1)
  {
    FieldsCleared(f).(showSuccess := false, pendingResets := f.pendingResets - 1)
  }

  /** Clearing is idempotent, and the reset clears what Clear Form clears. */
  lemma ClearAndResetAgree(f: IssueForm)
    requires f.pendingResets > 0
    ensures FieldsCleared(FieldsCleared(f)) == FieldsCleared(f)
    ensures FieldsCleared(ResetFired(f)) == ResetFired(f)
  {
  }

  /** The success message shows from a submit until the next timer fires. */
  predicate Valid(f: IssueForm)
  {
    f.showSuccess ==> f.pendingResets > 0
  }

  lemma StepsKeepValid(f: IssueForm, n: nat)
    requires Valid(f) && n < 10000
    ensures Valid(Submitted(f, n)) && Valid(FieldsCleared(f))
    ensures f.pendingResets > 0 ==> Valid(ResetFired(f))
  {
  }

  /** Two submits in quick succession start two timers; the first to fire
      hides the second submit's message while its own timer still runs. */
  lemma EarlierTimerHidesLaterSuccess(f: IssueForm, n: nat, m: nat)
    requires n < 10000 && m < 10000 && f.pendingResets == 0
    ensures var g := ResetFired(Submitted(Submitted(f, n), m));
            !g.showSuccess && g.generatedId == ComplaintId(m) && g.pendingResets == 1
  {
  }

  /** The form as the component holds it. */
  class RaiseIssueForm {
    var selectedPlot: string
    var issueCategory: string
    var description: string
    var contactEmail: string
    var contactPhone: string
    var showSuccess: bool
    var generatedId: string
    var pendingResets: nat

    function State(): IssueForm
      reads this
    {
      IssueForm(selectedPlot, issueCategory, description, contactEmail, contactPhone,
                showSuccess, generatedId, pendingResets)
    }

    constructor ()
      ensures State() == InitialForm
    {
      selectedPlot, issueCategory, description, contactEmail, contactPhone := "", "", "", "", "";
      showSuccess, generatedId, pendingResets := false, "", 0;
    }

    method Submit(n: nat)
      requires n < 10000
      modifies this
      ensures State() == Submitted(old(State()), n)
      ensures Valid(old(State())) ==> Valid(State())
    {
      generatedId := IdPrefix + PadStart(NatToString(n), 4, '0');
      showSuccess := true;
      pendingResets := pendingResets + 1;
    }

    method ResetAfterDelay()
      requires pendingResets > 0
      modifies this
      ensures State() == ResetFired(old(State()))
      ensures Valid(old(State())) ==> Valid(State())
    {
      showSuccess := false;
      ClearForm();
      pendingResets := pendingResets - 1;
    }

    method ClearForm()
      modifies this
      ensures State() == FieldsCleared(old(State()))
      ensures Valid(old(State())) ==> Valid(State())
    {
      selectedPlot := "";
      issueCategory := "";
      description := "";
      contactEmail := "";
      contactPhone := "";
    }
  }
}

/**
 * The registration form's client-side checks (client/src/pages/auth/AuthValidate.tsx),
 * written with zod 4 (imported as `"zod/v4"`). A string schema runs all of its length checks and reports
 * each failure, lengths counted in UTF-16 code units. The form schema checks its
 * fields in declaration order; its refinement (a university chosen or described)
 * runs only when every field issue so far is a continuable one, so a missing
 * string or a wrong role skips it. `validateRegisterForm` blanks the university
 * fields the current mode does not use, then folds the issues into a record
 * keyed by path, where a later issue on a path overwrites an earlier one.
 */
module AuthValidate {
  import opened Wrappers
  import opened Text
  import opened FormValidators

  /** A `.min(n, message)` check; `.nonempty(message)` is a minimum of 1. */
  datatype LengthCheck = LengthCheck(min: nat, message: string)

  /** A zod issue: where it is, what it says, and whether later checks may still run. */
  datatype Issue = Issue(path: string, message: string, continues: bool)

  const UsernameChecks := [LengthCheck(1, "Username is required."), LengthCheck(3, "Username must be at least 3 characters.")]
  const PasswordChecks := [LengthCheck(1, "Password is required."), LengthCheck(6, "Password must be at least 6 characters.")]
  const NameChecks := [LengthCheck(1, "Full name is required."), LengthCheck(2, "Full name must be at least 2 characters.")]
  const UniversityIdChecks := [LengthCheck(1, "Please select a university.")]
  const UniversityNameChecks := [LengthCheck(1, "University name is required."),
    LengthCheck(2, "University name must be at least 2 characters.")]
  const UniversityAddressChecks := [LengthCheck(1, "University address is required."),
    LengthCheck(5, "University address must be at least 5 characters.")]

  /** zod 4's default messages for a missing string and for a role other than the literal. */
  const UndefinedMessage := "Invalid input: expected string, received undefined"
  const RoleMessage := "Invalid input: expected \"student\""
  const UniversityMessage := "Please either select a university or provide university details"

  /** Every failed check of a string schema, in the order the checks are declared. */
  function StringIssues(path: string, checks: seq<LengthCheck>, s: string): (issues: seq<Issue>)
    ensures |issues| <= |checks|
    ensures forall i :: 0 <= i < |issues| ==> issues[i].path == path && issues[i].continues
    ensures issues == [] <==> forall j :: 0 <= j < |checks| ==> checks[j].min <= Utf16Length(s)
    ensures checks != [] && Utf16Length(s) < checks[0].min ==> issues[0].message == checks[0].message
  {
    if checks == [] then []
    else
      (if Utf16Length(s) < checks[0].min then [Issue(path, checks[0].message, true)] else [])
      + StringIssues(path, checks[1..], s)
  }

  /** A field validator: `safeParse`, then `true` or the first issue's message. */
  function CheckString(checks: seq<LengthCheck>, s: string): Verdict
  {
    var issues := StringIssues("", checks, s);
    if issues == [] then Accepted else Rejected(issues[0].message)
  }

  function ValidateUsername(value: string): (r: Verdict)
    ensures r == Accepted <==> Utf16Length(value) >= 3
    ensures value == "" ==> r == Rejected("Username is required.")
    ensures value != "" && Utf16Length(value) < 3 ==> r == Rejected("Username must be at least 3 characters.")
  {
    CheckString(UsernameChecks, value)
  }

  function ValidatePassword(value: string): (r: Verdict)
    ensures r == Accepted <==> Utf16Length(value) >= 6
    ensures value == "" ==> r == Rejected("Password is required.")
    ensures value != "" && Utf16Length(value) < 6 ==> r == Rejected("Password must be at least 6 characters.")
  {
    CheckString(PasswordChecks, value)
  }

  function ValidateName(value: string): (r: Verdict)
    ensures r == Accepted <==> Utf16Length(value) >= 2
    ensures value == "" ==> r == Rejected("Full name is required.")
    ensures value != "" && Utf16Length(value) < 2 ==> r == Rejected("Full name must be at least 2 characters.")
  {
    CheckString(NameChecks, value)
  }

  function ValidateUniversityId(value: string): (r: Verdict)
    ensures r == Accepted <==> value != ""
    ensures value == "" ==> r == Rejected("Please select a university.")
  {
    CheckString(UniversityIdChecks, value)
  }

  function ValidateUniversityName(value: string): (r: Verdict)
    ensures r == Accepted <==> Utf16Length(value) >= 2
    ensures value == "" ==> r == Rejected("University name is required.")
    ensures value != "" && Utf16Length(value) < 2 ==> r == Rejected("University name must be at least 2 characters.")
  {
    CheckString(UniversityNameChecks, value)
  }

  function ValidateUniversityAddress(value: string): (r: Verdict)
    ensures r == Accepted <==> Utf16Length(value) >= 5
    ensures value == "" ==> r == Rejected("University address is required.")
    ensures value != "" && Utf16Length(value) < 5 ==> r == Rejected("University address must be at least 5 characters.")
  {
    CheckString(UniversityAddressChecks, value)
  }

  /** The form's fields, each a string or absent (`undefined`). */
  datatype RegisterForm = RegisterForm(
    username: Option<string>, password: Option<string>, name: Option<string>, role: Option<string>,
    universityId: Option<string>, universityName: Option<string>, universityAddress: Option<string>)

  /** Whether the student picks an existing university or describes a new one. */
  datatype Mode = Select | Create

  /** The fields `validateRegisterForm` checks: the other mode's university fields become absent. */
  function Masked(data: RegisterForm, mode: Mode): (m: RegisterForm)
    ensures m.username == data.username && m.password == data.password && m.name == data.name && m.role == data.role
    ensures m.universityId == (if mode == Select then data.universityId else None)
    ensures m.universityName == (if mode == Create then data.universityName else None)
    ensures m.universityAddress == (if mode == Create then data.universityAddress else None)
  {
    data.(universityId := if mode == Select then data.universityId else None,
          universityName := if mode == Create then data.universityName else None,
          universityAddress := if mode == Create then data.universityAddress else None)
  }

  /** A required string field: absent is a type issue that stops checking, else its length checks. */
  function RequiredIssues(path: string, checks: seq<LengthCheck>, v: Option<string>): seq<Issue>
  {
    match v
    case None => [Issue(path, UndefinedMessage, false)]
    case Some(s) => StringIssues(path, checks, s)
  }

  function RoleIssues(role: Option<string>): seq<Issue>
  {
    if role == Some("student") then [] else [Issue("role", RoleMessage, false)]
  }

  /** A JavaScript string that is present and truthy, i.e. non-empty. */
  predicate Filled(v: Option<string>)
  {
    v.Some? && v.value != ""
  }

  /** The refinement: a university id, or both a name and an address. */
  predicate UniversityGiven(data: RegisterForm)
  {
    Filled(data.universityId) || (Filled(data.universityName) && Filled(data.universityAddress))
  }

  predicate Continuable(issues: seq<Issue>)
  {
    forall i :: 0 <= i < |issues| ==> issues[i].continues
  }

  /** The issues of the fields, in declaration order; the optional university strings never fail. */
  function FieldIssues(data: RegisterForm): seq<Issue>
  {
    RequiredIssues("username", UsernameChecks, data.username)
    + RequiredIssues("password", PasswordChecks, data.password)
    + RequiredIssues("name", NameChecks, data.name)
    + RoleIssues(data.role)
  }

  /** The refinement's issue, unless a field issue stopped the run. */
  function RefinementIssues(fields: seq<Issue>, data: RegisterForm): seq<Issue>
  {
    if Continuable(fields) && !UniversityGiven(data) then [Issue("university", UniversityMessage, true)] else []
  }

  /** `registerSchema.safeParse(data)`'s issues: the fields', then the refinement's. */
  function RegisterIssues(data: RegisterForm): seq<Issue>
  {
    FieldIssues(data) + RefinementIssues(FieldIssues(data), data)
  }

  /** The record the issues are folded into: each path maps to the message of its last issue. */
  function RecordOf(issues: seq<Issue>): map<string, string>
  {
    if issues == [] then map[]
    else RecordOf(issues[..|issues| - 1])[issues[|issues| - 1].path := issues[|issues| - 1].message]
  }

  /** The record `validateRegisterForm` returns for the data in the mode. */
  function RegisterErrors(data: RegisterForm, mode: Mode): map<string, string>
  {
    RecordOf(RegisterIssues(Masked(data, mode)))
  }

  method ValidateRegisterForm(data: RegisterForm, mode: Mode) returns (success: bool, errors: map<string, string>)
    ensures success <==> RegisterIssues(Masked(data, mode)) == []
    ensures errors == RegisterErrors(data, mode)
  {
    var issues := RegisterIssues(Masked(data, mode));
    if issues == [] {
      return true, map[];
    }
    errors := map[];
    var i := 0;
    while i < |issues|
      invariant 0 <= i <= |issues|
      invariant errors == RecordOf(issues[..i])
    {
      assert issues[..i + 1][..i] == issues[..i];
      errors := errors[issues[i].path := issues[i].message];
      i := i + 1;
    }
    assert issues[..|issues|] == issues;
    success := false;
  }

  /** The record has an entry for exactly the paths of the issues. */
  lemma {:induction false} RecordKeys(issues: seq<Issue>)
    ensures RecordOf(issues).Keys == set i | 0 <= i < |issues| :: issues[i].path
  {
    if issues != [] {
      var init := issues[..|issues| - 1];
      RecordKeys(init);
      assert forall i :: 0 <= i < |init| ==> init[i] == issues[i];
    }
  }

  /** An issue that no later issue shares a path with has the last word on its path. */
  lemma {:induction false} RecordLastWins(issues: seq<Issue>, i: nat)
    requires i < |issues|
    requires forall j :: i < j < |issues| ==> issues[j].path != issues[i].path
    ensures issues[i].path in RecordOf(issues) && RecordOf(issues)[issues[i].path] == issues[i].message
  {
    var init := issues[..|issues| - 1];
    if i < |issues| - 1 {
      assert forall j :: i < j < |init| ==> init[j] == issues[j];
      RecordLastWins(init, i);
    }
  }

  /** Issues appended on other paths leave a path's entry alone. */
  lemma {:induction false} RecordAppendOther(a: seq<Issue>, b: seq<Issue>, path: string)
    requires Avoids(b, path)
    ensures (path in RecordOf(a + b)) == (path in RecordOf(a))
    ensures path in RecordOf(a) ==> RecordOf(a + b)[path] == RecordOf(a)[path]
  {
    if b != [] {
      assert (a + b)[..|a + b| - 1] == a + b[..|b| - 1];
      RecordAppendOther(a, b[..|b| - 1], path);
    } else {
      assert a + b == a;
    }
  }

  predicate Avoids(issues: seq<Issue>, path: string)
  {
    forall j :: 0 <= j < |issues| ==> issues[j].path != path
  }

  lemma AvoidsAppend(a: seq<Issue>, b: seq<Issue>, path: string)
    requires Avoids(a, path) && Avoids(b, path)
    ensures Avoids(a + b, path)
  {
  }

  lemma RequiredAvoids(p: string, checks: seq<LengthCheck>, v: Option<string>, path: string)
    requires p != path
    ensures Avoids(RequiredIssues(p, checks, v), path)
  {
  }

  lemma ContinuableAppend(a: seq<Issue>, b: seq<Issue>)
    ensures Continuable(a + b) <==> Continuable(a) && Continuable(b)
  {
    assert forall j :: 0 <= j < |a| ==> a[j] == (a + b)[j];
    assert forall j :: 0 <= j < |b| ==> b[j] == (a + b)[|a| + j];
  }

  lemma Regroup(a: seq<Issue>, b: seq<Issue>, c: seq<Issue>, d: seq<Issue>, e: seq<Issue>)
    ensures a + b + c + d + e == a + (b + c + d + e)
  {
  }

  /** Success and an empty record go together. */
  lemma SuccessMeansNoErrors(data: RegisterForm, mode: Mode)
    ensures RegisterIssues(Masked(data, mode)) == [] <==> RegisterErrors(data, mode) == map[]
  {
    var issues := RegisterIssues(Masked(data, mode));
    RecordKeys(issues);
    if issues != [] {
      assert issues[0].path in RegisterErrors(data, mode).Keys;
    }
  }

  /** The form passes exactly when the three strings are long enough, the role is "student", and a university is given. */
  lemma FormAccepts(data: RegisterForm, mode: Mode)
    ensures RegisterIssues(Masked(data, mode)) == [] <==>
      (data.username.Some? && Utf16Length(data.username.value) >= 3)
      && (data.password.Some? && Utf16Length(data.password.value) >= 6)
      && (data.name.Some? && Utf16Length(data.name.value) >= 2)
      && data.role == Some("student")
      && UniversityGiven(Masked(data, mode))
  {
  }

  /** In select mode only the id counts; in create mode only the name and the address. */
  lemma ModeMasking(data: RegisterForm)
    ensures UniversityGiven(Masked(data, Select)) <==> Filled(data.universityId)
    ensures UniversityGiven(Masked(data, Create)) <==> Filled(data.universityName) && Filled(data.universityAddress)
  {
  }

  /** A missing string or a role other than "student" is reported and the refinement is not run. */
  lemma StoppingIssueSkipsRefinement(data: RegisterForm, mode: Mode)
    requires data.username.None? || data.password.None? || data.name.None? || data.role != Some("student")
    ensures RegisterIssues(Masked(data, mode)) != []
    ensures "university" !in RegisterErrors(data, mode)
  {
    var m := Masked(data, mode);
    FieldsStop(m);
    FieldsAvoidUniversity(m);
    assert RegisterIssues(m) == FieldIssues(m) + [];
    RecordKeys(RegisterIssues(m));
  }

  lemma FieldsStop(m: RegisterForm)
    requires m.username.None? || m.password.None? || m.name.None? || m.role != Some("student")
    ensures FieldIssues(m) != [] && !Continuable(FieldIssues(m))
  {
    var u := RequiredIssues("username", UsernameChecks, m.username);
    var p := RequiredIssues("password", PasswordChecks, m.password);
    var n := RequiredIssues("name", NameChecks, m.name);
    var r := RoleIssues(m.role);
    ContinuableAppend(u, p);
    ContinuableAppend(u + p, n);
    ContinuableAppend(u + p + n, r);
    if m.username.None? {
      assert !u[0].continues;
    } else if m.password.None? {
      assert !p[0].continues;
    } else if m.name.None? {
      assert !n[0].continues;
    } else {
      assert !r[0].continues;
    }
  }

  lemma FieldsAvoidUniversity(m: RegisterForm)
    ensures Avoids(FieldIssues(m), "university")
  {
    var u := RequiredIssues("username", UsernameChecks, m.username);
    var p := RequiredIssues("password", PasswordChecks, m.password);
    var n := RequiredIssues("name", NameChecks, m.name);
    var r := RoleIssues(m.role);
    RequiredAvoids("username", UsernameChecks, m.username, "university");
    RequiredAvoids("password", PasswordChecks, m.password, "university");
    RequiredAvoids("name", NameChecks, m.name, "university");
    AvoidsAppend(u, p, "university");
    AvoidsAppend(u + p, n, "university");
    AvoidsAppend(u + p + n, r, "university");
  }

  /** A wrong role ends up under "role" with zod's literal message. */
  lemma WrongRole(data: RegisterForm, mode: Mode)
    requires data.role != Some("student")
    ensures "role" in RegisterErrors(data, mode) && RegisterErrors(data, mode)["role"] == RoleMessage
  {
    var m := Masked(data, mode);
    var fields := FieldIssues(m);
    StoppingIssueSkipsRefinement(data, mode);
    assert RegisterIssues(m) == fields + [];
    RecordLastWins(fields, |fields| - 1);
  }

  /** An empty username fails both of its checks, and the record keeps the later, minimum-length message. */
  lemma EmptyUsername(data: RegisterForm, mode: Mode)
    requires data.username == Some("")
    ensures "username" in RegisterErrors(data, mode)
    ensures RegisterErrors(data, mode)["username"] == "Username must be at least 3 characters."
  {
    var m := Masked(data, mode);
    var u := RequiredIssues("username", UsernameChecks, m.username);
    assert u == [Issue("username", "Username is required.", true), Issue("username", "Username must be at least 3 characters.", true)];
    var p := RequiredIssues("password", PasswordChecks, m.password);
    var n := RequiredIssues("name", NameChecks, m.name);
    var r := RoleIssues(m.role);
    var e := RefinementIssues(FieldIssues(m), m);
    Regroup(u, p, n, r, e);
    RequiredAvoids("password", PasswordChecks, m.password, "username");
    RequiredAvoids("name", NameChecks, m.name, "username");
    AvoidsAppend(p, n, "username");
    AvoidsAppend(p + n, r, "username");
    AvoidsAppend(p + n + r, e, "username");
    RecordLastWins(u, 1);
    RecordAppendOther(u, p + n + r + e, "username");
  }

  /** The form schema does not repeat the university name and address minimums: a one-letter name passes it. */
  lemma ShortUniversityNamePasses(data: RegisterForm)
    requires data.username.Some? && Utf16Length(data.username.value) >= 3
    requires data.password.Some? && Utf16Length(data.password.value) >= 6
    requires data.name.Some? && Utf16Length(data.name.value) >= 2
    requires data.role == Some("student")
    requires data.universityName == Some("a") && Filled(data.universityAddress)
    ensures RegisterIssues(Masked(data, Create)) == []
    ensures ValidateUniversityName("a") == Rejected("University name must be at least 2 characters.")
  {
    FormAccepts(data, Create);
  }
}

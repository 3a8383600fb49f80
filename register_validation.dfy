/**
 * The server-side validation of a registration request (`validateRegisterRequest`
 * in server/internal/domain/auth/handler.go): field by field it appends an error
 * detail to a list, and an empty list means the request is accepted. Blankness is
 * decided after Go's `strings.TrimSpace`; lengths are Go's `len`, which counts
 * UTF-8 bytes rather than characters.
 */
module RegisterValidation {
  import opened Text

  /** The `Field` of an error detail, one case per JSON key the validator uses. */
  datatype Field = Username | Name | Password | Role | University | UniversityName | UniversityAddress

  function FieldKey(f: Field): (key: string)
    ensures key != []
  {
    match f
    case Username => "username"
    case Name => "name"
    case Password => "password"
    case Role => "role"
    case University => "university"
    case UniversityName => "university_name"
    case UniversityAddress => "university_address"
  }

  datatype ErrorDetail = ErrorDetail(field: Field, message: string)

  /** `RegisterRequest`; an omitted `university_id` decodes as 0 and an omitted string as "". */
  datatype RegisterRequest = RegisterRequest(
    username: string,
    name: string,
    password: string,
    role: string,
    universityId: int,
    universityName: string,
    universityAddress: string)

  const UsernameRequired := "Username is required"
  const UsernameLength := "Username must be between 3 and 50 characters"
  const NameRequired := "Name is required"
  const NameLength := "Name must be between 2 and 50 characters"
  const PasswordRequired := "Password is required"
  const PasswordLength := "Password must be at least 6 characters"
  const RoleRequired := "Role is required"
  const RoleInvalid := "Role must be either 'admin' or 'student'"
  const UniversityMissing := "Students must select an existing university or provide university name and address to create a new one"
  const UniversityBoth := "Please either select an existing university or provide details for a new one, not both"
  const UniversityNameLong := "University name must not exceed 100 characters"
  const UniversityAddressLong := "University address must not exceed 255 characters"

  /** `strings.TrimSpace(s) == ""`: every character is Go whitespace (see `BlankIsTrimmedEmpty`). */
  predicate Blank(s: string)
  {
    forall i :: 0 <= i < |s| ==> GoSpace(s[i])
  }

  lemma BlankIsTrimmedEmpty(s: string)
    ensures Blank(s) <==> Trim(s, GoSpace) == []
  {
  }

  // What each check contributes, in the order the validator runs them.

  function UsernameErrors(u: string): seq<ErrorDetail>
  {
    if Blank(u) then [ErrorDetail(Username, UsernameRequired)]
    else if Utf8Length(u) < 3 || Utf8Length(u) > 50 then [ErrorDetail(Username, UsernameLength)]
    else []
  }

  function NameErrors(n: string): seq<ErrorDetail>
  {
    if Blank(n) then [ErrorDetail(Name, NameRequired)]
    else if Utf8Length(n) < 2 || Utf8Length(n) > 50 then [ErrorDetail(Name, NameLength)]
    else []
  }

  function PasswordErrors(p: string): seq<ErrorDetail>
  {
    if Blank(p) then [ErrorDetail(Password, PasswordRequired)]
    else if Utf8Length(p) < 6 then [ErrorDetail(Password, PasswordLength)]
    else []
  }

  function RoleErrors(role: string): seq<ErrorDetail>
  {
    if Blank(role) then [ErrorDetail(Role, RoleRequired)]
    else if role != "admin" && role != "student" then [ErrorDetail(Role, RoleInvalid)]
    else []
  }

  /** The four independent university checks, made only for students. */
  function UniversityErrors(req: RegisterRequest): seq<ErrorDetail>
  {
    if req.role != "student" then []
    else MissingUniversity(req) + BothUniversities(req) + NameTooLong(req) + AddressTooLong(req)
  }

  function MissingUniversity(req: RegisterRequest): seq<ErrorDetail>
  {
    if req.universityId == 0 && (req.universityName == "" || req.universityAddress == "")
    then [ErrorDetail(University, UniversityMissing)] else []
  }

  function BothUniversities(req: RegisterRequest): seq<ErrorDetail>
  {
    if req.universityId != 0 && (req.universityName != "" || req.universityAddress != "")
    then [ErrorDetail(University, UniversityBoth)] else []
  }

  function NameTooLong(req: RegisterRequest): seq<ErrorDetail>
  {
    if req.universityName != "" && Utf8Length(req.universityName) > 100
    then [ErrorDetail(UniversityName, UniversityNameLong)] else []
  }

  function AddressTooLong(req: RegisterRequest): seq<ErrorDetail>
  {
    if req.universityAddress != "" && Utf8Length(req.universityAddress) > 255
    then [ErrorDetail(UniversityAddress, UniversityAddressLong)] else []
  }

  function RegisterErrors(req: RegisterRequest): seq<ErrorDetail>
  {
    UsernameErrors(req.username) + NameErrors(req.name) + PasswordErrors(req.password)
    + RoleErrors(req.role) + UniversityErrors(req)
  }

  /** The rules an accepted request satisfies, stated positively. */
  predicate ValidRegistration(req: RegisterRequest)
  {
    && !Blank(req.username) && 3 <= Utf8Length(req.username) <= 50
    && !Blank(req.name) && 2 <= Utf8Length(req.name) <= 50
    && !Blank(req.password) && Utf8Length(req.password) >= 6
    && (req.role == "admin" || req.role == "student")
    && (req.role == "student" ==>
          && ((req.universityId == 0 && req.universityName != "" && req.universityAddress != "")
              || (req.universityId != 0 && req.universityName == "" && req.universityAddress == ""))
          && Utf8Length(req.universityName) <= 100
          && Utf8Length(req.universityAddress) <= 255)
  }

  /**
   * `validateRegisterRequest`: the checks run in order, each appending at most one
   * error; the blocks of the Go function are the methods below.
   */
  method ValidateRegisterRequest(req: RegisterRequest) returns (errors: seq<ErrorDetail>)
    ensures errors == RegisterErrors(req)
    ensures errors == [] <==> ValidRegistration(req)
  {
    errors := [];
    errors := CheckUsername(errors, req.username);
    assert errors == UsernameErrors(req.username);
    errors := CheckName(errors, req.name);
    errors := CheckPassword(errors, req.password);
    errors := CheckRole(errors, req.role);
    ghost var personal := errors;
    assert personal == UsernameErrors(req.username) + NameErrors(req.name) + PasswordErrors(req.password) + RoleErrors(req.role);
    if req.role == "student" {
      errors := CheckUniversity(errors, req);
    }
    assert errors == personal + UniversityErrors(req);
    RegisterErrorsEmpty(req);
  }

  method CheckUsername(before: seq<ErrorDetail>, username: string) returns (errors: seq<ErrorDetail>)
    ensures errors == before + UsernameErrors(username)
  {
    errors := before;
    if Blank(username) {
      errors := errors + [ErrorDetail(Username, UsernameRequired)];
    } else if Utf8Length(username) < 3 || Utf8Length(username) > 50 {
      errors := errors + [ErrorDetail(Username, UsernameLength)];
    }
  }

  method CheckName(before: seq<ErrorDetail>, name: string) returns (errors: seq<ErrorDetail>)
    ensures errors == before + NameErrors(name)
  {
    errors := before;
    if Blank(name) {
      errors := errors + [ErrorDetail(Name, NameRequired)];
    } else if Utf8Length(name) < 2 || Utf8Length(name) > 50 {
      errors := errors + [ErrorDetail(Name, NameLength)];
    }
  }

  method CheckPassword(before: seq<ErrorDetail>, password: string) returns (errors: seq<ErrorDetail>)
    ensures errors == before + PasswordErrors(password)
  {
    errors := before;
    if Blank(password) {
      errors := errors + [ErrorDetail(Password, PasswordRequired)];
    } else if Utf8Length(password) < 6 {
      errors := errors + [ErrorDetail(Password, PasswordLength)];
    }
  }

  method CheckRole(before: seq<ErrorDetail>, role: string) returns (errors: seq<ErrorDetail>)
    ensures errors == before + RoleErrors(role)
  {
    errors := before;
    if Blank(role) {
      errors := errors + [ErrorDetail(Role, RoleRequired)];
    } else if role != "admin" && role != "student" {
      errors := errors + [ErrorDetail(Role, RoleInvalid)];
    }
  }

  /** The student-only block: four independent checks. */
  method CheckUniversity(before: seq<ErrorDetail>, req: RegisterRequest) returns (errors: seq<ErrorDetail>)
    requires req.role == "student"
    ensures errors == before + UniversityErrors(req)
  {
    errors := before;
    if req.universityId == 0 && (req.universityName == "" || req.universityAddress == "") {
      errors := errors + [ErrorDetail(University, UniversityMissing)];
    }
    assert errors == before + MissingUniversity(req);
    if req.universityId != 0 && (req.universityName != "" || req.universityAddress != "") {
      errors := errors + [ErrorDetail(University, UniversityBoth)];
    }
    assert errors == before + MissingUniversity(req) + BothUniversities(req);
    if req.universityName != "" && Utf8Length(req.universityName) > 100 {
      errors := errors + [ErrorDetail(UniversityName, UniversityNameLong)];
    }
    assert errors == before + MissingUniversity(req) + BothUniversities(req) + NameTooLong(req);
    if req.universityAddress != "" && Utf8Length(req.universityAddress) > 255 {
      errors := errors + [ErrorDetail(UniversityAddress, UniversityAddressLong)];
    }
    assert errors == before + MissingUniversity(req) + BothUniversities(req) + NameTooLong(req)
      + AddressTooLong(req);
    SeqAssoc4(before, MissingUniversity(req), BothUniversities(req), NameTooLong(req), AddressTooLong(req));
  }

  lemma SeqAssoc4<T>(p: seq<T>, a: seq<T>, b: seq<T>, c: seq<T>, d: seq<T>)
    ensures p + a + b + c + d == p + (a + b + c + d)
  {
  }

  lemma RegisterErrorsEmpty(req: RegisterRequest)
    ensures RegisterErrors(req) == [] <==> ValidRegistration(req)
  {
    var u, n, p, r, v := UsernameErrors(req.username), NameErrors(req.name),
      PasswordErrors(req.password), RoleErrors(req.role), UniversityErrors(req);
    assert |RegisterErrors(req)| == |u| + |n| + |p| + |r| + |v|;
    assert !Blank("admin") by { assert !GoSpace("admin"[0]); }
    assert !Blank("student") by { assert !GoSpace("student"[0]); }
    if req.role == "student" {
      var m, b, nl, al := MissingUniversity(req), BothUniversities(req), NameTooLong(req), AddressTooLong(req);
      assert |v| == |m| + |b| + |nl| + |al|;
      if req.universityName == "" {
        assert Utf8Length(req.universityName) == 0;
      }
      if req.universityAddress == "" {
        assert Utf8Length(req.universityAddress) == 0;
      }
    }
  }

  /** Position of a field in the validator's order. */
  function FieldRank(field: Field): (n: nat)
    ensures n < 7
  {
    match field
    case Username => 0
    case Name => 1
    case Password => 2
    case Role => 3
    case University => 4
    case UniversityName => 5
    case UniversityAddress => 6
  }

  /** Fields strictly in the validator's order, so no field twice. */
  predicate Ordered(errors: seq<ErrorDetail>)
  {
    forall i, j :: 0 <= i < j < |errors| ==> FieldRank(errors[i].field) < FieldRank(errors[j].field)
  }

  predicate RanksWithin(errors: seq<ErrorDetail>, lo: nat, hi: nat)
  {
    forall i :: 0 <= i < |errors| ==> lo <= FieldRank(errors[i].field) < hi
  }

  lemma {:induction false} OrderedAppend(a: seq<ErrorDetail>, b: seq<ErrorDetail>, lo: nat, mid: nat, hi: nat)
    requires lo <= mid <= hi
    requires Ordered(a) && RanksWithin(a, lo, mid)
    requires Ordered(b) && RanksWithin(b, mid, hi)
    ensures Ordered(a + b) && RanksWithin(a + b, lo, hi)
  {
    forall i, j | 0 <= i < j < |a + b|
      ensures FieldRank((a + b)[i].field) < FieldRank((a + b)[j].field)
    {
      if j < |a| {
        assert (a + b)[i] == a[i] && (a + b)[j] == a[j];
      } else if i < |a| {
        assert (a + b)[i] == a[i] && (a + b)[j] == b[j - |a|];
      } else {
        assert (a + b)[i] == b[i - |a|] && (a + b)[j] == b[j - |a|];
      }
    }
    forall i | 0 <= i < |a + b|
      ensures lo <= FieldRank((a + b)[i].field) < hi
    {
      if i < |a| {
        assert (a + b)[i] == a[i];
      } else {
        assert (a + b)[i] == b[i - |a|];
      }
    }
  }

  /** At most one "university" error: its two conditions exclude each other. */
  lemma UniversityOrdered(req: RegisterRequest)
    ensures Ordered(UniversityErrors(req)) && RanksWithin(UniversityErrors(req), 4, 7)
  {
    if req.role == "student" {
      var missing, both := MissingUniversity(req), BothUniversities(req);
      assert |missing + both| <= 1;
      OrderedAppend(missing + both, NameTooLong(req), 4, 5, 6);
      OrderedAppend(missing + both + NameTooLong(req), AddressTooLong(req), 4, 6, 7);
    }
  }

  /** Errors come in the order username, name, password, role, university, ...; each field at most once. */
  lemma RegisterErrorsOrdered(req: RegisterRequest)
    ensures Ordered(RegisterErrors(req))
    ensures forall i, j :: 0 <= i < j < |RegisterErrors(req)| ==>
      RegisterErrors(req)[i].field != RegisterErrors(req)[j].field
  {
    var u, n, p, r := UsernameErrors(req.username), NameErrors(req.name),
      PasswordErrors(req.password), RoleErrors(req.role);
    OrderedAppend(u, n, 0, 1, 2);
    OrderedAppend(u + n, p, 0, 2, 3);
    OrderedAppend(u + n + p, r, 0, 3, 4);
    UniversityOrdered(req);
    OrderedAppend(u + n + p + r, UniversityErrors(req), 0, 4, 7);
  }

  /** Non-students are never asked about a university. */
  lemma NonStudentNoUniversityErrors(req: RegisterRequest)
    requires req.role != "student"
    ensures forall i :: 0 <= i < |RegisterErrors(req)| ==> FieldRank(RegisterErrors(req)[i].field) < 4
  {
    var u, n, p, r := UsernameErrors(req.username), NameErrors(req.name),
      PasswordErrors(req.password), RoleErrors(req.role);
    OrderedAppend(u, n, 0, 1, 2);
    OrderedAppend(u + n, p, 0, 2, 3);
    OrderedAppend(u + n + p, r, 0, 3, 4);
    assert RegisterErrors(req) == u + n + p + r;
  }

  /** Lengths are bytes: a two-letter username of two-byte letters passes the three-character minimum. */
  lemma ByteLengths()
    ensures UsernameErrors("\U{00E9}\U{00E9}") == []
    ensures UsernameErrors("ab") == [ErrorDetail(Username, UsernameLength)]
  {
    assert !GoSpace("\U{00E9}\U{00E9}"[0]);
    assert !GoSpace("ab"[0]);
  }

  /** A too-short username, an empty name, a short password and an unknown role give exactly four errors. */
  lemma ValidationErrorsExample()
    ensures RegisterErrors(RegisterRequest("ab", "", "123", "invalid", 0, "", "")) == [
      ErrorDetail(Username, UsernameLength),
      ErrorDetail(Name, NameRequired),
      ErrorDetail(Password, PasswordLength),
      ErrorDetail(Role, RoleInvalid)]
  {
    assert !GoSpace("ab"[0]) && !GoSpace("123"[0]) && !GoSpace("invalid"[0]);
    assert Blank("");
  }

  /** An admin with no university is accepted. */
  lemma ValidAdminExample(req: RegisterRequest)
    requires req == RegisterRequest("adminuser", "Admin User", "password123", "admin", 0, "", "")
    ensures RegisterErrors(req) == []
  {
    AdminIsValid(req);
    RegisterErrorsEmpty(req);
  }

  lemma AdminIsValid(req: RegisterRequest)
    requires req == RegisterRequest("adminuser", "Admin User", "password123", "admin", 0, "", "")
    ensures ValidRegistration(req)
  {
    AdminUsername();
    AdminName();
    AdminPassword();
  }

  lemma AdminUsername()
    ensures !Blank("adminuser") && 3 <= Utf8Length("adminuser") <= 50
  {
    assert !GoSpace("adminuser"[0]);
  }

  lemma AdminName()
    ensures !Blank("Admin User") && 2 <= Utf8Length("Admin User") <= 50
  {
    assert !GoSpace("Admin User"[0]);
  }

  lemma AdminPassword()
    ensures !Blank("password123") && Utf8Length("password123") >= 6
  {
    assert !GoSpace("password123"[0]);
  }
}

/**
 * Validation of a registration request: the `RegisterRequest` model with its
 * field bounds, the `_strip_strings` validator on username, email and full
 * name, and the `_validate_password` composition rule. The same model is
 * declared three times in the application; two copies carry the password
 * rule and the route's own copy does not, which `PasswordPolicy` selects.
 *
 * Character classes are ASCII: whitespace is the ten ASCII characters that
 * Python's `str.isspace` accepts, letters and digits are `a`-`z`, `A`-`Z`
 * and `0`-`9`.
 */
module Registration {
  import opened Results

  // ---------------------------------------------------------------------
  // Character classes
  // ---------------------------------------------------------------------

  /** Space, tab, line feed, vertical tab, form feed, carriage return and the four separators 0x1C-0x1F. */
  predicate IsSpace(c: char) {
    var n := c as int;
    n == 32 || 9 <= n <= 13 || 28 <= n <= 31
  }

  predicate AllSpace(s: string) {
    forall i :: 0 <= i < |s| ==> IsSpace(s[i])
  }

  datatype CharClass = Lower | Upper | Digit

  predicate InClass(c: char, k: CharClass) {
    match k
    case Lower => 'a' <= c <= 'z'
    case Upper => 'A' <= c <= 'Z'
    case Digit => '0' <= c <= '9'
  }

  /** Some character of `s` belongs to class `k`. */
  ghost predicate Has(s: string, k: CharClass) {
    exists i :: 0 <= i < |s| && InClass(s[i], k)
  }

  /** `any(<class test>(c) for c in s)`: a left-to-right scan. */
  function AnyIn(s: string, k: CharClass): (b: bool)
    ensures b <==> Has(s, k)
  {
    if s == [] then false
    else if InClass(s[0], k) then true
    else
      var b := AnyIn(s[1..], k);
      assert Has(s, k) ==> Has(s[1..], k) by {
        if Has(s, k) {
          var i :| 0 <= i < |s| && InClass(s[i], k);
          assert i != 0;
          assert InClass(s[1..][i - 1], k);
        }
      }
      assert Has(s[1..], k) ==> Has(s, k) by {
        if Has(s[1..], k) {
          var i :| 0 <= i < |s[1..]| && InClass(s[1..][i], k);
          assert InClass(s[i + 1], k);
        }
      }
      b
  }

  // ---------------------------------------------------------------------
  // str.strip()
  // ---------------------------------------------------------------------

  /** `s` without its leading whitespace. */
  function TrimStart(s: string): string {
    if s != [] && IsSpace(s[0]) then TrimStart(s[1..]) else s
  }

  /** `s` without its trailing whitespace. */
  function TrimEnd(s: string): string {
    if s != [] && IsSpace(s[|s| - 1]) then TrimEnd(s[..|s| - 1]) else s
  }

  /** What `TrimStart` cuts is whitespace, and what it keeps is a suffix that starts with a non-space. */
  lemma {:induction false} TrimStartSpec(s: string)
    ensures |TrimStart(s)| <= |s| && TrimStart(s) == s[|s| - |TrimStart(s)|..]
    ensures AllSpace(s[..|s| - |TrimStart(s)|])
    ensures TrimStart(s) != [] ==> !IsSpace(TrimStart(s)[0])
  {
    if s != [] && IsSpace(s[0]) {
      var r := TrimStart(s[1..]);
      TrimStartSpec(s[1..]);
      assert s[..|s| - |r|] == [s[0]] + s[1..][..|s[1..]| - |r|];
    }
  }

  /** What `TrimEnd` cuts is whitespace, and what it keeps is a prefix that ends with a non-space. */
  lemma {:induction false} TrimEndSpec(s: string)
    ensures |TrimEnd(s)| <= |s| && TrimEnd(s) == s[..|TrimEnd(s)|]
    ensures AllSpace(s[|TrimEnd(s)|..])
    ensures TrimEnd(s) != [] ==> !IsSpace(TrimEnd(s)[|TrimEnd(s)| - 1])
  {
    if s != [] && IsSpace(s[|s| - 1]) {
      var r := TrimEnd(s[..|s| - 1]);
      TrimEndSpec(s[..|s| - 1]);
      assert s[|r|..] == s[..|s| - 1][|r|..] + [s[|s| - 1]];
    }
  }

  /** Python's `str.strip()` with no argument. */
  function Strip(s: string): string {
    TrimEnd(TrimStart(s))
  }

  /**
   * `Strip(s)` is the slice of `s` left once the whitespace at both ends is
   * cut off, and it neither starts nor ends with whitespace.
   */
  lemma StripSlice(s: string)
    ensures |Strip(s)| <= |TrimStart(s)| <= |s|
    ensures Strip(s) == s[|s| - |TrimStart(s)|..][..|Strip(s)|]
    ensures AllSpace(s[..|s| - |TrimStart(s)|]) && AllSpace(TrimStart(s)[|Strip(s)|..])
    ensures Strip(s) != [] ==> !IsSpace(Strip(s)[0]) && !IsSpace(Strip(s)[|Strip(s)| - 1])
  {
    TrimStartSpec(s);
    TrimEndSpec(TrimStart(s));
    var r := Strip(s);
    if r != [] {
      assert r[0] == TrimStart(s)[0];
    }
  }

  /** Only an all-whitespace string strips to the empty string. */
  lemma StripBlankIff(s: string)
    ensures Strip(s) == [] <==> AllSpace(s)
  {
    var t := TrimStart(s);
    TrimStartSpec(s);
    TrimEndSpec(t);
    if t != [] {
      assert t[0] == s[|s| - |t|];
    }
    if Strip(s) == [] {
      assert t == [] by {
        assert AllSpace(t[0..]);
      }
      assert s[..|s|] == s;
    }
  }

  /** Stripping twice is stripping once. */
  lemma StripIdempotent(s: string)
    ensures Strip(Strip(s)) == Strip(s)
  {
    var t := TrimStart(s);
    var r := Strip(s);
    TrimStartSpec(s);
    TrimEndSpec(t);
    if r != [] {
      assert r[0] == t[0];
      assert TrimStart(r) == r;
    }
  }

  // ---------------------------------------------------------------------
  // _strip_strings
  // ---------------------------------------------------------------------

  /** A request field as it arrives, before any type check. */
  datatype Raw = Text(s: string) | NonText

  datatype PasswordError = PasswordTooShort | NoLowercase | NoUppercase | NoDigit

  datatype Problem =
    | Blank                     // "must not be empty or only whitespace"
    | NotText                   // the value is not a string
    | TooShort(minLength: nat)
    | TooLong(maxLength: nat)
    | WeakPassword(reason: PasswordError)
    | NotARole

  /** The `mode='before'` validator: strings come back stripped, blank strings are refused, anything else passes. */
  function StripStrings(v: Raw): (r: Result<Raw, Problem>)
    ensures v.NonText? ==> r == Ok(v)
    ensures v.Text? ==> (r.Err? <==> AllSpace(v.s))
    ensures r.Err? ==> r.error == Blank
    ensures v.Text? && r.Ok? ==>
      r.value.Text? && r.value.s == Strip(v.s) && r.value.s != [] && !IsSpace(r.value.s[0]) && !IsSpace(r.value.s[|r.value.s| - 1])
  {
    match v
    case NonText => Ok(v)
    case Text(s) =>
      var t := Strip(s);
      StripBlankIff(s);
      StripSlice(s);
      if t == [] then Err(Blank) else Ok(Text(t))
  }

  /** The validator accepts its own output and leaves it as it is. */
  lemma StripStringsIdempotent(v: Raw)
    requires StripStrings(v).Ok?
    ensures StripStrings(StripStrings(v).value) == StripStrings(v)
  {
    if v.Text? {
      StripIdempotent(v.s);
      StripBlankIff(Strip(v.s));
    }
  }

  // ---------------------------------------------------------------------
  // _validate_password
  // ---------------------------------------------------------------------

  /**
   * The composition rule: at least 8 characters, then a lowercase letter, an
   * uppercase letter and a digit, the first rule broken being the one reported;
   * an accepted password comes back unchanged.
   */
  function ValidatePassword(p: string): (r: Result<string, PasswordError>)
    ensures r.Ok? <==> |p| >= 8 && Has(p, Lower) && Has(p, Upper) && Has(p, Digit)
    ensures r.Ok? ==> r.value == p
    ensures r == Err(PasswordTooShort) <==> |p| < 8
    ensures r == Err(NoLowercase) <==> |p| >= 8 && !Has(p, Lower)
    ensures r == Err(NoUppercase) <==> |p| >= 8 && Has(p, Lower) && !Has(p, Upper)
    ensures r == Err(NoDigit) <==> |p| >= 8 && Has(p, Lower) && Has(p, Upper) && !Has(p, Digit)
  {
    if |p| < 8 then Err(PasswordTooShort)
    else if !AnyIn(p, Lower) then Err(NoLowercase)
    else if !AnyIn(p, Upper) then Err(NoUppercase)
    else if !AnyIn(p, Digit) then Err(NoDigit)
    else Ok(p)
  }

  // ---------------------------------------------------------------------
  // The request model
  // ---------------------------------------------------------------------

  datatype Role = PLAYER | COACH | ADMIN

  /** Which copy of the model: with the password composition rule, or with the length bound only. */
  datatype PasswordPolicy = Composition | LengthOnly

  datatype FieldName = Username | Email | Password | FullName | RoleField

  datatype FieldError = FieldError(field: FieldName, problem: Problem)

  datatype RawRequest = RawRequest(username: Raw, email: Raw, password: Raw, fullName: Raw, role: Raw)

  datatype RegisterRequest = RegisterRequest(username: string, email: string, password: string, fullName: string, role: Role)

  const USERNAME_MIN: nat := 3
  const USERNAME_MAX: nat := 50
  const PASSWORD_MAX: nat := 128
  const FULL_NAME_MAX: nat := 100

  /** A stripped string field with optional length bounds. */
  function CheckText(v: Raw, minLength: nat, maxLength: nat): Result<string, Problem> {
    match StripStrings(v)
    case Err(e) => Err(e)
    case Ok(NonText) => Err(NotText)
    case Ok(Text(t)) =>
      if |t| < minLength then Err(TooShort(minLength))
      else if |t| > maxLength then Err(TooLong(maxLength))
      else Ok(t)
  }

  /** The password field: not stripped; at most 128 characters, then the composition rule if the policy has one. */
  function CheckPassword(v: Raw, policy: PasswordPolicy): Result<string, Problem> {
    match v
    case NonText => Err(NotText)
    case Text(p) =>
      if |p| > PASSWORD_MAX then Err(TooLong(PASSWORD_MAX))
      else if policy == LengthOnly then Ok(p)
      else match ValidatePassword(p)
        case Ok(q) => Ok(q)
        case Err(e) => Err(WeakPassword(e))
  }

  function RoleOf(s: string): Option<Role> {
    if s == "PLAYER" then Some(PLAYER)
    else if s == "COACH" then Some(COACH)
    else if s == "ADMIN" then Some(ADMIN)
    else None
  }

  /** The role literal. */
  function CheckRole(v: Raw): Result<Role, Problem> {
    if v.Text? && RoleOf(v.s).Some? then Ok(RoleOf(v.s).value) else Err(NotARole)
  }

  /** The email field; its address syntax is not part of this model, only stripping and blankness. */
  function CheckEmail(v: Raw): Result<string, Problem> {
    match StripStrings(v)
    case Err(e) => Err(e)
    case Ok(NonText) => Err(NotText)
    case Ok(Text(t)) => Ok(t)
  }

  /** `rest`, preceded by the error of field `f` if it failed. */
  function Prepend<T>(f: FieldName, r: Result<T, Problem>, rest: seq<FieldError>): (errors: seq<FieldError>)
    ensures FieldsIn(errors) == Named(f, r.Err?) + FieldsIn(rest)
  {
    if r.Err? then
      var errors := [FieldError(f, r.error)] + rest;
      assert errors[1..] == rest;
      errors
    else rest
  }

  /** The fields an error list names, in its order. */
  function FieldsIn(errors: seq<FieldError>): seq<FieldName> {
    if errors == [] then [] else [errors[0].field] + FieldsIn(errors[1..])
  }

  /**
   * What each field must satisfy, stated on the raw request independently of
   * the checking functions.
   */
  ghost predicate FieldOk(req: RawRequest, f: FieldName, policy: PasswordPolicy) {
    match f
    case Username =>
      req.username.Text? && USERNAME_MIN <= |Strip(req.username.s)| <= USERNAME_MAX
    case Email =>
      req.email.Text? && !AllSpace(req.email.s)
    case Password =>
      req.password.Text? && |req.password.s| <= PASSWORD_MAX &&
      (policy == Composition ==>
         8 <= |req.password.s| && Has(req.password.s, Lower) && Has(req.password.s, Upper) && Has(req.password.s, Digit))
    case FullName =>
      req.fullName.Text? && !AllSpace(req.fullName.s) && |Strip(req.fullName.s)| <= FULL_NAME_MAX
    case RoleField =>
      req.role.Text? && req.role.s in {"PLAYER", "COACH", "ADMIN"}
  }

  /**
   * Model validation: every field is checked, in declaration order, and the
   * request is refused with one error per failing field.
   */
  function Validate(req: RawRequest, policy: PasswordPolicy): Result<RegisterRequest, seq<FieldError>> {
    Assemble(CheckText(req.username, USERNAME_MIN, USERNAME_MAX), CheckEmail(req.email),
             CheckPassword(req.password, policy), CheckText(req.fullName, 0, FULL_NAME_MAX), CheckRole(req.role))
  }

  /** The request built from the five field results, or every field error in declaration order. */
  function Assemble(u: Result<string, Problem>, e: Result<string, Problem>, p: Result<string, Problem>,
                    n: Result<string, Problem>, ro: Result<Role, Problem>): (r: Result<RegisterRequest, seq<FieldError>>)
    ensures r.Ok? <==> u.Ok? && e.Ok? && p.Ok? && n.Ok? && ro.Ok?
    ensures r.Ok? ==> r.value == RegisterRequest(u.value, e.value, p.value, n.value, ro.value)
  {
    if u.Ok? && e.Ok? && p.Ok? && n.Ok? && ro.Ok? then
      Ok(RegisterRequest(u.value, e.value, p.value, n.value, ro.value))
    else
      Err(Prepend(Username, u, Prepend(Email, e, Prepend(Password, p, Prepend(FullName, n, Prepend(RoleField, ro, []))))))
  }

  /** The errors of a refused request name the failing fields in declaration order. */
  lemma AssembleNamesFailures(u: Result<string, Problem>, e: Result<string, Problem>, p: Result<string, Problem>,
                              n: Result<string, Problem>, ro: Result<Role, Problem>)
    requires Assemble(u, e, p, n, ro).Err?
    ensures FieldsIn(Assemble(u, e, p, n, ro).error) ==
      Named(Username, u.Err?) + (Named(Email, e.Err?) + (Named(Password, p.Err?) + (Named(FullName, n.Err?) + Named(RoleField, ro.Err?))))
  {
    var tail := Prepend(RoleField, ro, []);
    assert FieldsIn(tail) == Named(RoleField, ro.Err?);
  }

  function Named(f: FieldName, failed: bool): seq<FieldName> {
    if failed then [f] else []
  }

  /** The fields a request fails, in declaration order. */
  ghost function FailingFields(req: RawRequest, policy: PasswordPolicy): seq<FieldName> {
    Named(Username, !FieldOk(req, Username, policy)) + (Named(Email, !FieldOk(req, Email, policy)) +
    (Named(Password, !FieldOk(req, Password, policy)) + (Named(FullName, !FieldOk(req, FullName, policy)) +
     Named(RoleField, !FieldOk(req, RoleField, policy)))))
  }

  /** Each field check succeeds exactly when the field meets its requirement. */
  lemma UsernameCheck(req: RawRequest, policy: PasswordPolicy)
    ensures CheckText(req.username, USERNAME_MIN, USERNAME_MAX).Ok? <==> FieldOk(req, Username, policy)
  {
    CheckTextOk(req.username, USERNAME_MIN, USERNAME_MAX);
  }

  lemma EmailCheck(req: RawRequest, policy: PasswordPolicy)
    ensures CheckEmail(req.email).Ok? <==> FieldOk(req, Email, policy)
  {
    CheckEmailOk(req.email);
  }

  lemma PasswordCheck(req: RawRequest, policy: PasswordPolicy)
    ensures CheckPassword(req.password, policy).Ok? <==> FieldOk(req, Password, policy)
  {
    CheckPasswordOk(req.password, policy);
  }

  lemma FullNameCheck(req: RawRequest, policy: PasswordPolicy)
    ensures CheckText(req.fullName, 0, FULL_NAME_MAX).Ok? <==> FieldOk(req, FullName, policy)
  {
    CheckTextOk(req.fullName, 0, FULL_NAME_MAX);
  }

  /** The five fields are all there is. */
  lemma AllFields(req: RawRequest, policy: PasswordPolicy)
    ensures (forall f: FieldName :: FieldOk(req, f, policy)) <==>
      FieldOk(req, Username, policy) && FieldOk(req, Email, policy) && FieldOk(req, Password, policy) &&
      FieldOk(req, FullName, policy) && FieldOk(req, RoleField, policy)
  {
  }

  /** A request is accepted exactly when every field meets its requirement. */
  lemma ValidateAcceptsIff(req: RawRequest, policy: PasswordPolicy)
    ensures Validate(req, policy).Ok? <==> forall f: FieldName :: FieldOk(req, f, policy)
  {
    UsernameCheck(req, policy);
    EmailCheck(req, policy);
    PasswordCheck(req, policy);
    FullNameCheck(req, policy);
    AllFields(req, policy);
  }

  /** A refused request names every failing field, in declaration order, and no other. */
  lemma ValidateReportsFailingFields(req: RawRequest, policy: PasswordPolicy)
    requires Validate(req, policy).Err?
    ensures FieldsIn(Validate(req, policy).error) == FailingFields(req, policy)
    ensures FailingFields(req, policy) != []
  {
    var u := CheckText(req.username, USERNAME_MIN, USERNAME_MAX);
    var e := CheckEmail(req.email);
    var p := CheckPassword(req.password, policy);
    var n := CheckText(req.fullName, 0, FULL_NAME_MAX);
    var ro := CheckRole(req.role);
    AssembleNamesFailures(u, e, p, n, ro);
    assert u.Err? == !FieldOk(req, Username, policy) by { UsernameCheck(req, policy); }
    assert e.Err? == !FieldOk(req, Email, policy) by { EmailCheck(req, policy); }
    assert p.Err? == !FieldOk(req, Password, policy) by { PasswordCheck(req, policy); }
    assert n.Err? == !FieldOk(req, FullName, policy) by { FullNameCheck(req, policy); }
    assert ro.Err? == !FieldOk(req, RoleField, policy);
  }

  /** An accepted request holds the stripped strings, the password as given and the named role. */
  lemma ValidateNormalises(req: RawRequest, policy: PasswordPolicy)
    requires Validate(req, policy).Ok?
    ensures Validate(req, policy).value ==
      RegisterRequest(Strip(req.username.s), Strip(req.email.s), req.password.s, Strip(req.fullName.s),
                      RoleOf(req.role.s).value)
  {
    assert CheckText(req.username, USERNAME_MIN, USERNAME_MAX).value == Strip(req.username.s) by {
      CheckTextOk(req.username, USERNAME_MIN, USERNAME_MAX);
    }
    assert CheckText(req.fullName, 0, FULL_NAME_MAX).value == Strip(req.fullName.s) by {
      CheckTextOk(req.fullName, 0, FULL_NAME_MAX);
    }
    assert CheckEmail(req.email).value == Strip(req.email.s) by {
      CheckEmailOk(req.email);
    }
    assert CheckPassword(req.password, policy).value == req.password.s by {
      CheckPasswordOk(req.password, policy);
    }
  }

  lemma CheckTextOk(v: Raw, minLength: nat, maxLength: nat)
    ensures CheckText(v, minLength, maxLength).Ok? <==>
      v.Text? && !AllSpace(v.s) && minLength <= |Strip(v.s)| <= maxLength
    ensures CheckText(v, minLength, maxLength).Ok? ==> CheckText(v, minLength, maxLength).value == Strip(v.s)
  {
    if v.Text? { StripBlankIff(v.s); }
  }

  lemma CheckEmailOk(v: Raw)
    ensures CheckEmail(v).Ok? <==> v.Text? && !AllSpace(v.s)
    ensures CheckEmail(v).Ok? ==> CheckEmail(v).value == Strip(v.s)
  {
  }

  lemma CheckPasswordOk(v: Raw, policy: PasswordPolicy)
    ensures CheckPassword(v, policy).Ok? <==>
      v.Text? && |v.s| <= PASSWORD_MAX &&
      (policy == Composition ==> 8 <= |v.s| && Has(v.s, Lower) && Has(v.s, Upper) && Has(v.s, Digit))
    ensures CheckPassword(v, policy).Ok? ==> CheckPassword(v, policy).value == v.s
  {
  }

  // ---------------------------------------------------------------------
  // Properties of the whole model
  // ---------------------------------------------------------------------

  function RoleName(r: Role): string {
    match r
    case PLAYER => "PLAYER"
    case COACH => "COACH"
    case ADMIN => "ADMIN"
  }

  /** An accepted request sent again, every field as a string. */
  function Resubmit(v: RegisterRequest): RawRequest {
    RawRequest(Text(v.username), Text(v.email), Text(v.password), Text(v.fullName), Text(RoleName(v.role)))
  }

  /** Validation is a normal form: an accepted request, submitted again, is accepted as it is. */
  lemma ValidateIdempotent(req: RawRequest, policy: PasswordPolicy)
    requires Validate(req, policy).Ok?
    ensures Validate(Resubmit(Validate(req, policy).value), policy) == Validate(req, policy)
  {
    var v := Validate(req, policy).value;
    ValidateNormalises(req, policy);
    ValidateAcceptsIff(req, policy);
    assert FieldOk(req, Username, policy) && FieldOk(req, Email, policy) && FieldOk(req, FullName, policy);
    StripIdempotent(req.username.s);
    StripIdempotent(req.email.s);
    StripIdempotent(req.fullName.s);
    StripBlankIff(req.email.s);
    StripBlankIff(Strip(req.email.s));
    StripBlankIff(req.fullName.s);
    StripBlankIff(Strip(req.fullName.s));
    var again := Resubmit(v);
    ValidateAcceptsIff(again, policy);
    assert FieldOk(again, Username, policy) && FieldOk(again, Email, policy) && FieldOk(again, Password, policy) &&
      FieldOk(again, FullName, policy) && FieldOk(again, RoleField, policy);
    ValidateNormalises(again, policy);
  }

  /** The route's copy, without the composition rule, accepts whatever the other two copies accept, unchanged. */
  lemma LengthOnlyAcceptsMore(req: RawRequest)
    requires Validate(req, Composition).Ok?
    ensures Validate(req, LengthOnly) == Validate(req, Composition)
  {
    ValidateNormalises(req, Composition);
    ValidateAcceptsIff(req, Composition);
    assert FieldOk(req, Username, Composition) && FieldOk(req, Email, Composition) && FieldOk(req, Password, Composition) &&
      FieldOk(req, FullName, Composition) && FieldOk(req, RoleField, Composition);
    ValidateAcceptsIff(req, LengthOnly);
    assert FieldOk(req, Username, LengthOnly) && FieldOk(req, Email, LengthOnly) && FieldOk(req, Password, LengthOnly) &&
      FieldOk(req, FullName, LengthOnly) && FieldOk(req, RoleField, LengthOnly);
    ValidateNormalises(req, LengthOnly);
  }

  /** A string with no whitespace at either end is left alone by `Strip`. */
  lemma StripUnchanged(s: string)
    requires s != [] && !IsSpace(s[0]) && !IsSpace(s[|s| - 1])
    ensures Strip(s) == s
  {
    assert TrimStart(s) == s;
  }

  /** The sample registration used by the endpoint tests. */
  function SampleRequest(password: string, username: string): RawRequest {
    RawRequest(Text(username), Text("newuser@example.com"), Text(password), Text("New User"), Text("PLAYER"))
  }

  /** The fields the samples share pass their checks unchanged. */
  lemma SampleFields(password: string, username: string)
    ensures CheckEmail(SampleRequest(password, username).email) == Ok("newuser@example.com")
    ensures CheckText(SampleRequest(password, username).fullName, 0, FULL_NAME_MAX) == Ok("New User")
    ensures CheckRole(SampleRequest(password, username).role) == Ok(PLAYER)
  {
    StripUnchanged("newuser@example.com");
    StripUnchanged("New User");
  }

  /** "SecurePass123" has all three classes and is between 8 and 128 characters long. */
  lemma StrongSample(p: string)
    requires p == "SecurePass123" || p == "ValidPass123"
    ensures CheckPassword(Text(p), Composition) == Ok(p)
  {
    assert InClass(p[1], Lower) && InClass(p[0], Upper) && InClass(p[10], Digit);
  }

  /** The sample with password "SecurePass123" is accepted with every field as given. */
  lemma SampleAccepted()
    ensures Validate(SampleRequest("SecurePass123", "newuser123"), Composition) ==
      Ok(RegisterRequest("newuser123", "newuser@example.com", "SecurePass123", "New User", PLAYER))
  {
    SampleFields("SecurePass123", "newuser123");
    StrongSample("SecurePass123");
    StripUnchanged("newuser123");
    assert CheckText(Text("newuser123"), USERNAME_MIN, USERNAME_MAX) == Ok("newuser123");
  }

  /** Surrounding whitespace on the username is cut before its length is checked. */
  lemma PaddedUsernameAccepted()
    ensures Validate(SampleRequest("SecurePass123", " \tab1 \n"), Composition) ==
      Ok(RegisterRequest("ab1", "newuser@example.com", "SecurePass123", "New User", PLAYER))
  {
    SampleFields("SecurePass123", " \tab1 \n");
    StrongSample("SecurePass123");
    PaddedUsernameStripped();
  }

  /** " \tab1 \n" is stripped to "ab1", three characters, enough for a username. */
  lemma PaddedUsernameStripped()
    ensures CheckText(Text(" \tab1 \n"), USERNAME_MIN, USERNAME_MAX) == Ok("ab1")
  {
    var u := " \tab1 \n";
    assert TrimStart(u) == "ab1 \n" by {
      assert u[1..][1..] == "ab1 \n";
    }
    assert TrimEnd("ab1 \n") == "ab1" by {
      assert "ab1 \n"[..4][..3] == "ab1";
    }
  }

  /** The error list when the password is the only field that fails. */
  lemma OnlyPasswordFails(u: Result<string, Problem>, e: Result<string, Problem>, p: Result<string, Problem>,
                          n: Result<string, Problem>, ro: Result<Role, Problem>)
    requires u.Ok? && e.Ok? && p.Err? && n.Ok? && ro.Ok?
    ensures Assemble(u, e, p, n, ro) == Err([FieldError(Password, p.error)])
  {
    assert Prepend(FullName, n, Prepend(RoleField, ro, [])) == [];
    assert Prepend(Password, p, []) == [FieldError(Password, p.error)];
    assert Prepend(Username, u, Prepend(Email, e, [FieldError(Password, p.error)])) == [FieldError(Password, p.error)];
  }

  /** The error list when the username is the only field that fails. */
  lemma OnlyUsernameFails(u: Result<string, Problem>, e: Result<string, Problem>, p: Result<string, Problem>,
                          n: Result<string, Problem>, ro: Result<Role, Problem>)
    requires u.Err? && e.Ok? && p.Ok? && n.Ok? && ro.Ok?
    ensures Assemble(u, e, p, n, ro) == Err([FieldError(Username, u.error)])
  {
    assert Prepend(Email, e, Prepend(Password, p, Prepend(FullName, n, Prepend(RoleField, ro, [])))) == [];
    assert Prepend(Username, u, []) == [FieldError(Username, u.error)];
  }

  /** The error list when the username and the role fail. */
  lemma UsernameAndRoleFail(u: Result<string, Problem>, e: Result<string, Problem>, p: Result<string, Problem>,
                            n: Result<string, Problem>, ro: Result<Role, Problem>)
    requires u.Err? && e.Ok? && p.Ok? && n.Ok? && ro.Err?
    ensures Assemble(u, e, p, n, ro) == Err([FieldError(Username, u.error), FieldError(RoleField, ro.error)])
  {
    assert Prepend(RoleField, ro, []) == [FieldError(RoleField, ro.error)];
    assert Prepend(Email, e, Prepend(Password, p, Prepend(FullName, n, [FieldError(RoleField, ro.error)]))) ==
      [FieldError(RoleField, ro.error)];
    assert Prepend(Username, u, [FieldError(RoleField, ro.error)]) ==
      [FieldError(Username, u.error), FieldError(RoleField, ro.error)];
  }

  /** "weak" is refused for its length alone; the route's copy accepts it. */
  lemma WeakPasswordRejected()
    ensures Validate(SampleRequest("weak", "testuser3"), Composition) ==
      Err([FieldError(Password, WeakPassword(PasswordTooShort))])
    ensures Validate(SampleRequest("weak", "testuser3"), LengthOnly).Ok?
  {
    SampleFields("weak", "testuser3");
    StripUnchanged("testuser3");
    assert CheckText(Text("testuser3"), USERNAME_MIN, USERNAME_MAX) == Ok("testuser3");
    assert CheckPassword(Text("weak"), Composition) == Err(WeakPassword(PasswordTooShort));
    OnlyPasswordFails(Ok("testuser3"), Ok("newuser@example.com"), Err(WeakPassword(PasswordTooShort)), Ok("New User"), Ok(PLAYER));
  }

  /** "nocapital123" is long enough and has a lowercase letter, so the missing uppercase letter is reported. */
  lemma NoCapitalRejected()
    ensures Validate(SampleRequest("nocapital123", "testuser4"), Composition) ==
      Err([FieldError(Password, WeakPassword(NoUppercase))])
  {
    SampleFields("nocapital123", "testuser4");
    StripUnchanged("testuser4");
    assert CheckText(Text("testuser4"), USERNAME_MIN, USERNAME_MAX) == Ok("testuser4");
    var p := "nocapital123";
    assert InClass(p[0], Lower);
    assert !Has(p, Upper) by {
      forall i | 0 <= i < |p| ensures !InClass(p[i], Upper) {}
    }
    assert CheckPassword(Text(p), Composition) == Err(WeakPassword(NoUppercase));
    OnlyPasswordFails(Ok("testuser4"), Ok("newuser@example.com"), Err(WeakPassword(NoUppercase)), Ok("New User"), Ok(PLAYER));
  }

  /** "ab" is two characters, below the username minimum of three. */
  lemma ShortUsernameRejected()
    ensures Validate(SampleRequest("ValidPass123", "ab"), Composition) ==
      Err([FieldError(Username, TooShort(USERNAME_MIN))])
  {
    SampleFields("ValidPass123", "ab");
    StrongSample("ValidPass123");
    StripUnchanged("ab");
    assert CheckText(Text("ab"), USERNAME_MIN, USERNAME_MAX) == Err(TooShort(USERNAME_MIN));
    OnlyUsernameFails(Err(TooShort(USERNAME_MIN)), Ok("newuser@example.com"), Ok("ValidPass123"), Ok("New User"), Ok(PLAYER));
  }

  /** A blank username and an unknown role are both reported, in field order. */
  lemma BlankUsernameAndBadRole()
    ensures Validate(RawRequest(Text("   "), Text("newuser@example.com"), Text("ValidPass123"), Text("New User"), Text("player")),
                     Composition) ==
      Err([FieldError(Username, Blank), FieldError(RoleField, NotARole)])
  {
    var req := RawRequest(Text("   "), Text("newuser@example.com"), Text("ValidPass123"), Text("New User"), Text("player"));
    assert Validate(req, Composition) ==
      Assemble(Err(Blank), Ok("newuser@example.com"), Ok("ValidPass123"), Ok("New User"), Err(NotARole)) by {
      SampleFields("ValidPass123", "   ");
      StrongSample("ValidPass123");
      BlankUsernameRefused();
      LowercaseRoleRefused();
    }
    UsernameAndRoleFail(Err(Blank), Ok("newuser@example.com"), Ok("ValidPass123"), Ok("New User"), Err(NotARole));
  }

  /** Three spaces are blank. */
  lemma BlankUsernameRefused()
    ensures CheckText(Text("   "), USERNAME_MIN, USERNAME_MAX) == Err(Blank)
  {
    StripBlankIff("   ");
  }

  /** Role names are matched exactly: "player" is not "PLAYER". */
  lemma LowercaseRoleRefused()
    ensures CheckRole(Text("player")) == Err(NotARole)
  {
    assert "player"[0] != "PLAYER"[0] && "player"[0] != "COACH"[0] && "player"[0] != "ADMIN"[0];
  }
}

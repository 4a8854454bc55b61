/**
 * The sign-in / sign-up form (`AuthForm`): four text fields, the per-field
 * error messages, the login/sign-up mode, and the submit guard that keeps
 * an invalid form away from the authentication provider.
 */
module AuthForm {
  import opened Wrappers
  import opened Text
  import opened AuthContext

  /** The form's inputs, by their `name` attribute. */
  datatype Field = Email | Password | ConfirmPassword | Name

  datatype FormData = FormData(email: string, password: string, confirmPassword: string, name: string)

  const EmptyForm: FormData := FormData([], [], [], [])

  const MinPasswordLength: nat := 6

  const EmailRequired: string := "Email is required"
  const EmailInvalid: string := "Please enter a valid email"
  const PasswordRequired: string := "Password is required"
  const PasswordTooShort: string := "Password must be at least 6 characters"
  const NameRequired: string := "Name is required"
  const ConfirmRequired: string := "Please confirm your password"
  const PasswordsDiffer: string := "Passwords do not match"

  function FieldValue(d: FormData, f: Field): string {
    match f
    case Email => d.email
    case Password => d.password
    case ConfirmPassword => d.confirmPassword
    case Name => d.name
  }

  /** `{ ...formData, [name]: value }`: one field takes the value, the other three keep theirs. */
  function WithField(d: FormData, f: Field, value: string): (r: FormData)
    ensures FieldValue(r, f) == value
    ensures forall g :: g != f ==> FieldValue(r, g) == FieldValue(d, g)
  {
    match f
    case Email => d.(email := value)
    case Password => d.(password := value)
    case ConfirmPassword => d.(confirmPassword := value)
    case Name => d.(name := value)
  }

  /** Characters `lo` up to `hi` of `s` are all non-whitespace. */
  predicate NonWhitespaceRun(s: string, lo: nat, hi: nat)
    requires lo <= hi <= |s|
  {
    forall k :: lo <= k < hi ==> !IsWhitespace(s[k])
  }

  /**
   * `/\S+@\S+\.\S+/.test(s)`: somewhere in `s` there is a non-whitespace
   * character, then `@`, then a non-empty run of non-whitespace characters,
   * then `.`, then a non-whitespace character. The pattern is not anchored,
   * so anything may surround that stretch.
   */
  predicate MatchesEmailPattern(s: string) {
    exists at, dot :: 0 < at && at < |s| && at + 1 < dot && dot < |s| - 1
                      && s[at] == '@' && s[dot] == '.' && !IsWhitespace(s[at - 1]) && !IsWhitespace(s[dot + 1])
                      && NonWhitespaceRun(s, at + 1, dot)
  }

  predicate NoWhitespace(s: string) {
    forall k :: 0 <= k < |s| ==> !IsWhitespace(s[k])
  }

  /** Every address `local@domain.tld` whose three parts are non-empty and free of whitespace matches. */
  lemma AddressMatches(local: string, domain: string, tld: string)
    requires local != [] && domain != [] && tld != []
    requires NoWhitespace(local) && NoWhitespace(domain) && NoWhitespace(tld)
    ensures MatchesEmailPattern(local + "@" + domain + "." + tld)
  {
    var s := local + "@" + domain + "." + tld;
    var at := |local|;
    var dot := |local| + 1 + |domain|;
    assert s[at - 1] == local[at - 1] && s[at] == '@';
    assert s[dot] == '.' && s[dot + 1] == tld[0];
    forall k | at + 1 <= k < dot ensures !IsWhitespace(s[k]) {
      assert s[k] == domain[k - at - 1];
    }
    assert NonWhitespaceRun(s, at + 1, dot);
  }

  /** A text without `@` never matches. */
  lemma NoAtNoMatch(s: string)
    requires '@' !in s
    ensures !MatchesEmailPattern(s)
  {
  }

  /** A text with no `.` anywhere after an `@` never matches. */
  lemma NoDotAfterAtNoMatch(s: string)
    requires forall i, j :: 0 <= i < j < |s| && s[i] == '@' ==> s[j] != '.'
    ensures !MatchesEmailPattern(s)
  {
  }

  /**
   * The message `validateForm` records for one field, if any. Every message
   * is non-empty, so an input always shows it; the email has none exactly
   * when it is filled in and matches, the password none exactly when it is
   * long enough, and name and confirmation none in login mode.
   */
  function FieldError(isLogin: bool, d: FormData, f: Field): (r: Option<string>)
    ensures r.Some? ==> r.value != []
    ensures isLogin && (f == Name || f == ConfirmPassword) ==> r.None?
    ensures f == Email ==> (r.None? <==> d.email != [] && MatchesEmailPattern(d.email))
    ensures f == Password ==> (r.None? <==> |d.password| >= MinPasswordLength)
  {
    match f
    case Email =>
      if d.email == [] then Some(EmailRequired)
      else if !MatchesEmailPattern(d.email) then Some(EmailInvalid)
      else None
    case Password =>
      if d.password == [] then Some(PasswordRequired)
      else if |d.password| < MinPasswordLength then Some(PasswordTooShort)
      else None
    case Name =>
      if !isLogin && d.name == [] then Some(NameRequired) else None
    case ConfirmPassword =>
      if isLogin then None
      else if d.confirmPassword == [] then Some(ConfirmRequired)
      else if d.password != d.confirmPassword then Some(PasswordsDiffer)
      else None
  }

  const AllFields: set<Field> := {Email, Password, ConfirmPassword, Name}

  /**
   * The error map `validateForm` builds: at most one message per field;
   * email and password are checked in both modes, name and confirmation
   * only when signing up.
   */
  function FormErrors(isLogin: bool, d: FormData): (errors: map<Field, string>)
    ensures d.email == [] ==> Email in errors && errors[Email] == EmailRequired
    ensures d.email != [] && !MatchesEmailPattern(d.email) ==> Email in errors && errors[Email] == EmailInvalid
    ensures d.email != [] && MatchesEmailPattern(d.email) ==> Email !in errors
    ensures d.password == [] ==> Password in errors && errors[Password] == PasswordRequired
    ensures d.password != [] && |d.password| < MinPasswordLength ==> Password in errors && errors[Password] == PasswordTooShort
    ensures |d.password| >= MinPasswordLength ==> Password !in errors
    ensures isLogin ==> Name !in errors && ConfirmPassword !in errors
    ensures !isLogin ==> (Name in errors <==> d.name == []) && (Name in errors ==> errors[Name] == NameRequired)
    ensures !isLogin && d.confirmPassword == [] ==> ConfirmPassword in errors && errors[ConfirmPassword] == ConfirmRequired
    ensures !isLogin && d.confirmPassword != [] && d.password != d.confirmPassword ==>
              ConfirmPassword in errors && errors[ConfirmPassword] == PasswordsDiffer
    ensures !isLogin && d.confirmPassword != [] && d.password == d.confirmPassword ==> ConfirmPassword !in errors
  {
    map f | f in AllFields && FieldError(isLogin, d, f).Some? :: FieldError(isLogin, d, f).value
  }

  /**
   * The form is valid, i.e. the error map is empty, exactly when the
   * address matches the pattern, the password has at least six characters
   * and, when signing up, the name is filled in and the confirmation is
   * filled in and equal to the password.
   */
  lemma FormValidIff(isLogin: bool, d: FormData)
    ensures FormErrors(isLogin, d) == map[] <==>
              d.email != [] && MatchesEmailPattern(d.email) && |d.password| >= MinPasswordLength
              && (!isLogin ==> d.name != [] && d.confirmPassword != [] && d.confirmPassword == d.password)
  {
    var errors := FormErrors(isLogin, d);
    if errors != map[] {
      var f :| f in errors;
      assert FieldError(isLogin, d, f).Some?;
    }
  }

  /** A map holding exactly the per-field messages is the error map. */
  lemma FormErrorsByField(isLogin: bool, d: FormData, m: map<Field, string>)
    requires forall f :: f in m <==> FieldError(isLogin, d, f).Some?
    requires forall f :: f in m ==> m[f] == FieldError(isLogin, d, f).value
    ensures m == FormErrors(isLogin, d)
  {
    var errors := FormErrors(isLogin, d);
    forall f: Field ensures f in AllFields {
      match f
      case Email =>
      case Password =>
      case ConfirmPassword =>
      case Name =>
    }
    assert m.Keys == errors.Keys;
  }

  /** What an input shows under itself: its message, when there is a non-empty one. */
  function ShownError(errors: map<Field, string>, f: Field): (shown: Option<string>)
    ensures shown.Some? <==> f in errors && errors[f] != []
    ensures shown.Some? ==> shown.value == errors[f]
  {
    if f in errors && errors[f] != [] then Some(errors[f]) else None
  }

  class FormState {
    var isLogin: bool
    var isLoading: bool
    var formData: FormData
    var errors: map<Field, string>

    /** The form opens in login mode, empty and without errors. */
    constructor ()
      ensures isLogin && !isLoading && formData == EmptyForm && errors == map[]
    {
      isLogin := true;
      isLoading := false;
      formData := EmptyForm;
      errors := map[];
    }

    /**
     * `handleInputChange`: the typed field takes the value, and its message,
     * if it shows one, is blanked; the other fields and their messages stay.
     */
    method HandleInputChange(f: Field, value: string)
      modifies this
      ensures formData == WithField(old(formData), f, value)
      ensures f in old(errors) && old(errors)[f] != [] ==> errors == old(errors)[f := []]
      ensures !(f in old(errors) && old(errors)[f] != []) ==> errors == old(errors)
      ensures ShownError(errors, f).None?
      ensures forall g :: g != f ==> ShownError(errors, g) == ShownError(old(errors), g)
      ensures isLogin == old(isLogin) && isLoading == old(isLoading)
    {
      formData := WithField(formData, f, value);
      if f in errors && errors[f] != [] {
        errors := errors[f := []];
      }
    }

    /**
     * `validateForm`: fills a fresh error map field by field, stores it, and
     * reports whether it stayed empty.
     */
    method ValidateForm() returns (valid: bool)
      modifies this
      ensures errors == FormErrors(isLogin, formData)
      ensures valid <==> errors == map[]
      ensures formData == old(formData) && isLogin == old(isLogin) && isLoading == old(isLoading)
    {
      var newErrors: map<Field, string> := map[];
      newErrors := if formData.email == [] then newErrors[Email := EmailRequired]
                   else if !MatchesEmailPattern(formData.email) then newErrors[Email := EmailInvalid]
                   else newErrors;
      newErrors := if formData.password == [] then newErrors[Password := PasswordRequired]
                   else if |formData.password| < MinPasswordLength then newErrors[Password := PasswordTooShort]
                   else newErrors;
      if !isLogin {
        newErrors := if formData.name == [] then newErrors[Name := NameRequired] else newErrors;
        newErrors := if formData.confirmPassword == [] then newErrors[ConfirmPassword := ConfirmRequired]
                     else if formData.password != formData.confirmPassword then newErrors[ConfirmPassword := PasswordsDiffer]
                     else newErrors;
      }
      forall f
        ensures f in newErrors <==> FieldError(isLogin, formData, f).Some?
        ensures f in newErrors ==> newErrors[f] == FieldError(isLogin, formData, f).value
      {
        match f
        case Email =>
        case Password =>
        case ConfirmPassword =>
        case Name =>
      }
      FormErrorsByField(isLogin, formData, newErrors);
      errors := newErrors;
      valid := |newErrors.Keys| == 0;
    }

    /**
     * `handleSubmit`: an invalid form stops after validation and never
     * reaches the provider; a valid one signs in (login mode) or signs up
     * with the typed fields, and the form's own loading flag is down again
     * at the end.
     */
    method HandleSubmit(auth: AuthSession) returns (submitted: bool)
      modifies this, auth
      ensures errors == FormErrors(old(isLogin), old(formData))
      ensures submitted <==> errors == map[]
      ensures !submitted ==> auth.user == old(auth.user) && auth.stored == old(auth.stored)
                             && auth.isLoading == old(auth.isLoading) && isLoading == old(isLoading)
      ensures submitted && old(isLogin) ==> auth.user == Some(LoginUser(old(formData).email))
                                            && auth.stored == Saved(LoginUser(old(formData).email))
      ensures submitted && !old(isLogin) ==>
                auth.user == Some(AuthUser(MockId, old(formData).name, old(formData).email))
                && auth.stored == Saved(AuthUser(MockId, old(formData).name, old(formData).email))
      ensures submitted ==> !isLoading && !auth.isLoading
      ensures formData == old(formData) && isLogin == old(isLogin)
    {
      submitted := ValidateForm();
      if !submitted {
        return;
      }
      isLoading := true;
      if isLogin {
        auth.Login(formData.email, formData.password);
      } else {
        auth.Signup(formData.name, formData.email, formData.password);
      }
      isLoading := false;
    }

    /** `toggleMode`: the other mode, every field empty, no errors. */
    method ToggleMode()
      modifies this
      ensures isLogin == !old(isLogin) && formData == EmptyForm && errors == map[]
      ensures isLoading == old(isLoading)
    {
      isLogin := !isLogin;
      formData := EmptyForm;
      errors := map[];
    }
  }
}

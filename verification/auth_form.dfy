/** The sign-in / sign-up form: field edits, the ordered first-failure
    validator, the request it sends, the handling of the server's answer,
    the mode toggle and the reset after a successful sign-up. */
module AuthForm {
  import opened Outcomes
  import opened Text

  datatype Form = Form(email: string, password: string, confirmPassword: string, name: string, agreeToTerms: bool)

  const EmptyForm := Form("", "", "", "", false)

  datatype Screen = Screen(
    isLogin: bool,
    form: Form,
    showPassword: bool,
    showConfirmPassword: bool,
    loading: bool,
    error: string,
    success: string)

  const InitialScreen := Screen(true, EmptyForm, false, false, false, "", "")

  const NameRequired := "Name is required"
  const NameTooShort := "Name must be at least 3 characters"
  const PasswordTooShort := "Password must be at least 4 characters"
  const PasswordMismatch := "Passwords do not match"
  const TermsNotAgreed := "You must agree to the terms and conditions"
  const EmailRequired := "Email is required"
  const PasswordRequired := "Password is required"

  const GenericFailure := "Something went wrong. Please try again."
  const NetworkFailure := "Network error. Please check your connection and try again."
  const LoginSucceeded := "Login successful! Redirecting..."
  const SignupSucceeded := "Account created successfully! You can now sign in."

  /** `validateForm`: the message of the first failing check, or `None`
      when the form may be sent. The length checks count UTF-16 code units,
      as `.length` does. */
  function Validate(isLogin: bool, f: Form): (r: Option<string>)
    ensures r == Some(NameRequired) <==> !isLogin && Blank(f.name)
    ensures r == Some(NameTooShort) <==> !isLogin && !Blank(f.name) && Utf16Length(f.name) < 3
    ensures r == Some(PasswordTooShort) <==>
              !isLogin && !Blank(f.name) && Utf16Length(f.name) >= 3 && Utf16Length(f.password) < 4
    ensures r == Some(PasswordMismatch) <==>
              !isLogin && !Blank(f.name) && Utf16Length(f.name) >= 3 && Utf16Length(f.password) >= 4
              && f.password != f.confirmPassword
    ensures r == Some(TermsNotAgreed) <==>
              !isLogin && !Blank(f.name) && Utf16Length(f.name) >= 3 && Utf16Length(f.password) >= 4
              && f.password == f.confirmPassword && !f.agreeToTerms
    ensures r == Some(EmailRequired) <==> SignupChecksPass(isLogin, f) && Blank(f.email)
    ensures r == Some(PasswordRequired) <==>
              SignupChecksPass(isLogin, f) && !Blank(f.email) && Blank(f.password)
    ensures r.None? <==> SignupChecksPass(isLogin, f) && !Blank(f.email) && !Blank(f.password)
  {
    if !isLogin && Blank(f.name) then Some(NameRequired)
    else if !isLogin && Utf16Length(f.name) < 3 then Some(NameTooShort)
    else if !isLogin && Utf16Length(f.password) < 4 then Some(PasswordTooShort)
    else if !isLogin && f.password != f.confirmPassword then Some(PasswordMismatch)
    else if !isLogin && !f.agreeToTerms then Some(TermsNotAgreed)
    else if Blank(f.email) then Some(EmailRequired)
    else if Blank(f.password) then Some(PasswordRequired)
    else None
  }

  /** The checks only sign-up runs all hold (or the form is in login mode). */
  predicate SignupChecksPass(isLogin: bool, f: Form) {
    isLogin ||
    (!Blank(f.name) && Utf16Length(f.name) >= 3 && Utf16Length(f.password) >= 4
     && f.password == f.confirmPassword && f.agreeToTerms)
  }

  /** Login validation reads the email and the password only. */
  lemma LoginIgnoresSignupFields(f: Form, f': Form)
    requires f.email == f'.email && f.password == f'.password
    ensures Validate(true, f) == Validate(true, f')
  {
  }

  /** A form that passes sign-up validation passes login validation. */
  lemma SignupValidImpliesLoginValid(f: Form)
    requires Validate(false, f).None?
    ensures Validate(true, f).None?
  {
  }

  /** Four spaces pass every length check of sign-up, then fail as a
      missing password: the blank test runs after the length test. */
  lemma BlankPasswordPassesLengthCheck()
    ensures Validate(false, Form("a@b.c", "    ", "    ", "Ann", true)) == Some(PasswordRequired)
  {
    assert Blank("    ");
    assert !Blank("a@b.c") by { assert !IsSpace("a@b.c"[0]); }
    assert !Blank("Ann") by { assert !IsSpace("Ann"[0]); }
  }

  /** A character above U+FFFF counts twice: a two-character name made of
      an emoji and a letter passes the three-unit minimum, and two such
      emoji pass the four-unit password minimum. */
  lemma LengthChecksCountCodeUnits()
    ensures Validate(false, Form("a@b.c", "\U{1F600}\U{1F600}", "\U{1F600}\U{1F600}", "\U{1F600}a", true)).None?
  {
    var name := "\U{1F600}a";
    var pw := "\U{1F600}\U{1F600}";
    assert name[1..] == "a" && "a"[1..] == "";
    assert Utf16Length(name) == 3;
    assert pw[1..] == "\U{1F600}" && "\U{1F600}"[1..] == "";
    assert Utf16Length(pw) == 4;
    assert !Blank(name) by { assert !IsSpace(name[0]); }
    assert !Blank(pw) by { assert !IsSpace(pw[0]); }
    assert !Blank("a@b.c") by { assert !IsSpace("a@b.c"[0]); }
  }

  /** The JSON body of the request. */
  datatype Payload =
    | LoginBody(email: string, password: string)
    | SignupBody(name: string, email: string, password: string)

  datatype Request = Request(endpoint: string, body: Payload)

  /** The request `handleSubmit` sends, if validation lets it send one. */
  function RequestFor(isLogin: bool, f: Form): (r: Option<Request>)
    ensures r.Some? <==> Validate(isLogin, f).None?
    ensures r.Some? && isLogin ==> r.value == Request("/auth/login", LoginBody(f.email, f.password))
    ensures r.Some? && !isLogin ==> r.value == Request("/auth/signup", SignupBody(f.name, f.email, f.password))
  {
    if Validate(isLogin, f).Some? then None
    else if isLogin then Some(Request("/auth/login", LoginBody(f.email, f.password)))
    else Some(Request("/auth/signup", SignupBody(f.name, f.email, f.password)))
  }

  /** The confirmation and the terms box never leave the page: two forms
      that differ only there send the same request. */
  lemma RequestOmitsConfirmAndTerms(isLogin: bool, f: Form, f': Form)
    requires f.email == f'.email && f.password == f'.password && f.name == f'.name
    requires Validate(isLogin, f).None? && Validate(isLogin, f').None?
    ensures RequestFor(isLogin, f) == RequestFor(isLogin, f')
  {
  }

  /** The editable fields of the form. */
  datatype Field = Email | Password | ConfirmPassword | Name | AgreeToTerms

  /** A change event: the field's `name`, whether it is a checkbox, and its
      `value` and `checked` properties. */
  datatype Change = Change(field: Field, isCheckbox: bool, value: string, checked: bool)

  function SetText(f: Form, field: Field, v: string): Form {
    match field
    case Email => f.(email := v)
    case Password => f.(password := v)
    case ConfirmPassword => f.(confirmPassword := v)
    case Name => f.(name := v)
    case AgreeToTerms => f
  }

  /** `handleInputChange`: a checkbox stores `checked`, any other input
      stores `value`; the error is cleared. The only checkbox bound to the
      form is the terms box. */
  function InputChange(st: Screen, c: Change): (st': Screen)
    requires c.field == AgreeToTerms <==> c.isCheckbox
    ensures st' == st.(form := st'.form, error := "")
    ensures c.field == AgreeToTerms ==> st'.form == st.form.(agreeToTerms := c.checked)
    ensures c.field == Email ==> st'.form == st.form.(email := c.value)
    ensures c.field == Password ==> st'.form == st.form.(password := c.value)
    ensures c.field == ConfirmPassword ==> st'.form == st.form.(confirmPassword := c.value)
    ensures c.field == Name ==> st'.form == st.form.(name := c.value)
  {
    var form := if c.isCheckbox then st.form.(agreeToTerms := c.checked) else SetText(st.form, c.field, c.value);
    st.(form := form, error := "")
  }

  /** `toggleAuthMode`: the other mode, with every field, the error and the
      success message cleared. */
  function ToggleMode(st: Screen): (st': Screen)
    ensures st'.isLogin == !st.isLogin
    ensures st'.form == EmptyForm && st'.error == "" && st'.success == ""
    ensures st'.showPassword == st.showPassword && st'.loading == st.loading
    ensures st'.showConfirmPassword == st.showConfirmPassword
  {
    st.(isLogin := !st.isLogin, form := EmptyForm, error := "", success := "")
  }

  /** Toggling twice returns to the starting mode with a clean form. */
  lemma ToggleTwice(st: Screen)
    ensures ToggleMode(ToggleMode(st)) == st.(form := EmptyForm, error := "", success := "")
  {
  }

  /** The parsed body of the server's answer. */
  datatype Body = Body(success: bool, error: Option<string>, jwtToken: string, email: string, name: string)

  /** What came back: a parsed answer, or a failed fetch or parse. */
  datatype Reply = Answered(body: Body) | Unreachable

  /** What a successful login stores in the browser. */
  datatype Session = Session(jwtToken: string, email: string, name: string)

  datatype Submitted = Submitted(screen: Screen, stored: Option<Session>)

  /** `handleSubmit` run to completion, with `reply` standing for the
      server's answer when a request is sent. A form that fails validation
      is never sent and leaves the loading flag alone. */
  function Submit(st: Screen, reply: Reply): (r: Submitted)
    ensures r.screen == st.(loading := r.screen.loading, error := r.screen.error, success := r.screen.success)
    ensures Validate(st.isLogin, st.form).Some? ==>
              && r.screen.error == Validate(st.isLogin, st.form).value && r.screen.success == ""
              && r.screen.loading == st.loading && r.stored.None?
    ensures Validate(st.isLogin, st.form).None? ==> !r.screen.loading
    ensures r.stored.Some? <==>
              Validate(st.isLogin, st.form).None? && st.isLogin && reply.Answered? && reply.body.success
    ensures r.stored.Some? ==>
              r.stored.value == Session(reply.body.jwtToken, reply.body.email, reply.body.name)
              && r.screen.success == LoginSucceeded && r.screen.error == ""
    ensures Validate(st.isLogin, st.form).None? && reply.Unreachable? ==>
              r.screen.error == NetworkFailure && r.screen.success == ""
    ensures Validate(st.isLogin, st.form).None? && reply.Answered? && !reply.body.success ==>
              r.screen.success == ""
              && r.screen.error == (if reply.body.error.Some? && reply.body.error.value != ""
                                    then reply.body.error.value else GenericFailure)
  {
    var cleared := st.(error := "", success := "");
    match Validate(st.isLogin, st.form)
    case Some(msg) => Submitted(cleared.(error := msg), None)
    case None =>
      match reply
      case Unreachable => Submitted(cleared.(error := NetworkFailure, loading := false), None)
      case Answered(b) =>
        if !b.success then
          var msg := if b.error.Some? && b.error.value != "" then b.error.value else GenericFailure;
          Submitted(cleared.(error := msg, loading := false), None)
        else if st.isLogin then
          Submitted(cleared.(success := LoginSucceeded, loading := false), Some(Session(b.jwtToken, b.email, b.name)))
        else
          Submitted(cleared.(success := SignupSucceeded, loading := false), None)
  }

  /** The delayed step after a successful sign-up: login mode, with only the
      email that was submitted kept. */
  function AfterSignup(st: Screen, submittedEmail: string): (st': Screen)
    ensures st'.isLogin
    ensures st'.form == EmptyForm.(email := submittedEmail)
    ensures st' == st.(isLogin := true, form := st'.form)
  {
    st.(isLogin := true, form := Form(submittedEmail, "", "", "", false))
  }

  /** Signing up and waiting lands on a login form that holds the new
      account's email and cannot yet be sent: its password is blank. */
  lemma SignupThenLogin(st: Screen, b: Body)
    requires !st.isLogin && Validate(false, st.form).None? && b.success
    ensures var done := Submit(st, Answered(b));
            && done.screen.success == SignupSucceeded
            && done.stored.None?
            && var next := AfterSignup(done.screen, st.form.email);
               next.isLogin && next.form.email == st.form.email
               && Validate(true, next.form) == Some(PasswordRequired)
  {
    var next := AfterSignup(Submit(st, Answered(b)).screen, st.form.email);
    assert Blank(next.form.password);
  }
}

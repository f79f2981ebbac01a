/**
 The registration page's submit handler: three checks in a fixed order (all
 fields filled, passwords equal, password long enough), the first failure
 winning, then one call to the context's `register`.
 */
module RegisterPage {
  import opened Domain
  import Text
  import Api
  import Auth

  const PasswordMismatch := "As senhas não coincidem"
  const PasswordTooShort := "A senha deve ter pelo menos 6 caracteres"
  const SignUpFailed := "Falha ao criar conta. Tente novamente."

  /** The shortest accepted password, counted in UTF-16 code units as `length` does. */
  const MinPasswordLength := 6

  datatype Page = Page(
    name: string,
    email: string,
    password: string,
    confirmPassword: string,
    isLoading: bool,
    error: string)

  /** The arguments of a call to the context's `register`. */
  datatype SignUp = SignUp(name: string, email: string, password: string)

  datatype Submitted = Submitted(page: Page, call: Option<SignUp>, navigate: Option<Path>)

  predicate AllFilled(p: Page) {
    p.name != "" && p.email != "" && p.password != "" && p.confirmPassword != ""
  }

  /** The first failing check's message, or nothing when every check passes. */
  function Validate(p: Page): (r: Option<string>)
    ensures r == Some(FillAllFields) <==> !AllFilled(p)
    ensures r == Some(PasswordMismatch) <==> AllFilled(p) && p.password != p.confirmPassword
    ensures r == Some(PasswordTooShort) <==>
      AllFilled(p) && p.password == p.confirmPassword && Text.Utf16Length(p.password) < MinPasswordLength
    ensures r == None <==>
      AllFilled(p) && p.password == p.confirmPassword && Text.Utf16Length(p.password) >= MinPasswordLength
  {
    if p.name == "" || p.email == "" || p.password == "" || p.confirmPassword == "" then
      Some(FillAllFields)
    else if p.password != p.confirmPassword then
      Some(PasswordMismatch)
    else if Text.Utf16Length(p.password) < MinPasswordLength then
      Some(PasswordTooShort)
    else
      None
  }

  /**
   `handleSubmit`, given the answer `register` would give: a failed check shows
   its message and calls nothing; otherwise `register` is called once with the
   typed name, email and password, and its answer decides the outcome.
   */
  function Submit(p: Page, answer: bool): (r: Submitted)
    ensures r.call.Some? <==> Validate(p) == None
    ensures r.call.Some? ==> r.call.value == SignUp(p.name, p.email, p.password)
    ensures r.call.None? ==> Some(r.page.error) == Validate(p) && r.navigate == None
    ensures r.call.Some? ==>
      && (r.navigate == Some(ProductsPath) <==> answer)
      && (r.navigate == None <==> !answer)
      && r.page.error == (if answer then "" else SignUpFailed)
    ensures !r.page.isLoading
    ensures r.page == p.(isLoading := false, error := r.page.error)
  {
    var started := p.(isLoading := true, error := "");
    match Validate(p)
    case Some(message) => Submitted(started.(error := message, isLoading := false), None, None)
    case None =>
      var call := Some(SignUp(p.name, p.email, p.password));
      if answer then Submitted(started.(isLoading := false), call, Some(ProductsPath))
      else Submitted(started.(error := SignUpFailed, isLoading := false), call, None)
  }

  /** A short password that differs from its confirmation reports the mismatch, not the length. */
  lemma MismatchReportedBeforeLength(p: Page)
    requires AllFilled(p) && p.password != p.confirmPassword
    requires Text.Utf16Length(p.password) < MinPasswordLength
    ensures Validate(p) == Some(PasswordMismatch)
  {
  }

  /**
   Signing up as "Ana" with "ana@x.com" and "secret1" passes the checks, and the
   session that follows is named "ana", after the email; "abc" is too short.
   */
  lemma SignUpExample()
    ensures Validate(Page("Ana", "ana@x.com", "secret1", "secret1", false, "")) == None
    ensures Api.SessionName("ana@x.com") == "ana"
    ensures Validate(Page("Ana", "ana@x.com", "abc", "abc", false, "")) == Some(PasswordTooShort)
  {
    SecretPasses();
    AnaSessionName();
    AbcTooShort();
  }

  lemma SecretPasses()
    ensures Validate(Page("Ana", "ana@x.com", "secret1", "secret1", false, "")) == None
  {
  }

  lemma AnaSessionName()
    ensures Api.SessionName("ana@x.com") == "ana"
  {
  }

  lemma AbcTooShort()
    ensures Validate(Page("Ana", "ana@x.com", "abc", "abc", false, "")) == Some(PasswordTooShort)
  {
  }

  /**
   The whole sign-up: the page moves on exactly when the backend registers the
   account and then accepts the chained login; the session is then named after
   the email, not after the name typed into the form.
   */
  lemma SignUpFlow(p: Page, c: Auth.AuthState, s: Api.Storage,
                   registerReply: Api.Reply<Api.StatusBody>, loginReply: Api.Reply<Api.LoginBody>)
    requires Validate(p) == None
    ensures var a := Auth.Register(c, s, p.name, p.email, p.password, registerReply, loginReply);
      var r := Submit(p, a.ok);
      && (r.navigate == Some(ProductsPath) <==>
            registerReply.Response? && registerReply.ok && registerReply.body.success &&
            Api.Accepted(loginReply))
      && (r.navigate.Some? ==> a.state.user.Some? && a.state.user.value.name == Api.SessionName(p.email))
      && (r.navigate.None? ==> r.page.error == SignUpFailed && a.state == c)
  {
  }
}

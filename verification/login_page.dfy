/**
 The login page's submit handler: an empty-field check, then one call to the
 context's `login`, whose yes/no answer decides between navigating to the
 product list and showing an error.
 */
module LoginPage {
  import opened Domain
  import Api
  import Auth

  const InvalidCredentials := "Credenciais inválidas"

  datatype Page = Page(email: string, password: string, isLoading: bool, error: string)

  /** The arguments of a call to the context's `login`. */
  datatype Credentials = Credentials(email: string, password: string)

  /** The page after a submit, the call it made (if any) and where it navigated (if anywhere). */
  datatype Submitted = Submitted(page: Page, call: Option<Credentials>, navigate: Option<Path>)

  /**
   `handleSubmit`, given the answer `login` would give. The answer is consulted
   only when both fields are non-empty; the fields are not trimmed.
   */
  function Submit(p: Page, answer: bool): (r: Submitted)
    ensures r.call.Some? <==> p.email != "" && p.password != ""
    ensures r.call.Some? ==> r.call.value == Credentials(p.email, p.password)
    ensures r.call.None? ==> r.page.error == FillAllFields && r.navigate == None
    ensures r.call.Some? ==>
      && (r.navigate == Some(ProductsPath) <==> answer)
      && (r.navigate == None <==> !answer)
      && r.page.error == (if answer then "" else InvalidCredentials)
    ensures !r.page.isLoading
    ensures r.page.email == p.email && r.page.password == p.password
  {
    var started := p.(isLoading := true, error := "");
    if p.email == "" || p.password == "" then
      Submitted(started.(error := FillAllFields, isLoading := false), None, None)
    else if answer then
      Submitted(started.(isLoading := false), Some(Credentials(p.email, p.password)), Some(ProductsPath))
    else
      Submitted(started.(error := InvalidCredentials, isLoading := false),
                Some(Credentials(p.email, p.password)), None)
  }

  /**
   The whole sign-in: the page, the context and the service together. The page
   moves on to the products exactly when the backend accepts the credentials,
   and then the context holds a user with the typed email.
   */
  lemma SignIn(p: Page, c: Auth.AuthState, s: Api.Storage, reply: Api.Reply<Api.LoginBody>)
    requires p.email != "" && p.password != ""
    ensures var a := Auth.Login(c, s, p.email, p.password, reply);
      var r := Submit(p, a.ok);
      && (r.navigate == Some(ProductsPath) <==> Api.Accepted(reply))
      && (r.navigate.Some? ==> a.state.user.Some? && a.state.user.value.email == p.email && a.state.user.value.name == Api.SessionName(p.email))
      && (r.navigate.None? ==> r.page.error == InvalidCredentials && a.state == c && a.storage == s)
  {
  }
}

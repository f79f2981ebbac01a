/**
 The authentication context: it loads the current user from storage once, and
 wraps the service's login, register and logout, turning each outcome into a
 yes/no answer for the pages and into the user the context holds.
 */
module Auth {
  import opened Domain
  import Api

  /** What the context provides besides its operations. */
  datatype AuthState = AuthState(user: Option<User>, isLoading: bool)

  /** An answer to a page together with the context and storage afterwards. */
  datatype Answer = Answer(ok: bool, state: AuthState, storage: Api.Storage, sent: seq<Api.Request>)

  /** The mount effect: the context user becomes the stored user and loading ends. */
  function Load(storage: Api.Storage): (c: AuthState)
    ensures c.user == Api.GetCurrentUser(storage)
    ensures !c.isLoading
  {
    AuthState(storage.user, false)
  }

  /**
   The shared body of the `login` and `register` wrappers: a returned user is
   adopted and answered with true; a returned `null` and a rejection are both
   answered with false and leave the context as it was.
   */
  function Settle(c: AuthState, outcome: Outcome<Option<User>>): (r: (bool, AuthState))
    ensures r.0 <==> outcome.Returned? && outcome.value.Some?
    ensures r.0 ==> r.1 == c.(user := outcome.value)
    ensures !r.0 ==> r.1 == c
  {
    match outcome
    case Returned(Some(u)) => (true, c.(user := Some(u)))
    case Returned(None) => (false, c)
    case Raised(_) => (false, c)
  }

  /** The context's `login`. */
  function Login(c: AuthState, s: Api.Storage, email: string, password: string,
                 reply: Api.Reply<Api.LoginBody>): (r: Answer)
    ensures r.ok <==> Api.Accepted(reply)
    ensures r.ok ==>
      && r.state == c.(user := Some(Api.SessionUser(email, reply.body.token)))
      && r.state.user == Api.GetCurrentUser(r.storage)
    ensures r.ok ==> r.storage == Api.Storage(r.state.user, Some(reply.body.token))
    ensures !r.ok ==> r.state == c && r.storage == s
    ensures r.sent == [Api.LoginRequest(email, password)]
  {
    var call := Api.Login(s, email, password, reply);
    var (ok, c') := Settle(c, call.outcome);
    Answer(ok, c', call.storage, call.sent)
  }

  /** The context's `register`: the same three outcomes as `Login`. */
  function Register(c: AuthState, s: Api.Storage, name: string, email: string, password: string,
                    registerReply: Api.Reply<Api.StatusBody>, loginReply: Api.Reply<Api.LoginBody>)
    : (r: Answer)
    ensures r.ok <==>
      && registerReply.Response? && registerReply.ok && registerReply.body.success
      && Api.Accepted(loginReply)
    ensures r.ok ==>
      && r.state == c.(user := Some(Api.SessionUser(email, loginReply.body.token)))
      && r.state.user == Api.GetCurrentUser(r.storage)
    ensures r.ok ==> r.storage == Api.Storage(r.state.user, Some(loginReply.body.token))
    ensures !r.ok ==> r.state == c && r.storage == s
  {
    var call := Api.Register(s, name, email, password, registerReply, loginReply);
    var (ok, c') := Settle(c, call.outcome);
    Answer(ok, c', call.storage, call.sent)
  }

  /** The context's `logout`: storage cleared and no user held. */
  function Logout(c: AuthState, s: Api.Storage): (r: (AuthState, Api.Storage))
    ensures r.0.user == None && r.0.isLoading == c.isLoading
    ensures r.1 == Api.EmptyStorage
    ensures Api.GetCurrentUser(r.1) == None
  {
    (c.(user := None), Api.Logout(s))
  }

  /** A session survives a reload: loading the storage a login left yields its user. */
  lemma SessionSurvivesReload(c: AuthState, s: Api.Storage, email: string, password: string,
                              reply: Api.Reply<Api.LoginBody>)
    ensures var r := Login(c, s, email, password, reply);
      r.ok ==> Load(r.storage).user == r.state.user
  {
  }

  /** After logout, a reload finds no session either. */
  lemma LogoutSurvivesReload(c: AuthState, s: Api.Storage)
    ensures Load(Logout(c, s).1).user == None
  {
  }
}

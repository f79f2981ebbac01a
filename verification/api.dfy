/**
 The API service: the session kept in browser storage and the five backend
 calls. Every call takes the server's reply as an input and returns what the
 service resolves or rejects with, the storage afterwards and the requests it
 sent; nothing here performs I/O.
 */
module Api {
  import opened Domain
  import Text

  /** The two browser-storage entries the service reads and writes. */
  datatype Storage = Storage(user: Option<User>, token: Option<string>)

  const EmptyStorage := Storage(None, None)

  const JsonContentType := "application/json"

  /** Request headers: a content type and, when a session token exists, `Authorization`. */
  datatype Headers = Headers(contentType: string, authorization: Option<string>)

  /** What the backend sends back: no response at all, or a status and a body. */
  datatype Reply<+B> = NetworkError | Response(ok: bool, body: B)

  /** `LoginResponse`, reduced to the fields the client reads. */
  datatype LoginBody = LoginBody(success: bool, token: string)

  /** `RegisterResponse` and the create/update replies: only `success` is read. */
  datatype StatusBody = StatusBody(success: bool)

  /** The requests the service sends. Login and register send only the JSON content type. */
  datatype Request =
    | ListRequest
    | CreateRequest(headers: Headers, body: ProductInput)
    | UpdateRequest(headers: Headers, id: int, body: ProductInput)
    | LoginRequest(email: string, password: string)
    | RegisterRequest(nome: string, email: string, password: string)

  /** The result of one service call. */
  datatype Call<+T> = Call(outcome: Outcome<T>, storage: Storage, sent: seq<Request>)

  const CreateFailed := "Failed to create product"
  const UpdateFailed := "Failed to update product"
  const LoginFailed := "Login failed"
  const RegistrationFailed := "Registration failed"

  /** The id every session gets: the login reply carries none. */
  const SessionUserId := 1

  /** A stored string counts only when it is present and non-empty (JavaScript truthiness). */
  predicate HasToken(s: Storage) {
    s.token.Some? && s.token.value != ""
  }

  /**
   `getAuthHeaders`: always the JSON content type; `Authorization` carries the
   stored token verbatim (no `Bearer` prefix), and only when it is non-empty.
   */
  function AuthHeaders(s: Storage): (h: Headers)
    ensures h.contentType == JsonContentType
    ensures h.authorization.Some? <==> HasToken(s)
    ensures h.authorization.Some? ==> Some(h.authorization.value) == s.token
  {
    if s.token.Some? && s.token.value != "" then
      Headers(JsonContentType, Some(s.token.value))
    else
      Headers(JsonContentType, None)
  }

  /**
   `getCurrentUser`: the user kept under the `user` entry, if any. The token
   entry plays no part: a user stays current even when its token is gone.
   */
  function GetCurrentUser(s: Storage): (u: Option<User>)
    ensures u == s.user
  {
    s.user
  }

  /** The display name of a session: the part of the email before the first `@`. */
  function SessionName(email: string): (name: string)
    ensures name <= email && '@' !in name
    ensures |name| < |email| ==> email[|name|] == '@'
  {
    Text.BeforeFirst(email, '@')
  }

  /** Without an `@` in the email, the session name is the whole email. */
  lemma SessionNameWhole(email: string)
    ensures SessionName(email) == email <==> '@' !in email
  {
    Text.BeforeFirstWhole(email, '@');
  }

  /** The login reply that opens a session: an ok response, `success` set, a non-empty token. */
  predicate Accepted(reply: Reply<LoginBody>) {
    reply.Response? && reply.ok && reply.body.success && reply.body.token != ""
  }

  /** The user a successful login yields. */
  function SessionUser(email: string, token: string): User {
    User(SessionUserId, email, SessionName(email), token)
  }

  /**
   `getAllProducts`: one unauthenticated GET, and it never rejects. A failed
   request and a non-ok status both come back as the empty list, so an empty
   result cannot tell them apart from an empty inventory; a non-empty result is
   always the server's list. Storage is untouched.
   */
  function GetAllProducts(s: Storage, reply: Reply<seq<Product>>): (r: Call<seq<Product>>)
    ensures r.storage == s && r.sent == [ListRequest]
    ensures r.outcome.Returned?
    ensures r.outcome.value == [] <==> reply.NetworkError? || !reply.ok || reply.body == []
    ensures r.outcome.value != [] ==> r.outcome.value == reply.body
  {
    var listed :=
      match reply
      case NetworkError => []
      case Response(ok, body) => if ok then body else [];
    Call(Returned(listed), s, [ListRequest])
  }

  /**
   `createProduct`: a POST carrying the form fields and the auth headers. An ok
   reply with `success` yields the fields under the placeholder id `now`; an ok
   reply without it yields nothing; anything else rejects. Storage is untouched.
   */
  function CreateProduct(s: Storage, input: ProductInput, reply: Reply<StatusBody>, now: int)
    : (r: Call<Option<Product>>)
    ensures r.storage == s
    ensures r.sent == [CreateRequest(AuthHeaders(s), input)]
    ensures reply.NetworkError? ==> r.outcome == Raised(NetworkFailure)
    ensures reply.Response? && !reply.ok ==> r.outcome == Raised(Failed(CreateFailed))
    ensures reply.Response? && reply.ok ==>
      r.outcome == Returned(if reply.body.success then Some(WithId(now, input)) else None)
  {
    var sent := [CreateRequest(AuthHeaders(s), input)];
    match reply
    case NetworkError => Call(Raised(NetworkFailure), s, sent)
    case Response(ok, body) =>
      if !ok then Call(Raised(Failed(CreateFailed)), s, sent)
      else if body.success then Call(Returned(Some(WithId(now, input))), s, sent)
      else Call(Returned(None), s, sent)
  }

  /**
   `updateProduct`: a PUT carrying `id` with the fields and the auth headers. An
   ok reply with `success` yields the fields under `id`; otherwise as for create.
   */
  function UpdateProduct(s: Storage, id: int, input: ProductInput, reply: Reply<StatusBody>)
    : (r: Call<Option<Product>>)
    ensures r.storage == s
    ensures r.sent == [UpdateRequest(AuthHeaders(s), id, input)]
    ensures reply.NetworkError? ==> r.outcome == Raised(NetworkFailure)
    ensures reply.Response? && !reply.ok ==> r.outcome == Raised(Failed(UpdateFailed))
    ensures reply.Response? && reply.ok && reply.body.success ==> r.outcome == Returned(Some(WithId(id, input)))
    ensures reply.Response? && reply.ok && !reply.body.success ==> r.outcome == Returned(None)
    ensures r.outcome.Returned? && r.outcome.value.Some? ==>
      r.outcome.value.value.id == id && Fields(r.outcome.value.value) == input
  {
    var sent := [UpdateRequest(AuthHeaders(s), id, input)];
    match reply
    case NetworkError => Call(Raised(NetworkFailure), s, sent)
    case Response(ok, body) =>
      if !ok then Call(Raised(Failed(UpdateFailed)), s, sent)
      else if body.success then Call(Returned(Some(WithId(id, input))), s, sent)
      else Call(Returned(None), s, sent)
  }

  /**
   `login`: an accepted reply stores the session user and the token and yields
   that user; an ok reply that is not accepted yields nothing; a failed request
   or a non-ok status rejects. Only an accepted reply changes storage.
   */
  function Login(s: Storage, email: string, password: string, reply: Reply<LoginBody>)
    : (r: Call<Option<User>>)
    ensures r.sent == [LoginRequest(email, password)]
    ensures r.outcome.Returned? && r.outcome.value.Some? <==> Accepted(reply)
    ensures Accepted(reply) ==>
      && r.outcome.value.value == User(1, email, SessionName(email), reply.body.token)
      && GetCurrentUser(r.storage) == r.outcome.value
      && AuthHeaders(r.storage).authorization == Some(reply.body.token)
    ensures !Accepted(reply) ==> r.storage == s
    ensures reply.NetworkError? ==> r.outcome == Raised(NetworkFailure)
    ensures reply.Response? && !reply.ok ==> r.outcome == Raised(Failed(LoginFailed))
    ensures reply.Response? && reply.ok && !Accepted(reply) ==> r.outcome == Returned(None)
  {
    var sent := [LoginRequest(email, password)];
    match reply
    case NetworkError => Call(Raised(NetworkFailure), s, sent)
    case Response(ok, body) =>
      if !ok then Call(Raised(Failed(LoginFailed)), s, sent)
      else if body.success && body.token != "" then
        var user := SessionUser(email, body.token);
        Call(Returned(Some(user)), Storage(Some(user), Some(body.token)), sent)
      else Call(Returned(None), s, sent)
  }

  /**
   `register`: only an ok reply with `success` goes on to log in with the same
   email and password, and then the result is that login's; otherwise it yields
   nothing or rejects, sends nothing more and leaves storage alone.
   */
  function Register(s: Storage, name: string, email: string, password: string,
                    registerReply: Reply<StatusBody>, loginReply: Reply<LoginBody>)
    : (r: Call<Option<User>>)
    ensures |r.sent| >= 1 && r.sent[0] == RegisterRequest(name, email, password)
    ensures registerReply.Response? && registerReply.ok && registerReply.body.success ==>
      var l := Login(s, email, password, loginReply);
      r.outcome == l.outcome && r.storage == l.storage && r.sent == [r.sent[0]] + l.sent
    ensures !(registerReply.Response? && registerReply.ok && registerReply.body.success) ==>
      r.storage == s && |r.sent| == 1 && (r.outcome.Raised? || r.outcome.value == None)
    ensures registerReply.NetworkError? ==> r.outcome == Raised(NetworkFailure)
    ensures registerReply.Response? && !registerReply.ok ==>
      r.outcome == Raised(Failed(RegistrationFailed))
    ensures registerReply.Response? && registerReply.ok && !registerReply.body.success ==> r.outcome == Returned(None)
  {
    var sent := [RegisterRequest(name, email, password)];
    match registerReply
    case NetworkError => Call(Raised(NetworkFailure), s, sent)
    case Response(ok, body) =>
      if !ok then Call(Raised(Failed(RegistrationFailed)), s, sent)
      else if body.success then
        var l := Login(s, email, password, loginReply);
        Call(l.outcome, l.storage, sent + l.sent)
      else Call(Returned(None), s, sent)
  }

  /** `logout`: both entries removed, so no user is current and no token is sent. */
  function Logout(s: Storage): (r: Storage)
    ensures r == EmptyStorage
    ensures GetCurrentUser(r) == None
    ensures AuthHeaders(r).authorization == None
  {
    Storage(None, None)
  }

  /** The name given at registration never becomes the session name. */
  lemma RegisteredNameIgnored(s: Storage, name: string, email: string, password: string,
                              registerReply: Reply<StatusBody>, loginReply: Reply<LoginBody>)
    ensures var r := Register(s, name, email, password, registerReply, loginReply);
      r.outcome.Returned? && r.outcome.value.Some? ==>
        r.outcome.value.value.name == SessionName(email)
  {
  }
}

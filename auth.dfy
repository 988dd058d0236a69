/** src/services/auth.js: login, registration, profile fetch, logout and the
    authenticated check, over the client of Api and its two stored tokens.
    `register`, `login` and `getCurrentUser` each go through the network: each
    is a pure step on the client state (`…Step`) and a method of the same
    name proved to perform that step. `logout` is a method on the store alone,
    and `isAuthenticated` a predicate of the stored tokens. */
module AuthService {
  import opened Wrappers
  import opened Json
  import opened Storage
  import opened Api
  import opened ApiEndpoints

  /** What an operation yields, the client state after it, and what it sent */
  datatype Step<T> = Step(value: T, state: ClientState, sent: seq<Request>)

  /** `isAuthenticated()`: an access token is stored and is not empty; a
      refresh token alone does not count */
  predicate IsAuthenticated(tokens: Tokens): (authenticated: bool)
    ensures tokens.access.None? ==> !authenticated
    ensures tokens.access == Some("") ==> !authenticated
    ensures tokens.access.Some? && tokens.access.value != "" ==> authenticated
  {
    IsSet(tokens.access)
  }

  /** The rejection carries a server reply whose data is truthy */
  predicate HasServerPayload(outcome: Outcome) {
    outcome.Rejected? && outcome.reason.HttpError? && Truthy(outcome.reason.response.data)
  }

  /** `error.response?.data || { message: fallback }`, what the service throws */
  function ThrownPayload(reason: Rejection, fallback: string): (payload: Json)
    ensures Truthy(payload)
    ensures HasServerPayload(Rejected(reason)) ==> payload == reason.response.data
    ensures !HasServerPayload(Rejected(reason)) ==> payload == StringObject(map["message" := fallback])
  {
    if reason.HttpError? && Truthy(reason.response.data) then reason.response.data
    else StringObject(map["message" := fallback])
  }

  /** The registration body: the four fields, the confirmation renamed */
  function RegisterData(username: string, email: string, password: string, passwordConfirm: string): Json {
    JObj(map["username" := JStr(username), "email" := JStr(email), "password" := JStr(password),
             "password_confirm" := JStr(passwordConfirm)])
  }

  function LoginData(email: string, password: string): Json {
    JObj(map["email" := JStr(email), "password" := JStr(password)])
  }

  /** `const { access, refresh } = response.data`, as the strings `setItem`
      stores: null cannot be destructured, a missing field stores "undefined" */
  function IssuedTokens(data: Json): Result<Tokens, Rejection> {
    if data.JNull? then Thrown(TypeError("Cannot destructure property 'access' of null"))
    else Ok(Tokens(Some(Stringify(Property(data, "access"))), Some(Stringify(Property(data, "refresh")))))
  }

  /** The exchange of the one call an operation makes */
  function CallExchange(s: ClientState, e: Endpoint, backend: Backend): Api.Exchange {
    Transmit(s, Prepare(ToCall(e)), false, backend)
  }

  /** `register`: the reply's data, or the thrown payload */
  function RegisterStep(s: ClientState, username: string, email: string, password: string,
                        passwordConfirm: string, backend: Backend): Step<Result<Json, Json>> {
    var e := CallExchange(s, UsersRegister(RegisterData(username, email, password, passwordConfirm)), backend);
    match e.outcome
    case Resolved(reply) => Step(Ok(reply.data), e.state, e.sent)
    case Rejected(reason) => Step(Thrown(ThrownPayload(reason, "Registration failed")), e.state, e.sent)
  }

  /** `login`: stores both issued tokens and yields true, or throws */
  function LoginStep(s: ClientState, email: string, password: string, backend: Backend): Step<Result<bool, Json>> {
    var e := CallExchange(s, UsersLogin(LoginData(email, password)), backend);
    match e.outcome
    case Rejected(reason) => Step(Thrown(ThrownPayload(reason, "Login failed")), e.state, e.sent)
    case Resolved(reply) =>
      match IssuedTokens(reply.data)
      case Thrown(err) => Step(Thrown(ThrownPayload(err, "Login failed")), e.state, e.sent)
      case Ok(tokens) => Step(Ok(true), e.state.(tokens := tokens), e.sent)
  }

  /** `getCurrentUser`: the profile, or null on any failure */
  function CurrentUserStep(s: ClientState, backend: Backend): Step<Json> {
    var e := CallExchange(s, UsersGetCurrentUser, backend);
    Step(if e.outcome.Resolved? then e.outcome.response.data else JNull, e.state, e.sent)
  }

  // ---------------------------------------------------------------------
  // The service's methods on a client

  method Register(client: ApiClient, username: string, email: string, password: string,
                  passwordConfirm: string, backend: Backend) returns (r: Result<Json, Json>)
    modifies client, client.storage
    ensures var step := RegisterStep(old(client.State()), username, email, password, passwordConfirm, backend);
      r == step.value && client.State() == step.state && client.Sent == old(client.Sent) + step.sent
  {
    var call := ToCall(UsersRegister(RegisterData(username, email, password, passwordConfirm)));
    var outcome := client.Dispatch(call, backend);
    match outcome {
      case Resolved(reply) => r := Ok(reply.data);
      case Rejected(reason) => r := Thrown(ThrownPayload(reason, "Registration failed"));
    }
  }

  method Login(client: ApiClient, email: string, password: string, backend: Backend) returns (r: Result<bool, Json>)
    modifies client, client.storage
    ensures var step := LoginStep(old(client.State()), email, password, backend);
      r == step.value && client.State() == step.state && client.Sent == old(client.Sent) + step.sent
  {
    var outcome := client.Dispatch(ToCall(UsersLogin(LoginData(email, password))), backend);
    match outcome {
      case Rejected(reason) =>
        r := Thrown(ThrownPayload(reason, "Login failed"));
      case Resolved(reply) =>
        match IssuedTokens(reply.data) {
          case Thrown(err) =>
            r := Thrown(ThrownPayload(err, "Login failed"));
          case Ok(tokens) =>
            client.storage.SetItem(AccessToken, tokens.access.value);
            client.storage.SetItem(RefreshToken, tokens.refresh.value);
            r := Ok(true);
        }
    }
  }

  /** `logout`: removes both keys, whatever was stored; so a second logout
      changes nothing */
  method Logout(client: ApiClient)
    modifies client.storage
    ensures client.storage.Snapshot() == NoTokens
    ensures !IsAuthenticated(client.storage.Snapshot())
  {
    client.storage.RemoveItem(AccessToken);
    client.storage.RemoveItem(RefreshToken);
  }

  method GetCurrentUser(client: ApiClient, backend: Backend) returns (user: Json)
    modifies client, client.storage
    ensures var step := CurrentUserStep(old(client.State()), backend);
      user == step.value && client.State() == step.state && client.Sent == old(client.Sent) + step.sent
  {
    var outcome := client.Dispatch(ToCall(UsersGetCurrentUser), backend);
    user := if outcome.Resolved? then outcome.response.data else JNull;
  }

  // ---------------------------------------------------------------------
  // Properties of the service

  /** A successful login stores the issued `access` under accessToken and
      `refresh` under refreshToken and yields true; the session is then
      authenticated exactly when the stored access token is not empty */
  lemma LoginStoresBothTokens(s: ClientState, email: string, password: string, backend: Backend)
    requires var e := CallExchange(s, UsersLogin(LoginData(email, password)), backend);
      e.outcome.Resolved? && !e.outcome.response.data.JNull?
    ensures var e := CallExchange(s, UsersLogin(LoginData(email, password)), backend);
      var data := e.outcome.response.data;
      var step := LoginStep(s, email, password, backend);
      && step.value == Ok(true)
      && step.state.tokens == Tokens(Some(Stringify(Property(data, "access"))), Some(Stringify(Property(data, "refresh"))))
      && (IsAuthenticated(step.state.tokens) <==> Stringify(Property(data, "access")) != "")
  {
  }

  /** A failed login throws a truthy payload: the server's data when it has
      some, else `{message: 'Login failed'}`; it writes no token itself, so
      the store is what the pipeline left, and unchanged unless the reply was
      the 401 that starts a renewal */
  lemma FailedLoginThrows(s: ClientState, email: string, password: string, backend: Backend)
    requires LoginStep(s, email, password, backend).value.Thrown?
    ensures var step := LoginStep(s, email, password, backend);
      var e := CallExchange(s, UsersLogin(LoginData(email, password)), backend);
      && Truthy(step.value.error)
      && (HasServerPayload(e.outcome) ==> step.value.error == e.outcome.reason.response.data)
      && (!HasServerPayload(e.outcome) ==> step.value.error == StringObject(map["message" := "Login failed"]))
      && step.state == e.state
      && (backend(e.sent[0]).status != 401 ==> step.state == s)
  {
  }

  /** Registration sends the four fields verbatim, the confirmation as
      `password_confirm`, and throws the server's data or
      `{message: 'Registration failed'}` */
  lemma RegisterSendsConfirmation(s: ClientState, username: string, email: string, password: string,
                                  passwordConfirm: string, backend: Backend)
    ensures var step := RegisterStep(s, username, email, password, passwordConfirm, backend);
      var e := CallExchange(s, UsersRegister(RegisterData(username, email, password, passwordConfirm)), backend);
      && |step.sent| >= 1
      && step.sent[0].url == ApiUrl + "/users/register/"
      && step.sent[0].data == Some(RegisterData(username, email, password, passwordConfirm))
      && (step.value.Thrown? ==> Truthy(step.value.error))
      && (step.value.Thrown? && HasServerPayload(e.outcome) ==> step.value.error == e.outcome.reason.response.data)
      && (step.value.Thrown? && !HasServerPayload(e.outcome) ==>
            step.value.error == StringObject(map["message" := "Registration failed"]))
      && (step.value.Ok? <==> e.outcome.Resolved?)
      && (step.value.Ok? ==> step.value.value == e.outcome.response.data)
  {
  }

  /** The profile fetch never throws: a failure yields null; and a failure
      that is not a 401 leaves the stored tokens as they were */
  lemma FailedProfileFetchYieldsNull(s: ClientState, backend: Backend)
    requires CallExchange(s, UsersGetCurrentUser, backend).outcome.Rejected?
    ensures var step := CurrentUserStep(s, backend);
      var e := CallExchange(s, UsersGetCurrentUser, backend);
      && step.value == JNull
      && (backend(e.sent[0]).status != 401 ==> step.state == s)
  {
  }
}

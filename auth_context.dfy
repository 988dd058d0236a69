/** src/context/AuthContext.jsx: the provider holding the signed-in user and
    the loading flag, its four actions over the auth service, and `useAuth`. */
module AuthContext {
  import opened Wrappers
  import opened Json
  import opened Storage
  import opened Api
  import AuthService

  const OutsideProvider := "useAuth must be used within an AuthProvider"

  /** What one of the provider's actions does: the value it returns or
      rethrows, the user it sets (None: left as it was), the client state
      after it and what it sent */
  datatype Flow = Flow(result: Result<bool, Json>, user: Option<Json>, state: ClientState, sent: seq<Request>)

  /** `initAuth`: with a stored access token the profile is fetched and set;
      the catch that signs out cannot be reached, as the fetch never throws */
  function InitFlow(s: ClientState, backend: Backend): Flow {
    if AuthService.IsAuthenticated(s.tokens) then
      var u := AuthService.CurrentUserStep(s, backend);
      Flow(Ok(true), Some(u.value), u.state, u.sent)
    else Flow(Ok(true), None, s, [])
  }

  /** `login`: the service's login, then the profile fetch on success */
  function LoginFlow(s: ClientState, email: string, password: string, backend: Backend): Flow {
    var l := AuthService.LoginStep(s, email, password, backend);
    if l.value.Thrown? then Flow(l.value, None, l.state, l.sent)
    else
      var u := AuthService.CurrentUserStep(l.state, backend);
      Flow(Ok(true), Some(u.value), u.state, l.sent + u.sent)
  }

  /** `useAuth`: the context, or the error thrown outside a provider */
  function UseAuth<C>(context: Option<C>): (r: Result<C, string>)
    ensures r.Ok? <==> context.Some?
    ensures r.Ok? ==> r.value == context.value
    ensures r.Thrown? ==> r.error == OutsideProvider
  {
    match context
    case Some(c) => Ok(c)
    case None => Thrown(OutsideProvider)
  }

  class AuthProvider {
    const client: ApiClient
    var currentUser: Json
    var loading: bool

    /** `useState(null)` and `useState(true)` */
    constructor (client: ApiClient)
      ensures this.client == client && currentUser == JNull && loading
    {
      this.client := client;
      currentUser := JNull;
      loading := true;
    }

    /** The `isAuthenticated` the context exposes: the service's own check */
    predicate IsAuthenticated()
      reads client.storage
    {
      AuthService.IsAuthenticated(client.storage.Snapshot())
    }

    method InitAuth(backend: Backend)
      modifies this, client, client.storage
      ensures var f := InitFlow(old(client.State()), backend);
        && !loading
        && currentUser == f.user.GetOr(old(currentUser))
        && client.State() == f.state && client.Sent == old(client.Sent) + f.sent
    {
      loading := true;
      if client.storage.GetItem(AccessToken) != None && client.storage.GetItem(AccessToken).value != "" {
        var userData := AuthService.GetCurrentUser(client, backend);
        currentUser := userData;
      }
      loading := false;
    }

    method Register(username: string, email: string, password: string, passwordConfirm: string,
                    backend: Backend) returns (r: Result<bool, Json>)
      modifies client, client.storage
      ensures var step := AuthService.RegisterStep(old(client.State()), username, email, password, passwordConfirm, backend);
        && (r.Ok? <==> step.value.Ok?)
        && (r.Ok? ==> r.value)
        && (r.Thrown? ==> r.error == step.value.error)
        && client.State() == step.state && client.Sent == old(client.Sent) + step.sent
    {
      var answer := AuthService.Register(client, username, email, password, passwordConfirm, backend);
      match answer {
        case Ok(_) => r := Ok(true);
        case Thrown(error) => r := Thrown(error);
      }
    }

    method Login(email: string, password: string, backend: Backend) returns (r: Result<bool, Json>)
      modifies this`currentUser, client, client.storage
      ensures var f := LoginFlow(old(client.State()), email, password, backend);
        && r == f.result && currentUser == f.user.GetOr(old(currentUser))
        && client.State() == f.state && client.Sent == old(client.Sent) + f.sent
    {
      r := AuthService.Login(client, email, password, backend);
      if r.Ok? {
        var userData := AuthService.GetCurrentUser(client, backend);
        currentUser := userData;
        r := Ok(true);
      }
    }

    method Logout()
      modifies this`currentUser, client.storage
      ensures client.storage.Snapshot() == NoTokens && currentUser == JNull
      ensures !IsAuthenticated()
    {
      AuthService.Logout(client);
      currentUser := JNull;
    }
  }

  // ---------------------------------------------------------------------
  // Properties of the provider

  /** Start-up never signs out by itself: the stored tokens change only when
      the profile fetch drew a 401 and went through the renewal path */
  lemma InitKeepsTokensUnlessUnauthorized(s: ClientState, backend: Backend)
    ensures var f := InitFlow(s, backend);
      && f.result == Ok(true)
      && (f.user.Some? <==> AuthService.IsAuthenticated(s.tokens))
      && (f.state.tokens != s.tokens ==>
            |f.sent| >= 1 && backend(f.sent[0]).status == 401)
  {
  }

  /** The context's login succeeds exactly when the service's does, and then
      always sets the user (null when the profile could not be fetched);
      a failed login leaves the user as it was */
  lemma LoginFlowFollowsService(s: ClientState, email: string, password: string, backend: Backend)
    ensures var f := LoginFlow(s, email, password, backend);
      var l := AuthService.LoginStep(s, email, password, backend);
      && (f.result.Ok? <==> l.value.Ok?)
      && (f.result.Ok? <==> f.user.Some?)
      && (f.result.Thrown? ==> f.result == l.value && f.state == l.state)
      && (f.result.Ok? ==> f.user == Some(AuthService.CurrentUserStep(l.state, backend).value))
  {
  }
}

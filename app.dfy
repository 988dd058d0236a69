/** src/App.jsx: the route table and the `ProtectedRoute` gate in front of
    the create and edit pages. A path is matched segment by segment, exactly
    as written. */
module App {
  import opened JsText
  import Api
  import ApiEndpoints

  /** The pages of the route table; NotFound is the catch-all route */
  datatype Page = Home | BlogDetail(id: string) | Login | Register | Create | Edit(id: string) | NotFound

  /** Only `/create` and `/edit/:id` are wrapped in the gate */
  predicate IsGuarded(page: Page) {
    page.Create? || page.Edit?
  }

  /** A `:id` segment: not empty, no `/` in it */
  predicate IsSegment(id: string) {
    id != "" && '/' !in id
  }

  /** The route a list of segments (what follows the leading `/`) selects */
  function MatchSegments(s: seq<string>): Page {
    if s == [""] then Home
    else if |s| == 2 && s[0] == "blog" && s[1] != "" then BlogDetail(s[1])
    else if s == ["login"] then Login
    else if s == ["register"] then Register
    else if s == ["create"] then Create
    else if |s| == 2 && s[0] == "edit" && s[1] != "" then Edit(s[1])
    else NotFound
  }

  /** The route a path selects */
  function Resolve(path: string): Page {
    if |path| == 0 || path[0] != '/' then NotFound
    else MatchSegments(Split(path[1..], '/'))
  }

  /** The path of each route, its `:id` filled in */
  function PathOf(page: Page): string {
    match page
    case Home => "/" + ""
    case BlogDetail(id) => "/" + "blog" + "/" + id
    case Login => "/" + "login"
    case Register => "/" + "register"
    case Create => "/" + "create"
    case Edit(id) => "/" + "edit" + "/" + id
    case NotFound => ""
  }

  /** What the gate renders */
  datatype Screen = Spinner | Redirect(to: string, replace: bool) | Show(page: Page)

  /** `ProtectedRoute`: the spinner while the session is loading, whatever
      the session; then the sign-in page, replacing the history entry, for a
      signed-out visitor; else the page itself. `loading` and `authenticated`
      are the context's `loading` and `isAuthenticated()`, that is
      `AuthService.IsAuthenticated` of the stored tokens. */
  function Gate(loading: bool, authenticated: bool, page: Page): (screen: Screen)
    ensures loading ==> screen == Spinner
    ensures !loading && !authenticated ==> screen == Redirect(Api.LoginPage, true)
    ensures !loading && authenticated ==> screen == Show(page)
  {
    if loading then Spinner
    else if !authenticated then Redirect(Api.LoginPage, true)
    else Show(page)
  }

  /** What a path renders: the gated pages through the gate, the others as
      they are */
  function ScreenFor(path: string, loading: bool, authenticated: bool): (screen: Screen)
    ensures !IsGuarded(Resolve(path)) ==> screen == Show(Resolve(path))
    ensures IsGuarded(Resolve(path)) ==> screen == Gate(loading, authenticated, Resolve(path))
  {
    var page := Resolve(path);
    if IsGuarded(page) then Gate(loading, authenticated, page) else Show(page)
  }

  /** A path is read by splitting what follows its leading `/` */
  lemma ResolveSlashed(rest: string)
    ensures Resolve("/" + rest) == MatchSegments(Split(rest, '/'))
  {
    assert ("/" + rest)[1..] == rest;
  }

  lemma ResolveOne(a: string)
    requires '/' !in a
    ensures Resolve("/" + a) == MatchSegments([a])
  {
    ResolveSlashed(a);
    SplitJoin([a], '/');
  }

  lemma ResolveTwo(a: string, b: string)
    requires '/' !in a && '/' !in b
    ensures Resolve("/" + a + "/" + b) == MatchSegments([a, b])
  {
    ResolveSlashed(a + "/" + b);
    assert "/" + a + "/" + b == "/" + (a + "/" + b);
    ApiEndpoints.JoinTwo(a, b);
    SplitJoin([a, b], '/');
  }

  /** Every path a route matches is that route's own path */
  lemma ResolvedPathIsCanonical(path: string)
    requires Resolve(path) != NotFound
    ensures PathOf(Resolve(path)) == path
  {
    var rest := path[1..];
    var s := Split(rest, '/');
    JoinSplit(rest, '/');
    assert path == "/" + rest;
    if |s| == 2 {
      ApiEndpoints.JoinTwo(s[0], s[1]);
    } else {
      assert |s| == 1;
      assert Join(s, '/') == s[0];
    }
  }

  /** Every route's path, with an id that is one segment, selects that route */
  lemma PathResolves(page: Page)
    requires page != NotFound
    requires page.BlogDetail? || page.Edit? ==> IsSegment(page.id)
    ensures Resolve(PathOf(page)) == page
  {
    // one lemma per route keeps each proof small
    match page {
      case Home => HomeResolves();
      case Login => LoginResolves();
      case Register => RegisterResolves();
      case Create => CreateResolves();
      case BlogDetail(id) => BlogDetailResolves(id);
      case Edit(id) => EditResolves(id);
    }
  }

  lemma HomeResolves()
    ensures Resolve(PathOf(Home)) == Home
  {
    ResolveOne("");
  }

  lemma LoginResolves()
    ensures Resolve(PathOf(Login)) == Login
  {
    ResolveOne("login");
  }

  lemma RegisterResolves()
    ensures Resolve(PathOf(Register)) == Register
  {
    ResolveOne("register");
    assert |"register"| != |"login"|;
  }

  lemma CreateResolves()
    ensures Resolve(PathOf(Create)) == Create
  {
    ResolveOne("create");
  }

  lemma BlogDetailResolves(id: string)
    requires IsSegment(id)
    ensures Resolve(PathOf(BlogDetail(id))) == BlogDetail(id)
  {
    ResolveTwo("blog", id);
  }

  lemma EditResolves(id: string)
    requires IsSegment(id)
    ensures Resolve(PathOf(Edit(id))) == Edit(id)
  {
    ResolveTwo("edit", id);
  }

  /** The gate guards `/create` and `/edit/:id` and nothing else: a path
      goes through it exactly when it is one of those */
  lemma OnlyCreateAndEditAreGuarded(path: string)
    ensures IsGuarded(Resolve(path)) <==>
      path == PathOf(Create) || (|path| > 6 && path[..6] == "/edit/" && IsSegment(path[6..]))
  {
    if IsGuarded(Resolve(path)) {
      ResolvedPathIsCanonical(path);
      if Resolve(path).Edit? {
        var id := Resolve(path).id;
        assert path == "/edit/" + id;
        assert path[6..] == id;
        PathResolves(Resolve(path));
        assert '/' !in id by {
          var s := Split(path[1..], '/');
          assert s[1] == id;
        }
      }
    } else if path == PathOf(Create) {
      PathResolves(Create);
    } else if |path| > 6 && path[..6] == "/edit/" && IsSegment(path[6..]) {
      assert path == PathOf(Edit(path[6..]));
      PathResolves(Edit(path[6..]));
    }
  }
}

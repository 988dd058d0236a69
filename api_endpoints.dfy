/** The endpoint table exported by src/services/api.js (lines 66-92): each
    entry builds a call of the instance from a fixed path, the interpolated
    text of an id or username, and a trailing `/`. `FromCall` reads a call
    back; it is the table's inverse, so no two entries ever produce the same
    request. */
module ApiEndpoints {
  import opened Wrappers
  import opened Json
  import JsText
  import opened Api

  datatype Endpoint =
    | UsersRegister(userData: Json)
    | UsersLogin(credentials: Json)
    | UsersRefreshToken(refreshToken: Json)
    | UsersGetCurrentUser
    | UsersGetUserProfile(username: string)
    | PostsGetAll(page: Option<int>)
    | PostsGet(id: string)
    | PostsCreate(postData: Json)
    | PostsUpdate(id: string, postData: Json)
    | PostsDelete(id: string)
    | PostsGetUserPosts(username: string)
    | CommentsGetForPost(postId: string)
    | CommentsCreate(commentData: Json)
    | CommentsUpdate(id: string, commentData: Json)
    | CommentsDelete(id: string)

  const PageQuery := "/posts/?page="

  /** The call each entry makes; `getAll` without a page asks for page 1 */
  function ToCall(e: Endpoint): Call {
    match e
    case UsersRegister(d) => Call(Post, "/users/register/", Some(d))
    case UsersLogin(c) => Call(Post, "/users/token/", Some(c))
    case UsersRefreshToken(t) => Call(Post, "/users/token/refresh/", Some(JObj(map["refresh" := t])))
    case UsersGetCurrentUser => Call(Get, "/users/me/", None)
    case UsersGetUserProfile(u) => Call(Get, "/users/profile/" + u + "/", None)
    case PostsGetAll(page) => Call(Get, PageQuery + JsText.IntToString(page.GetOr(1)), None)
    case PostsGet(id) => Call(Get, "/posts/" + id + "/", None)
    case PostsCreate(d) => Call(Post, "/posts/create/", Some(d))
    case PostsUpdate(id, d) => Call(Put, "/posts/" + id + "/edit/", Some(d))
    case PostsDelete(id) => Call(Delete, "/posts/" + id + "/edit/", None)
    case PostsGetUserPosts(u) => Call(Get, "/posts/user/" + u + "/", None)
    case CommentsGetForPost(p) => Call(Get, "/comments/post/" + p + "/", None)
    case CommentsCreate(d) => Call(Post, "/comments/create/", Some(d))
    case CommentsUpdate(id, d) => Call(Put, "/comments/" + id + "/", Some(d))
    case CommentsDelete(id) => Call(Delete, "/comments/" + id + "/", None)
  }

  /** The interpolated texts contain no `/`, so each stays one path segment */
  predicate SegmentSafe(e: Endpoint) {
    match e
    case UsersGetUserProfile(u) => '/' !in u
    case PostsGet(id) => '/' !in id
    case PostsUpdate(id, _) => '/' !in id
    case PostsDelete(id) => '/' !in id
    case PostsGetUserPosts(u) => '/' !in u
    case CommentsGetForPost(p) => '/' !in p
    case CommentsUpdate(id, _) => '/' !in id
    case CommentsDelete(id) => '/' !in id
    case _ => true
  }

  /** The entry with the default page made explicit */
  function Canonical(e: Endpoint): Endpoint {
    if e.PostsGetAll? then PostsGetAll(Some(e.page.GetOr(1))) else e
  }

  /** The path segments between the leading and the trailing `/` of every
      path except `getAll`'s */
  function Segments(e: Endpoint): seq<string>
    requires !e.PostsGetAll?
  {
    match e
    case UsersRegister(_) => ["users", "register"]
    case UsersLogin(_) => ["users", "token"]
    case UsersRefreshToken(_) => ["users", "token", "refresh"]
    case UsersGetCurrentUser => ["users", "me"]
    case UsersGetUserProfile(u) => ["users", "profile", u]
    case PostsGet(id) => ["posts", id]
    case PostsCreate(_) => ["posts", "create"]
    case PostsUpdate(id, _) => ["posts", id, "edit"]
    case PostsDelete(id) => ["posts", id, "edit"]
    case PostsGetUserPosts(u) => ["posts", "user", u]
    case CommentsGetForPost(p) => ["comments", "post", p]
    case CommentsCreate(_) => ["comments", "create"]
    case CommentsUpdate(id, _) => ["comments", id]
    case CommentsDelete(id) => ["comments", id]
  }

  /** Reads the entry back from its verb, segments and body */
  function FromSegments(v: Verb, s: seq<string>, d: Option<Json>): Option<Endpoint> {
    if |s| == 2 && s[0] == "users" then
      if s[1] == "register" && v == Post && d.Some? then Some(UsersRegister(d.value))
      else if s[1] == "token" && v == Post && d.Some? then Some(UsersLogin(d.value))
      else if s[1] == "me" && v == Get && d.None? then Some(UsersGetCurrentUser)
      else None
    else if |s| == 3 && s[0] == "users" then
      if s[1] == "token" && s[2] == "refresh" && v == Post && d.Some? && d.value.JObj? && d.value.fields.Keys == {"refresh"}
      then Some(UsersRefreshToken(d.value.fields["refresh"]))
      else if s[1] == "profile" && v == Get && d.None? then Some(UsersGetUserProfile(s[2]))
      else None
    else if |s| == 2 && s[0] == "posts" then
      if s[1] == "create" && v == Post && d.Some? then Some(PostsCreate(d.value))
      else if v == Get && d.None? then Some(PostsGet(s[1]))
      else None
    else if |s| == 3 && s[0] == "posts" then
      if s[2] == "edit" && v == Put && d.Some? then Some(PostsUpdate(s[1], d.value))
      else if s[2] == "edit" && v == Delete && d.None? then Some(PostsDelete(s[1]))
      else if s[1] == "user" && v == Get && d.None? then Some(PostsGetUserPosts(s[2]))
      else None
    else if |s| == 3 && s[0] == "comments" then
      if s[1] == "post" && v == Get && d.None? then Some(CommentsGetForPost(s[2])) else None
    else if |s| == 2 && s[0] == "comments" then
      if s[1] == "create" && v == Post && d.Some? then Some(CommentsCreate(d.value))
      else if v == Put && d.Some? then Some(CommentsUpdate(s[1], d.value))
      else if v == Delete && d.None? then Some(CommentsDelete(s[1]))
      else None
    else None
  }

  /** Which entry, if any, made this call */
  function FromCall(c: Call): Option<Endpoint> {
    var p := c.path;
    if |p| >= 2 && p[0] == '/' && p[|p| - 1] == '/' then
      FromSegments(c.verb, JsText.Split(p[1..|p| - 1], '/'), c.data)
    else if |p| > |PageQuery| && p[..|PageQuery|] == PageQuery && c.verb == Get && c.data.None? then
      match JsText.ParseInt(p[|PageQuery|..])
      case Some(n) => Some(PostsGetAll(Some(n)))
      case None => None
    else None
  }

  lemma JoinTwo(a: string, b: string)
    ensures JsText.Join([a, b], '/') == a + "/" + b
  {
    assert [a, b][1..] == [b];
  }

  lemma JoinThree(a: string, b: string, c: string)
    ensures JsText.Join([a, b, c], '/') == a + "/" + b + "/" + c
  {
    assert [a, b, c][1..] == [b, c];
    JoinTwo(b, c);
  }

  /** Every path but `getAll`'s is `/`, its segments joined by `/`, and `/` */
  predicate HasPathShape(e: Endpoint)
    requires !e.PostsGetAll?
  {
    ToCall(e).path == "/" + JsText.Join(Segments(e), '/') + "/"
  }

  lemma PathShape(e: Endpoint)
    requires !e.PostsGetAll?
    ensures HasPathShape(e)
  {
    match e {
      case UsersRegister(d) => UsersRegisterPath(d);
      case UsersLogin(c) => UsersLoginPath(c);
      case UsersRefreshToken(t) => UsersRefreshTokenPath(t);
      case UsersGetCurrentUser => UsersGetCurrentUserPath();
      case UsersGetUserProfile(u) => UsersGetUserProfilePath(u);
      case PostsGet(id) => PostsGetPath(id);
      case PostsCreate(d) => PostsCreatePath(d);
      case PostsUpdate(id, d) => PostsUpdatePath(id, d);
      case PostsDelete(id) => PostsDeletePath(id);
      case PostsGetUserPosts(u) => PostsGetUserPostsPath(u);
      case CommentsGetForPost(p) => CommentsGetForPostPath(p);
      case CommentsCreate(d) => CommentsCreatePath(d);
      case CommentsUpdate(id, d) => CommentsUpdatePath(id, d);
      case CommentsDelete(id) => CommentsDeletePath(id);
    }
  }

  // One lemma per entry: proving all paths in one lemma is too costly for the solver.
  lemma UsersRegisterPath(d: Json)
    ensures HasPathShape(UsersRegister(d))
  {
    JoinTwo("users", "register");
  }

  lemma UsersLoginPath(c: Json)
    ensures HasPathShape(UsersLogin(c))
  {
    JoinTwo("users", "token");
  }

  lemma UsersRefreshTokenPath(t: Json)
    ensures HasPathShape(UsersRefreshToken(t))
  {
    JoinThree("users", "token", "refresh");
  }

  lemma UsersGetCurrentUserPath()
    ensures HasPathShape(UsersGetCurrentUser)
  {
    JoinTwo("users", "me");
  }

  lemma UsersGetUserProfilePath(u: string)
    ensures HasPathShape(UsersGetUserProfile(u))
  {
    JoinThree("users", "profile", u);
  }

  lemma PostsGetPath(id: string)
    ensures HasPathShape(PostsGet(id))
  {
    JoinTwo("posts", id);
  }

  lemma PostsCreatePath(d: Json)
    ensures HasPathShape(PostsCreate(d))
  {
    JoinTwo("posts", "create");
  }

  lemma PostsUpdatePath(id: string, d: Json)
    ensures HasPathShape(PostsUpdate(id, d))
  {
    JoinThree("posts", id, "edit");
  }

  lemma PostsDeletePath(id: string)
    ensures HasPathShape(PostsDelete(id))
  {
    JoinThree("posts", id, "edit");
  }

  lemma PostsGetUserPostsPath(u: string)
    ensures HasPathShape(PostsGetUserPosts(u))
  {
    JoinThree("posts", "user", u);
  }

  lemma CommentsGetForPostPath(p: string)
    ensures HasPathShape(CommentsGetForPost(p))
  {
    JoinThree("comments", "post", p);
  }

  lemma CommentsCreatePath(d: Json)
    ensures HasPathShape(CommentsCreate(d))
  {
    JoinTwo("comments", "create");
  }

  lemma CommentsUpdatePath(id: string, d: Json)
    ensures HasPathShape(CommentsUpdate(id, d))
  {
    JoinTwo("comments", id);
  }

  lemma CommentsDeletePath(id: string)
    ensures HasPathShape(CommentsDelete(id))
  {
    JoinTwo("comments", id);
  }

  /** The verb, segments and body of each entry but `getAll` read back as it */
  lemma SegmentsRoundTrip(e: Endpoint)
    requires !e.PostsGetAll?
    ensures FromSegments(ToCall(e).verb, Segments(e), ToCall(e).data) == Some(e)
  {
    if e.UsersRefreshToken? {
      assert ToCall(e).data.value.fields.Keys == {"refresh"};
    }
  }

  /** `getAll`'s path reads back as the page it asked for */
  lemma PageRoundTrip(page: Option<int>)
    ensures FromCall(ToCall(PostsGetAll(page))) == Some(PostsGetAll(Some(page.GetOr(1))))
  {
    var c := ToCall(PostsGetAll(page));
    var n := page.GetOr(1);
    var digits := JsText.IntToString(n);
    assert c.path == PageQuery + digits;
    assert c.path[..|PageQuery|] == PageQuery;
    assert c.path[|PageQuery|..] == digits;
    assert c.path[|c.path| - 1] == digits[|digits| - 1];
    JsText.ParseIntToString(n);
  }

  /** Reading a call back gives the entry that made it */
  lemma CallRoundTrip(e: Endpoint)
    requires SegmentSafe(e)
    ensures FromCall(ToCall(e)) == Some(Canonical(e))
  {
    if e.PostsGetAll? {
      PageRoundTrip(e.page);
    } else {
      var c := ToCall(e);
      var s := Segments(e);
      PathShape(e);
      assert forall i :: 0 <= i < |s| ==> '/' !in s[i];
      var inner := JsText.Join(s, '/');
      SlashedPathReads(c.verb, inner, c.data);
      JsText.SplitJoin(s, '/');
      SegmentsRoundTrip(e);
    }
  }

  /** A path of the form `/…/` is read by splitting what is between the
      slashes */
  lemma SlashedPathReads(verb: Verb, inner: string, data: Option<Json>)
    ensures FromCall(Call(verb, "/" + inner + "/", data)) == FromSegments(verb, JsText.Split(inner, '/'), data)
  {
    var p := "/" + inner + "/";
    assert p[1..|p| - 1] == inner;
  }

  /** Two entries with texts that stay single segments make the same call
      only if they are the same entry (up to the default page) */
  lemma CallsAreDistinct(a: Endpoint, b: Endpoint)
    requires SegmentSafe(a) && SegmentSafe(b)
    requires ToCall(a) == ToCall(b)
    ensures Canonical(a) == Canonical(b)
  {
    CallRoundTrip(a);
    CallRoundTrip(b);
  }

  /** Whether `api.<path>` names a function of the default export: only the
      entries of the three groups do; the export has no `get`, `post`, `put`
      or `delete` of its own. */
  predicate IsExportedFunction(path: seq<string>) {
    && |path| == 2
    && (|| (path[0] == "users" && path[1] in {"register", "login", "refreshToken", "getCurrentUser", "getUserProfile"})
        || (path[0] == "posts" && path[1] in {"getAll", "get", "create", "update", "delete", "getUserPosts"})
        || (path[0] == "comments" && path[1] in {"getForPost", "create", "update", "delete"}))
  }
}

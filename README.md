# myblog-fe-react in Dafny

This project models the logic of a React client for a blog service. The
browser, the network and the rendering are replaced by explicit inputs:

- the server is a function from request to reply;
- the answer to a confirmation dialog is a boolean;
- how an awaited call settled is a parameter of the page handler that awaits it;
- `localStorage` is a two-key store;
- `navigate(…)` calls and `window.location.href` are recorded fields.

Every operation carries a contract. The ones that change state are proved
equal to a pure function of the old state, and the properties of those
functions are proved as lemmas.

What is modelled, by file:

- `storage.dfy` (`Storage`): the session store. It is a class with the two
  optional keys `accessToken` and `refreshToken`, plus `getItem`, `setItem`
  and `removeItem`. Its constructor stands for the browser's store as it is
  before anything is saved; no line of the client creates it.
- `api.dfy` (`Api`): the axios instance built in `src/services/api.js`.
  - The request interceptor attaches `Authorization: Bearer <token>`.
  - The response interceptor handles "401, not yet `_retry`": it marks the
    request, makes one renewal call, stores the new access token and replays
    the request once through bare axios. If the renewal fails it clears both
    tokens, redirects to `/login` and rejects with the renewal's error.
  - `RequestConfig` is the mutable axios config object.
  - `ApiClient.Send` runs the two interceptors over it. It is proved equal to
    the pure pipeline `Transmit`, and all properties of the pipeline are
    lemmas about `Transmit`.
- `api_endpoints.dfy` (`ApiEndpoints`): the table of endpoint path builders.
  Each entry's path is `/`, its segments joined by `/`, then `/`. The one
  exception is `posts.getAll`, whose path is `/posts/?page=<n>`. A path reads
  back to the entry that made it when the ids and usernames inside it hold no
  `/`.
- `auth.dfy` (`AuthService`): `register`, `login`, `logout`,
  `getCurrentUser` and `isAuthenticated`. The three calls that reach the
  network are each a pure step on the client state (`…Step`) and a method
  proved to perform it. `logout` is a method on the store, and
  `isAuthenticated` a predicate on the stored tokens.
- `auth_context.dfy` (`AuthContext`): the provider holding `currentUser` and
  `loading`, its `initAuth`, `login`, `register` and `logout`, and the
  `useAuth` guard.
- `create_blog_page.dfy`, `edit_blog_page.dfy`: the form validator and the
  submit flows. The edit page also has the author check, the fetch guard and
  404 handling.
- `comment_section.dfy`: the comment list. It covers prepend, replace-by-id
  and remove-by-id, editing, cancelling, the owner-only controls and the
  load, together with the component as written (see Findings).
- `home_page.dfy`: the paged post list and `loadMorePosts`.
- `blog_card.dfy`: the 150-character excerpt and the category tags.
- `blog_detail_page.dfy`: the paragraph split, fetch error messages, render
  precedence, author controls and the delete flow.
- `app.dfy`: the route table and the `ProtectedRoute` gate.
- Shared modules:
  - `wrappers.dfy`: `Option` and `Result`.
  - `json.dfy`: `response.data` values, JavaScript truthiness and `String(…)`.
  - `js_text.dfy`: the JavaScript string operations used:
    - `trim`, with the ECMAScript white-space set;
    - `split` on one character;
    - `slice`;
    - template-literal decimals.
  - `entities.dfy`: the records the pages read and how a call settled.

Behaviours of the code worth knowing, all modelled as written:

- `login` in `src/services/auth.js` returns `true` and stores the tokens;
  the profile is fetched by the context, not by the service.
- A failed login is not always harmless to the session. Its 401 goes through
  the response interceptor like any other. When the renewal succeeds, the
  access token is overwritten before the login throws. When the renewal
  fails, both tokens are removed and `/login` is set
  (`Api.RenewalSuccessReplaysOnce`, `Api.RenewalFailureSignsOut`). Without a
  401 a failed login leaves the store as it was
  (`AuthService.FailedLoginThrows`).
- `getCurrentUser` never throws: it yields null. The `logout` in the catch of
  `initAuth` therefore cannot run. The tokens change at start-up only after
  the profile fetch drew a 401. A successful renewal then overwrites the
  access token, and a failed one removes both
  (`AuthContext.InitKeepsTokensUnlessUnauthorized`).
- `isAuthenticated` is `!!localStorage.getItem('accessToken')`: an empty
  token does not count.
- A login or renewal reply with no `access` field stores the text
  `"undefined"`. A reply whose data is null makes destructuring throw; the
  model treats that as a TypeError.
- The refresh token is never rotated. Only `access` is stored on renewal.
- Concurrent 401s are not deduplicated: each failing request renews on its
  own.
- Endpoint paths are the strings of `src/services/api.js:66-92`.

## Model

| member | source | states |
|---|---|---|
| Storage.LocalStorage.GetItem | src/services/api.js:16 | reading a key gives what was last stored under it, or nothing |
| Storage.LocalStorage.SetItem | src/services/auth.js:25-26 | afterwards the key reads back the value; the other key is unchanged |
| Storage.LocalStorage.RemoveItem | src/services/auth.js:34-37 | afterwards the key is absent; the other key is unchanged |
| Api.HandleFailure | src/services/api.js:32-62 | the error handler renews exactly on a 401 not yet marked `_retry`, which it then marks; otherwise it rejects with the reply's own error and sends nothing; when it renews, the renewal of the stored refresh token goes first and at most one replay follows; the refresh token is kept unless both tokens are removed |
| Api.Transmit | src/services/api.js:14-63 | one to three requests go out; the first is the config with the request interceptor's headers; a call resolves only with a 2xx reply; a 2xx first reply settles it with nothing more sent |
| Api.OutgoingRequestCarriesToken | src/services/api.js:14-25 | a stored non-empty access token goes out as `Bearer <token>`; without one the headers are untouched; method, URL and body are kept |
| Api.SuccessPassesThrough | src/services/api.js:29-31 | a 2xx reply is returned unchanged, with no store change, redirect or second request |
| Api.OtherFailuresPropagate | src/services/api.js:36-61 | a non-401 failure, or a 401 on a request already marked `_retry`, is rejected with its own error and changes nothing |
| Api.FirstUnauthorizedRenewsOnce | src/services/api.js:36-44 | a first 401 sets `_retry` and makes exactly one renewal call carrying the stored refresh token, then at most one replay |
| Api.RenewalSuccessReplaysOnce | src/services/api.js:46-51 | on renewal success only the access token is overwritten; the replay differs only in `Authorization`; its own result settles the call, so a second 401 is not intercepted |
| Api.RenewalFailureSignsOut | src/services/api.js:52-57 | on renewal failure both tokens are removed and the location is /login; the call rejects with the renewal's own HTTP error, or with the TypeError of destructuring its null data |
| Api.RefreshTokenNeverRotates | src/services/api.js:41-57 | the refresh token is only ever kept or removed, the only redirect is /login, and at most three requests are sent |
| Api.RequestConfig.constructor | src/services/api.js:6-11 | a new config is the call on the base URL with the JSON content type, not yet marked `_retry` |
| Api.ApiClient.constructor | src/services/api.js:6-11 | the client over a store starts with no forced location and nothing sent |
| Api.ApiClient.InterceptRequest | src/services/api.js:14-25 | the config's headers become the authorized headers for the stored access token |
| Api.ApiClient.InterceptFailure | src/services/api.js:32-62 | the error handler's outcome, new store, location, `_retry` flag and sent requests are those of the pipeline's failure step |
| Api.ApiClient.Send | src/services/api.js:14-63 | one call through both interceptors has exactly the outcome, state and requests of the pipeline |
| Api.ApiClient.Dispatch | src/services/api.js:66-92 | calling an endpoint builds a fresh config and behaves as the pipeline on the prepared request |
| ApiEndpoints.ToCall | src/services/api.js:66-92 | the verb, path and body of each entry of the table; `PathShape` states the path form and `CallRoundTrip` that `FromCall` reads each call back |
| ApiEndpoints.PathShape | src/services/api.js:66-92 | every path but `getAll`'s is a fixed prefix, the interpolated segments and a trailing `/` |
| ApiEndpoints.SegmentsRoundTrip | src/services/api.js:66-92 | an entry is recovered from its verb, segments and body |
| ApiEndpoints.PageRoundTrip | src/services/api.js:78 | `getAll` reads back its page, with page 1 when none is given |
| ApiEndpoints.CallRoundTrip | src/services/api.js:66-92 | reading back the call of an entry whose texts have no `/` gives that entry, with the default page made explicit |
| ApiEndpoints.CallsAreDistinct | src/services/api.js:66-92 | two such entries make the same call only if they are the same entry |
| AuthService.IsAuthenticated | src/services/auth.js:48-50 | signed in exactly when an access token is stored and is not the empty string; a missing one or `""` is signed out |
| AuthService.ThrownPayload | src/services/auth.js:15 | what the service throws is always truthy: the rejection's reply data when that is truthy, else `{message: fallback}` |
| AuthService.RegisterStep | src/services/auth.js:5-17 | the registration call's data or thrown payload, with the state and requests of its exchange; stated by `RegisterSendsConfirmation` |
| AuthService.LoginStep | src/services/auth.js:19-32 | the login call, the storing of both tokens and the thrown payload; stated by `LoginStoresBothTokens` and `FailedLoginThrows` |
| AuthService.CurrentUserStep | src/services/auth.js:39-46 | the profile fetch, yielding the data or null; stated by `FailedProfileFetchYieldsNull` |
| AuthService.Register | src/services/auth.js:5-17 | registration yields the reply's data or throws the service's payload, with the state and requests of that step |
| AuthService.Login | src/services/auth.js:19-32 | login stores both issued tokens and yields true, or throws, with the state and requests of the login step |
| AuthService.Logout | src/services/auth.js:34-37 | both keys are removed, so a second logout changes nothing, and the session is not authenticated |
| AuthService.GetCurrentUser | src/services/auth.js:39-46 | the profile fetch yields the profile or null, with the state and requests of that step |
| AuthService.LoginStoresBothTokens | src/services/auth.js:19-28 | on success `access` is stored under accessToken, `refresh` under refreshToken, the result is true, and the session is authenticated iff the stored access text is not empty |
| AuthService.FailedLoginThrows | src/services/auth.js:29-31 | a failed login throws the server's reply data whenever the call was rejected with truthy data, and `{message:'Login failed'}` in every other case; it writes no token itself, and the store is unchanged unless the reply was the 401 that starts a renewal |
| AuthService.RegisterSendsConfirmation | src/services/auth.js:5-16 | registration posts the four fields with `password_confirm` to `/users/register/`; it succeeds exactly when the call resolves, yielding the reply's data; a failure throws the server's reply data whenever that data is truthy, and `{message:'Registration failed'}` otherwise |
| AuthService.FailedProfileFetchYieldsNull | src/services/auth.js:39-46 | a failed profile fetch yields null, and the store is unchanged unless the failure was a 401 |
| AuthContext.UseAuth | src/context/AuthContext.jsx:77-83 | the hook yields the context when there is one and throws "useAuth must be used within an AuthProvider" otherwise |
| AuthContext.AuthProvider.constructor | src/context/AuthContext.jsx:8-9 | a new provider has no user and is loading |
| AuthContext.AuthProvider.InitAuth | src/context/AuthContext.jsx:12-28 | start-up ends with `loading` false on every path; the user is fetched only when an access token is stored |
| AuthContext.AuthProvider.Register | src/context/AuthContext.jsx:31-39 | succeeds, with true, exactly when the service's registration does; otherwise rethrows its payload |
| AuthContext.AuthProvider.Login | src/context/AuthContext.jsx:42-52 | the user is set from the profile fetched after a successful login; a failed login rethrows and leaves the user unchanged |
| AuthContext.AuthProvider.Logout | src/context/AuthContext.jsx:55-58 | both tokens are removed and the user becomes null |
| AuthContext.InitFlow | src/context/AuthContext.jsx:12-28 | start-up: the profile fetch when a token is stored; stated by `InitKeepsTokensUnlessUnauthorized` |
| AuthContext.LoginFlow | src/context/AuthContext.jsx:42-52 | the service's login followed by the profile fetch; stated by `LoginFlowFollowsService` |
| AuthContext.InitKeepsTokensUnlessUnauthorized | src/context/AuthContext.jsx:13-25 | start-up always succeeds, sets a user iff a token is stored, and changes the tokens only after a 401 |
| AuthContext.LoginFlowFollowsService | src/context/AuthContext.jsx:42-52 | the context's login succeeds iff the service's does, then always sets the user (null if the profile fetch failed) |
| Entities.SubmitErrors | src/pages/CreateBlogPage.jsx:59-64 | the errors after a failed submit are the response's data when truthy, else `{general: fallback}` |
| CreateBlogPage.ValidateFormRules | src/pages/CreateBlogPage.jsx:22-38 | a blank title gives "Title is required"; a non-blank title shorter than 5 gives the length message; content follows the same rules with 10; no other key appears; the map is empty iff the form is valid |
| CreateBlogPage.ValidateForm | src/pages/CreateBlogPage.jsx:22-39 | the map of field errors; its rules are stated by `ValidateFormRules` |
| CreateBlogPage.CreatePage.constructor | src/pages/CreateBlogPage.jsx:7-10 | the form starts empty with no errors |
| CreateBlogPage.CreatePage.RedirectIfSignedOut | src/pages/CreateBlogPage.jsx:16-20 | a signed-out visitor is sent to /login, with `from` /create and the message |
| CreateBlogPage.CreatePage.Validate | src/pages/CreateBlogPage.jsx:22-39 | the page shows the validator's messages and reports whether there were none |
| CreateBlogPage.CreatePage.HandleSubmit | src/pages/CreateBlogPage.jsx:41-68 | an invalid form sends nothing; a valid one posts `{title, content}`, then navigates to `/blog/<id>` or shows the mapped errors, and `submitting` ends false |
| EditBlogPage.EditPage.constructor | src/pages/EditBlogPage.jsx:12-17 | the page starts loading, with no post and no errors |
| EditBlogPage.EditPage.RedirectIfSignedOut | src/pages/EditBlogPage.jsx:20-24 | a signed-out visitor is sent to /login, with `from` `/edit/<id>` |
| EditBlogPage.EditPage.FetchPost | src/pages/EditBlogPage.jsx:27-60 | nothing is fetched without a user; another author's post navigates to `/blog/<id>` without filling the form; 404 navigates to / with "Post not found."; other failures set the general error; loading ends false |
| EditBlogPage.EditPage.Validate | src/pages/EditBlogPage.jsx:62-79 | the same rules as the create page |
| EditBlogPage.EditPage.HandleSubmit | src/pages/EditBlogPage.jsx:81-108 | an invalid form sends nothing; a valid one updates the post, then navigates to `/blog/<id>` or shows the mapped errors |
| EditBlogPage.EditPage.Render | src/pages/EditBlogPage.jsx:110-130 | the spinner exactly while loading, the form exactly when loaded with a post |
| CommentSection.TopLevelCallsThrow | src/components/CommentSection.jsx:25-87 | `api.get/post/put/delete` always throw without a response, while the `api.comments` entries reach the server |
| CommentSection.ReplaceWhereSpec | src/components/CommentSection.jsx:73 | replacing keeps length and order and changes exactly the comments whose id is the edited one |
| CommentSection.RemoveByIdSpec | src/components/CommentSection.jsx:89 | removing keeps exactly the comments with another id |
| CommentSection.RemoveByIdAppend | src/components/CommentSection.jsx:89 | removal distributes over concatenation, so kept comments stay in order |
| CommentSection.RemoveAbsentId | src/components/CommentSection.jsx:89 | removing an id no comment has changes nothing |
| CommentSection.ReplaceWhere | src/components/CommentSection.jsx:73 | the list with the edited comment replaced by the server's copy; stated by `ReplaceWhereSpec` |
| CommentSection.RemoveById | src/components/CommentSection.jsx:89 | the list without the deleted comment; stated by `RemoveByIdSpec`, `RemoveByIdAppend` and `RemoveAbsentId` |
| CommentSection.ShowsOwnerControls | src/components/CommentSection.jsx:167 | a comment's Edit and Delete buttons appear only to a signed-in user; never to a user with another id or while that comment is being edited; otherwise always to a user whose id is the author's |
| CommentSection.RenderComment | src/components/CommentSection.jsx:138-177 | a comment shows the edit form with the draft exactly while it is being edited, else its text; the buttons follow the owner rule and never appear beside the form |
| CommentSection.EditSwapsControlsForForm | src/components/CommentSection.jsx:58-61 | after an edit starts, the comment shows the form with its own text and no buttons; after cancelling, its text, with buttons exactly for its author |
| CommentSection.Section.constructor | src/components/CommentSection.jsx:6-11 | the section starts loading, with no comments, draft or edit |
| CommentSection.Section.FetchCommentsAsWritten | src/components/CommentSection.jsx:21-36 | as written, loading ends with "Failed to load comments." and the list is never filled |
| CommentSection.Section.LoadComments | src/components/CommentSection.jsx:21-36 | the corrected load keeps the fetched list, or shows the load error and keeps the old one |
| CommentSection.Section.Created | src/components/CommentSection.jsx:49-53 | a created comment goes first and the draft is cleared; a failure sets the error and changes nothing else |
| CommentSection.Section.SubmitCommentAsWritten | src/components/CommentSection.jsx:39-55 | as written, a non-blank draft always ends in "Failed to post comment." and the list never changes |
| CommentSection.Section.SubmitComment | src/components/CommentSection.jsx:39-55 | a blank draft sends nothing; otherwise the create call is made and its result is applied |
| CommentSection.Section.EditComment | src/components/CommentSection.jsx:58-61 | the edit starts on the comment's id and text |
| CommentSection.Section.CancelEdit | src/components/CommentSection.jsx:97-100 | the edit is closed and its text cleared |
| CommentSection.Section.Updated | src/components/CommentSection.jsx:73-78 | an updated comment replaces those with the edited id and the edit closes; a failure sets the error and changes nothing else |
| CommentSection.Section.UpdateCommentAsWritten | src/components/CommentSection.jsx:64-80 | as written, a non-blank edit always ends in "Failed to update comment." and nothing else changes |
| CommentSection.Section.UpdateComment | src/components/CommentSection.jsx:64-80 | a blank edit sends nothing; otherwise the update call is made and its result is applied |
| CommentSection.Section.Deleted | src/components/CommentSection.jsx:89-92 | a deleted comment leaves the list; a failure sets the error |
| CommentSection.Section.DeleteCommentAsWritten | src/components/CommentSection.jsx:83-94 | as written, a confirmed delete always ends in "Failed to delete comment." and the list never changes |
| CommentSection.Section.DeleteComment | src/components/CommentSection.jsx:83-94 | nothing is sent without confirmation; otherwise the delete call is made and its result is applied |
| HomePage.SuccessiveLoads | src/pages/HomePage.jsx:20-27 | loading pages 1, 2, … in turn shows all their posts in page order |
| HomePage.FlattenSnoc | src/pages/HomePage.jsx:26 | appending a page adds its posts after the others |
| HomePage.Merge | src/pages/HomePage.jsx:23-27 | page 1 replaces the list and later pages append; `SuccessiveLoads` states that pages loaded in turn give all their posts in order |
| HomePage.Home.constructor | src/pages/HomePage.jsx:7-11 | the list starts empty on page 1, loading, with more to come |
| HomePage.Home.FetchPosts | src/pages/HomePage.jsx:14-40 | an empty page leaves the list and clears `hasMore`; page 1 replaces the list; a later page appends; `hasMore` follows `next`; a failure keeps the list; loading ends false |
| HomePage.Home.LoadMorePosts | src/pages/HomePage.jsx:45-49 | the page grows by exactly one, and only when not loading and more remain |
| BlogCard.Excerpt | src/components/BlogCard.jsx:24-25 | short content is shown whole; longer content shows its first 150 characters and `...`; at most 153 characters, always starting with the slice |
| BlogCard.Tags | src/components/BlogCard.jsx:37-44 | one tag per category, in order, showing its name |
| BlogDetailPage.BlocksOf | src/pages/BlogDetailPage.jsx:96-98 | one block per segment, each the block of its segment |
| BlogDetailPage.ParagraphsPerLine | src/pages/BlogDetailPage.jsx:96-98 | newline count + 1 blocks; a non-blank line is a paragraph of the untrimmed line, a blank line a break; the lines join back to the content |
| BlogDetailPage.Paragraphs | src/pages/BlogDetailPage.jsx:96-98 | the blocks of the content split on newlines; stated by `ParagraphsPerLine` |
| BlogDetailPage.FetchErrorMessage | src/pages/BlogDetailPage.jsx:25-29 | "Post not found." exactly for a 404; every other failure gives "Failed to load post. Please try again later." |
| BlogDetailPage.ShowsAuthorControls | src/pages/BlogDetailPage.jsx:102 | the Edit and Delete controls appear only to a signed-in user: always to a user whose id is the author's, never to one with another id |
| BlogDetailPage.Render | src/pages/BlogDetailPage.jsx:58-102 | spinner while loading, then the error, then nothing without a post, then the article, with controls exactly for the author |
| BlogDetailPage.DetailPage.constructor | src/pages/BlogDetailPage.jsx:13-15 | the page starts loading, with no post and no error |
| BlogDetailPage.DetailPage.FetchPost | src/pages/BlogDetailPage.jsx:17-37 | the post is shown, or the classified error; loading ends false |
| BlogDetailPage.DetailPage.DeletePost | src/pages/BlogDetailPage.jsx:46-56 | nothing is sent without confirmation; success navigates to /, failure sets the delete error |
| App.Gate | src/App.jsx:19-31 | spinner while loading regardless of the session; else a replacing redirect to /login when signed out; else the children |
| App.ScreenFor | src/App.jsx:42-77 | the guarded pages go through the gate, every other path renders its page directly |
| App.ResolvedPathIsCanonical | src/App.jsx:42-77 | a path any route matches is exactly that route's path; all others are Not Found |
| App.PathResolves | src/App.jsx:42-63 | every route's path, with a one-segment id, selects that route |
| App.OnlyCreateAndEditAreGuarded | src/App.jsx:42-63 | a path is gated exactly when it is /create or /edit/<id> |
| App.Resolve | src/App.jsx:42-77 | the page a path selects, Not Found when no route matches; stated by `ResolvedPathIsCanonical`, `PathResolves` and `OnlyCreateAndEditAreGuarded` |
| JsText.TrimSpec | src/pages/CreateBlogPage.jsx:25 | `trim()` is empty exactly for blank text, and otherwise neither starts nor ends with white space |
| JsText.Trim | src/pages/CreateBlogPage.jsx:25 | `trim()`: white space removed from both ends; stated by `TrimSpec` |
| JsText.Split | src/pages/BlogDetailPage.jsx:96 | `split` on one character: one more piece than separators, none holding the separator; `JoinSplit` and `SplitJoin` state the round trips |
| JsText.JoinSplit | src/pages/BlogDetailPage.jsx:96 | joining the pieces of `split` gives the text back |
| JsText.SplitJoin | src/services/api.js:66-92 | splitting joined pieces that lack the separator gives them back |
| JsText.ParseIntToString | src/services/api.js:78 | the decimal text of an integer reads back as that integer |

## Left out

- Network transport: axios and HTTP are a function from request to reply.
  A reply always has a status, so an error without a response (which
  `src/services/api.js:36` would dereference) is outside the model.
- Timing and overlap of requests: one request chain is modelled at a time.
  The code has no single-flight renewal, so none is modelled.
- The browser: `window.confirm` is a boolean input, `window.location.href` a
  recorded field, and `localStorage` is always available.
- React: effect scheduling, re-renders and the state-setter queue are left
  out. Each handler is a method on the page's fields, and each effect runs
  when called.
- Markup: JSX markup, CSS and react-router's matching internals are left out.
  `App.Resolve` matches segments exactly as written. The case-insensitive
  matching and optional trailing slash of react-router are not modelled.
- Date formatting (`toLocaleString`, `toLocaleDateString`) depends on the
  locale and is not modelled.
- `src/components/Header.jsx`, `src/components/Footer.jsx` and
  `src/components/LoadingSpinner.jsx` have only markup. LoginPage and
  RegisterPage are not part of this model.
- BlogCard's prop: `src/pages/HomePage.jsx:66` passes `post` while
  `src/components/BlogCard.jsx:4` reads `blog`. The excerpt and tags are
  therefore functions of the content and categories alone.
- Typed page records: pages receive `response.data` and `currentUser` as typed
  records. A reply missing a field the page reads, such as `user.id`, is not
  modelled.
- String lengths: JavaScript lengths of strings count UTF-16 code units, but
  the model counts characters. The 5-, 10- and 150-character thresholds
  therefore differ for text outside the Basic Multilingual Plane.
- Headers: the axios defaults beyond `Content-Type` are not modelled.
- Logging: `console.error` calls are not modelled.
- JavaScript numbers: ids, page numbers and status codes are doubles in
  JavaScript, and the model treats them as unbounded integers. Precision loss
  beyond 2^53 is not modelled. Neither is the exponent form that `String(n)`
  uses from 1e21 on: `JsText.IntToString` always writes plain decimal
  digits.

## Findings

| source | as written | input that shows it | evidently intended | confidence | as-written member | corrected member |
|---|---|---|---|---|---|---|
| src/components/CommentSection.jsx:25-26 | loads with `api.get(...)`, which the default export of `src/services/api.js` lacks, and would discard the response anyway | any post: whatever the server holds, the section shows "Failed to load comments." and no comments | load through `api.comments.getForPost(postId)` and keep `response.data` as the list | high; not executed | CommentSection.Section.FetchCommentsAsWritten | CommentSection.Section.LoadComments |
| src/components/CommentSection.jsx:44-49 | posts with `api.post(...)`, which throws a TypeError before sending | any non-blank draft, with a server that would accept it: the list is unchanged and "Failed to post comment." is shown | post through `api.comments.create` and put the created comment first | high; not executed | CommentSection.Section.SubmitCommentAsWritten | CommentSection.Section.SubmitComment |
| src/components/CommentSection.jsx:69-73 | updates with `api.put(...)`, which throws a TypeError before sending | any non-blank edit: the list is unchanged and "Failed to update comment." is shown | update through `api.comments.update` and replace the edited comment | high; not executed | CommentSection.Section.UpdateCommentAsWritten | CommentSection.Section.UpdateComment |
| src/components/CommentSection.jsx:87-89 | deletes with `api.delete(...)`, which throws a TypeError before sending | any confirmed delete: the comment stays and "Failed to delete comment." is shown | delete through `api.comments.delete` and drop the comment | high; not executed | CommentSection.Section.DeleteCommentAsWritten | CommentSection.Section.DeleteComment |

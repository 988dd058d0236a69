/** src/pages/EditBlogPage.jsx: loading a post for editing (only for a
    signed-in user, and only the author's own post), the submit flow that
    updates it, and what the page shows. The form rules are the same as on
    the create page and are taken from there. */
module EditBlogPage {
  import opened Wrappers
  import opened Json
  import opened Entities
  import Api
  import ApiEndpoints
  import CreateBlogPage

  const NotAuthorized := "You are not authorized to edit this post."
  const PostNotFound := "Post not found."
  const LoadFailed := "Failed to load post. Please try again."
  const UpdateFailed := "Failed to update post. Please try again."

  /** What the page renders */
  datatype View = Spinner | Unavailable | Form

  /** `posts.update(id, { title, content })` */
  function UpdateCall(id: string, title: string, content: string): Api.Call {
    ApiEndpoints.ToCall(ApiEndpoints.PostsUpdate(id, CreateBlogPage.PostData(title, content)))
  }

  class EditPage {
    /** the `:id` of the route, as text */
    const id: string
    var title: string
    var content: string
    var errors: Json
    var loading: bool
    var submitting: bool
    var post: Option<Post>
    var navigations: seq<Navigation>
    var calls: seq<Api.Call>

    constructor (id: string)
      ensures this.id == id && title == "" && content == "" && errors == JObj(map[])
      ensures loading && !submitting && post == None && navigations == [] && calls == []
    {
      this.id := id;
      title, content := "", "";
      errors := JObj(map[]);
      loading, submitting := true, false;
      post := None;
      navigations, calls := [], [];
    }

    /** The redirect of a visitor for whom `isAuthenticated()` is `authenticated`,
        that is `AuthService.IsAuthenticated` of the stored tokens */
    method RedirectIfSignedOut(authenticated: bool)
      modifies this`navigations
      ensures navigations == old(navigations) +
        if authenticated then [] else [CreateBlogPage.SignInRedirect("/edit/" + id, "You must be logged in to edit a post.")]
    {
      if !authenticated {
        navigations := navigations + [CreateBlogPage.SignInRedirect("/edit/" + id, "You must be logged in to edit a post.")];
      }
    }

    /** The fetch effect for the signed-in `currentUser`, where `answer` is
        how `posts.get(id)` settles. Nothing happens without a user, so the
        page then stays on its spinner. */
    method FetchPost(currentUser: Option<User>, answer: Settled<Post>)
      modifies this`loading, this`post, this`title, this`content, this`errors, this`navigations, this`calls
      ensures currentUser.None? ==>
        && loading == old(loading) && post == old(post) && title == old(title) && content == old(content)
        && errors == old(errors) && navigations == old(navigations) && calls == old(calls)
      ensures currentUser.Some? ==>
        && calls == old(calls) + [ApiEndpoints.ToCall(ApiEndpoints.PostsGet(id))]
        && !loading
        && match answer
           case Done(p) =>
             && post == Some(p) && errors == old(errors)
             && if p.user.id != currentUser.value.id then
                  && navigations == old(navigations) + [Navigation("/blog/" + id, map["error" := NotAuthorized])]
                  && title == old(title) && content == old(content)
                else
                  navigations == old(navigations) && title == p.title && content == p.content
           case Failed(response) =>
             && post == old(post) && title == old(title) && content == old(content)
             && if FailedWith(answer, 404) then
                  navigations == old(navigations) + [Navigation("/", map["error" := PostNotFound])] && errors == old(errors)
                else
                  navigations == old(navigations) && errors == StringObject(map["general" := LoadFailed])
    {
      if currentUser.Some? {
        loading := true;
        calls := calls + [ApiEndpoints.ToCall(ApiEndpoints.PostsGet(id))];
        match answer {
          case Done(p) =>
            post := Some(p);
            if p.user.id != currentUser.value.id {
              navigations := navigations + [Navigation("/blog/" + id, map["error" := NotAuthorized])];
            } else {
              title := p.title;
              content := p.content;
            }
          case Failed(response) =>
            if response.Some? && response.value.status == 404 {
              navigations := navigations + [Navigation("/", map["error" := PostNotFound])];
            } else {
              errors := StringObject(map["general" := LoadFailed]);
            }
        }
        loading := false;
      }
    }

    /** `validateForm` on this page: the create page's rules */
    method Validate() returns (valid: bool)
      modifies this`errors
      ensures errors == StringObject(CreateBlogPage.ValidateForm(title, content))
      ensures valid <==> CreateBlogPage.ValidateForm(title, content) == map[]
    {
      var problems := CreateBlogPage.ValidateForm(title, content);
      errors := StringObject(problems);
      valid := problems == map[];
    }

    /** `handleSubmit`, where `answer` is how `posts.update` settles */
    method HandleSubmit(answer: Settled<Json>)
      modifies this`errors, this`submitting, this`navigations, this`calls
      ensures var problems := CreateBlogPage.ValidateForm(title, content);
        if problems != map[] then
          && errors == StringObject(problems) && submitting == old(submitting)
          && calls == old(calls) && navigations == old(navigations)
        else
          && calls == old(calls) + [UpdateCall(id, title, content)]
          && !submitting
          && match answer
             case Done(_) =>
               errors == StringObject(problems) && navigations == old(navigations) + [Navigation("/blog/" + id, map[])]
             case Failed(response) =>
               errors == SubmitErrors(response, UpdateFailed) && navigations == old(navigations)
    {
      var valid := Validate();
      if valid {
        submitting := true;
        calls := calls + [UpdateCall(id, title, content)];
        match answer {
          case Done(_) =>
            navigations := navigations + [Navigation("/blog/" + id, map[])];
          case Failed(response) =>
            errors := SubmitErrors(response, UpdateFailed);
        }
        submitting := false;
      }
    }

    /** The spinner while loading, then the error card when there is no
        post, then the form */
    function Render(): (v: View)
      reads this
      ensures v == Spinner <==> loading
      ensures v == Form <==> !loading && post.Some?
    {
      if loading then Spinner
      else if post.None? then Unavailable
      else Form
    }
  }
}

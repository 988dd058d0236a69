/** src/pages/CreateBlogPage.jsx: the title/content validator, the submit
    flow that creates a post, and the redirect of a signed-out visitor. */
module CreateBlogPage {
  import opened Wrappers
  import opened Json
  import opened JsText
  import opened Entities
  import Api
  import ApiEndpoints

  const TitleRequired := "Title is required"
  const TitleTooShort := "Title must be at least 5 characters"
  const ContentRequired := "Content is required"
  const ContentTooShort := "Content must be at least 10 characters"
  const CreateFailed := "Failed to create post. Please try again."

  /** The title is present (not blank) and at least 5 characters long, the
      content present and at least 10 long; lengths count the untrimmed text */
  predicate IsValid(title: string, content: string) {
    !IsBlank(title) && |title| >= 5 && !IsBlank(content) && |content| >= 10
  }

  /** The message for the title, if it fails; a blank title is reported as
      missing whatever its length */
  function TitleError(title: string): Option<string> {
    if Trim(title) == [] then Some(TitleRequired)
    else if |title| < 5 then Some(TitleTooShort)
    else None
  }

  function ContentError(content: string): Option<string> {
    if Trim(content) == [] then Some(ContentRequired)
    else if |content| < 10 then Some(ContentTooShort)
    else None
  }

  /** The map with `key := message` added when there is a message */
  function Note(errors: map<string, string>, key: string, message: Option<string>): map<string, string> {
    if message.Some? then errors[key := message.value] else errors
  }

  /** `validateForm`: the title's entry, then the content's, added in turn */
  function ValidateForm(title: string, content: string): map<string, string> {
    Note(Note(map[], "title", TitleError(title)), "content", ContentError(content))
  }

  /** The two rules are independent, no other key is produced, each message
      is the one its rule gives, and the form passes exactly when both hold */
  lemma ValidateFormRules(title: string, content: string)
    ensures var errors := ValidateForm(title, content);
      && errors.Keys <= {"title", "content"}
      && ("title" in errors <==> IsBlank(title) || |title| < 5)
      && ("title" in errors ==> errors["title"] == if IsBlank(title) then TitleRequired else TitleTooShort)
      && ("content" in errors <==> IsBlank(content) || |content| < 10)
      && ("content" in errors ==> errors["content"] == if IsBlank(content) then ContentRequired else ContentTooShort)
      && (errors == map[] <==> IsValid(title, content))
  {
    TrimSpec(title);
    TrimSpec(content);
    var errors := ValidateForm(title, content);
    if IsValid(title, content) {
      assert TitleError(title).None? && ContentError(content).None?;
    } else {
      assert "title" in errors || "content" in errors;
    }
  }

  /** The body sent: `{ title, content }` */
  function PostData(title: string, content: string): Json {
    JObj(map["title" := JStr(title), "content" := JStr(content)])
  }

  /** `posts.create({ title, content })` */
  function CreateCall(title: string, content: string): Api.Call {
    ApiEndpoints.ToCall(ApiEndpoints.PostsCreate(PostData(title, content)))
  }

  /** The page a created post is shown on */
  function PostPath(id: int): string {
    "/blog/" + IntToString(id)
  }

  /** The navigation to the sign-in page a signed-out visitor gets */
  function SignInRedirect(from: string, message: string): Navigation {
    Navigation(Api.LoginPage, map["from" := from, "message" := message])
  }

  class CreatePage {
    var title: string
    var content: string
    var errors: Json
    var submitting: bool
    /** the `navigate` calls made, in order */
    var navigations: seq<Navigation>
    /** the API calls issued, in order */
    var calls: seq<Api.Call>

    constructor ()
      ensures title == "" && content == "" && errors == JObj(map[]) && !submitting
      ensures navigations == [] && calls == []
    {
      title, content := "", "";
      errors := JObj(map[]);
      submitting := false;
      navigations, calls := [], [];
    }

    /** The effect on a visitor for whom `isAuthenticated()` is `authenticated`,
        that is `AuthService.IsAuthenticated` of the stored tokens */
    method RedirectIfSignedOut(authenticated: bool)
      modifies this`navigations
      ensures navigations == old(navigations) +
        if authenticated then [] else [SignInRedirect("/create", "You must be logged in to create a post.")]
    {
      if !authenticated {
        navigations := navigations + [SignInRedirect("/create", "You must be logged in to create a post.")];
      }
    }

    /** `validateForm` as the page runs it: shows the messages and says
        whether there were none */
    method Validate() returns (valid: bool)
      modifies this`errors
      ensures errors == StringObject(ValidateForm(title, content))
      ensures valid <==> ValidateForm(title, content) == map[]
    {
      var problems := ValidateForm(title, content);
      errors := StringObject(problems);
      valid := problems == map[];
    }

    /** `handleSubmit`, where `answer` is how `posts.create` settles */
    method HandleSubmit(answer: Settled<Post>)
      modifies this`errors, this`submitting, this`navigations, this`calls
      ensures var problems := ValidateForm(old(title), old(content));
        if problems != map[] then
          && errors == StringObject(problems) && submitting == old(submitting)
          && calls == old(calls) && navigations == old(navigations)
        else
          && calls == old(calls) + [CreateCall(title, content)]
          && !submitting
          && match answer
             case Done(post) =>
               errors == StringObject(problems) && navigations == old(navigations) + [Navigation(PostPath(post.id), map[])]
             case Failed(response) =>
               errors == SubmitErrors(response, CreateFailed) && navigations == old(navigations)
    {
      var valid := Validate();
      if valid {
        submitting := true;
        calls := calls + [CreateCall(title, content)];
        match answer {
          case Done(post) =>
            navigations := navigations + [Navigation(PostPath(post.id), map[])];
          case Failed(response) =>
            errors := SubmitErrors(response, CreateFailed);
        }
        submitting := false;
      }
    }
  }
}

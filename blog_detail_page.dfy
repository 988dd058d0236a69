/** src/pages/BlogDetailPage.jsx: one post, its content broken into
    paragraphs, what the page shows while and after loading, the author's
    controls, and the delete flow. */
module BlogDetailPage {
  import opened Wrappers
  import opened Json
  import opened JsText
  import opened Entities
  import Api
  import ApiEndpoints

  const PostNotFound := "Post not found."
  const LoadFailed := "Failed to load post. Please try again later."
  const DeleteFailed := "Failed to delete post. Please try again."

  /** What one piece of the content renders as */
  datatype Block = Paragraph(text: string) | LineBreak

  /** A piece with something other than white space is a paragraph of the
      whole piece, untrimmed; any other piece is a line break */
  function BlockOf(segment: string): Block {
    if Trim(segment) != "" then Paragraph(segment) else LineBreak
  }

  function BlocksOf(segments: seq<string>): (blocks: seq<Block>)
    ensures |blocks| == |segments|
    ensures forall i :: 0 <= i < |segments| ==> blocks[i] == BlockOf(segments[i])
  {
    if segments == [] then [] else [BlockOf(segments[0])] + BlocksOf(segments[1..])
  }

  /** `post.content.split('\n').map(…)` */
  function Paragraphs(content: string): seq<Block> {
    BlocksOf(Split(content, '\n'))
  }

  /** One block per line: a line with text is a paragraph holding it as
      written, and a blank line is a break; joining the lines back gives the
      content */
  lemma ParagraphsPerLine(content: string)
    ensures var lines := Split(content, '\n');
      var blocks := Paragraphs(content);
      && |blocks| == Count(content, '\n') + 1
      && Join(lines, '\n') == content
      && forall i :: 0 <= i < |blocks| ==>
           (blocks[i].Paragraph? <==> !IsBlank(lines[i]))
           && (blocks[i].Paragraph? ==> blocks[i].text == lines[i])
  {
    var lines := Split(content, '\n');
    JoinSplit(content, '\n');
    forall i | 0 <= i < |lines| ensures Trim(lines[i]) != "" <==> !IsBlank(lines[i]) {
      TrimSpec(lines[i]);
    }
  }

  /** The error a failed fetch shows: only a 404 is "not found" */
  function FetchErrorMessage<T>(answer: Settled<T>): (message: string)
    requires answer.Failed?
    ensures message == PostNotFound <==> FailedWith(answer, 404)
    ensures !FailedWith(answer, 404) ==> message == LoadFailed
  {
    if FailedWith(answer, 404) then PostNotFound else LoadFailed
  }

  /** The Edit and Delete controls: only for the post's author */
  predicate ShowsAuthorControls(currentUser: Option<User>, post: Post): (shown: bool)
    ensures shown ==> currentUser.Some?
    ensures currentUser.Some? && currentUser.value.id == post.user.id ==> shown
    ensures currentUser.Some? && currentUser.value.id != post.user.id ==> !shown
  {
    currentUser.Some? && currentUser.value.id == post.user.id
  }

  /** What the page renders */
  datatype View = Spinner | ErrorCard(message: string) | Nothing | Article(post: Post, controls: bool)

  /** Loading first, then an error, then nothing without a post, then the
      article */
  function Render(loading: bool, error: Option<string>, post: Option<Post>, currentUser: Option<User>): (v: View)
    ensures loading <==> v == Spinner
    ensures v.ErrorCard? <==> !loading && error.Some? && error.value != ""
    ensures v.ErrorCard? ==> v.message == error.value
    ensures v.Article? <==> !loading && (error.None? || error.value == "") && post.Some?
    ensures v.Article? ==> v.post == post.value && (v.controls <==> ShowsAuthorControls(currentUser, post.value))
  {
    if loading then Spinner
    else if error.Some? && error.value != "" then ErrorCard(error.value)
    else if post.None? then Nothing
    else Article(post.value, ShowsAuthorControls(currentUser, post.value))
  }

  class DetailPage {
    /** the `:id` of the route, as text */
    const id: string
    var post: Option<Post>
    var loading: bool
    var error: Option<string>
    var navigations: seq<Navigation>
    var calls: seq<Api.Call>

    constructor (id: string)
      ensures this.id == id && post == None && loading && error == None && navigations == [] && calls == []
    {
      this.id := id;
      post, loading, error := None, true, None;
      navigations, calls := [], [];
    }

    /** The fetch effect, where `answer` is how `posts.get(id)` settles */
    method FetchPost(answer: Settled<Post>)
      modifies this`post, this`loading, this`error, this`calls
      ensures !loading
      ensures calls == old(calls) + [ApiEndpoints.ToCall(ApiEndpoints.PostsGet(id))]
      ensures answer.Done? ==> post == Some(answer.value) && error == None
      ensures answer.Failed? ==> post == old(post) && error == Some(FetchErrorMessage(answer))
    {
      loading := true;
      calls := calls + [ApiEndpoints.ToCall(ApiEndpoints.PostsGet(id))];
      match answer {
        case Done(p) =>
          post := Some(p);
          error := None;
        case Failed(response) =>
          error := Some(if response.Some? && response.value.status == 404 then PostNotFound else LoadFailed);
      }
      loading := false;
    }

    /** `handleDeletePost`, `confirmed` being the answer to the dialog and
        `answer` how `posts.delete(id)` settles */
    method DeletePost(confirmed: bool, answer: Settled<Json>)
      modifies this`error, this`navigations, this`calls
      ensures !confirmed ==> error == old(error) && navigations == old(navigations) && calls == old(calls)
      ensures confirmed ==>
        && calls == old(calls) + [ApiEndpoints.ToCall(ApiEndpoints.PostsDelete(id))]
        && (answer.Done? ==> navigations == old(navigations) + [Navigation("/", map[])] && error == old(error))
        && (answer.Failed? ==> navigations == old(navigations) && error == Some(DeleteFailed))
    {
      if confirmed {
        calls := calls + [ApiEndpoints.ToCall(ApiEndpoints.PostsDelete(id))];
        match answer {
          case Done(_) => navigations := navigations + [Navigation("/", map[])];
          case Failed(_) => error := Some(DeleteFailed);
        }
      }
    }
  }
}

/** src/components/CommentSection.jsx: the comment list of one post, the
    draft of a new comment, the comment being edited, and the handlers that
    load, add, update and delete comments.

    As written, the component calls `api.get`, `api.post`, `api.put` and
    `api.delete`, which the default export of src/services/api.js does not
    have, so each of those calls throws a TypeError before anything is sent.
    The `…AsWritten` methods model that; the other handlers are the component
    routed through `api.comments.*`, as evidently intended, and the load
    handler keeps the list it is sent instead of discarding it. */
module CommentSection {
  import opened Wrappers
  import opened Json
  import opened JsText
  import opened Entities
  import Api
  import ApiEndpoints

  const LoadFailed := "Failed to load comments."
  const PostFailed := "Failed to post comment."
  const UpdateFailed := "Failed to update comment."
  const DeleteFailed := "Failed to delete comment."

  /** How `api.<path>(…)` settles when the server would settle it as
      `served`: calling a member the export does not have throws a TypeError,
      which carries no response */
  function Invoke<T>(path: seq<string>, served: Settled<T>): Settled<T> {
    if ApiEndpoints.IsExportedFunction(path) then served else Failed(None)
  }

  /** The component's own calls all throw; the `comments` entries exist */
  lemma TopLevelCallsThrow<T>(served: Settled<T>)
    ensures Invoke(["get"], served) == Failed(None)
    ensures Invoke(["post"], served) == Failed(None)
    ensures Invoke(["put"], served) == Failed(None)
    ensures Invoke(["delete"], served) == Failed(None)
    ensures Invoke(["comments", "getForPost"], served) == served
    ensures Invoke(["comments", "create"], served) == served
    ensures Invoke(["comments", "update"], served) == served
    ensures Invoke(["comments", "delete"], served) == served
  {
  }

  // ---------------------------------------------------------------------
  // The list operations

  /** `comments.map(c => c.id === key ? updated : c)`; a null key matches
      nothing */
  function ReplaceWhere(comments: seq<Comment>, key: Option<int>, updated: Comment): seq<Comment> {
    if comments == [] then []
    else [if key == Some(comments[0].id) then updated else comments[0]] + ReplaceWhere(comments[1..], key, updated)
  }

  /** `comments.filter(c => c.id !== id)` */
  function RemoveById(comments: seq<Comment>, id: int): seq<Comment> {
    if comments == [] then []
    else (if comments[0].id != id then [comments[0]] else []) + RemoveById(comments[1..], id)
  }

  /** Replacing keeps length and order: exactly the elements whose id is the
      key become `updated`, the others stay as they were */
  lemma {:induction false} ReplaceWhereSpec(comments: seq<Comment>, key: Option<int>, updated: Comment)
    ensures var r := ReplaceWhere(comments, key, updated);
      && |r| == |comments|
      && forall i :: 0 <= i < |comments| ==> r[i] == if key == Some(comments[i].id) then updated else comments[i]
  {
    if comments != [] {
      ReplaceWhereSpec(comments[1..], key, updated);
    }
  }

  /** Removing keeps exactly the comments with another id */
  lemma {:induction false} RemoveByIdSpec(comments: seq<Comment>, id: int)
    ensures var r := RemoveById(comments, id);
      && |r| <= |comments|
      && forall c :: c in r <==> c in comments && c.id != id
  {
    if comments != [] {
      RemoveByIdSpec(comments[1..], id);
      assert comments == [comments[0]] + comments[1..];
    }
  }

  /** Removing works piece by piece, so the kept comments stay in order */
  lemma {:induction false} RemoveByIdAppend(a: seq<Comment>, b: seq<Comment>, id: int)
    ensures RemoveById(a + b, id) == RemoveById(a, id) + RemoveById(b, id)
  {
    if a == [] {
      assert a + b == b;
    } else {
      assert (a + b)[1..] == a[1..] + b;
      RemoveByIdAppend(a[1..], b, id);
    }
  }

  /** Removing an id no comment has changes nothing */
  lemma {:induction false} RemoveAbsentId(comments: seq<Comment>, id: int)
    requires forall c :: c in comments ==> c.id != id
    ensures RemoveById(comments, id) == comments
  {
    if comments != [] {
      assert comments[0] in comments;
      RemoveAbsentId(comments[1..], id);
      assert comments == [comments[0]] + comments[1..];
    }
  }

  /** The Edit and Delete buttons of a comment: shown to its author, unless
      that comment is the one being edited */
  predicate ShowsOwnerControls(currentUser: Option<User>, comment: Comment, editingComment: Option<int>): (shown: bool)
    ensures shown ==> currentUser.Some?
    ensures currentUser.Some? && currentUser.value.id != comment.user.id ==> !shown
    ensures editingComment == Some(comment.id) ==> !shown
    ensures currentUser.Some? && currentUser.value.id == comment.user.id && editingComment != Some(comment.id) ==> shown
  {
    currentUser.Some? && currentUser.value.id == comment.user.id && editingComment != Some(comment.id)
  }

  /** What one comment shows: the edit form holding the draft, or its text;
      and whether its Edit and Delete buttons are there */
  datatype CommentView = CommentView(editing: bool, text: string, controls: bool)

  /** One entry of the comment list */
  function RenderComment(currentUser: Option<User>, comment: Comment, editingComment: Option<int>,
                         editContent: string): (v: CommentView)
    ensures v.editing <==> editingComment == Some(comment.id)
    ensures v.text == if v.editing then editContent else comment.content
    ensures v.controls <==> ShowsOwnerControls(currentUser, comment, editingComment)
    ensures v.editing ==> !v.controls
  {
    var editing := editingComment == Some(comment.id);
    CommentView(editing, if editing then editContent else comment.content,
                ShowsOwnerControls(currentUser, comment, editingComment))
  }

  /** Starting an edit on a comment swaps its text for the form with the
      text as the draft and hides its buttons; cancelling brings back the
      text, and the buttons for its author only */
  lemma EditSwapsControlsForForm(currentUser: Option<User>, comment: Comment)
    ensures RenderComment(currentUser, comment, Some(comment.id), comment.content)
            == CommentView(true, comment.content, false)
    ensures RenderComment(currentUser, comment, None, "")
            == CommentView(false, comment.content, currentUser.Some? && currentUser.value.id == comment.user.id)
  {
  }

  /** `${editingComment}` in the update path: a null key reads "null" */
  function KeyText(key: Option<int>): string {
    if key.Some? then IntToString(key.value) else "null"
  }

  class Section {
    const postId: string
    var comments: seq<Comment>
    var newComment: string
    var loading: bool
    var error: Option<string>
    var editingComment: Option<int>
    var editContent: string
    /** the API calls issued, in order */
    var calls: seq<Api.Call>

    constructor (postId: string)
      ensures this.postId == postId && comments == [] && newComment == "" && loading && error == None
      ensures editingComment == None && editContent == "" && calls == []
    {
      this.postId := postId;
      comments, newComment := [], "";
      loading, error := true, None;
      editingComment, editContent := None, "";
      calls := [];
    }

    // -------------------------------------------------------------------
    // Loading

    /** `fetchComments` as written: the call throws, and its answer would
        be discarded anyway; the list is never loaded */
    method FetchCommentsAsWritten(served: Settled<seq<Comment>>)
      modifies this`loading, this`error
      ensures !loading && error == Some(LoadFailed)
    {
      loading := true;
      TopLevelCallsThrow(served);
      var answer := Invoke(["get"], served);
      // a settled answer only clears the error; its data is not kept
      error := if answer.Done? then None else Some(LoadFailed);
      loading := false;
    }

    /** The load, through `comments.getForPost`, keeping the fetched list */
    method LoadComments(answer: Settled<seq<Comment>>)
      modifies this`loading, this`error, this`comments, this`calls
      ensures !loading
      ensures calls == old(calls) + [ApiEndpoints.ToCall(ApiEndpoints.CommentsGetForPost(postId))]
      ensures answer.Done? ==> comments == answer.value && error == None
      ensures answer.Failed? ==> comments == old(comments) && error == Some(LoadFailed)
    {
      loading := true;
      calls := calls + [ApiEndpoints.ToCall(ApiEndpoints.CommentsGetForPost(postId))];
      match answer {
        case Done(list) =>
          comments := list;
          error := None;
        case Failed(_) =>
          error := Some(LoadFailed);
      }
      loading := false;
    }

    // -------------------------------------------------------------------
    // A new comment

    /** What settling the create call does to the list and the draft */
    method Created(answer: Settled<Comment>)
      modifies this`comments, this`newComment, this`error
      ensures answer.Done? ==>
        comments == [answer.value] + old(comments) && newComment == "" && error == old(error)
      ensures answer.Failed? ==>
        comments == old(comments) && newComment == old(newComment) && error == Some(PostFailed)
    {
      match answer {
        case Done(created) =>
          comments := [created] + comments;
          newComment := "";
        case Failed(_) =>
          error := Some(PostFailed);
      }
    }

    /** `handleSubmitComment` as written: a draft that is not blank fails,
        whatever the server would answer, and the list is left as it was */
    method SubmitCommentAsWritten(served: Settled<Comment>)
      modifies this`comments, this`newComment, this`error
      ensures comments == old(comments) && newComment == old(newComment)
      ensures error == if Trim(newComment) == [] then old(error) else Some(PostFailed)
    {
      if Trim(newComment) == [] {
        return;
      }
      TopLevelCallsThrow(served);
      Created(Invoke(["post"], served));
    }

    /** The submit, through `comments.create`: a blank draft sends nothing;
        otherwise the created comment is put first */
    method SubmitComment(answer: Settled<Comment>)
      modifies this`comments, this`newComment, this`error, this`calls
      ensures Trim(old(newComment)) == [] ==>
        comments == old(comments) && newComment == old(newComment) && error == old(error) && calls == old(calls)
      ensures Trim(old(newComment)) != [] ==>
        && calls == old(calls) + [ApiEndpoints.ToCall(ApiEndpoints.CommentsCreate(
             JObj(map["post" := JStr(postId), "content" := JStr(old(newComment))])))]
        && (answer.Done? ==> comments == [answer.value] + old(comments) && newComment == "" && error == old(error))
        && (answer.Failed? ==> comments == old(comments) && newComment == old(newComment) && error == Some(PostFailed))
    {
      if Trim(newComment) == [] {
        return;
      }
      calls := calls + [ApiEndpoints.ToCall(ApiEndpoints.CommentsCreate(
        JObj(map["post" := JStr(postId), "content" := JStr(newComment)])))];
      Created(answer);
    }

    // -------------------------------------------------------------------
    // Editing

    /** `handleEditComment` */
    method EditComment(comment: Comment)
      modifies this`editingComment, this`editContent
      ensures editingComment == Some(comment.id) && editContent == comment.content
    {
      editingComment := Some(comment.id);
      editContent := comment.content;
    }

    /** `cancelEdit` */
    method CancelEdit()
      modifies this`editingComment, this`editContent
      ensures editingComment == None && editContent == ""
    {
      editingComment := None;
      editContent := "";
    }

    /** What settling the update call does */
    method Updated(answer: Settled<Comment>)
      modifies this`comments, this`editingComment, this`editContent, this`error
      ensures answer.Done? ==>
        && comments == ReplaceWhere(old(comments), old(editingComment), answer.value)
        && editingComment == None && editContent == "" && error == old(error)
      ensures answer.Failed? ==>
        && comments == old(comments) && editingComment == old(editingComment)
        && editContent == old(editContent) && error == Some(UpdateFailed)
    {
      match answer {
        case Done(updated) =>
          comments := ReplaceWhere(comments, editingComment, updated);
          editingComment := None;
          editContent := "";
        case Failed(_) =>
          error := Some(UpdateFailed);
      }
    }

    /** `handleUpdateComment` as written: fails whatever the server would
        answer; the list and the edit stay as they were */
    method UpdateCommentAsWritten(served: Settled<Comment>)
      modifies this`comments, this`editingComment, this`editContent, this`error
      ensures comments == old(comments) && editingComment == old(editingComment) && editContent == old(editContent)
      ensures error == if Trim(editContent) == [] then old(error) else Some(UpdateFailed)
    {
      if Trim(editContent) == [] {
        return;
      }
      TopLevelCallsThrow(served);
      Updated(Invoke(["put"], served));
    }

    /** The update, through `comments.update`: a blank edit sends nothing;
        otherwise the edited comment is replaced and the edit closed */
    method UpdateComment(answer: Settled<Comment>)
      modifies this`comments, this`editingComment, this`editContent, this`error, this`calls
      ensures Trim(old(editContent)) == [] ==>
        && comments == old(comments) && editingComment == old(editingComment)
        && editContent == old(editContent) && error == old(error) && calls == old(calls)
      ensures Trim(old(editContent)) != [] ==>
        && calls == old(calls) + [ApiEndpoints.ToCall(ApiEndpoints.CommentsUpdate(
             KeyText(old(editingComment)), JObj(map["content" := JStr(old(editContent))])))]
        && (answer.Done? ==>
              && comments == ReplaceWhere(old(comments), old(editingComment), answer.value)
              && editingComment == None && editContent == "" && error == old(error))
        && (answer.Failed? ==>
              && comments == old(comments) && editingComment == old(editingComment)
              && editContent == old(editContent) && error == Some(UpdateFailed))
    {
      if Trim(editContent) == [] {
        return;
      }
      calls := calls + [ApiEndpoints.ToCall(ApiEndpoints.CommentsUpdate(
        KeyText(editingComment), JObj(map["content" := JStr(editContent)])))];
      Updated(answer);
    }

    // -------------------------------------------------------------------
    // Deleting

    /** What settling the delete call does */
    method Deleted(commentId: int, answer: Settled<Json>)
      modifies this`comments, this`error
      ensures answer.Done? ==> comments == RemoveById(old(comments), commentId) && error == old(error)
      ensures answer.Failed? ==> comments == old(comments) && error == Some(DeleteFailed)
    {
      match answer {
        case Done(_) => comments := RemoveById(comments, commentId);
        case Failed(_) => error := Some(DeleteFailed);
      }
    }

    /** `handleDeleteComment` as written, `confirmed` being the answer to
        the confirmation dialog: a confirmed delete fails whatever the
        server would answer */
    method DeleteCommentAsWritten(commentId: int, confirmed: bool, served: Settled<Json>)
      modifies this`comments, this`error
      ensures comments == old(comments)
      ensures error == if confirmed then Some(DeleteFailed) else old(error)
    {
      if !confirmed {
        return;
      }
      TopLevelCallsThrow(served);
      Deleted(commentId, Invoke(["delete"], served));
    }

    /** The delete, through `comments.delete`: nothing is sent without
        confirmation; a deleted comment leaves the list */
    method DeleteComment(commentId: int, confirmed: bool, answer: Settled<Json>)
      modifies this`comments, this`error, this`calls
      ensures !confirmed ==> comments == old(comments) && error == old(error) && calls == old(calls)
      ensures confirmed ==>
        && calls == old(calls) + [ApiEndpoints.ToCall(ApiEndpoints.CommentsDelete(IntToString(commentId)))]
        && (answer.Done? ==> comments == RemoveById(old(comments), commentId) && error == old(error))
        && (answer.Failed? ==> comments == old(comments) && error == Some(DeleteFailed))
    {
      if !confirmed {
        return;
      }
      calls := calls + [ApiEndpoints.ToCall(ApiEndpoints.CommentsDelete(IntToString(commentId)))];
      Deleted(commentId, answer);
    }
  }
}

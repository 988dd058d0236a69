/** src/pages/HomePage.jsx: the post list, paged. Each page fetched either
    replaces the list (page 1) or is appended to it, and `loadMorePosts`
    moves to the next page. */
module HomePage {
  import opened Wrappers
  import opened Json
  import opened Entities
  import Api
  import ApiEndpoints

  const LoadFailed := "Failed to load blog posts. Please try again later."

  /** The list after a non-empty page `page` with `results` arrives */
  function Merge(posts: seq<Post>, page: int, results: seq<Post>): seq<Post> {
    if page == 1 then results else posts + results
  }

  /** The posts of the given pages, in order */
  function Flatten(pages: seq<seq<Post>>): seq<Post> {
    if pages == [] then [] else pages[0] + Flatten(pages[1..])
  }

  /** The list after pages 1, 2, … |pages| arrive in turn, each handled as the
      fetch effect handles it: an empty page leaves the list alone */
  function Accumulate(pages: seq<seq<Post>>): seq<Post> {
    if pages == [] then []
    else
      var before := Accumulate(pages[..|pages| - 1]);
      var last := pages[|pages| - 1];
      if last == [] then before else Merge(before, |pages|, last)
  }

  lemma {:induction false} FlattenSnoc(pages: seq<seq<Post>>, last: seq<Post>)
    ensures Flatten(pages + [last]) == Flatten(pages) + last
  {
    if pages == [] {
      assert pages + [last] == [last];
      assert Flatten([last]) == last + Flatten([]);
    } else {
      assert (pages + [last])[1..] == pages[1..] + [last];
      FlattenSnoc(pages[1..], last);
    }
  }

  /** Loading the pages one after another shows all their posts, in page
      order, with none lost or repeated by the replace-or-append rule */
  lemma {:induction false} SuccessiveLoads(pages: seq<seq<Post>>)
    ensures Accumulate(pages) == Flatten(pages)
  {
    if pages != [] {
      var init := pages[..|pages| - 1];
      var last := pages[|pages| - 1];
      SuccessiveLoads(init);
      assert pages == init + [last];
      FlattenSnoc(init, last);
      if |pages| == 1 {
        assert init == [];
      }
    }
  }

  class Home {
    var posts: seq<Post>
    var loading: bool
    var error: Option<string>
    var currentPage: int
    var hasMore: bool
    /** the API calls issued, in order */
    var calls: seq<Api.Call>

    constructor ()
      ensures posts == [] && loading && error == None && currentPage == 1 && hasMore && calls == []
    {
      posts, loading, error := [], true, None;
      currentPage, hasMore := 1, true;
      calls := [];
    }

    /** The fetch effect for `currentPage`, where `answer` is how
        `posts.getAll(currentPage)` settles */
    method FetchPosts(answer: Settled<PostPage>)
      modifies this`posts, this`loading, this`error, this`hasMore, this`calls
      ensures !loading
      ensures calls == old(calls) + [ApiEndpoints.ToCall(ApiEndpoints.PostsGetAll(Some(currentPage)))]
      ensures answer.Failed? ==>
        posts == old(posts) && hasMore == old(hasMore) && error == Some(LoadFailed)
      ensures answer.Done? && answer.value.results == [] ==>
        posts == old(posts) && !hasMore && error == None
      ensures answer.Done? && answer.value.results != [] ==>
        && posts == Merge(old(posts), currentPage, answer.value.results)
        && (hasMore <==> Truthy(answer.value.next))
        && error == None
    {
      loading := true;
      calls := calls + [ApiEndpoints.ToCall(ApiEndpoints.PostsGetAll(Some(currentPage)))];
      match answer {
        case Done(page) =>
          if |page.results| == 0 {
            hasMore := false;
          } else {
            posts := if currentPage == 1 then page.results else posts + page.results;
            hasMore := Truthy(page.next);
          }
          error := None;
        case Failed(_) =>
          error := Some(LoadFailed);
      }
      loading := false;
    }

    /** `loadMorePosts`: the next page, unless a fetch is running or there
        is nothing more */
    method LoadMorePosts()
      modifies this`currentPage
      ensures currentPage == if !loading && hasMore then old(currentPage) + 1 else old(currentPage)
    {
      if !loading && hasMore {
        currentPage := currentPage + 1;
      }
    }
  }
}

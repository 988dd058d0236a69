/** The records the pages read out of `response.data`, how an awaited call
    settled, and the navigations a page asks for. */
module Entities {
  import opened Wrappers
  import opened Json
  import Api

  datatype User = User(id: int, username: string)
  datatype Category = Category(name: string)
  datatype Post = Post(id: int, title: string, content: string, user: User, categories: seq<Category>)
  datatype Comment = Comment(id: int, content: string, user: User)
  /** One page of `posts.getAll`: its results and its `next` link (null on
      the last page) */
  datatype PostPage = PostPage(results: seq<Post>, next: Json)

  /** How an awaited call settled: the data it resolved with, or a thrown
      error and the response it carries (None for an error that has no
      response, such as a TypeError) */
  datatype Settled<T> = Done(value: T) | Failed(response: Option<Api.Reply>)

  /** A `navigate(to, { state })` call */
  datatype Navigation = Navigation(to: string, state: map<string, string>)

  /** `err.response && err.response.status === code` */
  predicate FailedWith<T>(s: Settled<T>, code: int) {
    s.Failed? && s.response.Some? && s.response.value.status == code
  }

  /** The form errors a failed submit shows: `err.response.data` when the
      error carries truthy data, else `{ general: fallback }` */
  function SubmitErrors(response: Option<Api.Reply>, fallback: string): (errors: Json)
    ensures Truthy(errors)
    ensures response.Some? && Truthy(response.value.data) ==> errors == response.value.data
    ensures !(response.Some? && Truthy(response.value.data)) ==>
      errors.JObj? && errors.fields.Keys == {"general"} && errors.fields["general"] == JStr(fallback)
  {
    if response.Some? && Truthy(response.value.data) then response.value.data
    else StringObject(map["general" := fallback])
  }
}

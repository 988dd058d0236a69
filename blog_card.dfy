/** src/components/BlogCard.jsx: the card's excerpt of a post's content and
    its category tags. */
module BlogCard {
  import opened JsText
  import opened Entities

  const ExcerptLength := 150

  /** `content.slice(0, 150)` followed by `'...'` when something was cut */
  function Excerpt(content: string): (r: string)
    ensures |content| <= ExcerptLength ==> r == content
    ensures |content| > ExcerptLength ==> r == content[..ExcerptLength] + "..."
    ensures |r| <= ExcerptLength + 3
    ensures SliceTo(content, ExcerptLength) <= r
  {
    SliceTo(content, ExcerptLength) + (if |content| > ExcerptLength then "..." else "")
  }

  /** `categories.map(category => category.name)`: one tag per category */
  function Tags(categories: seq<Category>): (tags: seq<string>)
    ensures |tags| == |categories|
    ensures forall i :: 0 <= i < |categories| ==> tags[i] == categories[i].name
  {
    if categories == [] then [] else [categories[0].name] + Tags(categories[1..])
  }
}

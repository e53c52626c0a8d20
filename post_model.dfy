/**
 * The `Posts` model: a row of the `posts` table, its non-null columns, its
 * wire representation (`apiRepr`) and how a partial update applies to it.
 */
module PostModel {
  import opened Wrappers
  import opened Json

  /**
   * A row of the `posts` table. `createdAt` is the opaque stamp the store
   * assigns once at creation; `authorId` is the nullable `author_id` column.
   */
  datatype Post = Post(id: int, title: Value, content: Value, createdAt: int, authorId: Option<int>)

  /** `title` and `content` are declared `allowNull: false`; `author_id` carries no such constraint. */
  predicate PostColumnsSet(p: Post)
  {
    p.title != Null && p.content != Null
  }

  /** A nullable key column as JSON. */
  function KeyValue(k: Option<int>): Value
  {
    match k
    case None => Null
    case Some(n) => Num(n)
  }

  /** The fields a post's wire representation has. */
  const PostReprKeys: set<string> := {"id", "title", "createdAt", "content", "authorId"}

  /**
   * `apiRepr`: exactly the five fields, `created_at` shown as `createdAt` and
   * `author_id` as `authorId` (null when the post has no author); the row
   * reads back from it.
   */
  function PostRepr(p: Post): (r: Object)
    ensures r.Keys == PostReprKeys
    ensures r["authorId"] == (if p.authorId.None? then Null else Num(p.authorId.value))
    ensures ReadPost(r) == Some(p)
  {
    map["id" := Num(p.id), "title" := p.title, "createdAt" := Num(p.createdAt),
        "content" := p.content, "authorId" := KeyValue(p.authorId)]
  }

  /** Reads a wire object back, through the wire-facing names, into the row it describes. */
  function ReadPost(r: Object): Option<Post>
  {
    if r.Keys == PostReprKeys && r["id"].Num? && r["createdAt"].Num?
       && (r["authorId"].Null? || r["authorId"].Num?) then
      Some(Post(r["id"].n, r["title"], r["content"], r["createdAt"].n,
                if r["authorId"].Null? then None else Some(r["authorId"].n)))
    else
      None
  }

  /** Two rows with the same representation are the same row. */
  lemma PostReprInjective(p: Post, q: Post)
    requires PostRepr(p) == PostRepr(q)
    ensures p == q
  {
  }

  /** Each post's representation, in the order of `ps`, as `ps.map(p => p.apiRepr())`. */
  function PostReprs(ps: seq<Post>): (rs: seq<Object>)
    ensures |rs| == |ps|
    ensures forall i :: 0 <= i < |ps| ==> ReadPost(rs[i]) == Some(ps[i])
  {
    if ps == [] then [] else [PostRepr(ps[0])] + PostReprs(ps[1..])
  }

  /**
   * The store's `update(values)` applied to one post row for the columns
   * PUT /posts/:id can name: `title` and `content` take the given value when
   * named; the id, the creation stamp and the author never change.
   */
  function ApplyPostUpdate(p: Post, values: Object): (r: Post)
    ensures r.id == p.id && r.createdAt == p.createdAt && r.authorId == p.authorId
    ensures "title" in values ==> r.title == values["title"]
    ensures "title" !in values ==> r.title == p.title
    ensures "content" in values ==> r.content == values["content"]
    ensures "content" !in values ==> r.content == p.content
  {
    p.(title := if "title" in values then values["title"] else p.title,
       content := if "content" in values then values["content"] else p.content)
  }
}

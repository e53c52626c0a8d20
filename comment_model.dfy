/**
 * The `Comments` model: a row of the `comments` table, its non-null columns,
 * its wire representation (`apiRepr`) and how a partial update applies to it.
 */
module CommentModel {
  import opened Wrappers
  import opened Json

  /**
   * A row of the `comments` table. Both foreign keys are declared
   * `allowNull: false`, so they are plain integers here: a comment with a
   * null author or post cannot be written down.
   */
  datatype Comment = Comment(id: int, comment: Value, createdAt: int, authorId: int, postId: int)

  /** The `comment` text is declared `allowNull: false`. */
  predicate CommentColumnsSet(c: Comment)
  {
    c.comment != Null
  }

  /** The fields a comment's wire representation has. */
  const CommentReprKeys: set<string> := {"id", "comment", "createdAt", "authorId", "postId"}

  /** `apiRepr`: exactly the five fields, `created_at`, `author_id` and `post_id` shown in camelCase; the row reads back from it. */
  function CommentRepr(c: Comment): (r: Object)
    ensures r.Keys == CommentReprKeys
    ensures ReadComment(r) == Some(c)
  {
    map["id" := Num(c.id), "comment" := c.comment, "createdAt" := Num(c.createdAt),
        "authorId" := Num(c.authorId), "postId" := Num(c.postId)]
  }

  /** Reads a wire object back, through the wire-facing names, into the row it describes. */
  function ReadComment(r: Object): Option<Comment>
  {
    if r.Keys == CommentReprKeys && r["id"].Num? && r["createdAt"].Num?
       && r["authorId"].Num? && r["postId"].Num? then
      Some(Comment(r["id"].n, r["comment"], r["createdAt"].n, r["authorId"].n, r["postId"].n))
    else
      None
  }

  /** Two rows with the same representation are the same row. */
  lemma CommentReprInjective(c: Comment, d: Comment)
    requires CommentRepr(c) == CommentRepr(d)
    ensures c == d
  {
  }

  /** Each comment's representation, in the order of `cs`, as `cs.map(c => c.apiRepr())`. */
  function CommentReprs(cs: seq<Comment>): (rs: seq<Object>)
    ensures |rs| == |cs|
    ensures forall i :: 0 <= i < |cs| ==> ReadComment(rs[i]) == Some(cs[i])
  {
    if cs == [] then [] else [CommentRepr(cs[0])] + CommentReprs(cs[1..])
  }

  /**
   * The store's `update(values)` applied to one comment row for the column
   * PUT /comments/:id can name: only the text changes; the id, the creation
   * stamp and both references stay.
   */
  function ApplyCommentUpdate(c: Comment, values: Object): (r: Comment)
    ensures r.id == c.id && r.createdAt == c.createdAt
    ensures r.authorId == c.authorId && r.postId == c.postId
    ensures "comment" in values ==> r.comment == values["comment"]
    ensures "comment" !in values ==> r.comment == c.comment
  {
    c.(comment := if "comment" in values then values["comment"] else c.comment)
  }
}

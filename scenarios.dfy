/**
 * Request sequences run against a fresh store: the author-deletion walk
 * through all three routers, and the PUT handlers' write after a failed id
 * check next to the corrected handlers.
 */
module Scenarios {
  import opened Wrappers
  import opened Json
  import opened AuthorModel
  import opened PostModel
  import opened CommentModel
  import opened Database
  import opened RouteRules
  import AuthorRoutes
  import PostRoutes
  import CommentRoutes

  /** A fresh store holding author 1 (`jdoe`) and their post 1 (`T`/`C`), with no comments yet. */
  method SeedAuthorAndPost(now: int) returns (s: Store)
    ensures fresh(s) && s.Valid()
    ensures s.authors.Keys == {1}
    ensures s.posts == map[1 := Post(1, Str("T"), Str("C"), now, Some(1))]
    ensures s.comments == map[] && s.nextCommentId == 1
  {
    s := new Store();
    var _ := AuthorRoutes.Create(s, map["userName" := Str("jdoe")]);
    var _ := PostRoutes.Create(s, map["title" := Str("T"), "content" := Str("C"), "authorId" := Num(1)], now);
  }

  /** POST /comments by author 1 on post 1: one more comment row, under a fresh id. */
  method CommentOnFirstPost(s: Store, text: string, now: int) returns (id: int)
    requires s.Valid() && 1 in s.authors && 1 in s.posts && s.nextCommentId <= MaxKey
    modifies s
    ensures s.Valid()
    ensures id == old(s.nextCommentId) && s.nextCommentId == id + 1
    ensures id !in old(s.comments) && s.comments == old(s.comments)[id := Comment(id, Str(text), now, 1, 1)]
    ensures unchanged(s`authors, s`posts)
  {
    var body := map["comment" := Str(text), "postId" := Num(1), "authorId" := Num(1)];
    assert NullColumns(["comment", "author_id", "post_id"],
                       map["comment" := body["comment"], "author_id" := body["authorId"],
                           "post_id" := body["postId"]]) == [];
    assert ReadKey("author_id", Num(1)) == Ok(Some(1)) && ReadKey("post_id", Num(1)) == Ok(Some(1));
    id := s.nextCommentId;
    var _ := CommentRoutes.Create(s, body, now);
  }

  /** The seeded store after author 1 has left three comments on post 1. */
  method SeedThreeComments(now: int) returns (s: Store)
    ensures fresh(s) && s.Valid()
    ensures s.posts == map[1 := Post(1, Str("T"), Str("C"), now, Some(1))]
    ensures |s.comments| == 3
    ensures forall k :: k in s.comments ==> s.comments[k].authorId == 1
  {
    s := SeedAuthorAndPost(now);
    var c1 := CommentOnFirstPost(s, "first", now);
    var c2 := CommentOnFirstPost(s, "second", now);
    var c3 := CommentOnFirstPost(s, "third", now);
    assert s.comments.Keys == {c1, c2, c3};
    assert |{c1, c2, c3}| == 3;
  }

  /**
   * Author `jdoe` writes post `T`/`C` and three comments on it; deleting the
   * author then removes all three comments while the post stays, authorless.
   */
  method DeleteAuthorWithPostAndComments(now: int) returns (commentsBefore: nat, commentsAfter: nat, postAfter: Option<Post>)
    ensures commentsBefore == 3
    ensures commentsAfter == 0
    ensures postAfter == Some(Post(1, Str("T"), Str("C"), now, None))
  {
    var s := SeedThreeComments(now);
    commentsBefore := |s.comments|;
    s.DeleteAuthor(1);
    assert forall k :: k !in s.comments;
    assert s.comments.Keys == {};
    commentsAfter := |s.comments|;
    postAfter := if 1 in s.posts then Some(s.posts[1]) else None;
  }

  /** PUT /authors/1 with no body id is refused with 400, yet the new `userName` is written. */
  method MismatchedAuthorUpdateWrites() returns (res: Response, userName: Value)
    ensures res == IdMismatch("1")
    ensures userName == Str("mallory")
  {
    var s := new Store();
    var created := AuthorRoutes.Create(s, map["userName" := Str("jdoe")]);
    res := AuthorRoutes.Update(s, "1", map["userName" := Str("mallory")]);
    userName := s.authors[1].userName;
  }

  /** The same request against the corrected handler leaves the author as it was. */
  method MismatchedAuthorCheckedUpdateKeeps() returns (res: Response, userName: Value)
    ensures res == IdMismatch("1")
    ensures userName == Str("jdoe")
  {
    var s := new Store();
    var created := AuthorRoutes.Create(s, map["userName" := Str("jdoe")]);
    res := AuthorRoutes.CheckedUpdate(s, "1", map["userName" := Str("mallory")]);
    userName := s.authors[1].userName;
  }

  /** PUT /posts/1 whose body names post 2 is refused with 400, yet post 1's title is rewritten. */
  method MismatchedPostUpdateWrites(now: int) returns (res: Response, title: Value)
    ensures res == IdMismatch("1")
    ensures title == Str("U")
  {
    var s := new Store();
    var created := PostRoutes.Create(s, map["title" := Str("T"), "content" := Str("C"), "authorId" := Null], now);
    res := PostRoutes.Update(s, "1", map["id" := Num(2), "title" := Str("U")]);
    title := s.posts[1].title;
  }

  /** The same request against the corrected handler leaves the post as it was. */
  method MismatchedPostCheckedUpdateKeeps(now: int) returns (res: Response, title: Value)
    ensures res == IdMismatch("1")
    ensures title == Str("T")
  {
    var s := new Store();
    var created := PostRoutes.Create(s, map["title" := Str("T"), "content" := Str("C"), "authorId" := Null], now);
    res := PostRoutes.CheckedUpdate(s, "1", map["id" := Num(2), "title" := Str("U")]);
    title := s.posts[1].title;
  }

  /** PUT /comments/1 with no body id is refused with 400, yet the comment text is rewritten. */
  method MismatchedCommentUpdateWrites(now: int) returns (res: Response, text: Value)
    ensures res == IdMismatch("1")
    ensures text == Str("edited")
  {
    var s := SeedAuthorAndPost(now);
    var c := CommentOnFirstPost(s, "c", now);
    res := CommentRoutes.Update(s, "1", map["comment" := Str("edited")]);
    text := s.comments[1].comment;
  }

  /** The same request against the corrected handler leaves the comment as it was. */
  method MismatchedCommentCheckedUpdateKeeps(now: int) returns (res: Response, text: Value)
    ensures res == IdMismatch("1")
    ensures text == Str("c")
  {
    var s := SeedAuthorAndPost(now);
    var c := CommentOnFirstPost(s, "c", now);
    res := CommentRoutes.CheckedUpdate(s, "1", map["comment" := Str("edited")]);
    text := s.comments[1].comment;
  }

  /**
   * POST /posts naming author 5 in an empty store fails on the foreign key
   * after drawing id 1, so the next post created is stored under id 2.
   */
  method ForeignKeyFaultUsesId(now: int) returns (first: Response, second: Response)
    ensures first == ServerError(ForeignKeyViolation("author_id"))
    ensures second == Created(PostRepr(Post(2, Str("T"), Str("C"), now, None)))
  {
    var s := new Store();
    first := PostRoutes.Create(s, map["title" := Str("T"), "content" := Str("C"), "authorId" := Num(5)], now);
    second := PostRoutes.Create(s, map["title" := Str("T"), "content" := Str("C"), "authorId" := Null], now);
  }

  /** DELETE /posts/2147483648: the path id is past the key range, so the store refuses it and nothing changes. */
  method OutOfRangeDeleteRefused(now: int) returns (res: Response, kept: bool)
    ensures res == ServerError(InvalidKey("id"))
    ensures kept
  {
    var s := new Store();
    var _ := PostRoutes.Create(s, map["title" := Str("T"), "content" := Str("C"), "authorId" := Null], now);
    ParseIdRefusesOutOfRange();
    res := PostRoutes.Destroy(s, ToJsString(Num(MaxKey + 1)));
    kept := 1 in s.posts;
  }

  /** Two POST /authors on a fresh store both succeed, under ids 1 and 2. */
  method TwoAuthorsInARow() returns (first: Response, second: Response)
    ensures first == Created(AuthorRepr(Author(1, Null, Null, Str("a"))))
    ensures second == Created(AuthorRepr(Author(2, Null, Null, Str("b"))))
  {
    var s := new Store();
    first := AuthorRoutes.Create(s, map["userName" := Str("a")]);
    second := AuthorRoutes.Create(s, map["userName" := Str("b")]);
  }

  /** A key value given as a number is read as that number; given as a numeral string, as the number it spells. */
  lemma KeyOfReadsNumber()
    ensures KeyOf(Num(5)) == Some(5)
    ensures KeyOf(Num(MaxKey + 1)) == None
    ensures KeyOf(Str("5")) == Some(5)
  {
    assert AllDigits("5") by { assert IsDigit("5"[0]); }
  }
}

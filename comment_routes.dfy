/** The handlers of the `/comments` router. */
module CommentRoutes {
  import opened Wrappers
  import opened Json
  import opened CommentModel
  import opened Database
  import opened RouteRules

  const Required: seq<string> := ["comment", "postId", "authorId"]
  const Updatable: seq<string> := ["comment"]

  /** The whitelisted update built from `body` acts on a comment row and fails exactly as `body` itself would. */
  lemma WhitelistAgrees(body: Object, toUpdate: Object, pathId: string)
    requires toUpdate.Keys == (set f | f in Updatable && f in body)
    requires forall f :: f in toUpdate ==> toUpdate[f] == body[f]
    ensures toUpdate.Keys <= {"comment"}
    ensures forall c :: ApplyCommentUpdate(c, toUpdate) == ApplyCommentUpdate(c, body)
    ensures UpdateFault(["comment"], pathId, toUpdate) == UpdateFault(["comment"], pathId, body)
  {
    assert Updatable[0] == "comment";
    assert forall f :: f in Updatable ==> f == "comment";
    NullColumnsAgree(["comment"], toUpdate, body);
  }

  /**
   * POST /comments: `comment`, `postId` and `authorId` must be present,
   * checked in that order; the body's `postId` and `authorId` become the
   * row's `post_id` and `author_id`, and both must name existing rows.
   */
  method Create(s: Store, body: Object, now: int) returns (res: Response)
    requires s.Valid()
    modifies s
    ensures s.Valid()
    ensures AllPresent(Required, body) <==> "comment" in body && "postId" in body && "authorId" in body
    ensures !AllPresent(Required, body) ==>
              res.MissingField? && IsFirstMissing(Required, body, res.field) && unchanged(s)
    ensures "comment" in body && "postId" in body && "authorId" in body ==>
              var nulls := NullColumns(["comment", "author_id", "post_id"],
                                       map["comment" := body["comment"], "author_id" := body["authorId"],
                                           "post_id" := body["postId"]]);
              var akey := ReadKey("author_id", body["authorId"]);
              var pkey := ReadKey("post_id", body["postId"]);
              var keysRead := nulls == [] && akey.Ok? && pkey.Ok?;
              var drawn := keysRead && old(s.nextCommentId) <= MaxKey;
              && (nulls != [] ==> res == ServerError(NotNullViolation(nulls)) && unchanged(s))
              && (nulls == [] && akey.Err? ==> res == ServerError(akey.error) && unchanged(s))
              && (nulls == [] && akey.Ok? && pkey.Err? ==> res == ServerError(pkey.error) && unchanged(s))
              && (keysRead && !drawn ==> res == ServerError(IdsExhausted) && unchanged(s))
              && (drawn ==> && akey.value.Some? && pkey.value.Some?
                            && s.nextCommentId == old(s.nextCommentId) + 1
                            && unchanged(s`authors, s`posts, s`nextAuthorId, s`nextPostId))
              && (drawn && !Resolves(akey.value, old(s.authors).Keys) ==>
                    res == ServerError(ForeignKeyViolation("author_id")) && s.comments == old(s.comments))
              && (drawn && Resolves(akey.value, old(s.authors).Keys) && !Resolves(pkey.value, old(s.posts).Keys) ==>
                    res == ServerError(ForeignKeyViolation("post_id")) && s.comments == old(s.comments))
              && (drawn && Resolves(akey.value, old(s.authors).Keys) && Resolves(pkey.value, old(s.posts).Keys) ==>
                    var id := old(s.nextCommentId);
                    && id !in old(s.comments)
                    && s.comments == old(s.comments)[id := Comment(id, body["comment"], now, akey.value.value, pkey.value.value)]
                    && res == Created(CommentRepr(s.comments[id])))
  {
    assert Required[0] == "comment" && Required[1] == "postId" && Required[2] == "authorId";
    var missing := CheckRequired(Required, body);
    if missing.Some? {
      return MissingField(missing.value);
    }
    var r := s.CreateComment(Get(body, "comment"), Get(body, "authorId"), Get(body, "postId"), now);
    match r
    case Ok(c) =>
      res := Created(CommentRepr(c));
    case Err(f) =>
      res := ServerError(f);
  }

  /** What the write half of PUT /comments/:id does to the store, whether or not the ids matched. */
  twostate predicate UpdateWritten(s: Store, pathId: string, body: Object)
    reads s
  {
    && unchanged(s`authors, s`posts, s`nextAuthorId, s`nextPostId, s`nextCommentId)
    && s.comments == if UpdateFault(["comment"], pathId, body).Some? then old(s.comments)
                     else var id := ParseId(pathId).value;
                          if id in old(s.comments) then old(s.comments)[id := ApplyCommentUpdate(old(s.comments)[id], body)]
                          else old(s.comments)
  }

  /**
   * PUT /comments/:id as written: only the `comment` text is copied onto the
   * row under the path id. A failed id check answers 400 but does not
   * return, so the update still runs.
   */
  method Update(s: Store, pathId: string, body: Object) returns (res: Response)
    requires s.Valid()
    modifies s
    ensures s.Valid()
    ensures UpdateWritten(s, pathId, body)
    ensures res == if IdsMatch(pathId, body) then StoreReply(UpdateFault(["comment"], pathId, body))
                   else IdMismatch(pathId)
  {
    var mismatch := !IdsMatch(pathId, body);
    var toUpdate := BuildUpdate(Updatable, body);
    WhitelistAgrees(body, toUpdate, pathId);
    var fault := s.UpdateComments(pathId, toUpdate);
    res := if mismatch then IdMismatch(pathId) else StoreReply(fault);
  }

  /** PUT /comments/:id with the `return` the id check evidently intends: a mismatch changes nothing. */
  method CheckedUpdate(s: Store, pathId: string, body: Object) returns (res: Response)
    requires s.Valid()
    modifies s
    ensures s.Valid()
    ensures !IdsMatch(pathId, body) ==> res == IdMismatch(pathId) && unchanged(s)
    ensures IdsMatch(pathId, body) ==>
              UpdateWritten(s, pathId, body) && res == StoreReply(UpdateFault(["comment"], pathId, body))
  {
    if !IdsMatch(pathId, body) {
      return IdMismatch(pathId);
    }
    res := Update(s, pathId, body);
  }

  /** DELETE /comments/:id: only the row under the path id goes. */
  method Destroy(s: Store, pathId: string) returns (res: Response)
    requires s.Valid()
    modifies s
    ensures s.Valid()
    ensures ParseId(pathId).None? ==> res == ServerError(InvalidKey("id")) && unchanged(s)
    ensures ParseId(pathId).Some? ==>
              && res == NoContent
              && s.comments == old(s.comments) - {ParseId(pathId).value}
              && unchanged(s`authors, s`posts, s`nextAuthorId, s`nextPostId, s`nextCommentId)
  {
    match ParseId(pathId)
    case None =>
      res := ServerError(InvalidKey("id"));
    case Some(id) =>
      s.DeleteComment(id);
      res := NoContent;
  }
}

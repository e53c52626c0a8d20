/** The handlers of the `/authors` router. */
module AuthorRoutes {
  import opened Wrappers
  import opened Json
  import opened AuthorModel
  import opened PostModel
  import opened CommentModel
  import opened Database
  import opened RouteRules

  const Required: seq<string> := ["userName"]
  const Updatable: seq<string> := ["firstName", "lastName", "userName"]

  /** The whitelisted update built from `body` acts on an author row and fails exactly as `body` itself would. */
  lemma WhitelistAgrees(body: Object, toUpdate: Object, pathId: string)
    requires toUpdate.Keys == (set f | f in Updatable && f in body)
    requires forall f :: f in toUpdate ==> toUpdate[f] == body[f]
    ensures toUpdate.Keys <= {"firstName", "lastName", "userName"}
    ensures forall a :: ApplyAuthorUpdate(a, toUpdate) == ApplyAuthorUpdate(a, body)
    ensures UpdateFault(["userName"], pathId, toUpdate) == UpdateFault(["userName"], pathId, body)
  {
    assert Updatable[0] == "firstName" && Updatable[1] == "lastName" && Updatable[2] == "userName";
    assert forall f :: f in Updatable ==> f == "firstName" || f == "lastName" || f == "userName";
  }

  /**
   * GET /authors/:id: the author's representation. The handler has no
   * `.catch`, so an id the store refuses, or a lookup that finds nothing
   * (`author.apiRepr()` on null throws), sends no reply.
   */
  function Show(s: Store, pathId: string): (res: Response)
    reads s
    ensures res.Found? <==> ParseId(pathId).Some? && ParseId(pathId).value in s.authors
    ensures res.Found? ==> ReadAuthor(res.repr) == Some(s.authors[ParseId(pathId).value])
    ensures !res.Found? ==> res == NoReply
  {
    if ParseId(pathId).Some? && ParseId(pathId).value in s.authors then Found(AuthorRepr(s.authors[ParseId(pathId).value]))
    else NoReply
  }

  /**
   * POST /authors: only `userName` must be present; the new row takes
   * `firstName`, `lastName` and `userName` from the body and the reply echoes it.
   */
  method Create(s: Store, body: Object) returns (res: Response)
    requires s.Valid()
    modifies s
    ensures s.Valid()
    ensures "userName" !in body ==> res == MissingField("userName") && unchanged(s)
    ensures "userName" in body && body["userName"] == Null ==>
              res == ServerError(NotNullViolation(["userName"])) && unchanged(s)
    ensures "userName" in body && body["userName"] != Null && old(s.nextAuthorId) > MaxKey ==>
              res == ServerError(IdsExhausted) && unchanged(s)
    ensures "userName" in body && body["userName"] != Null && old(s.nextAuthorId) <= MaxKey ==>
              var id := old(s.nextAuthorId);
              && id !in old(s.authors)
              && s.authors == old(s.authors)[id := Author(id, Get(body, "firstName"), Get(body, "lastName"), body["userName"])]
              && s.nextAuthorId == id + 1
              && unchanged(s`posts, s`comments, s`nextPostId, s`nextCommentId)
              && res == Created(AuthorRepr(s.authors[id]))
  {
    var missing := CheckRequired(Required, body);
    if missing.Some? {
      assert missing.value == "userName";
      return MissingField(missing.value);
    }
    assert Required[0] in body;
    var r := s.CreateAuthor(Get(body, "firstName"), Get(body, "lastName"), Get(body, "userName"));
    match r
    case Ok(a) =>
      res := Created(AuthorRepr(a));
    case Err(f) =>
      res := ServerError(f);
  }

  /** What the write half of PUT /authors/:id does to the store, whether or not the ids matched. */
  twostate predicate UpdateWritten(s: Store, pathId: string, body: Object)
    reads s
  {
    && unchanged(s`posts, s`comments, s`nextAuthorId, s`nextPostId, s`nextCommentId)
    && s.authors == if UpdateFault(["userName"], pathId, body).Some? then old(s.authors)
                    else var id := ParseId(pathId).value;
                         if id in old(s.authors) then old(s.authors)[id := ApplyAuthorUpdate(old(s.authors)[id], body)]
                         else old(s.authors)
  }

  /**
   * PUT /authors/:id as written: only `firstName`, `lastName` and `userName`
   * present in the body are copied onto the row under the path id. A failed
   * id check answers 400 but does not return, so the update still runs.
   */
  method Update(s: Store, pathId: string, body: Object) returns (res: Response)
    requires s.Valid()
    modifies s
    ensures s.Valid()
    ensures UpdateWritten(s, pathId, body)
    ensures res == if IdsMatch(pathId, body) then StoreReply(UpdateFault(["userName"], pathId, body))
                   else IdMismatch(pathId)
  {
    var mismatch := !IdsMatch(pathId, body);
    var toUpdate := BuildUpdate(Updatable, body);
    WhitelistAgrees(body, toUpdate, pathId);
    var fault := s.UpdateAuthors(pathId, toUpdate);
    res := if mismatch then IdMismatch(pathId) else StoreReply(fault);
  }

  /** PUT /authors/:id with the `return` the id check evidently intends: a mismatch changes nothing. */
  method CheckedUpdate(s: Store, pathId: string, body: Object) returns (res: Response)
    requires s.Valid()
    modifies s
    ensures s.Valid()
    ensures !IdsMatch(pathId, body) ==> res == IdMismatch(pathId) && unchanged(s)
    ensures IdsMatch(pathId, body) ==>
              UpdateWritten(s, pathId, body) && res == StoreReply(UpdateFault(["userName"], pathId, body))
  {
    if !IdsMatch(pathId, body) {
      return IdMismatch(pathId);
    }
    res := Update(s, pathId, body);
  }

  /**
   * GET /authors/:id/comments: the representations of exactly this author's
   * comments, in load order. With no `.catch`, a refused id or a missing
   * author sends no reply.
   */
  method ShowComments(s: Store, pathId: string) returns (res: Response, ghost loaded: seq<Comment>)
    requires s.Valid()
    ensures !(ParseId(pathId).Some? && ParseId(pathId).value in s.authors) ==> res == NoReply
    ensures ParseId(pathId).Some? && ParseId(pathId).value in s.authors ==>
              && IsCommentRelation(loaded, s.comments, ByAuthor(ParseId(pathId).value))
              && res == Listed("comments", CommentReprs(loaded))
  {
    loaded := [];
    match ParseId(pathId)
    case None =>
      res := NoReply;
    case Some(id) =>
      if id !in s.authors {
        res := NoReply;
      } else {
        var cs := s.LoadComments(ByAuthor(id));
        loaded := cs;
        res := Listed("comments", CommentReprs(cs));
      }
  }

  /**
   * GET /authors/:id/posts: the representations of exactly this author's
   * posts, in load order. With no `.catch`, a refused id or a missing author
   * sends no reply.
   */
  method ShowPosts(s: Store, pathId: string) returns (res: Response, ghost loaded: seq<Post>)
    requires s.Valid()
    ensures !(ParseId(pathId).Some? && ParseId(pathId).value in s.authors) ==> res == NoReply
    ensures ParseId(pathId).Some? && ParseId(pathId).value in s.authors ==>
              && IsPostSelection(loaded, s.posts, ByAuthorOf(ParseId(pathId).value))
              && res == Listed("posts", PostReprs(loaded))
  {
    loaded := [];
    match ParseId(pathId)
    case None =>
      res := NoReply;
    case Some(id) =>
      if id !in s.authors {
        res := NoReply;
      } else {
        var ps := s.LoadPosts(ByAuthorOf(id));
        loaded := ps;
        res := Listed("posts", PostReprs(ps));
      }
  }
}

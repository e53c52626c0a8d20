/** The handlers of the `/posts` router. */
module PostRoutes {
  import opened Wrappers
  import opened Json
  import opened PostModel
  import opened CommentModel
  import opened Database
  import opened RouteRules

  const Required: seq<string> := ["title", "content", "authorId"]
  const Updatable: seq<string> := ["title", "content"]

  /** The whitelisted update built from `body` acts on a post row and fails exactly as `body` itself would. */
  lemma WhitelistAgrees(body: Object, toUpdate: Object, pathId: string)
    requires toUpdate.Keys == (set f | f in Updatable && f in body)
    requires forall f :: f in toUpdate ==> toUpdate[f] == body[f]
    ensures toUpdate.Keys <= {"title", "content"}
    ensures forall p :: ApplyPostUpdate(p, toUpdate) == ApplyPostUpdate(p, body)
    ensures UpdateFault(["title", "content"], pathId, toUpdate) == UpdateFault(["title", "content"], pathId, body)
  {
    assert Updatable[0] == "title" && Updatable[1] == "content";
    assert forall f :: f in Updatable ==> f == "title" || f == "content";
    NullColumnsAgree(["title", "content"], toUpdate, body);
  }

  /** GET /posts: exactly one representation per stored post, in load order. */
  method List(s: Store) returns (res: Response, ghost loaded: seq<Post>)
    requires s.Valid()
    ensures IsPostSelection(loaded, s.posts, AllPosts)
    ensures res == Listed("posts", PostReprs(loaded))
    ensures res.Listed? && res.name == "posts" && |res.items| == |s.posts|
  {
    var ps := s.LoadPosts(AllPosts);
    loaded := ps;
    res := Listed("posts", PostReprs(ps));
  }

  /**
   * GET /posts/:id: the post's representation. The handler has no `.catch`,
   * so an id the store refuses, or a lookup that finds nothing, sends no reply.
   */
  function Show(s: Store, pathId: string): (res: Response)
    reads s
    ensures res.Found? <==> ParseId(pathId).Some? && ParseId(pathId).value in s.posts
    ensures res.Found? ==> ReadPost(res.repr) == Some(s.posts[ParseId(pathId).value])
    ensures !res.Found? ==> res == NoReply
  {
    if ParseId(pathId).Some? && ParseId(pathId).value in s.posts then Found(PostRepr(s.posts[ParseId(pathId).value]))
    else NoReply
  }

  /**
   * POST /posts: `title`, `content` and `authorId` must be present, checked
   * in that order; the new row takes `title` and `content` unchanged and
   * `author_id` from the body's `authorId`.
   */
  method Create(s: Store, body: Object, now: int) returns (res: Response)
    requires s.Valid()
    modifies s
    ensures s.Valid()
    ensures AllPresent(Required, body) <==> "title" in body && "content" in body && "authorId" in body
    ensures !AllPresent(Required, body) ==>
              res.MissingField? && IsFirstMissing(Required, body, res.field) && unchanged(s)
    ensures "title" in body && "content" in body && "authorId" in body ==>
              var nulls := NullColumns(["title", "content"], map["title" := body["title"], "content" := body["content"]]);
              var key := ReadKey("author_id", body["authorId"]);
              var drawn := nulls == [] && key.Ok? && old(s.nextPostId) <= MaxKey;
              && (nulls != [] ==> res == ServerError(NotNullViolation(nulls)) && unchanged(s))
              && (nulls == [] && key.Err? ==> res == ServerError(key.error) && unchanged(s))
              && (nulls == [] && key.Ok? && !drawn ==> res == ServerError(IdsExhausted) && unchanged(s))
              && (drawn ==> s.nextPostId == old(s.nextPostId) + 1
                            && unchanged(s`authors, s`comments, s`nextAuthorId, s`nextCommentId))
              && (drawn && !Resolves(key.value, old(s.authors).Keys) ==>
                    res == ServerError(ForeignKeyViolation("author_id")) && s.posts == old(s.posts))
              && (drawn && Resolves(key.value, old(s.authors).Keys) ==>
                    var id := old(s.nextPostId);
                    && id !in old(s.posts)
                    && s.posts == old(s.posts)[id := Post(id, body["title"], body["content"], now, key.value)]
                    && res == Created(PostRepr(s.posts[id])))
  {
    assert Required[0] == "title" && Required[1] == "content" && Required[2] == "authorId";
    var missing := CheckRequired(Required, body);
    if missing.Some? {
      return MissingField(missing.value);
    }
    var r := s.CreatePost(Get(body, "title"), Get(body, "content"), Get(body, "authorId"), now);
    match r
    case Ok(p) =>
      res := Created(PostRepr(p));
    case Err(f) =>
      res := ServerError(f);
  }

  /** What the write half of PUT /posts/:id does to the store, whether or not the ids matched. */
  twostate predicate UpdateWritten(s: Store, pathId: string, body: Object)
    reads s
  {
    && unchanged(s`authors, s`comments, s`nextAuthorId, s`nextPostId, s`nextCommentId)
    && s.posts == if UpdateFault(["title", "content"], pathId, body).Some? then old(s.posts)
                  else var id := ParseId(pathId).value;
                       if id in old(s.posts) then old(s.posts)[id := ApplyPostUpdate(old(s.posts)[id], body)]
                       else old(s.posts)
  }

  /**
   * PUT /posts/:id as written: only `title` and `content` present in the body
   * are copied onto the row under the path id. A failed id check answers 400
   * but does not return, so the update still runs.
   */
  method Update(s: Store, pathId: string, body: Object) returns (res: Response)
    requires s.Valid()
    modifies s
    ensures s.Valid()
    ensures UpdateWritten(s, pathId, body)
    ensures res == if IdsMatch(pathId, body) then StoreReply(UpdateFault(["title", "content"], pathId, body))
                   else IdMismatch(pathId)
  {
    var mismatch := !IdsMatch(pathId, body);
    var toUpdate := BuildUpdate(Updatable, body);
    WhitelistAgrees(body, toUpdate, pathId);
    var fault := s.UpdatePosts(pathId, toUpdate);
    res := if mismatch then IdMismatch(pathId) else StoreReply(fault);
  }

  /** PUT /posts/:id with the `return` the id check evidently intends: a mismatch changes nothing. */
  method CheckedUpdate(s: Store, pathId: string, body: Object) returns (res: Response)
    requires s.Valid()
    modifies s
    ensures s.Valid()
    ensures !IdsMatch(pathId, body) ==> res == IdMismatch(pathId) && unchanged(s)
    ensures IdsMatch(pathId, body) ==>
              UpdateWritten(s, pathId, body) && res == StoreReply(UpdateFault(["title", "content"], pathId, body))
  {
    if !IdsMatch(pathId, body) {
      return IdMismatch(pathId);
    }
    res := Update(s, pathId, body);
  }

  /**
   * DELETE /posts/:id: the row under the path id goes, and with it the
   * comments on it; authors and all other rows stay.
   */
  method Destroy(s: Store, pathId: string) returns (res: Response)
    requires s.Valid()
    modifies s
    ensures s.Valid()
    ensures ParseId(pathId).None? ==> res == ServerError(InvalidKey("id")) && unchanged(s)
    ensures ParseId(pathId).Some? ==>
              var id := ParseId(pathId).value;
              && res == NoContent
              && s.posts == old(s.posts) - {id}
              && s.comments == (map k | k in old(s.comments) && old(s.comments)[k].postId != id :: old(s.comments)[k])
              && unchanged(s`authors, s`nextAuthorId, s`nextPostId, s`nextCommentId)
  {
    match ParseId(pathId)
    case None =>
      res := ServerError(InvalidKey("id"));
    case Some(id) =>
      s.DeletePost(id);
      res := NoContent;
  }

  /**
   * GET /posts/:id/comments: the representations of exactly the comments on
   * this post, in load order; a missing post is caught as a server error.
   */
  method ShowComments(s: Store, pathId: string) returns (res: Response, ghost loaded: seq<Comment>)
    requires s.Valid()
    ensures ParseId(pathId).None? ==> res == ServerError(InvalidKey("id"))
    ensures ParseId(pathId).Some? && ParseId(pathId).value !in s.posts ==> res == ServerError(MissingRow)
    ensures ParseId(pathId).Some? && ParseId(pathId).value in s.posts ==>
              && IsCommentRelation(loaded, s.comments, ByPost(ParseId(pathId).value))
              && res == Listed("comments", CommentReprs(loaded))
  {
    loaded := [];
    match ParseId(pathId)
    case None =>
      res := ServerError(InvalidKey("id"));
    case Some(id) =>
      if id !in s.posts {
        res := ServerError(MissingRow);
      } else {
        var cs := s.LoadComments(ByPost(id));
        loaded := cs;
        res := Listed("comments", CommentReprs(cs));
      }
  }
}

/**
 * The relational store behind the three models: one id-keyed table per
 * model, one id sequence per table, the column constraints each model
 * declares, and the delete rules its associations declare
 * (Author -> Post: SET NULL; Author -> Comment and Post -> Comment: CASCADE).
 */
module Database {
  import opened Wrappers
  import opened Json
  import opened AuthorModel
  import opened PostModel
  import opened CommentModel

  /** Why the store refuses an operation (the handlers answer 500 with it). */
  datatype Fault =
    | NotNullViolation(columns: seq<string>)  // the non-null columns given null, in declaration order
    | InvalidKey(column: string)              // a key value that does not read as an integer
    | ForeignKeyViolation(column: string)     // a key naming no row of the referenced table
    | IdsExhausted                            // the table's id sequence is past the largest key
    | MissingRow                              // a handler used the result of a lookup that found nothing

  /** The names in `names` that `row` maps to null, in the order of `names`. */
  function NullColumns(names: seq<string>, row: Object): (r: seq<string>)
    ensures r == [] <==> forall i :: 0 <= i < |names| && names[i] in row ==> row[names[i]] != Null
    ensures forall n :: n in r ==> n in names && n in row && row[n] == Null
  {
    if names == [] then []
    else (if names[0] in row && row[names[0]] == Null then [names[0]] else []) + NullColumns(names[1..], row)
  }

  /** Two rows that agree on the columns `names`, present or absent, have the same null columns among them. */
  lemma {:induction false} NullColumnsAgree(names: seq<string>, a: Object, b: Object)
    requires forall n :: n in names ==> (n in a <==> n in b)
    requires forall n :: n in names && n in a ==> a[n] == b[n]
    ensures NullColumns(names, a) == NullColumns(names, b)
  {
    if names != [] {
      assert names[0] in names;
      NullColumnsAgree(names[1..], a, b);
    }
  }

  /**
   * Reads `v`, given for the key column `column`, as a key; null stays null.
   * A value that does not read as a key is refused while the statement is
   * prepared, before any id is drawn.
   */
  function ReadKey(column: string, v: Value): (r: Result<Option<int>, Fault>)
    ensures r == Ok(None) <==> v == Null
    ensures r.Ok? && r.value.Some? ==> KeyOf(v) == r.value
    ensures r.Err? <==> v != Null && KeyOf(v).None?
    ensures r.Err? ==> r.error == InvalidKey(column)
  {
    if v == Null then Ok(None)
    else match KeyOf(v)
      case None => Err(InvalidKey(column))
      case Some(k) => Ok(Some(k))
  }

  /** A key read from a request resolves when it is null or names one of the rows `ids`. */
  predicate Resolves(k: Option<int>, ids: set<int>)
  {
    k.None? || k.value in ids
  }

  /**
   * How `update(values, {where: {id: where}})` fails: the non-null columns
   * among `values` are checked first, then the store reads `where` as an id.
   */
  function UpdateFault(nonNull: seq<string>, where: string, values: Object): (f: Option<Fault>)
    ensures f.None? <==> NullColumns(nonNull, values) == [] && ParseId(where).Some?
  {
    var nulls := NullColumns(nonNull, values);
    if nulls != [] then Some(NotNullViolation(nulls))
    else if ParseId(where).None? then Some(InvalidKey("id"))
    else None
  }

  /** Every row the store holds is reached by its own id written as a path segment. */
  lemma StoredIdsReadBack(s: Store)
    requires s.Valid()
    ensures forall k :: k in s.authors ==> ParseId(ToJsString(Num(k))) == Some(k)
    ensures forall k :: k in s.posts ==> ParseId(ToJsString(Num(k))) == Some(k)
    ensures forall k :: k in s.comments ==> ParseId(ToJsString(Num(k))) == Some(k)
  {
    forall k | k in s.authors || k in s.posts || k in s.comments
      ensures ParseId(ToJsString(Num(k))) == Some(k)
    {
      NumberKeyRoundTrip(k);
    }
  }

  /** The SET NULL rule: a post of the deleted author `authorId` loses its author. */
  function Detach(p: Post, authorId: int): (r: Post)
    ensures r.authorId == if p.authorId == Some(authorId) then None else p.authorId
    ensures r.(authorId := p.authorId) == p
  {
    if p.authorId == Some(authorId) then p.(authorId := None) else p
  }

  /** The owners of a `comments` relation: an author or a post. */
  datatype Owner = ByAuthor(authorId: int) | ByPost(postId: int)

  predicate Owns(o: Owner, c: Comment)
  {
    match o
    case ByAuthor(a) => c.authorId == a
    case ByPost(p) => c.postId == p
  }

  /** `loaded` lists, once each and in some order, exactly the rows of `table` that `o` owns. */
  ghost predicate IsCommentRelation(loaded: seq<Comment>, table: map<int, Comment>, o: Owner)
  {
    && (forall i :: 0 <= i < |loaded| ==>
          loaded[i].id in table && table[loaded[i].id] == loaded[i] && Owns(o, loaded[i]))
    && (forall i, j :: 0 <= i < j < |loaded| ==> loaded[i].id != loaded[j].id)
    && (forall k :: k in table && Owns(o, table[k]) ==> table[k] in loaded)
  }

  /** Which posts a query selects: all of them, or the `posts` relation of one author. */
  datatype PostQuery = AllPosts | ByAuthorOf(authorId: int)

  predicate Selects(q: PostQuery, p: Post)
  {
    match q
    case AllPosts => true
    case ByAuthorOf(a) => p.authorId == Some(a)
  }

  /** `loaded` lists, once each and in some order, exactly the rows of `table` that `q` selects. */
  ghost predicate IsPostSelection(loaded: seq<Post>, table: map<int, Post>, q: PostQuery)
  {
    && (forall i :: 0 <= i < |loaded| ==>
          loaded[i].id in table && table[loaded[i].id] == loaded[i] && Selects(q, loaded[i]))
    && (forall i, j :: 0 <= i < j < |loaded| ==> loaded[i].id != loaded[j].id)
    && (forall k :: k in table && Selects(q, table[k]) ==> table[k] in loaded)
  }

  class Store {
    var authors: map<int, Author>
    var posts: map<int, Post>
    var comments: map<int, Comment>
    // the next value of each table's id sequence
    var nextAuthorId: int
    var nextPostId: int
    var nextCommentId: int

    /** Each row is filed under its own id, below its table's next id, with its non-null columns set. */
    ghost predicate RowsWellFormed()
      reads this
    {
      && 1 <= nextAuthorId <= MaxKey + 1 && 1 <= nextPostId <= MaxKey + 1 && 1 <= nextCommentId <= MaxKey + 1
      && (forall k :: k in authors ==>
            authors[k].id == k && 1 <= k < nextAuthorId && AuthorColumnsSet(authors[k]))
      && (forall k :: k in posts ==>
            posts[k].id == k && 1 <= k < nextPostId && PostColumnsSet(posts[k]))
      && (forall k :: k in comments ==>
            comments[k].id == k && 1 <= k < nextCommentId && CommentColumnsSet(comments[k]))
    }

    /**
     * Referential integrity: a post's author is null or an existing author;
     * a comment's author and post both exist.
     */
    ghost predicate ReferencesResolve()
      reads this
    {
      && (forall k :: k in posts && posts[k].authorId.Some? ==> posts[k].authorId.value in authors)
      && (forall k :: k in comments ==> comments[k].authorId in authors && comments[k].postId in posts)
    }

    ghost predicate Valid()
      reads this
    {
      RowsWellFormed() && ReferencesResolve()
    }

    /** Empty tables, each sequence starting at 1. */
    constructor ()
      ensures Valid()
      ensures authors == map[] && posts == map[] && comments == map[]
      ensures nextAuthorId == 1 && nextPostId == 1 && nextCommentId == 1
    {
      authors, posts, comments := map[], map[], map[];
      nextAuthorId, nextPostId, nextCommentId := 1, 1, 1;
    }

    /**
     * `Author.create`: refused when `userName` is null, or when the id
     * sequence is exhausted; otherwise a row under the next id.
     */
    method CreateAuthor(firstName: Value, lastName: Value, userName: Value) returns (r: Result<Author, Fault>)
      requires Valid()
      modifies this
      ensures Valid()
      ensures userName == Null ==> r == Err(NotNullViolation(["userName"])) && unchanged(this)
      ensures userName != Null && old(nextAuthorId) > MaxKey ==> r == Err(IdsExhausted) && unchanged(this)
      ensures userName != Null && old(nextAuthorId) <= MaxKey ==>
        && r == Ok(Author(old(nextAuthorId), firstName, lastName, userName))
        && r.value.id !in old(authors)
        && authors == old(authors)[r.value.id := r.value]
        && nextAuthorId == old(nextAuthorId) + 1
        && unchanged(this`posts, this`comments, this`nextPostId, this`nextCommentId)
    {
      if userName == Null {
        return Err(NotNullViolation(["userName"]));
      }
      if nextAuthorId > MaxKey {
        return Err(IdsExhausted);
      }
      var a := Author(nextAuthorId, firstName, lastName, userName);
      authors := authors[a.id := a];
      nextAuthorId := nextAuthorId + 1;
      r := Ok(a);
    }

    /**
     * `Post.create`. Checked in this order: `title` or `content` null; an
     * author value that does not read as a key; an exhausted id sequence;
     * an author key naming no author. The last fault arises after the row's id
     * is drawn, so the sequence stays advanced. Otherwise a row under the
     * drawn id, stamped `now`.
     */
    method CreatePost(title: Value, content: Value, author: Value, now: int) returns (r: Result<Post, Fault>)
      requires Valid()
      modifies this
      ensures Valid()
      ensures
        var nulls := NullColumns(["title", "content"], map["title" := title, "content" := content]);
        var key := ReadKey("author_id", author);
        && (nulls != [] ==> r == Err(NotNullViolation(nulls)) && unchanged(this))
        && (nulls == [] && key.Err? ==> r == Err(key.error) && unchanged(this))
        && (nulls == [] && key.Ok? && old(nextPostId) > MaxKey ==> r == Err(IdsExhausted) && unchanged(this))
        && (nulls == [] && key.Ok? && old(nextPostId) <= MaxKey && !Resolves(key.value, old(authors).Keys) ==>
              && r == Err(ForeignKeyViolation("author_id"))
              && nextPostId == old(nextPostId) + 1
              && unchanged(this`authors, this`posts, this`comments, this`nextAuthorId, this`nextCommentId))
        && (nulls == [] && key.Ok? && old(nextPostId) <= MaxKey && Resolves(key.value, old(authors).Keys) ==>
              && r == Ok(Post(old(nextPostId), title, content, now, key.value))
              && r.value.id !in old(posts)
              && posts == old(posts)[r.value.id := r.value]
              && nextPostId == old(nextPostId) + 1
              && unchanged(this`authors, this`comments, this`nextAuthorId, this`nextCommentId))
    {
      var nulls := NullColumns(["title", "content"], map["title" := title, "content" := content]);
      if nulls != [] {
        return Err(NotNullViolation(nulls));
      }
      assert title != Null && content != Null by {
        var names := ["title", "content"];
        assert names[0] == "title" && names[1] == "content";
      }
      var key := ReadKey("author_id", author);
      if key.Err? {
        return Err(key.error);
      }
      if nextPostId > MaxKey {
        return Err(IdsExhausted);
      }
      var id := nextPostId;
      nextPostId := nextPostId + 1;
      if !Resolves(key.value, authors.Keys) {
        return Err(ForeignKeyViolation("author_id"));
      }
      var p := Post(id, title, content, now, key.value);
      posts := posts[p.id := p];
      r := Ok(p);
    }

    /**
     * `Comment.create`. Checked in this order: the text or either key null;
     * the author, then the post value not reading as a key; an exhausted id
     * sequence; the author, then the post key naming no row. The last two
     * faults arise after the row's id is drawn, so the sequence stays
     * advanced. Otherwise a row under the drawn id, stamped `now`.
     */
    method CreateComment(text: Value, author: Value, post: Value, now: int) returns (r: Result<Comment, Fault>)
      requires Valid()
      modifies this
      ensures Valid()
      ensures
        var nulls := NullColumns(["comment", "author_id", "post_id"],
                                 map["comment" := text, "author_id" := author, "post_id" := post]);
        var akey := ReadKey("author_id", author);
        var pkey := ReadKey("post_id", post);
        var keysRead := nulls == [] && akey.Ok? && pkey.Ok?;
        var drawn := keysRead && old(nextCommentId) <= MaxKey;
        && (nulls != [] ==> r == Err(NotNullViolation(nulls)) && unchanged(this))
        && (nulls == [] && akey.Err? ==> r == Err(akey.error) && unchanged(this))
        && (nulls == [] && akey.Ok? && pkey.Err? ==> r == Err(pkey.error) && unchanged(this))
        && (keysRead && old(nextCommentId) > MaxKey ==> r == Err(IdsExhausted) && unchanged(this))
        && (drawn ==> akey.value.Some? && pkey.value.Some? && nextCommentId == old(nextCommentId) + 1)
        && (drawn && !Resolves(akey.value, old(authors).Keys) ==>
              && r == Err(ForeignKeyViolation("author_id"))
              && unchanged(this`authors, this`posts, this`comments, this`nextAuthorId, this`nextPostId))
        && (drawn && Resolves(akey.value, old(authors).Keys) && !Resolves(pkey.value, old(posts).Keys) ==>
              && r == Err(ForeignKeyViolation("post_id"))
              && unchanged(this`authors, this`posts, this`comments, this`nextAuthorId, this`nextPostId))
        && (drawn && Resolves(akey.value, old(authors).Keys) && Resolves(pkey.value, old(posts).Keys) ==>
              && r == Ok(Comment(old(nextCommentId), text, now, akey.value.value, pkey.value.value))
              && r.value.id !in old(comments)
              && comments == old(comments)[r.value.id := r.value]
              && unchanged(this`authors, this`posts, this`nextAuthorId, this`nextPostId))
    {
      var nulls := NullColumns(["comment", "author_id", "post_id"],
                               map["comment" := text, "author_id" := author, "post_id" := post]);
      if nulls != [] {
        return Err(NotNullViolation(nulls));
      }
      var akey := ReadKey("author_id", author);
      if akey.Err? {
        return Err(akey.error);
      }
      var pkey := ReadKey("post_id", post);
      if pkey.Err? {
        return Err(pkey.error);
      }
      if nextCommentId > MaxKey {
        return Err(IdsExhausted);
      }
      assert author != Null && post != Null by {
        var names := ["comment", "author_id", "post_id"];
        assert names[1] == "author_id" && names[2] == "post_id";
      }
      var id := nextCommentId;
      nextCommentId := nextCommentId + 1;
      if !Resolves(akey.value, authors.Keys) {
        return Err(ForeignKeyViolation("author_id"));
      }
      if !Resolves(pkey.value, posts.Keys) {
        return Err(ForeignKeyViolation("post_id"));
      }
      var c := Comment(id, text, now, akey.value.value, pkey.value.value);
      comments := comments[c.id := c];
      r := Ok(c);
    }

    /** `Author.update(values, {where: {id: where}})`: changes at most the one row under that id. */
    method UpdateAuthors(where: string, values: Object) returns (fault: Option<Fault>)
      requires Valid()
      requires values.Keys <= {"firstName", "lastName", "userName"}
      modifies this`authors
      ensures Valid()
      ensures fault == UpdateFault(["userName"], where, values)
      ensures fault.Some? ==> authors == old(authors)
      ensures fault.None? ==>
        var id := ParseId(where).value;
        authors == if id in old(authors) then old(authors)[id := ApplyAuthorUpdate(old(authors)[id], values)]
                   else old(authors)
    {
      fault := UpdateFault(["userName"], where, values);
      if fault.None? {
        var id := ParseId(where).value;
        assert ["userName"][0] == "userName";
        if id in authors {
          authors := authors[id := ApplyAuthorUpdate(authors[id], values)];
        }
      }
    }

    /** `Post.update(values, {where: {id: where}})`: changes at most the one row under that id. */
    method UpdatePosts(where: string, values: Object) returns (fault: Option<Fault>)
      requires Valid()
      requires values.Keys <= {"title", "content"}
      modifies this`posts
      ensures Valid()
      ensures fault == UpdateFault(["title", "content"], where, values)
      ensures fault.Some? ==> posts == old(posts)
      ensures fault.None? ==>
        var id := ParseId(where).value;
        posts == if id in old(posts) then old(posts)[id := ApplyPostUpdate(old(posts)[id], values)]
                 else old(posts)
    {
      fault := UpdateFault(["title", "content"], where, values);
      if fault.None? {
        var id := ParseId(where).value;
        assert ["title", "content"][0] == "title" && ["title", "content"][1] == "content";
        if id in posts {
          posts := posts[id := ApplyPostUpdate(posts[id], values)];
        }
      }
    }

    /** `Comment.update(values, {where: {id: where}})`: changes at most the one row under that id. */
    method UpdateComments(where: string, values: Object) returns (fault: Option<Fault>)
      requires Valid()
      requires values.Keys <= {"comment"}
      modifies this`comments
      ensures Valid()
      ensures fault == UpdateFault(["comment"], where, values)
      ensures fault.Some? ==> comments == old(comments)
      ensures fault.None? ==>
        var id := ParseId(where).value;
        comments == if id in old(comments) then old(comments)[id := ApplyCommentUpdate(old(comments)[id], values)]
                    else old(comments)
    {
      fault := UpdateFault(["comment"], where, values);
      if fault.None? {
        var id := ParseId(where).value;
        assert ["comment"][0] == "comment";
        if id in comments {
          comments := comments[id := ApplyCommentUpdate(comments[id], values)];
        }
      }
    }

    /** The CASCADE rule of a comment's foreign keys: every comment `o` owns is deleted, the others stay. */
    method CascadeComments(o: Owner)
      requires Valid()
      modifies this`comments
      ensures Valid()
      ensures comments == map k | k in old(comments) && !Owns(o, old(comments)[k]) :: old(comments)[k]
    {
      var pending := comments.Keys;
      while pending != {}
        invariant pending <= comments.Keys <= old(comments).Keys
        invariant forall k :: k in comments ==> comments[k] == old(comments)[k]
        invariant forall k :: k in old(comments) ==>
                    (k in comments <==> k in pending || !Owns(o, old(comments)[k]))
        invariant Valid()
        decreases pending
      {
        assert (forall x :: x !in pending) ==> pending == {};
        var k :| k in pending;
        if Owns(o, comments[k]) {
          comments := comments - {k};
        }
        pending := pending - {k};
      }
      ghost var kept := map k | k in old(comments) && !Owns(o, old(comments)[k]) :: old(comments)[k];
      assert forall k :: k in comments <==> k in kept;
      assert forall k :: k in comments ==> comments[k] == kept[k];
    }

    /** The SET NULL rule of an author's posts: each post of `authorId` stays, with a null author. */
    method DetachPosts(authorId: int)
      requires Valid()
      modifies this`posts
      ensures RowsWellFormed()
      ensures posts == map k | k in old(posts) :: Detach(old(posts)[k], authorId)
      ensures forall k :: k in posts && posts[k].authorId.Some? ==>
                posts[k].authorId.value in authors && posts[k].authorId.value != authorId
      ensures forall k :: k in comments ==> comments[k].authorId in authors && comments[k].postId in posts
    {
      var pending := posts.Keys;
      while pending != {}
        invariant pending <= posts.Keys == old(posts).Keys
        invariant forall k :: k in posts ==>
                    posts[k] == if k in pending then old(posts)[k] else Detach(old(posts)[k], authorId)
        invariant RowsWellFormed()
        decreases pending
      {
        assert (forall x :: x !in pending) ==> pending == {};
        var k :| k in pending;
        if posts[k].authorId == Some(authorId) {
          posts := posts[k := posts[k].(authorId := None)];
        }
        pending := pending - {k};
      }
      ghost var detached := map k | k in old(posts) :: Detach(old(posts)[k], authorId);
      assert forall k :: k in posts <==> k in detached;
      assert forall k :: k in posts ==> posts[k] == detached[k];
    }

    /**
     * Deletes author `id` by the rules its associations declare: its posts
     * stay with a null author, its comments are deleted, nothing else changes.
     */
    method DeleteAuthor(id: int)
      requires Valid()
      modifies this
      ensures Valid()
      ensures authors == old(authors) - {id}
      ensures posts == map k | k in old(posts) :: Detach(old(posts)[k], id)
      ensures comments == map k | k in old(comments) && old(comments)[k].authorId != id :: old(comments)[k]
      ensures unchanged(this`nextAuthorId, this`nextPostId, this`nextCommentId)
    {
      CascadeComments(ByAuthor(id));
      DetachPosts(id);
      authors := authors - {id};
    }

    /** Deletes post `id` and, by the CASCADE rule of a comment's post key, the comments on it. */
    method DeletePost(id: int)
      requires Valid()
      modifies this
      ensures Valid()
      ensures posts == old(posts) - {id}
      ensures comments == map k | k in old(comments) && old(comments)[k].postId != id :: old(comments)[k]
      ensures unchanged(this`authors, this`nextAuthorId, this`nextPostId, this`nextCommentId)
    {
      CascadeComments(ByPost(id));
      posts := posts - {id};
    }

    /** Deletes comment `id`; comments are leaves, so nothing else changes. */
    method DeleteComment(id: int)
      requires Valid()
      modifies this`comments
      ensures Valid()
      ensures comments == old(comments) - {id}
    {
      comments := comments - {id};
    }

    /** Eager loading of a `comments` relation: the comments `o` owns, each once. */
    method LoadComments(o: Owner) returns (loaded: seq<Comment>)
      requires Valid()
      ensures IsCommentRelation(loaded, comments, o)
    {
      loaded := [];
      var pending := comments.Keys;
      while pending != {}
        invariant pending <= comments.Keys
        invariant forall i :: 0 <= i < |loaded| ==>
                    && loaded[i].id in comments && comments[loaded[i].id] == loaded[i]
                    && Owns(o, loaded[i]) && loaded[i].id !in pending
        invariant forall i, j :: 0 <= i < j < |loaded| ==> loaded[i].id != loaded[j].id
        invariant forall k :: k in comments && k !in pending && Owns(o, comments[k]) ==> comments[k] in loaded
        decreases pending
      {
        assert (forall x :: x !in pending) ==> pending == {};
        var k :| k in pending;
        if Owns(o, comments[k]) {
          loaded := loaded + [comments[k]];
        }
        pending := pending - {k};
      }
    }

    /** `findAll`, or eager loading of an author's `posts` relation: the posts `q` selects, each once. */
    method LoadPosts(q: PostQuery) returns (loaded: seq<Post>)
      requires Valid()
      ensures IsPostSelection(loaded, posts, q)
      ensures q == AllPosts ==> |loaded| == |posts|
    {
      loaded := [];
      var pending := posts.Keys;
      while pending != {}
        invariant pending <= posts.Keys
        invariant q == AllPosts ==> |loaded| == |posts.Keys - pending|
        invariant forall i :: 0 <= i < |loaded| ==>
                    && loaded[i].id in posts && posts[loaded[i].id] == loaded[i]
                    && Selects(q, loaded[i]) && loaded[i].id !in pending
        invariant forall i, j :: 0 <= i < j < |loaded| ==> loaded[i].id != loaded[j].id
        invariant forall k :: k in posts && k !in pending && Selects(q, posts[k]) ==> posts[k] in loaded
        decreases pending
      {
        assert (forall x :: x !in pending) ==> pending == {};
        var k :| k in pending;
        assert posts.Keys - (pending - {k}) == (posts.Keys - pending) + {k};
        if Selects(q, posts[k]) {
          loaded := loaded + [posts[k]];
        }
        pending := pending - {k};
      }
      assert posts.Keys - pending == posts.Keys;
    }
  }
}

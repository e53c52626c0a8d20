# Blog API store and route rules

This project models a small blog API built on Express and Sequelize. The API
has three tables:

- `authors`: `userName` is non-null; `firstName` and `lastName` are optional.
- `posts`: `title` and `content` are non-null; `author_id` may be null.
- `comments`: `comment`, `author_id` and `post_id` are all non-null.

The relational store is a `Database.Store` class. It holds three id-keyed
maps and one id counter per table. Its invariant `Valid` has two parts. Every
row sits under its own id, below its table's counter (at most one past the
largest key), with its non-null columns set. Every reference resolves: a post's author is null or an existing
author, and a comment's author and post both exist.

Each store write is a method that states its whole new state and keeps
`Valid`:

- create, with the not-null, invalid-key, exhausted-sequence and foreign-key faults;
- `update ... where id`;
- the delete rules: author delete sets its posts' author to null and cascades
  to its comments; post delete cascades to its comments; comment delete is a
  leaf.

Eager loading of a relation is a method whose result is proved to list
exactly the related rows, each once.

Each entity's `apiRepr` is a function. A read-back function proves it copies
every field exactly, under the wire-facing names.

The three routers are modules of handler methods. They share four rules:

- the ordered required-field loop with its early return;
- the `toUpdate` whitelist loop;
- the path-id versus body-id check, which compares strings;
- the `Response` datatype that stands for what a handler sends.

Request bodies are `map<string, Value>` over scalar JSON values. Creation
times are the `now` parameter. Ids and key columns are PostgreSQL `integer`
columns (config.js:7 selects PostgreSQL). So a key is a signed 32-bit value,
and a path id or key value outside that range is refused like one that is not
a numeral.

Each table's ids come from a sequence. A foreign-key fault arises after the
row's id has been drawn, so it uses up that id. A sequence past the largest
key refuses further rows.

As written, a PUT handler that fails its id check answers 400 but does not
return, so the update still runs. The model keeps this behaviour (`Update`),
proves the effect on concrete requests, and gives the corrected handler
(`CheckedUpdate`) beside it.

Two behaviours of the code are kept as they are:

- Creation only checks that the required keys are present. An empty string is
  accepted. A null value goes on to the store, which refuses it for a
  non-null column and stores it for a post's nullable `author_id`.
- Some handlers have no `.catch`: GET `/authors/:id`, `/authors/:id/comments`,
  `/authors/:id/posts` and `/posts/:id`. In those, a lookup that finds nothing
  makes the handler throw. An id the store refuses leaves the rejection
  unhandled. Either way no reply is sent, which the model writes `NoReply`.

## Model

| member | source | states |
|---|---|---|
| Json.Decimal | routes/authors.js:34 | the numeral `toString` writes for a natural number is non-empty, all digits, and starts with `0` only for zero |
| Json.DecimalValue | routes/authors.js:34 | reading a numeral back gives the number it was written from |
| Json.ToJsString | routes/authors.js:34 | `toString` gives the empty string only for the empty string; a non-negative number becomes digits, a negative one `-` and digits |
| Json.NumberKeyRoundTrip | routes/authors.js:34 | an integer written with `toString` and read back as a key is the same integer when it is in the 32-bit key range, and is refused otherwise |
| Json.ParseIdRefusesOutOfRange | routes/posts.js:72-80 | the numerals of the largest and smallest keys read back as those keys, and the numerals one past them are refused |
| Json.KeyOf | models/comment.js:24-31 | a key read from a value is always in the key range; a number reads as a key exactly when it is in range, and then as itself; a string reads as its path-id reading; null and booleans never read as keys |
| Json.ParseId | routes/authors.js:53-55 | a path id the store accepts as a key is non-empty and names a key in the 32-bit range, and is all digits when the key is positive |
| AuthorModel.AuthorRepr | models/author.js:28-35 | `apiRepr` has exactly the keys `id, firstName, lastName, userName`, and reading it back gives the same row |
| AuthorModel.AuthorReprInjective | models/author.js:28-35 | two authors with the same representation are the same row |
| AuthorModel.ApplyAuthorUpdate | routes/authors.js:42-56 | each of `firstName`, `lastName`, `userName` takes the given value when named and is kept otherwise; the id never changes |
| PostModel.PostRepr | models/post.js:27-35 | `apiRepr` has exactly the keys `id, title, createdAt, content, authorId`; `authorId` is the stored `author_id` or null; reading it back gives the same row |
| PostModel.PostReprInjective | models/post.js:27-35 | two posts with the same representation are the same row |
| PostModel.PostReprs | routes/posts.js:8-9 | mapping `apiRepr` over posts gives one representation per post, in order, each reading back to its post |
| PostModel.ApplyPostUpdate | routes/posts.js:51-65 | `title` and `content` take the given value when named and are kept otherwise; id, creation time and author never change |
| CommentModel.CommentRepr | models/comment.js:35-42 | `apiRepr` has exactly the keys `id, comment, createdAt, authorId, postId`, taken from the row's columns, and reading it back gives the same row |
| CommentModel.CommentReprInjective | models/comment.js:35-42 | two comments with the same representation are the same row |
| CommentModel.CommentReprs | routes/authors.js:65-66 | The result has one entry per comment, and entry i reads back to comment i. |
| CommentModel.ApplyCommentUpdate | routes/comments.js:38-52 | `comment` takes the given value when named and is kept otherwise; id, creation time, author and post never change |
| Database.NullColumns | models/post.js:7-15 | the reported columns are empty exactly when no named column is null, and every reported column is named and null |
| Database.NullColumnsAgree | routes/posts.js:51-58 | two rows that agree on the named columns report the same null columns |
| Database.ReadKey | models/comment.js:24-31 | a key value reads as null exactly when it is null; it is refused as an invalid key exactly when it is not null and does not read as a key; otherwise it is that key |
| Database.StoredIdsReadBack | routes/posts.js:12-16 | in a valid store, every row's id written as a path segment reads back as that id |
| Database.UpdateFault | routes/authors.js:51-58 | an update succeeds exactly when no non-null column is set to null and the path id reads as a key |
| Database.Detach | models/author.js:19 | the SET NULL rule clears a post's author exactly when it is the deleted author and changes nothing else |
| Database.Store.constructor | models/author.js:6-16 | the tables start empty, with every counter at 1, and the invariant holds |
| Database.Store.CreateAuthor | models/author.js:6-12 | a null `userName`, then an exhausted id sequence, is refused with nothing changed; otherwise exactly one author is added under the next id and the invariant is kept |
| Database.Store.CreatePost | models/post.js:6-23 | the refusals come in order: null `title`/`content`, an author value that is no key, an exhausted sequence, all with nothing changed. After those the id is drawn: an author key naming no author is refused with only the sequence advanced; otherwise exactly one post is added under the drawn id, its author null or existing |
| Database.Store.CreateComment | models/comment.js:13-31 | the refusals come in order: null columns, an author and then a post value that is no key, an exhausted sequence, all with nothing changed. After those the id is drawn: an author and then a post key naming no row is refused with only the sequence advanced; otherwise exactly one comment is added, referencing existing rows |
| Database.Store.UpdateAuthors | routes/authors.js:51-56 | the reported fault is the update fault; on success only the row under the path id changes, and an unknown id changes nothing |
| Database.Store.UpdatePosts | routes/posts.js:60-65 | the reported fault is the update fault; on success only the row under the path id changes, and an unknown id changes nothing |
| Database.Store.UpdateComments | routes/comments.js:47-52 | the reported fault is the update fault; on success only the row under the path id changes, and an unknown id changes nothing |
| Database.Store.CascadeComments | models/comment.js:24-31 | the CASCADE loop removes exactly the comments owned by the deleted author or post and keeps every other comment as it was |
| Database.Store.DetachPosts | models/author.js:19 | the SET NULL loop keeps every post, clearing the author of exactly the deleted author's posts |
| Database.Store.DeleteAuthor | models/author.js:19-24 | the author goes; every post stays, its author cleared if it was the deleted one; exactly that author's comments go; the invariant is kept |
| Database.Store.DeletePost | models/comment.js:28-31 | the post goes and exactly its comments go; authors stay; the invariant is kept |
| Database.Store.DeleteComment | routes/comments.js:57-63 | only the comment goes; authors and posts are untouched and the invariant is kept |
| Database.Store.LoadComments | routes/authors.js:62-64 | the eager-loaded `comments` relation lists exactly the comments the author or post owns, each once |
| Database.Store.LoadPosts | routes/authors.js:70-72 | the loaded posts are exactly the stored posts (or the author's posts), each once; loading all posts gives as many as are stored |
| RouteRules.FirstMissingUnique | routes/authors.js:12-19 | at most one field is the first missing one |
| RouteRules.CheckRequired | routes/comments.js:8-16 | the loop reports nothing exactly when every required field is a key of the body; otherwise it reports the first missing field, and any field that is first missing is the one reported |
| RouteRules.IdsMatch | routes/authors.js:34 | the check passes exactly when the body has a truthy id whose `toString` equals the path id; the path-id test adds nothing |
| RouteRules.BuildUpdate | routes/comments.js:38-45 | `toUpdate` holds exactly the whitelisted fields present in the body, with the body's values |
| RouteRules.IdsMatchNameSameRow | routes/authors.js:34 | when the id check passes, the body id and the path id read as the same key |
| RouteRules.IdsMatchNumericId | routes/authors.js:34 | a body repeating a non-zero numeric id passes the check against that id's numeral, which reads back as the id in range and is refused outside it |
| RouteRules.IdsMatchIsTextual | routes/authors.js:34 | the check compares text: path id `07` reads as key 7 but fails against body id 7 |
| AuthorRoutes.WhitelistAgrees | routes/authors.js:42-49 | the whitelisted update names only updatable columns and acts on a row, and fails, exactly as the body would |
| AuthorRoutes.Show | routes/authors.js:6-8 | the reply is the author's representation exactly when the path id names an author; otherwise no reply is sent |
| AuthorRoutes.Create | routes/authors.js:10-29 | missing `userName` is reported with nothing created; a null one, then an exhausted sequence, is refused with nothing changed; otherwise the new author carries the body's three fields under the next id, the counter advances by one, and the reply is its representation |
| AuthorRoutes.Update | routes/authors.js:32-59 | the row under the path id is written whether or not the ids match; the reply is 400 on mismatch and otherwise the store's answer |
| AuthorRoutes.CheckedUpdate | routes/authors.js:34-40 | with the `return` added, a mismatch leaves the store unchanged |
| AuthorRoutes.ShowComments | routes/authors.js:61-67 | when the path id names an author, the reply lists the representations of exactly that author's comments, in load order; otherwise no reply is sent |
| AuthorRoutes.ShowPosts | routes/authors.js:69-75 | when the path id names an author, the reply lists the representations of exactly that author's posts, in load order; otherwise no reply is sent |
| PostRoutes.WhitelistAgrees | routes/posts.js:51-58 | the whitelisted update names only `title`/`content` and acts on a row, and fails, exactly as the body would |
| PostRoutes.List | routes/posts.js:7-10 | the reply lists exactly one representation per stored post, as many as there are posts, in load order |
| PostRoutes.Show | routes/posts.js:12-16 | the reply is the post's representation exactly when the path id names a post; otherwise no reply is sent |
| PostRoutes.Create | routes/posts.js:18-41 | the first of `title`, `content`, `authorId` missing is reported with nothing created; otherwise the store's faults in the store's order, a foreign-key fault using up the drawn id, or a new post with the body's title and content and `authorId` as its author |
| PostRoutes.Update | routes/posts.js:43-70 | the row under the path id is written whether or not the ids match; the reply is 400 on mismatch and otherwise the store's answer |
| PostRoutes.CheckedUpdate | routes/posts.js:44-49 | with the `return` added, a mismatch leaves the store unchanged |
| PostRoutes.Destroy | routes/posts.js:72-81 | the post under the path id and exactly its comments go, authors stay; an unreadable id changes nothing |
| PostRoutes.ShowComments | routes/posts.js:83-90 | the reply lists exactly this post's comments in load order; a missing post is caught as a server error |
| CommentRoutes.WhitelistAgrees | routes/comments.js:38-45 | the whitelisted update names only `comment` and acts on a row, and fails, exactly as the body would |
| CommentRoutes.Create | routes/comments.js:6-26 | the first of `comment`, `postId`, `authorId` missing is reported with nothing created; `authorId`/`postId` become `author_id`/`post_id`; the store's faults come in the store's order, a foreign-key fault using up the drawn id; otherwise the new comment references both existing rows |
| CommentRoutes.Update | routes/comments.js:28-55 | the row under the path id is written whether or not the ids match; the reply is 400 on mismatch and otherwise the store's answer |
| CommentRoutes.CheckedUpdate | routes/comments.js:30-36 | with the `return` added, a mismatch leaves the store unchanged |
| CommentRoutes.Destroy | routes/comments.js:57-66 | only the comment under the path id goes; its author and post are unchanged |
| Scenarios.DeleteAuthorWithPostAndComments | models/author.js:19-24 | after an author with a post and three comments is deleted, no comment is left and the post stays with a null author |
| Scenarios.MismatchedAuthorUpdateWrites | routes/authors.js:34-51 | a PUT with no body id gets 400, yet the new `userName` is stored |
| Scenarios.MismatchedAuthorCheckedUpdateKeeps | routes/authors.js:34-40 | the same request against the corrected handler keeps the old `userName` |
| Scenarios.MismatchedPostUpdateWrites | routes/posts.js:44-60 | a PUT whose body names another post gets 400, yet the title is rewritten |
| Scenarios.MismatchedPostCheckedUpdateKeeps | routes/posts.js:44-49 | the same request against the corrected handler keeps the old title |
| Scenarios.MismatchedCommentUpdateWrites | routes/comments.js:30-47 | a PUT with no body id gets 400, yet the comment text is rewritten |
| Scenarios.MismatchedCommentCheckedUpdateKeeps | routes/comments.js:30-36 | the same request against the corrected handler keeps the old text |
| Scenarios.ForeignKeyFaultUsesId | routes/posts.js:29-40 | a post naming a missing author is refused, and the next post created gets id 2, not 1 |
| Scenarios.OutOfRangeDeleteRefused | routes/posts.js:72-80 | DELETE with path id 2147483648 answers a server error and the stored post stays |
| Scenarios.TwoAuthorsInARow | routes/authors.js:10-29 | two POST /authors on a fresh store both succeed, storing authors 1 and 2 |
| Scenarios.KeyOfReadsNumber | models/comment.js:24-31 | key value `5` and numeral `"5"` both read as key 5, and a number past the key range is refused |

## Left out

- HTTP transport is not modelled: Express routing, status codes, JSON
  serialisation, error messages, logging, body parsing and the catch-all 404.
  These live in app.js and in the handlers' `res` calls, and are reduced to
  the `Response` datatype.
- app.js and config.js are not part of this model, beyond config.js
  choosing PostgreSQL. One wires the servers and the other reads environment
  variables.
- Sequelize and the SQL database are modelled only by what they do to the
  three tables. Promises, connections, `sync` and concurrent requests are left
  out, and every request runs to completion before the next one starts.
- Timestamps are not modelled as a clock. `created_at` is the `now`
  parameter, stamped once at creation. `updated_at`, and the authors'
  `created_at` and `updated_at`, appear in no representation and are not
  modelled.
- Text columns hold the JSON value they were given, without the store's
  coercion of numbers or booleans to text.
- Json.ParseId: reads only an optional `-` followed by decimal digits, in the
  32-bit key range. It does not model the database's acceptance of
  surrounding whitespace or a leading `+`.
- Request values are scalars only: null, booleans, integers and strings.
  Arrays and objects in a body are not modelled. For example, body id `[1]`
  would pass the id check against path `1`, because `[1].toString()` is `"1"`.
- Json.ToJsString: writes integers only. JavaScript's numerals for fractions
  and for numbers too large to be exact are out of scope, because `Value` has
  no floating point.
- `NoReply` does not say what then happens to the open request. Timing out
  and the process's unhandled-rejection report are outside the model.
- Store create methods: the source does not fix the check order. The model
  follows the database's stages, reporting only the first fault:
  - Sequelize's not-null validation;
  - reading key values while the statement is prepared, author before post;
  - drawing the id;
  - the foreign-key checks, author before post.
- Load order: the order of `findAll` and of eager-loaded relations is
  unspecified. The model proves only that the reply follows the loaded
  sequence, which holds each related row exactly once.
- Post creation: the spurious `post_id` value passed on Post create
  (routes/posts.js:32) is ignored, because posts have no such column.
- DELETE of authors: no route deletes an author. `Database.Store.DeleteAuthor`
  models only the SET NULL and CASCADE rules of models/author.js:19-24.
- Post deletion: models/post.js:23 declares the post's `comments` relation
  without `onDelete`, while models/comment.js:28-31 declares the comment's
  post key `CASCADE`. The model follows the comment side and deletes a post's
  comments with it.
- Empty required fields are not rejected. The code only checks that a key is
  present, so an empty string is stored.
- test/ is not part of this model. Its tests informed which properties are
  stated.

## Findings

| source | as written | input that shows it | evidently intended | confidence | as-written member | corrected member |
|---|---|---|---|---|---|---|
| routes/authors.js:34-51 | a failed id check sends 400 but does not return, so `Author.update` still runs | PUT /authors/1 with body `{userName: "mallory"}` and no `id` | a mismatch rejects the request and leaves the author unchanged | not executed | Scenarios.MismatchedAuthorUpdateWrites | AuthorRoutes.CheckedUpdate |
| routes/posts.js:44-60 | a failed id check sends 400 but does not return, so `Post.update` still runs | PUT /posts/1 with body `{id: 2, title: "U"}` | a mismatch rejects the request and leaves the post unchanged | not executed | Scenarios.MismatchedPostUpdateWrites | PostRoutes.CheckedUpdate |
| routes/comments.js:30-47 | a failed id check sends 400 but does not return, so `Comment.update` still runs | PUT /comments/1 with body `{comment: "edited"}` and no `id` | a mismatch rejects the request and leaves the comment unchanged | not executed | Scenarios.MismatchedCommentUpdateWrites | CommentRoutes.CheckedUpdate |

/**
 * The `Authors` model: a row of the `authors` table, its non-null column,
 * its wire representation (`apiRepr`) and how a partial update applies to it.
 */
module AuthorModel {
  import opened Wrappers
  import opened Json

  /** A row of the `authors` table. The text columns hold the request value they were given. */
  datatype Author = Author(id: int, firstName: Value, lastName: Value, userName: Value)

  /** `userName` is declared `allowNull: false`; `firstName` and `lastName` are optional. */
  predicate AuthorColumnsSet(a: Author)
  {
    a.userName != Null
  }

  /** The fields an author's wire representation has. */
  const AuthorReprKeys: set<string> := {"id", "firstName", "lastName", "userName"}

  /** `apiRepr`: exactly the four fields, each copied from the row, so the row reads back from it. */
  function AuthorRepr(a: Author): (r: Object)
    ensures r.Keys == AuthorReprKeys
    ensures ReadAuthor(r) == Some(a)
  {
    map["id" := Num(a.id), "firstName" := a.firstName, "lastName" := a.lastName, "userName" := a.userName]
  }

  /** Reads a wire object back, through the wire-facing names, into the row it describes. */
  function ReadAuthor(r: Object): Option<Author>
  {
    if r.Keys == AuthorReprKeys && r["id"].Num? then
      Some(Author(r["id"].n, r["firstName"], r["lastName"], r["userName"]))
    else
      None
  }

  /** Two rows with the same representation are the same row. */
  lemma AuthorReprInjective(a: Author, b: Author)
    requires AuthorRepr(a) == AuthorRepr(b)
    ensures a == b
  {
  }

  /**
   * The store's `update(values)` applied to one author row: each updatable
   * column named in `values` takes the given value; the id never changes.
   */
  function ApplyAuthorUpdate(a: Author, values: Object): (r: Author)
    ensures r.id == a.id
    ensures "firstName" in values ==> r.firstName == values["firstName"]
    ensures "firstName" !in values ==> r.firstName == a.firstName
    ensures "lastName" in values ==> r.lastName == values["lastName"]
    ensures "lastName" !in values ==> r.lastName == a.lastName
    ensures "userName" in values ==> r.userName == values["userName"]
    ensures "userName" !in values ==> r.userName == a.userName
  {
    Author(a.id,
           if "firstName" in values then values["firstName"] else a.firstName,
           if "lastName" in values then values["lastName"] else a.lastName,
           if "userName" in values then values["userName"] else a.userName)
  }
}

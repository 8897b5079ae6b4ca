/**
 * The rows of the four tables of the catalogue database (models/models.py).
 * A row does not carry its own primary key: each table is a map from the
 * integer primary key to the row, so keys are unique by construction.
 * Every child row names its API through an `apiId` foreign-key column. The
 * `comments` and `endpoints` relationships of an API (models/models.py:15-16)
 * have no delete cascade, so deleting an API sets that column to NULL on the
 * endpoints and comments that pointed at it: on those two tables the column
 * is optional. Likes have no relationship and keep their column.
 */
module Models {
  import opened Wrappers

  /** A row of the `apis` table. */
  datatype Api = Api(
    name: string,
    description: string,
    free: bool,
    documentation: string,
    image: Option<string>)

  /** A row of the `endpoints` table; `apiId` references `apis.id`, or is NULL. */
  datatype Endpoint = Endpoint(url: string, httpMethod: string, description: string, apiId: Option<int>)

  /** A row of the `likes` table: which user liked which API. */
  datatype Like = Like(apiId: int, userId: int)

  /** A row of the `comments` table; `apiId` references `apis.id`, or is NULL. */
  datatype Comment = Comment(apiId: Option<int>, content: string)

  /** A row read back from a table together with its primary key. */
  datatype Row<R> = Row(id: int, value: R)

  /**
   * The row built by `models.API(...)` from keyword columns: a column that is
   * not supplied takes its default, which is `True` for `free` and nothing
   * for `image`.
   */
  function NewApi(name: string, description: string, free: Option<bool>, documentation: string): (row: Api)
    ensures row.name == name && row.description == description && row.documentation == documentation
    ensures row.free <==> (free.None? || free.value)
    ensures row.image.None?
  {
    Api(name, description, if free.Some? then free.value else true, documentation, None)
  }
}

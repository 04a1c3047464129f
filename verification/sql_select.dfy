/**
 * The query collaborator (SilverStripe's `SQLSelect`) seen only through the
 * state that `SQLQueryList` reads and writes: its WHERE predicates, its ORDER BY
 * clause and its LIMIT/OFFSET. The query is a value, so a copy of it is already
 * an independent clone. Execution and counting are functions of the query
 * supplied by a `Database`; how SQL is rendered or run is not part of this model.
 */
module SqlSelect {
  import opened Wrappers

  /** One ORDER BY entry: a column with its direction, or a raw "col dir" fragment. */
  datatype OrderItem = Pair(col: string, dir: string) | Raw(text: string)

  /** LIMIT and OFFSET; a missing count means "no limit". */
  datatype Limit = Limit(count: Option<int>, offset: int)

  datatype Query = Query(wheres: seq<string>, orderBy: seq<OrderItem>, limit: Option<Limit>)

  /** A column value of a fetched row. */
  datatype Field = Null | Value(text: string)

  /** A fetched row: column name to value. */
  type Row = map<string, Field>

  /**
   * The backing store: the rows a query yields, in result order, and the
   * number the store's COUNT reports for it.
   */
  datatype Database = Database(execute: Query -> seq<Row>, count: Query -> int)

  /** `addWhere`: one more predicate, ANDed with the ones already there. */
  function AddWhere(q: Query, filter: string): Query
  {
    q.(wheres := q.wheres + [filter])
  }

  /** `setOrderBy()` with no argument: no ordering at all. */
  function ClearOrderBy(q: Query): Query
  {
    q.(orderBy := [])
  }

  /** `setOrderBy($col, $dir)`: this pair becomes the whole ordering. */
  function SetOrderBy(q: Query, col: string, dir: string): Query
  {
    q.(orderBy := [Pair(col, dir)])
  }

  /** `setOrderBy($fragment)`: the raw fragment becomes the whole ordering. */
  function SetOrderByRaw(q: Query, fragment: string): Query
  {
    q.(orderBy := [Raw(fragment)])
  }

  /** `addOrderBy($col, $dir)`: this pair is appended to the ordering. */
  function AddOrderBy(q: Query, col: string, dir: string): Query
  {
    q.(orderBy := q.orderBy + [Pair(col, dir)])
  }

  /** `setLimit($limit, $offset)`. */
  function SetLimit(q: Query, count: Option<int>, offset: int): Query
  {
    q.(limit := Some(Limit(count, offset)))
  }

  /** `firstRow()`: a copy restricted to one row, keeping the offset. */
  function FirstRow(q: Query): Query
  {
    var offset := if q.limit.Some? then q.limit.value.offset else 0;
    SetLimit(q, Some(1), offset)
  }

  /**
   * The query returns every row: no limit at all, or `setLimit(null, 0)`,
   * which sets no row count and no offset.
   */
  predicate Unlimited(q: Query)
  {
    q.limit.None? || (q.limit.value.count.None? && q.limit.value.offset == 0)
  }

  /** The store's COUNT agrees with the number of rows of an unlimited query. */
  ghost predicate CountsRows(db: Database)
  {
    forall q: Query :: Unlimited(q) ==> db.count(q) == |db.execute(q)|
  }

  /**
   * For an unlimited query, the store's answer to its one-row restriction is
   * the first row of its full answer.
   */
  ghost predicate FetchesFirstRow(db: Database)
  {
    forall q: Query :: Unlimited(q) ==>
      db.execute(FirstRow(q)) == (if db.execute(q) == [] then [] else [db.execute(q)[0]])
  }
}

# SQLQueryList, modelled in Dafny

`SQLQueryList` (SilverShop) presents a SilverStripe `SQLSelect` as a read-only,
sortable list. Sorting, filtering and limiting rewrite the held query in place
and return the same list. Reading (`toArray`, `first`, `find`, `count`)
executes the query. Each fetched row goes through the caller's output closure,
or is wrapped in a default `ArrayData` record when no closure is set. The
21 collection operations it does not implement (`toNestedArray`, `add`,
`remove`, `last`, `map`, `column`, `columnUnique`, `each`, `canFilterBy`,
`filter`, `filterAny`, `exclude`, `excludeAny`, `filterByCallback`, `byID`,
`byIDs`, `offsetExists`, `offsetGet`, `offsetSet`, `offsetUnset`, `reverse`)
are refused with a `user_error` that names them.

The model has four modules:

- `Wrappers` holds `Option` and `Result`.
- `PhpString` holds the PHP primitives that `sort` depends on. These are
  `strtolower` (ASCII only, as in PHP 8.2 and later), case-insensitive `stristr`, and the
  truthiness of a string (`""` and `"0"` are false).
- `SqlSelect` holds the query as a value. The value has `wheres`, an `orderBy`
  made of `Pair(col, dir)` or `Raw(text)` items, and an optional
  `Limit(count, offset)`. The module also has the collaborator updates the list
  calls (`addWhere`, `setOrderBy`, `addOrderBy`, `setLimit`, `firstRow`). A
  `Database` gives the rows a query yields and its count.
- `QueryList` holds the class `SQLQueryList<T>`. Its mutable fields are
  `query` and `outputClosure`.

`Scenarios` holds client methods that use only the class's contracts.

The query is a value, so the copy that `__clone`, `find` and `firstRow` make
is independent of the original by construction. `Convert::raw2sql` is a
parameter `esc: string -> string` of `Find`, and the model assumes nothing
about it. The database is a parameter of each reading method. `sort`'s
variadic arguments are a tagged value: `NoArgs`, `One(Str | Mapping | Other)`,
`Two(col, dir)` or `TooMany`.

## Model

| member | source | states |
|---|---|---|
| `PhpString.Lower` | src/SQLQueryList.php:224 | `strtolower` keeps the length and lower-cases each character on its own |
| `PhpString.LowerIdempotent` | src/SQLQueryList.php:224 | lower-casing an already lower-cased string changes nothing |
| `PhpString.LowerAppend` | src/SQLQueryList.php:231 | lower-casing distributes over concatenation |
| `PhpString.ContainsIff` | src/SQLQueryList.php:231 | the substring search succeeds exactly when the needle occurs at some position (both directions) |
| `PhpString.DirectionIgnoresCase` | src/SQLQueryList.php:224 | two strings that lower-case alike get the same verdict from the direction test, and a string gets the same verdict as its lower-cased form |
| `PhpString.SuffixedColumnHasDirection` | src/SQLQueryList.php:229-232 | a column followed by a space and ASC or DESC, in any case, is detected as carrying a direction |
| `PhpString.NoSpaceNoDirection` | src/SQLQueryList.php:229-235 | a string without a space never carries a direction, so `sort` orders it ascending |
| `QueryList.FindPredicateRoundTrip` | src/SQLQueryList.php:95-98 | when the escaped key has no double quote, the key and the value can be read back from `find`'s `"key" = 'value'` predicate |
| `QueryList.ParseFindPredicateSound` | src/SQLQueryList.php:95-98 | whatever reads back as a key and a value is exactly `find`'s predicate for them, and the key contains no double quote |
| `QueryList.UnsupportedMessageNamesOperation` | src/SQLQueryList.php:61-254 | every refusal message (the stubs at 61-74, 83-91, 105-182 and 251-254) identifies its operation, so no two unsupported operations report the same message |
| `PhpString.Truthy` | src/SQLQueryList.php:222-229 | definition: PHP's truthiness of a string, false only for `""` and `"0"` (the tests `if ($col)` and `is_string($sort) && $sort`) |
| `PhpString.Contains` | src/SQLQueryList.php:231 | definition: case-sensitive substring search scanning from the left, characterised by `ContainsIff` |
| `PhpString.ContainsIgnoringCase` | src/SQLQueryList.php:231 | definition: the lower-cased needle occurs in the lower-cased string; for a needle other than "" and "0", such as " asc" and " desc", this is exactly when `stristr` is truthy |
| `PhpString.HasDirection` | src/SQLQueryList.php:231 | definition: the string contains " asc" or " desc", ignoring case |
| `PhpString.IsDirection` | src/SQLQueryList.php:224 | definition: the lower-cased direction is "asc" or "desc" |
| `QueryList.IsNoOp` | src/SQLQueryList.php:204-236 | definition: the argument shapes for which `sort` changes nothing (no arguments; a falsy string; a non-string, non-array argument; a falsy column) |
| `QueryList.FindPredicate` | src/SQLQueryList.php:95-98 | definition: `find`'s predicate, the escaped key in double quotes, then ` = '`, the escaped value and a closing quote |
| `QueryList.Operation.Name` | src/SQLQueryList.php:61-254 | definition: the method name each refusal message reports |
| `QueryList.UnsupportedMessage` | src/SQLQueryList.php:61-254 | definition: "SQLQueryList doesn't implement " followed by the operation's name |
| `QueryList.SQLQueryList.FirstAsWritten` | src/SQLQueryList.php:76-81 | `first()` as the code stands: the first row's output, or a "none returned" TypeError exactly when the one-row query yields no row |
| `QueryList.SQLQueryList.FindAsWritten` | src/SQLQueryList.php:93-103 | `find()` as the code stands: the first matching row's output, or a "none returned" TypeError exactly when the lookup yields no row |
| `QueryList.SQLQueryList.constructor` | src/SQLQueryList.php:30-33 | a new list holds the given query and has no output closure |
| `QueryList.SQLQueryList.ToArray` | src/SQLQueryList.php:36-45 | one output per executed row, in row order, each the output object for that row |
| `QueryList.SQLQueryList.SetOutputClosure` | src/SQLQueryList.php:47-50 | the closure is set and the query is unchanged |
| `QueryList.SQLQueryList.CreateOutputObject` | src/SQLQueryList.php:52-59 | the result is the closure applied to the row when a closure is set, and otherwise the default record of exactly that row |
| `QueryList.SQLQueryList.First` | src/SQLQueryList.php:76-81 | the corrected `first()`, with an explicit `return null`: nothing exactly when the one-row query yields no row, otherwise the output of its first row; for an unlimited query on a store that serves `firstRow` faithfully, this is the first row of the full result; the list's query is not touched |
| `QueryList.SQLQueryList.Find` | src/SQLQueryList.php:93-103 | the corrected `find()`, with an explicit `return null`: the lookup runs on a copy of the query with the extra predicate `"esc(key)" = 'esc(value)'` and the same ordering and limit; it returns nothing exactly when that copy yields no row; the list's own query is not touched |
| `QueryList.SQLQueryList.Count` | src/SQLQueryList.php:185-188 | the store's count; for an unlimited query on a consistent store, this equals the number of rows `toArray` returns |
| `QueryList.SQLQueryList.CanSortBy` | src/SQLQueryList.php:197-200 | sorting is always reported as possible |
| `QueryList.SQLQueryList.Sort` | src/SQLQueryList.php:202-249 | returns the same list unless it fails; a failure leaves the query unchanged; no arguments, a falsy or non-string single argument, or a falsy column change nothing; more than two arguments fail; `(col, dir)` fails unless `dir` is asc/desc in any case and otherwise makes `[(col, dir)]` the whole ordering; a string with " asc"/" desc" in any case becomes the raw ordering, any other string becomes `[(s, ASC)]`; a mapping becomes exactly its pairs in order; predicates, limit and closure never change |
| `QueryList.SQLQueryList.Limit` | src/SQLQueryList.php:256-261 | returns the same list; only the limit changes, to `(count, offset)` |
| `QueryList.SQLQueryList.Where` | src/SQLQueryList.php:263-268 | returns the same list; the filter is appended after all earlier predicates; ordering and limit are unchanged |
| `QueryList.SQLQueryList.Clone` | src/SQLQueryList.php:275-278 | a new list holding an equal but independent query and the same closure |
| `QueryList.SQLQueryList.Refuse` | src/SQLQueryList.php:61-254 | an unsupported operation (the stubs at 61-74, 83-91, 105-182 and 251-254) fails with an error that names it and leaves the list unchanged |
| `Scenarios.SortByColumn` | src/SQLQueryList.php:222-228 | `sort("Name", "desc")` orders by that pair alone; `sort("Name", "sideways")` is refused |
| `Scenarios.SortByFragment` | src/SQLQueryList.php:229-232 | `sort("Name ASC")` is passed through as a raw fragment |
| `Scenarios.SortByBareColumn` | src/SQLQueryList.php:233-235 | `sort("Name")` orders ascending on `Name` |
| `Scenarios.SortNoOps` | src/SQLQueryList.php:204-236 | no arguments, `"0"`, a non-string and an empty column leave the query unchanged; three arguments are refused |
| `Scenarios.SortByMapping` | src/SQLQueryList.php:236-245 | a mapping replaces an earlier ordering with its own pairs, in order |
| `Scenarios.CloneIsIndependent` | src/SQLQueryList.php:275-278 | after a clone, a filter on the copy and a sort on the original leave the other list's query as it was |
| `Scenarios.LookupsLeaveQuery` | src/SQLQueryList.php:76-103 | on an empty result, the corrected `find` and `first` return nothing, and the list's query is unchanged |
| `Scenarios.AsWrittenLookupsFailWhenEmpty` | src/SQLQueryList.php:76-103 | on an empty result, `find` and `first` as written both fail with the "none returned" TypeError |

## Left out

- Running SQL, and the errors a store raises when it fails. Rows and counts
  come from the `Database` parameter. An execution failure is not modelled.
- `sql()` (src/SQLQueryList.php:270-273). Rendering belongs to `SQLSelect`.
  The `query` field is the state that the rendering would show.
- `getIterator` (src/SQLQueryList.php:191-194). It only wraps `toArray` in an
  `ArrayIterator`.
- The internals of `SQLSelect`, which is not part of this model. Its updates
  are the abstract state changes in the `SqlSelect` module. The model does not
  parse a raw "Name DESC" fragment into a column and a direction. It does not
  validate negative limits. It does not merge repeated `addOrderBy` columns.
  `firstRow()` is modelled as a copy limited to one row that keeps the current
  offset.
- The escaping done by `Convert::raw2sql`. It is an arbitrary function
  parameter.
- The `ArrayData` record. It is the constructor `Record(row)`.
- Sort: with an invalid direction, `sort(col, dir)` is a failure that changes
  nothing. In PHP a notice-level `user_error` may let execution continue, and
  the code would then still call `setOrderBy(col, dir)`. The model claims
  nothing about that continued path.
- Refuse: PHP `user_error` semantics are not modelled. Each unsupported stub
  (src/SQLQueryList.php:61-74, 83-91, 105-182, 251-254) is one `Refuse(op)`
  failure that names the operation. `map` is the constructor `MapTo`.
- Argument types that are not strings. `sort`'s column, direction and
  mapping keys are strings. An integer array key, as in `sort(['Name'])`, is
  not modelled, and neither is a non-string column in the two-argument form.
  `find`'s value is a string, so other scalars must be converted to strings
  first. PHP turns numeric-string array keys such as `"12"` or `"0"` into
  integers, so a `Mapping` holding such a key describes an array that PHP
  cannot build. A PHP array never repeats a key, so the columns of a real
  `Mapping` are pairwise distinct; the model does not require this, and for a
  sequence that repeats a column `Sort` builds two pairs for it.
- constructor: the PHP list keeps the caller's `SQLSelect` object itself
  (src/SQLQueryList.php:32), not a copy. `sort`, `where` and `limit` on the list
  therefore also change the caller's object, and the caller's later changes
  show up in the list. The query here is a value, so this sharing is not
  modelled.
- Find: leaves the list's query unchanged by construction, because the query
  is a value. The model cannot show why the `clone` at src/SQLQueryList.php:97
  is needed against a shared, mutable `SQLSelect`.
- Clone: the copy's independence holds by construction for the same reason.
  The model cannot show why the deep `clone` at src/SQLQueryList.php:277 is
  needed.
- `setOutputClosure` takes a non-nullable `Closure`, so nothing resets a list
  to the default record once a closure is set. The model follows the code.
- Count: relates to `toArray` only for unlimited queries (no limit, or
  `limit(null)` with offset 0) on a store whose
  count agrees with its rows, because the count itself is the store's.
- First: relates to the first row of `toArray` only for unlimited queries (no
  limit, or `limit(null)` with offset 0), on
  a store whose one-row answer is the first row of its full answer.

## Findings

| source | as written | input that shows it | evidently intended | confidence | as-written member | corrected member |
|---|---|---|---|---|---|---|
| src/SQLQueryList.php:76-81 | `first(): mixed` has no `return` after its `foreach`, so with no row it ends without a value, which PHP 8 rejects as a TypeError ("must be of type mixed, none returned") | a store whose one-row query yields no rows, e.g. `Database(_ => [], _ => 0)` | return null ("no result") when no row comes back | high, not executed | `QueryList.SQLQueryList.FirstAsWritten` (shown failing by `Scenarios.AsWrittenLookupsFailWhenEmpty`) | `QueryList.SQLQueryList.First` |
| src/SQLQueryList.php:93-103 | `find(): mixed` has the same missing final `return` | a lookup on a store with no matching row, e.g. `Database(_ => [], _ => 0)` | return null when nothing matches | high, not executed | `QueryList.SQLQueryList.FindAsWritten` (shown failing by `Scenarios.AsWrittenLookupsFailWhenEmpty`) | `QueryList.SQLQueryList.Find` |

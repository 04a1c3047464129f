/**
 * `SQLQueryList`: a read-only, sortable collection backed by a mutable SQL
 * SELECT. Sorting, filtering and limiting rewrite the held query in place and
 * hand back the same list; reading executes the query and passes each row
 * through the output closure, or wraps it in the default record.
 */
module QueryList {
  import opened Wrappers
  import opened PhpString
  import opened SqlSelect

  /** What a list hands out for a row: the default record, or the closure's result. */
  datatype Output<T> = Record(fields: Row) | Custom(value: T)

  /** The arguments `sort` receives, by number and shape. */
  datatype SortArgs =
    | NoArgs
    | One(arg: SortArg)
    | Two(col: string, dir: string)
    | TooMany

  /** The one argument of `sort(...)`. */
  datatype SortArg =
    | Str(s: string)
    | Mapping(pairs: seq<(string, string)>)   // an array, column => direction, in iteration order;
                                              // a PHP array never repeats a column
    | Other                                   // null, a number, an object, ...

  /** The collection operations the list refuses to perform. */
  datatype Operation =
    | ToNestedArray | Add | Remove | Last | MapTo | Column | ColumnUnique | Each
    | CanFilterBy | Filter | FilterAny | Exclude | ExcludeAny | FilterByCallback
    | ByID | ByIDs | OffsetExists | OffsetGet | OffsetSet | OffsetUnset | Reverse
  {
    /** The method name the error message reports. */
    function Name(): string
    {
      match this
      case ToNestedArray => "toNestedArray"
      case Add => "add"
      case Remove => "remove"
      case Last => "last"
      case MapTo => "map"
      case Column => "column"
      case ColumnUnique => "columnUnique"
      case Each => "each"
      case CanFilterBy => "canFilterBy"
      case Filter => "filter"
      case FilterAny => "filterAny"
      case Exclude => "exclude"
      case ExcludeAny => "excludeAny"
      case FilterByCallback => "filterByCallback"
      case ByID => "byID"
      case ByIDs => "byIDs"
      case OffsetExists => "offsetExists"
      case OffsetGet => "offsetGet"
      case OffsetSet => "offsetSet"
      case OffsetUnset => "offsetUnset"
      case Reverse => "reverse"
    }
  }

  datatype Error =
    | TooManyArguments                // InvalidArgumentException from sort
    | InvalidDirection(dir: string)   // user_error from sort(col, dir)
    | Unsupported(op: Operation)      // user_error from an unimplemented operation
    | NoneReturned                    // TypeError: a `mixed` function ended without a return

  const UnsupportedPrefix := "SQLQueryList doesn't implement "

  /** The message an unimplemented operation reports. */
  function UnsupportedMessage(op: Operation): string
  {
    UnsupportedPrefix + op.Name()
  }

  /** The operation an error message names, if it names one. */
  function OperationOf(message: string): Option<Operation>
  {
    if |message| < |UnsupportedPrefix| || message[..|UnsupportedPrefix|] != UnsupportedPrefix then None
    else
      var name := message[|UnsupportedPrefix|..];
      if name == "toNestedArray" then Some(ToNestedArray)
      else if name == "add" then Some(Add)
      else if name == "remove" then Some(Remove)
      else if name == "last" then Some(Last)
      else if name == "map" then Some(MapTo)
      else if name == "column" then Some(Column)
      else if name == "columnUnique" then Some(ColumnUnique)
      else if name == "each" then Some(Each)
      else if name == "canFilterBy" then Some(CanFilterBy)
      else if name == "filter" then Some(Filter)
      else if name == "filterAny" then Some(FilterAny)
      else if name == "exclude" then Some(Exclude)
      else if name == "excludeAny" then Some(ExcludeAny)
      else if name == "filterByCallback" then Some(FilterByCallback)
      else if name == "byID" then Some(ByID)
      else if name == "byIDs" then Some(ByIDs)
      else if name == "offsetExists" then Some(OffsetExists)
      else if name == "offsetGet" then Some(OffsetGet)
      else if name == "offsetSet" then Some(OffsetSet)
      else if name == "offsetUnset" then Some(OffsetUnset)
      else if name == "reverse" then Some(Reverse)
      else None
  }

  /** Each refusal message names its operation, so no two operations share one. */
  lemma UnsupportedMessageNamesOperation(op: Operation)
    ensures OperationOf(UnsupportedMessage(op)) == Some(op)
  {
    var m := UnsupportedMessage(op);
    assert m[..|UnsupportedPrefix|] == UnsupportedPrefix;
    assert m[|UnsupportedPrefix|..] == op.Name();
  }

  /** `sort` leaves the ordering alone: no arguments, or a falsy or unusable one. */
  predicate IsNoOp(args: SortArgs)
  {
    || args.NoArgs?
    || (args.One? && args.arg.Str? && !Truthy(args.arg.s))
    || (args.One? && args.arg.Other?)
    || (args.Two? && !Truthy(args.col))
  }

  /** `find`'s predicate `"<key>" = '<value>'`, from the already escaped key and value. */
  function FindPredicate(escKey: string, escValue: string): string
  {
    "\"" + escKey + "\" = '" + escValue + "'"
  }

  /** The text between the quotes that `find` puts around the key and the value. */
  function ParseFindPredicate(p: string): Option<(string, string)>
  {
    if |p| < 7 || p[0] != '"' then None
    else
      var rest := p[1..];
      var k := IndexOf(rest, '"');
      if k + 5 < |rest| && rest[k..k + 5] == "\" = '" && rest[|rest| - 1] == '\'' then
        Some((rest[..k], rest[k + 5..|rest| - 1]))
      else None
  }

  /** An escaped key without a double quote can be read back from `find`'s predicate. */
  lemma FindPredicateRoundTrip(escKey: string, escValue: string)
    requires '"' !in escKey
    ensures ParseFindPredicate(FindPredicate(escKey, escValue)) == Some((escKey, escValue))
  {
    var p := FindPredicate(escKey, escValue);
    var sep, tail := "\" = '", escValue + "'";
    var rest := p[1..];
    assert rest == escKey + sep + tail;
    var k := IndexOf(rest, '"');
    assert rest[|escKey|] == '"';
    assert forall i :: 0 <= i < |escKey| ==> rest[i] == escKey[i];
    assert k == |escKey|;
    assert rest[k..k + 5] == sep by {
      forall i | 0 <= i < 5 ensures rest[k..k + 5][i] == sep[i] {
        assert rest[k + i] == (escKey + sep + tail)[|escKey| + i] == sep[i];
      }
    }
    assert rest[..k] == escKey;
    assert rest[k + 5..|rest| - 1] == escValue;
  }

  /** Whatever reads back as a key and a value is exactly `find`'s predicate for them. */
  lemma ParseFindPredicateSound(p: string)
    requires ParseFindPredicate(p).Some?
    ensures var (escKey, escValue) := ParseFindPredicate(p).value;
      '"' !in escKey && FindPredicate(escKey, escValue) == p
  {
    var rest := p[1..];
    var k := IndexOf(rest, '"');
    var escKey, escValue := rest[..k], rest[k + 5..|rest| - 1];
    assert '"' !in escKey by {
      forall i | 0 <= i < |escKey| ensures escKey[i] != '"' {
        assert escKey[i] == rest[i];
      }
    }
    assert rest == escKey + rest[k..k + 5] + escValue + [rest[|rest| - 1]];
    assert p == [p[0]] + rest;
  }

  class SQLQueryList<T> {
    var query: Query
    var outputClosure: Option<Row -> T>

    constructor (q: Query)
      ensures query == q && outputClosure == None
    {
      query := q;
      outputClosure := None;
    }

    /** The object handed out for a fetched row. */
    function CreateOutputObject(row: Row): (o: Output<T>)
      reads this
      ensures o.Record? <==> outputClosure.None?
      ensures o.Record? ==> o.fields == row
      ensures o.Custom? ==> o.value == outputClosure.value(row)
    {
      match outputClosure
      case Some(closure) => Custom(closure(row))
      case None => Record(row)
    }

    /** Executes the query and hands out one object per row, in row order. */
    method ToArray(db: Database) returns (results: seq<Output<T>>)
      ensures |results| == |db.execute(query)|
      ensures forall i :: 0 <= i < |results| ==> results[i] == CreateOutputObject(db.execute(query)[i])
    {
      var rows := db.execute(query);
      results := [];
      for i := 0 to |rows|
        invariant |results| == i
        invariant forall k :: 0 <= k < i ==> results[k] == CreateOutputObject(rows[k])
      {
        results := results + [CreateOutputObject(rows[i])];
      }
    }

    method SetOutputClosure(closure: Row -> T)
      modifies this
      ensures outputClosure == Some(closure) && query == old(query)
    {
      outputClosure := Some(closure);
    }

    /**
     * The object for the first row of the query, or nothing when it yields
     * none: `first()` with the `return null` its `mixed` type calls for.
     */
    method First(db: Database) returns (r: Option<Output<T>>)
      ensures var rows := db.execute(FirstRow(query));
        && (r.None? <==> rows == [])
        && (r.Some? ==> r.value == CreateOutputObject(rows[0]))
      ensures FetchesFirstRow(db) && Unlimited(query) ==>
        var all := db.execute(query);
        r == if all == [] then None else Some(CreateOutputObject(all[0]))
    {
      var rows := db.execute(FirstRow(query));
      if |rows| > 0 {
        r := Some(CreateOutputObject(rows[0]));
      } else {
        r := None;
      }
    }

    /**
     * `first()` as the code stands: the `foreach` returns from its first
     * iteration, and with no row the `mixed` function ends without a return,
     * which PHP 8 reports as a TypeError.
     */
    method FirstAsWritten(db: Database) returns (r: Result<Output<T>, Error>)
      ensures var rows := db.execute(FirstRow(query));
        && (r.Failure? <==> rows == [])
        && (r.Failure? ==> r.error == NoneReturned)
        && (r.Success? ==> r.value == CreateOutputObject(rows[0]))
    {
      var rows := db.execute(FirstRow(query));
      if |rows| > 0 {
        return Success(CreateOutputObject(rows[0]));
      }
      return Failure(NoneReturned);
    }

    /** `find()` as the code stands: with no matching row it ends without a return. */
    method FindAsWritten(key: string, value: string, esc: string -> string, db: Database) returns (r: Result<Output<T>, Error>)
      ensures var rows := db.execute(FirstRow(AddWhere(query, FindPredicate(esc(key), esc(value)))));
        && (r.Failure? <==> rows == [])
        && (r.Failure? ==> r.error == NoneReturned)
        && (r.Success? ==> r.value == CreateOutputObject(rows[0]))
    {
      var col := "\"" + esc(key) + "\"";
      var q := query;
      q := AddWhere(q, col + " = '" + esc(value) + "'");
      assert col + " = '" + esc(value) + "'" == FindPredicate(esc(key), esc(value));
      var rows := db.execute(FirstRow(q));
      if |rows| > 0 {
        return Success(CreateOutputObject(rows[0]));
      }
      return Failure(NoneReturned);
    }

    /**
     * The object for the first row whose column `key` equals `value`, looked up
     * on a copy of the query; `esc` is the store's escaping of a string. With no
     * match it returns nothing, as `find()` would with a final `return null`.
     */
    method Find(key: string, value: string, esc: string -> string, db: Database) returns (r: Option<Output<T>>)
      ensures var q := query.(wheres := query.wheres + [FindPredicate(esc(key), esc(value))]);
        var rows := db.execute(FirstRow(q));
        && (r.None? <==> rows == [])
        && (r.Some? ==> r.value == CreateOutputObject(rows[0]))
    {
      var col := "\"" + esc(key) + "\"";
      var q := query;
      q := AddWhere(q, col + " = '" + esc(value) + "'");
      assert col + " = '" + esc(value) + "'" == FindPredicate(esc(key), esc(value));
      var rows := db.execute(FirstRow(q));
      if |rows| > 0 {
        r := Some(CreateOutputObject(rows[0]));
      } else {
        r := None;
      }
    }

    /** The store's count for the query. */
    method Count(db: Database) returns (n: int)
      ensures n == db.count(query)
      ensures CountsRows(db) && Unlimited(query) ==> n == |db.execute(query)|
    {
      n := db.count(query);
    }

    /** Sorting is always possible: it is left to the query. */
    function CanSortBy(column: string): (b: bool)
      ensures b
    {
      true
    }

    method Sort(args: SortArgs) returns (r: Result<SQLQueryList<T>, Error>)
      modifies this
      ensures outputClosure == old(outputClosure)
      ensures query.wheres == old(query.wheres) && query.limit == old(query.limit)
      ensures r.Success? ==> r.value == this
      ensures r.Failure? ==> query == old(query)
      ensures IsNoOp(args) ==> r == Success(this) && query == old(query)
      ensures args.TooMany? ==> r == Failure(TooManyArguments)
      ensures args.Two? && Truthy(args.col) ==>
        if IsDirection(args.dir) then r.Success? && query.orderBy == [Pair(args.col, args.dir)]
        else r == Failure(InvalidDirection(args.dir))
      ensures args.One? && args.arg.Str? && Truthy(args.arg.s) ==>
        r.Success? && query.orderBy == if HasDirection(args.arg.s) then [Raw(args.arg.s)] else [Pair(args.arg.s, "ASC")]
      ensures args.One? && args.arg.Mapping? ==>
        var pairs := args.arg.pairs;
        && r.Success?
        && |query.orderBy| == |pairs|
        && forall i :: 0 <= i < |pairs| ==> query.orderBy[i] == Pair(pairs[i].0, pairs[i].1)
    {
      match args {
      case NoArgs =>
        return Success(this);
      case TooMany =>
        return Failure(TooManyArguments);
      case Two(col, dir) =>
        if Truthy(col) {
          if !IsDirection(dir) {
            return Failure(InvalidDirection(dir));
          }
          query := SetOrderBy(query, col, dir);
        }
      case One(Str(s)) =>
        if Truthy(s) {
          if HasDirection(s) {
            query := SetOrderByRaw(query, s);
          } else {
            query := SetOrderBy(query, s, "ASC");
          }
        }
      case One(Mapping(pairs)) =>
        query := ClearOrderBy(query);
        for i := 0 to |pairs|
          invariant outputClosure == old(outputClosure)
          invariant query.wheres == old(query.wheres) && query.limit == old(query.limit)
          invariant |query.orderBy| == i
          invariant forall k :: 0 <= k < i ==> query.orderBy[k] == Pair(pairs[k].0, pairs[k].1)
        {
          var (col, dir) := pairs[i];
          query := AddOrderBy(query, col, dir);
        }
      case One(Other) =>
      }
      return Success(this);
    }

    method Limit(count: Option<int>, offset: int) returns (self: SQLQueryList<T>)
      modifies this
      ensures self == this && outputClosure == old(outputClosure)
      ensures query == old(query).(limit := Some(SqlSelect.Limit(count, offset)))
    {
      query := SetLimit(query, count, offset);
      return this;
    }

    method Where(filter: string) returns (self: SQLQueryList<T>)
      modifies this
      ensures self == this && outputClosure == old(outputClosure)
      ensures query.wheres == old(query.wheres) + [filter]
      ensures query.orderBy == old(query.orderBy) && query.limit == old(query.limit)
    {
      query := AddWhere(query, filter);
      return this;
    }

    /** PHP's `clone`: a new list with its own copy of the query and the same closure. */
    method Clone() returns (c: SQLQueryList<T>)
      ensures fresh(c)
      ensures c.query == query && c.outputClosure == outputClosure
    {
      c := new SQLQueryList(query);
      c.outputClosure := outputClosure;
    }

    /** Any unimplemented operation: refused, naming the operation, with the list untouched. */
    method Refuse(op: Operation) returns (e: Error)
      ensures e == Unsupported(op)
      ensures OperationOf(UnsupportedMessage(e.op)) == Some(op)
    {
      UnsupportedMessageNamesOperation(op);
      e := Unsupported(op);
    }
  }
}

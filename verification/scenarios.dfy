/**
 * Clients of `SQLQueryList` that use nothing but its contracts: the behaviour a
 * caller sees from sorting, cloning and the one-row lookups.
 */
module Scenarios {
  import opened Wrappers
  import opened PhpString
  import opened SqlSelect
  import opened QueryList

  /** `sort("Name", "desc")` sets that one pair; a bad direction is refused and changes nothing. */
  method SortByColumn(q: Query) returns (list: SQLQueryList<int>, refused: Result<SQLQueryList<int>, Error>)
    ensures list.query == q.(orderBy := [Pair("Name", "desc")])
    ensures refused == Failure(InvalidDirection("sideways"))
  {
    list := new SQLQueryList(q);
    assert Lower("desc") == "desc";
    var r := list.Sort(Two("Name", "desc"));
    assert Lower("sideways") == "sideways";
    refused := list.Sort(Two("Name", "sideways"));
  }

  /** `sort("Name ASC")` is passed through as it is. */
  method SortByFragment(q: Query) returns (list: SQLQueryList<int>)
    ensures list.query.orderBy == [Raw("Name ASC")]
  {
    list := new SQLQueryList(q);
    assert "Name ASC" == "Name" + " " + "ASC";
    assert Lower("ASC") == "asc";
    SuffixedColumnHasDirection("Name", "ASC");
    var r := list.Sort(One(Str("Name ASC")));
  }

  /** `sort("Name")` sorts ascending on that column. */
  method SortByBareColumn(q: Query) returns (list: SQLQueryList<int>)
    ensures list.query.orderBy == [Pair("Name", "ASC")]
  {
    list := new SQLQueryList(q);
    NoSpaceNoDirection("Name");
    var r := list.Sort(One(Str("Name")));
  }

  /** No arguments, "0" and a non-string leave the ordering; three arguments are refused. */
  method SortNoOps(q: Query) returns (list: SQLQueryList<int>, refused: Result<SQLQueryList<int>, Error>)
    ensures list.query == q
    ensures refused == Failure(TooManyArguments)
  {
    list := new SQLQueryList(q);
    var r := list.Sort(NoArgs);
    r := list.Sort(One(Str("0")));
    r := list.Sort(One(Other));
    r := list.Sort(Two("", "desc"));
    refused := list.Sort(TooMany);
  }

  /** An array replaces the whole ordering with its pairs, in order. */
  method SortByMapping(q: Query) returns (list: SQLQueryList<int>)
    ensures list.query == q.(orderBy := [Pair("Name", "desc"), Pair("ID", "asc")])
  {
    list := new SQLQueryList(q);
    var r := list.Sort(One(Mapping([("Title", "asc")])));
    r := list.Sort(One(Mapping([("Name", "desc"), ("ID", "asc")])));
  }

  /** After a clone, changing either list leaves the other one's query as it was. */
  method CloneIsIndependent(q: Query, filter: string) returns (original: SQLQueryList<int>, copy: SQLQueryList<int>)
    ensures original != copy
    ensures original.query == q.(orderBy := [Pair("ID", "DESC")])
    ensures copy.query == q.(wheres := q.wheres + [filter])
  {
    original := new SQLQueryList(q);
    copy := original.Clone();
    var self := copy.Where(filter);
    assert Lower("DESC") == "desc";
    var r := original.Sort(Two("ID", "DESC"));
  }

  /** `find` and `first` answer from copies of the query and say "nothing" on no rows. */
  method LookupsLeaveQuery(q: Query, esc: string -> string) returns (list: SQLQueryList<int>, found: Option<Output<int>>, first: Option<Output<int>>)
    ensures list.query == q
    ensures found == None && first == None
  {
    var empty := Database(_ => [], _ => 0);
    list := new SQLQueryList(q);
    found := list.Find("Email", "a@example.com", esc, empty);
    first := list.First(empty);
  }

  /** On a store with no rows, `find` and `first` as written end in a TypeError. */
  method AsWrittenLookupsFailWhenEmpty(q: Query, esc: string -> string) returns (found: Result<Output<int>, Error>, first: Result<Output<int>, Error>)
    ensures found == Failure(NoneReturned) && first == Failure(NoneReturned)
  {
    var empty := Database(_ => [], _ => 0);
    var list := new SQLQueryList<int>(q);
    found := list.FindAsWritten("Email", "a@example.com", esc, empty);
    first := list.FirstAsWritten(empty);
  }
}

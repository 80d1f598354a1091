/** The `item` table of the relational store, as the repositories see it: rows kept in insertion
    order, identifiers generated from an increasing counter, and the four statement shapes the
    repositories issue (insert with generated key, update by id, select by id, search select). */
module ItemTable {
  import opened Wrappers
  import opened Text
  import opened Domain
  import opened SearchSql

  /** A row: columns id, item_name, price, quantity. */
  datatype Row = Row(id: int, itemName: string, price: int, quantity: int)

  /** The errors a repository call can raise. */
  datatype Failure =
    | NullPointer                       // a null reference was dereferenced
    | DataIntegrityViolation            // a generated-key insert returned no key
    | IncorrectResultSize(actual: nat)  // a single-row query found more than one row
    | BadSqlGrammar                     // the store could not read the statement

  /** The row mapper: each column becomes the property of the same name, id included. */
  function ToItem(r: Row): ItemValue
  {
    ItemValue(Some(r.id), r.itemName, r.price, r.quantity)
  }

  /** The mapped result list: one item per row, in row order, and distinct rows never collapse
      into equal items. */
  function ToItems(rows: seq<Row>): (items: seq<ItemValue>)
    ensures |items| == |rows|
    ensures forall i :: 0 <= i < |rows| ==> items[i].id == Some(rows[i].id)
    ensures forall i, j :: 0 <= i < |rows| && 0 <= j < |rows| && items[i] == items[j] ==> rows[i] == rows[j]
  {
    seq(|rows|, i requires 0 <= i < |rows| => ToItem(rows[i]))
  }

  /** What a search promises: the name contains the name filter when that filter has text, and the
      price is at most the bound when one is given. */
  predicate Matches(r: Row, cond: ItemSearchCond)
    ensures !AnyFilter(cond) ==> Matches(r, cond)
  {
    (HasText(cond.itemName) ==> Contains(r.itemName, cond.itemName.value)) &&
    (cond.maxPrice.Some? ==> r.price <= cond.maxPrice.value)
  }

  /** One predicate evaluated by the store with the condition's properties bound to the named
      parameters. Comparing a price with a NULL bound is unknown, so the row is not selected. A
      NULL name inside the pattern is the `'%%'` reading (concat skips NULL, as the embedded store
      does), which holds on every row; the search never binds a NULL name. */
  predicate Holds(c: Clause, r: Row, params: ItemSearchCond)
    ensures Holds(c, r, params) ==> (c == PriceAtMost ==> params.maxPrice.Some?)
    ensures c == NameLike && params.itemName.None? ==> Holds(c, r, params)
  {
    match c
    case NameLike => params.itemName.Some? ==> Contains(r.itemName, params.itemName.value)
    case PriceAtMost => params.maxPrice.Some? && r.price <= params.maxPrice.value
  }

  /** Which rows a statement's WHERE clause selects. */
  datatype Selection =
    | IdEquals(id: Option<int>)                          // where id = :id
    | AllOf(clauses: seq<Clause>, params: ItemSearchCond) // the search predicates, ANDed
    | Matching(cond: ItemSearchCond)                      // the rows a search promises

  predicate Selects(sel: Selection, r: Row)
  {
    match sel
    case IdEquals(id) => id == Some(r.id)
    case AllOf(cs, params) => forall i :: 0 <= i < |cs| ==> Holds(cs[i], r, params)
    case Matching(cond) => Matches(r, cond)
  }

  /** The selected rows, in table order. */
  function Filter(rows: seq<Row>, sel: Selection): (kept: seq<Row>)
    ensures |kept| <= |rows|
  {
    if rows == [] then []
    else (if Selects(sel, rows[0]) then [rows[0]] else []) + Filter(rows[1..], sel)
  }

  /** The selected rows are exactly the table's rows that the selection accepts. */
  lemma {:induction false} FilterMembers(rows: seq<Row>, sel: Selection)
    ensures forall r :: r in Filter(rows, sel) <==> r in rows && Selects(sel, r)
  {
    if rows != [] {
      FilterMembers(rows[1..], sel);
      assert rows == [rows[0]] + rows[1..];
    }
  }

  /** Identifiers strictly increase along the table: unique, and in insertion order. */
  predicate IdsIncreasing(rows: seq<Row>)
  {
    forall i, j :: 0 <= i < j < |rows| ==> rows[i].id < rows[j].id
  }

  /** The row with identifier `id`, if any. */
  function Lookup(rows: seq<Row>, id: int): (found: Option<Row>)
    ensures found.Some? ==> found.value in rows && found.value.id == id
    ensures found.None? ==> forall r :: r in rows ==> r.id != id
  {
    if rows == [] then None
    else if rows[0].id == id then Some(rows[0])
    else Lookup(rows[1..], id)
  }

  function LookupItem(rows: seq<Row>, id: int): Option<ItemValue>
  {
    match Lookup(rows, id)
    case None => None
    case Some(r) => Some(ToItem(r))
  }

  /** `update item set item_name, price, quantity where id = :id`: every row whose id equals the
      target takes the new values; a null target equals nothing. */
  function UpdateById(rows: seq<Row>, id: Option<int>, dto: ItemUpdateDto): (updated: seq<Row>)
    ensures |updated| == |rows|
  {
    if rows == [] then []
    else
      var r := rows[0];
      [if id == Some(r.id) then Row(r.id, dto.itemName, dto.price, dto.quantity) else r]
        + UpdateById(rows[1..], id, dto)
  }

  /** The `item` table. The counter is the identity column's next value; whether the driver hands
      the generated key back to the caller is a property of the connection. */
  class Table {
    var rows: seq<Row>
    var nextId: int
    const returnsGeneratedKeys: bool

    ghost predicate Valid()
      reads this
    {
      IdsIncreasing(rows) && forall r :: r in rows ==> r.id < nextId
    }

    constructor (returnsGeneratedKeys: bool)
      ensures Valid() && rows == [] && nextId == 1
      ensures this.returnsGeneratedKeys == returnsGeneratedKeys
    {
      rows := [];
      nextId := 1;
      this.returnsGeneratedKeys := returnsGeneratedKeys;
    }

    /** `insert into item(item_name, price, quantity)`: the identity column supplies the id. */
    method Insert(itemName: string, price: int, quantity: int) returns (key: Option<int>)
      requires Valid()
      modifies this
      ensures Valid()
      ensures rows == old(rows) + [Row(old(nextId), itemName, price, quantity)]
      ensures nextId == old(nextId) + 1
      ensures key == if returnsGeneratedKeys then Some(old(nextId)) else None
    {
      rows := rows + [Row(nextId, itemName, price, quantity)];
      key := if returnsGeneratedKeys then Some(nextId) else None;
      nextId := nextId + 1;
    }

    /** `update item ... where id = :id`, returning the number of rows it matched. */
    method UpdateWhereId(id: Option<int>, dto: ItemUpdateDto) returns (count: nat)
      requires Valid()
      modifies this
      ensures Valid()
      ensures rows == UpdateById(old(rows), id, dto) && nextId == old(nextId)
      ensures count == |Filter(old(rows), IdEquals(id))|
    {
      UpdateKeepsIds(rows, id, dto);
      count := |Filter(rows, IdEquals(id))|;
      rows := UpdateById(rows, id, dto);
    }

    /** `select id, item_name, price, quantity from item where id = :id`. */
    method SelectWhereId(id: int) returns (found: seq<Row>)
      ensures found == Filter(rows, IdEquals(Some(id)))
    {
      found := Filter(rows, IdEquals(Some(id)));
    }

    /** Runs a search query with the condition's properties bound to its named parameters. */
    method Query(sql: string, params: ItemSearchCond) returns (result: Result<seq<Row>, Failure>)
      ensures result == match ParseSearchSql(sql)
                        case None => Err(BadSqlGrammar)
                        case Some(cs) => Ok(Filter(rows, AllOf(cs, params)))
    {
      match ParseSearchSql(sql)
      case None => result := Err(BadSqlGrammar);
      case Some(cs) => result := Ok(Filter(rows, AllOf(cs, params)));
    }
  }

  /** Filtering keeps rows in table order, so increasing ids stay increasing. */
  lemma {:induction false} FilterKeepsOrder(rows: seq<Row>, sel: Selection)
    requires IdsIncreasing(rows)
    ensures IdsIncreasing(Filter(rows, sel))
  {
    if rows != [] {
      FilterKeepsOrder(rows[1..], sel);
      FilterMembers(rows[1..], sel);
      var rest := Filter(rows[1..], sel);
      forall r | r in rest ensures rows[0].id < r.id {
        var k :| 0 <= k < |rows[1..]| && rows[1..][k] == r;
        assert rows[k + 1] == r;
      }
    }
  }

  lemma FirstRows(s: seq<Row>)
    ensures |s| >= 1 ==> s[0] in s
    ensures |s| >= 2 ==> s[1] in s && (IdsIncreasing(s) ==> s[0].id < s[1].id)
  {
  }

  /** Two id-ordered sequences with the same rows are the same sequence: a search result is fixed
      by which rows it holds. */
  lemma {:induction false} OrderedRowsDetermined(a: seq<Row>, b: seq<Row>)
    requires IdsIncreasing(a) && IdsIncreasing(b)
    requires forall r :: r in a <==> r in b
    ensures a == b
  {
    if a == [] {
      FirstRows(b);
    } else {
      assert a[0] in b;
      assert b != [];
      var j :| 0 <= j < |b| && b[j] == a[0];
      assert b[0] in b;
      var k :| 0 <= k < |a| && a[k] == b[0];
      assert b[0].id <= b[j].id == a[0].id;
      assert a[0].id <= a[k].id == b[0].id;
      assert j == 0;
      forall r ensures r in a[1..] <==> r in b[1..] {
        if r in a[1..] {
          var i :| 0 <= i < |a[1..]| && a[1..][i] == r;
          assert a[0].id < r.id;
          assert r in b && r != b[0];
          var m :| 0 <= m < |b| && b[m] == r;
          assert b[1..][m - 1] == r;
        }
        if r in b[1..] {
          var i :| 0 <= i < |b[1..]| && b[1..][i] == r;
          assert b[0].id < r.id;
          assert r in a && r != a[0];
          var m :| 0 <= m < |a| && a[m] == r;
          assert a[1..][m - 1] == r;
        }
      }
      OrderedRowsDetermined(a[1..], b[1..]);
      assert a == [a[0]] + a[1..] && b == [b[0]] + b[1..];
    }
  }

  /** Two selections that agree on every row of the table select the same rows. */
  lemma {:induction false} FilterAgrees(rows: seq<Row>, s: Selection, t: Selection)
    requires forall r :: r in rows ==> (Selects(s, r) <==> Selects(t, r))
    ensures Filter(rows, s) == Filter(rows, t)
  {
    if rows != [] {
      assert forall r :: r in rows[1..] ==> r in rows;
      FilterAgrees(rows[1..], s, t);
    }
  }

  /** The store's evaluation of the built predicates is exactly the search's promise. */
  lemma PredicatesMeanMatches(r: Row, cond: ItemSearchCond)
    ensures Selects(AllOf(Clauses(cond), cond), r) <==> Matches(r, cond)
  {
    var cs := Clauses(cond);
    if HasText(cond.itemName) {
      assert cs[0] == NameLike;
    }
    if cond.maxPrice.Some? {
      assert cs[|cs| - 1] == PriceAtMost;
    }
  }

  lemma SearchSelectsMatches(rows: seq<Row>, cond: ItemSearchCond)
    ensures Filter(rows, AllOf(Clauses(cond), cond)) == Filter(rows, Matching(cond))
  {
    forall r | r in rows
      ensures Selects(AllOf(Clauses(cond), cond), r) <==> Selects(Matching(cond), r)
    {
      PredicatesMeanMatches(r, cond);
    }
    FilterAgrees(rows, AllOf(Clauses(cond), cond), Matching(cond));
  }

  /** A search returns exactly the matching rows, in insertion order, and any id-ordered
      sequence of exactly the matching rows is that result. */
  lemma SearchResultExact(rows: seq<Row>, cond: ItemSearchCond, out: seq<Row>)
    requires IdsIncreasing(rows)
    ensures forall r :: r in Filter(rows, Matching(cond)) <==> r in rows && Matches(r, cond)
    ensures IdsIncreasing(Filter(rows, Matching(cond)))
    ensures (IdsIncreasing(out) && forall r :: r in out <==> r in rows && Matches(r, cond)) ==>
              out == Filter(rows, Matching(cond))
  {
    FilterKeepsOrder(rows, Matching(cond));
    FilterMembers(rows, Matching(cond));
    if IdsIncreasing(out) && (forall r :: r in out <==> r in rows && Matches(r, cond)) {
      OrderedRowsDetermined(out, Filter(rows, Matching(cond)));
    }
  }

  /** With no active filter every row is returned, in table order. */
  lemma {:induction false} NoFilterReturnsAll(rows: seq<Row>, cond: ItemSearchCond)
    requires !AnyFilter(cond)
    ensures Filter(rows, Matching(cond)) == rows
  {
    if rows != [] {
      NoFilterReturnsAll(rows[1..], cond);
      assert rows == [rows[0]] + rows[1..];
    }
  }

  /** On a table with unique ids, `where id = :id` finds at most one row. */
  lemma UniqueIdSelectsAtMostOne(rows: seq<Row>, id: Option<int>)
    requires IdsIncreasing(rows)
    ensures |Filter(rows, IdEquals(id))| <= 1
  {
    var found := Filter(rows, IdEquals(id));
    FilterKeepsOrder(rows, IdEquals(id));
    FilterMembers(rows, IdEquals(id));
    FirstRows(found);
  }

  /** Lookup is the first row `where id = :id` selects. */
  lemma {:induction false} LookupIsFirstSelected(rows: seq<Row>, id: int)
    ensures var found := Filter(rows, IdEquals(Some(id)));
            Lookup(rows, id) == if found == [] then None else Some(found[0])
  {
    if rows != [] {
      LookupIsFirstSelected(rows[1..], id);
    }
  }

  /** A row appended with an id above all others is what a lookup of that id finds. */
  lemma {:induction false} InsertThenLookup(rows: seq<Row>, row: Row)
    requires forall r :: r in rows ==> r.id < row.id
    ensures Lookup(rows + [row], row.id) == Some(row)
  {
    if rows == [] {
      assert rows + [row] == [row];
    } else {
      assert (rows + [row])[1..] == rows[1..] + [row];
      InsertThenLookup(rows[1..], row);
    }
  }

  /** Appending a row does not change what lookups of other ids find. */
  lemma {:induction false} InsertKeepsLookups(rows: seq<Row>, row: Row, id: int)
    requires id != row.id
    ensures Lookup(rows + [row], id) == Lookup(rows, id)
  {
    if rows == [] {
      assert rows + [row] == [row];
    } else {
      assert (rows + [row])[1..] == rows[1..] + [row];
      InsertKeepsLookups(rows[1..], row, id);
    }
  }

  /** An update keeps every row's id and the number of rows. */
  lemma {:induction false} UpdateKeepsIds(rows: seq<Row>, id: Option<int>, dto: ItemUpdateDto)
    ensures |UpdateById(rows, id, dto)| == |rows|
    ensures forall i :: 0 <= i < |rows| ==> UpdateById(rows, id, dto)[i].id == rows[i].id
  {
    if rows != [] {
      UpdateKeepsIds(rows[1..], id, dto);
    }
  }

  /** After an update the target row carries exactly the new name, price and quantity under the
      same id, and is absent if it was absent before. */
  lemma {:induction false} UpdateThenLookup(rows: seq<Row>, id: int, dto: ItemUpdateDto)
    ensures Lookup(UpdateById(rows, Some(id), dto), id) ==
      if Lookup(rows, id).Some? then Some(Row(id, dto.itemName, dto.price, dto.quantity)) else None
  {
    if rows != [] {
      UpdateThenLookup(rows[1..], id, dto);
    }
  }

  /** An update leaves what lookups of every other id find unchanged. */
  lemma {:induction false} UpdateKeepsOtherRows(rows: seq<Row>, id: Option<int>, dto: ItemUpdateDto, other: int)
    requires id != Some(other)
    ensures Lookup(UpdateById(rows, id, dto), other) == Lookup(rows, other)
  {
    if rows != [] {
      UpdateKeepsOtherRows(rows[1..], id, dto, other);
    }
  }

  /** An update whose target matches no row (a null target included) changes nothing. */
  lemma {:induction false} UpdateMissingIsNoOp(rows: seq<Row>, id: Option<int>, dto: ItemUpdateDto)
    requires Filter(rows, IdEquals(id)) == []
    ensures UpdateById(rows, id, dto) == rows
  {
    if rows != [] {
      assert !Selects(IdEquals(id), rows[0]);
      UpdateMissingIsNoOp(rows[1..], id, dto);
      assert rows == [rows[0]] + rows[1..];
    }
  }
}

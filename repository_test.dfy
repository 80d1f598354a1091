/** Client scenarios of the repository test: what a caller can conclude from the repository
    contracts alone, on a fresh table whose driver returns generated keys. */
module RepositoryTest {
  import opened Wrappers
  import opened Text
  import opened Domain
  import opened ItemTable
  import opened RepositoryV2
  import opened RepositoryV3

  /** On any valid store that returns generated keys, a saved item is found again by its new id,
      equal to what save returned. */
  method SaveThenFind(repository: JdbcTemplateItemRepositoryV2, item: Item)
      returns (saved: Result<Item, Failure>, found: Result<Option<ItemValue>, Failure>)
    requires repository.Valid() && repository.store.returnsGeneratedKeys
    modifies repository.store, item`id
    ensures item.id == Some(old(repository.store.nextId))
    ensures saved == Ok(item)
    ensures found == Ok(Some(item.Value()))
  {
    ghost var before := repository.store.rows;
    saved := repository.Save(item);
    InsertThenLookup(before, Row(item.id.value, item.itemName, item.price, item.quantity));
    UniqueIdSelectsAtMostOne(repository.store.rows, item.id);
    found := repository.FindById(item.id);
  }

  /** On any valid store that returns generated keys, after saving an item and updating it by its
      id, a lookup of that id shows the new name, price and quantity under the same id. */
  method UpdateThenFind(repository: JdbcTemplateItemRepositoryV3, item: Item, updateParam: ItemUpdateDto)
      returns (found: Result<Option<ItemValue>, Failure>)
    requires repository.Valid() && repository.store.returnsGeneratedKeys
    modifies repository.store, item`id
    ensures item.id == Some(old(repository.store.nextId))
    ensures found == Ok(Some(ItemValue(item.id, updateParam.itemName, updateParam.price, updateParam.quantity)))
  {
    ghost var before := repository.store.rows;
    var saved := repository.Save(item);
    var itemId := item.id;
    InsertThenLookup(before, Row(itemId.value, item.itemName, item.price, item.quantity));
    ghost var inserted := repository.store.rows;
    repository.Update(itemId, updateParam);
    UpdateThenLookup(inserted, itemId.value, updateParam);
    UniqueIdSelectsAtMostOne(repository.store.rows, itemId);
    found := repository.FindById(itemId);
  }

  /** The save scenario: the first item saved on a fresh store gets id 1 and is found again. */
  method SaveThenFindById() returns (found: Result<Option<ItemValue>, Failure>)
    ensures found == Ok(Some(ItemValue(Some(1), "itemA", 10000, 10)))
  {
    var store := new Table(true);
    var repository := new JdbcTemplateItemRepositoryV2(store);
    var item := new Item("itemA", 10000, 10);
    var saved;
    saved, found := SaveThenFind(repository, item);
  }

  /** The update scenario: after the update, a lookup of the id shows the new fields. */
  method UpdateThenFindById() returns (found: Result<Option<ItemValue>, Failure>)
    ensures found == Ok(Some(ItemValue(Some(1), "item2", 20000, 20)))
  {
    var store := new Table(true);
    var repository := new JdbcTemplateItemRepositoryV3(store);
    var item := new Item("item1", 10000, 10);
    found := UpdateThenFind(repository, item, ItemUpdateDto("item2", 20000, 20));
  }

  /** The table after saving the three items of the search scenario. */
  const Saved: seq<Row> :=
    [Row(1, "itemA-1", 10000, 10), Row(2, "itemA-2", 20000, 20), Row(3, "itemB-1", 30000, 30)]

  /** A selection over three rows keeps each row it selects, in order. */
  lemma FilterThree(a: Row, b: Row, c: Row, sel: Selection)
    ensures Filter([a, b, c], sel) ==
      (if Selects(sel, a) then [a] else []) + (if Selects(sel, b) then [b] else []) +
      (if Selects(sel, c) then [c] else [])
  {
    var s := [a, b, c];
    assert s[1..] == [b, c] && s[1..][1..] == [c] && s[1..][1..][1..] == [];
    assert Filter([c], sel) == (if Selects(sel, c) then [c] else []) + Filter([], sel);
    assert Filter([b, c], sel) == (if Selects(sel, b) then [b] else []) + Filter([c], sel);
    assert Filter(s, sel) == (if Selects(sel, a) then [a] else []) + Filter([b, c], sel);
  }

  /** Which of the three rows a condition accepts. */
  predicate Accepts(rows: seq<Row>, cond: ItemSearchCond, first: bool, second: bool, third: bool)
    requires |rows| == 3
  {
    Matches(rows[0], cond) == first && Matches(rows[1], cond) == second && Matches(rows[2], cond) == third
  }

  /** The search keeps exactly the rows the condition accepts. */
  lemma SearchThree(rows: seq<Row>, cond: ItemSearchCond, first: bool, second: bool, third: bool)
    requires |rows| == 3 && Accepts(rows, cond, first, second, third)
    ensures Filter(rows, Matching(cond)) ==
      (if first then [rows[0]] else []) + (if second then [rows[1]] else []) + (if third then [rows[2]] else [])
  {
    assert rows == [rows[0], rows[1], rows[2]];
    FilterThree(rows[0], rows[1], rows[2], Matching(cond));
  }

  /** A name with text and no price bound accepts exactly the rows whose name contains it. */
  lemma NameOnly(rows: seq<Row>, name: string)
    requires |rows| == 3 && HasText(Some(name))
    ensures Accepts(rows, ItemSearchCond(Some(name), None),
      Contains(rows[0].itemName, name), Contains(rows[1].itemName, name), Contains(rows[2].itemName, name))
  {
  }

  lemma AcceptsByItemA(rows: seq<Row>)
    requires rows == Saved
    ensures Accepts(rows, ItemSearchCond(Some("itemA"), None), true, true, false)
  {
    HasTextExamples();
    ContainsItemA();
    NameOnly(rows, "itemA");
  }

  lemma AcceptsByTemA(rows: seq<Row>)
    requires rows == Saved
    ensures Accepts(rows, ItemSearchCond(Some("temA"), None), true, true, false)
  {
    HasTextExamples();
    ContainsTemA();
    NameOnly(rows, "temA");
  }

  lemma AcceptsByItemB(rows: seq<Row>)
    requires rows == Saved
    ensures Accepts(rows, ItemSearchCond(Some("itemB"), None), false, false, true)
  {
    ContainsItemB();
    assert HasText(Some("itemB")) by { assert !IsWhitespace("itemB"[0]); }
    NameOnly(rows, "itemB");
  }

  lemma AcceptsByMaxPrice(rows: seq<Row>)
    requires rows == Saved
    ensures Accepts(rows, ItemSearchCond(None, Some(10000)), true, false, false)
  {
  }

  lemma AcceptsByBoth(rows: seq<Row>)
    requires rows == Saved
    ensures Accepts(rows, ItemSearchCond(Some("itemA"), Some(10000)), true, false, false)
  {
    HasTextExamples();
    ContainsItemA();
  }

  lemma SearchByItemA(rows: seq<Row>)
    requires rows == Saved
    ensures Filter(rows, Matching(ItemSearchCond(Some("itemA"), None))) == [rows[0], rows[1]]
  {
    AcceptsByItemA(rows);
    SearchThree(rows, ItemSearchCond(Some("itemA"), None), true, true, false);
  }

  lemma SearchByTemA(rows: seq<Row>)
    requires rows == Saved
    ensures Filter(rows, Matching(ItemSearchCond(Some("temA"), None))) == [rows[0], rows[1]]
  {
    AcceptsByTemA(rows);
    SearchThree(rows, ItemSearchCond(Some("temA"), None), true, true, false);
  }

  lemma SearchByItemB(rows: seq<Row>)
    requires rows == Saved
    ensures Filter(rows, Matching(ItemSearchCond(Some("itemB"), None))) == [rows[2]]
  {
    AcceptsByItemB(rows);
    SearchThree(rows, ItemSearchCond(Some("itemB"), None), false, false, true);
  }

  lemma SearchByMaxPrice(rows: seq<Row>)
    requires rows == Saved
    ensures Filter(rows, Matching(ItemSearchCond(None, Some(10000)))) == [rows[0]]
  {
    AcceptsByMaxPrice(rows);
    SearchThree(rows, ItemSearchCond(None, Some(10000)), true, false, false);
  }

  lemma SearchByBoth(rows: seq<Row>)
    requires rows == Saved
    ensures Filter(rows, Matching(ItemSearchCond(Some("itemA"), Some(10000)))) == [rows[0]]
  {
    AcceptsByBoth(rows);
    SearchThree(rows, ItemSearchCond(Some("itemA"), Some(10000)), true, false, false);
  }

  /** Saves the three items of the search scenario on a fresh table. */
  method SaveThree() returns (repository: JdbcTemplateItemRepositoryV2, all: seq<ItemValue>)
    ensures fresh(repository.store) && repository.store.rows == Saved
    ensures all == ToItems(Saved)
  {
    var store := new Table(true);
    repository := new JdbcTemplateItemRepositoryV2(store);
    var item1 := new Item("itemA-1", 10000, 10);
    var item2 := new Item("itemA-2", 20000, 20);
    var item3 := new Item("itemB-1", 30000, 30);
    var _ := repository.Save(item1);
    var _ := repository.Save(item2);
    var _ := repository.Save(item3);
    all := [item1.Value(), item2.Value(), item3.Value()];
  }

  /** No filter, or a blank name, returns all three items in save order. */
  method FindAllWithoutFilter() returns (unfiltered: Result<seq<ItemValue>, Failure>,
      blank: Result<seq<ItemValue>, Failure>, all: seq<ItemValue>)
    ensures all == ToItems(Saved)
    ensures unfiltered == Ok(all) && blank == Ok(all)
  {
    var repository;
    repository, all := SaveThree();
    var rows := repository.store.rows;
    HasTextExamples();
    NoFilterReturnsAll(rows, ItemSearchCond(None, None));
    NoFilterReturnsAll(rows, ItemSearchCond(Some(""), None));
    unfiltered := repository.FindAll(ItemSearchCond(None, None));
    blank := repository.FindAll(ItemSearchCond(Some(""), None));
  }

  /** A name fragment at the start of the name selects the two "itemA" items. */
  method FindItemsByItemA() returns (result: Result<seq<ItemValue>, Failure>, all: seq<ItemValue>)
    ensures all == ToItems(Saved)
    ensures result == Ok([all[0], all[1]])
  {
    var repository;
    repository, all := SaveThree();
    var rows := repository.store.rows;
    assert ToItems([rows[0], rows[1]]) == [all[0], all[1]];
    SearchByItemA(rows);
    result := repository.FindAll(ItemSearchCond(Some("itemA"), None));
  }

  /** A fragment inside the name selects by substring, not by prefix. */
  method FindItemsByTemA() returns (result: Result<seq<ItemValue>, Failure>, all: seq<ItemValue>)
    ensures all == ToItems(Saved)
    ensures result == Ok([all[0], all[1]])
  {
    var repository;
    repository, all := SaveThree();
    var rows := repository.store.rows;
    assert ToItems([rows[0], rows[1]]) == [all[0], all[1]];
    SearchByTemA(rows);
    result := repository.FindAll(ItemSearchCond(Some("temA"), None));
  }

  /** A name fragment only the third item has selects that item alone. */
  method FindItemsByItemB() returns (result: Result<seq<ItemValue>, Failure>, all: seq<ItemValue>)
    ensures all == ToItems(Saved)
    ensures result == Ok([all[2]])
  {
    var repository;
    repository, all := SaveThree();
    var rows := repository.store.rows;
    assert ToItems([rows[2]]) == [all[2]];
    SearchByItemB(rows);
    result := repository.FindAll(ItemSearchCond(Some("itemB"), None));
  }

  /** The price bound is inclusive. */
  method FindItemsByMaxPrice() returns (result: Result<seq<ItemValue>, Failure>, all: seq<ItemValue>)
    ensures all == ToItems(Saved)
    ensures result == Ok([all[0]])
  {
    var repository;
    repository, all := SaveThree();
    var rows := repository.store.rows;
    assert ToItems([rows[0]]) == [all[0]];
    SearchByMaxPrice(rows);
    result := repository.FindAll(ItemSearchCond(None, Some(10000)));
  }

  /** Both filters together are combined with "and". */
  method FindItemsByBoth() returns (result: Result<seq<ItemValue>, Failure>, all: seq<ItemValue>)
    ensures all == ToItems(Saved)
    ensures result == Ok([all[0]])
  {
    var repository;
    repository, all := SaveThree();
    var rows := repository.store.rows;
    assert ToItems([rows[0]]) == [all[0]];
    SearchByBoth(rows);
    result := repository.FindAll(ItemSearchCond(Some("itemA"), Some(10000)));
  }
}

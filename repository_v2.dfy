/** The JdbcTemplate item repository, version 2, over the `item` table. */
module RepositoryV2 {
  import opened Wrappers
  import opened Domain
  import opened SearchSql
  import opened ItemTable

  class JdbcTemplateItemRepositoryV2 {
    const store: Table

    ghost predicate Valid()
      reads this, store
    {
      store.Valid()
    }

    constructor (store: Table)
      ensures this.store == store
    {
      this.store := store;
    }

    /** Inserts name, price and quantity, reads the generated key from the key holder and sets it
        on the same item, which it returns. A key holder without a key makes the dereference of
        the key fail after the row is already inserted. */
    method Save(item: Item) returns (saved: Result<Item, Failure>)
      requires Valid()
      modifies store, item`id
      ensures Valid()
      ensures store.rows == old(store.rows) + [Row(old(store.nextId), item.itemName, item.price, item.quantity)]
      ensures store.nextId == old(store.nextId) + 1
      ensures saved == if store.returnsGeneratedKeys then Ok(item) else Err(NullPointer)
      ensures item.id == if store.returnsGeneratedKeys then Some(old(store.nextId)) else old(item.id)
    {
      var key := store.Insert(item.itemName, item.price, item.quantity);
      if key.None? {
        return Err(NullPointer);
      }
      item.id := Some(key.value);
      saved := Ok(item);
    }

    /** Overwrites name, price and quantity of the row with the given id; a missing or null id
        matches no row and changes nothing. */
    method Update(itemId: Option<int>, updateParam: ItemUpdateDto)
      requires Valid()
      modifies store
      ensures Valid()
      ensures store.rows == UpdateById(old(store.rows), itemId, updateParam)
      ensures store.nextId == old(store.nextId)
    {
      var _ := store.UpdateWhereId(itemId, updateParam);
    }

    /** The item with the given id, empty when no row has it. A null id fails when the parameter
        map is built; more than one row fails as an incorrect result size. */
    method FindById(id: Option<int>) returns (found: Result<Option<ItemValue>, Failure>)
      ensures id.None? ==> found == Err(NullPointer)
      ensures id.Some? && |Filter(store.rows, IdEquals(id))| <= 1 ==>
                found == Ok(LookupItem(store.rows, id.value))
      ensures id.Some? && |Filter(store.rows, IdEquals(id))| > 1 ==>
                found == Err(IncorrectResultSize(|Filter(store.rows, IdEquals(id))|))
    {
      if id.None? {
        return Err(NullPointer);
      }
      var rows := store.SelectWhereId(id.value);
      LookupIsFirstSelected(store.rows, id.value);
      if |rows| == 0 {
        found := Ok(None);
      } else if |rows| == 1 {
        found := Ok(Some(ToItem(rows[0])));
      } else {
        found := Err(IncorrectResultSize(|rows|));
      }
    }

    /** Builds the search query for the condition and returns the items the store selects with
        it: exactly the matching rows, in insertion order. */
    method FindAll(cond: ItemSearchCond) returns (items: Result<seq<ItemValue>, Failure>)
      ensures items == Ok(ToItems(Filter(store.rows, Matching(cond))))
    {
      var sql := BuildSearchSql(cond);
      var result := store.Query(sql, cond);
      SearchSelectsMatches(store.rows, cond);
      items := match result
               case Ok(rows) => Ok(ToItems(rows))
               case Err(e) => Err(e);
    }
  }
}

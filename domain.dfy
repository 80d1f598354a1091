/** The entity and the two parameter objects of the item service. */
module Domain {
  import opened Wrappers

  /** The fields of an Item as Lombok's generated equals compares them: two items are equal
      exactly when their identifiers, names, prices and quantities are equal. */
  datatype ItemValue = ItemValue(id: Option<int>, itemName: string, price: int, quantity: int)

  /** A mutable Item. Its identifier is null until a repository saves it. */
  class Item {
    var id: Option<int>
    var itemName: string
    var price: int
    var quantity: int

    /** The value that equality compares. */
    function Value(): ItemValue
      reads this
    {
      ItemValue(id, itemName, price, quantity)
    }

    constructor (itemName: string, price: int, quantity: int)
      ensures Value() == ItemValue(None, itemName, price, quantity)
    {
      this.id := None;
      this.itemName := itemName;
      this.price := price;
      this.quantity := quantity;
    }
  }

  /** Lombok's generated equality: two items are equal exactly when all four fields are. */
  lemma SameValue(a: Item, b: Item)
    ensures a.Value() == b.Value() <==>
      a.id == b.id && a.itemName == b.itemName && a.price == b.price && a.quantity == b.quantity
  {
  }

  /** Search condition: an optional name fragment and an optional inclusive price bound. */
  datatype ItemSearchCond = ItemSearchCond(itemName: Option<string>, maxPrice: Option<int>)

  /** The three fields an update overwrites; the target identifier travels separately. */
  datatype ItemUpdateDto = ItemUpdateDto(itemName: string, price: int, quantity: int)
}

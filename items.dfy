/**
 * The item entity as the booking rules see it. Its text and flag columns are
 * Java references, so a value built from a partial update may leave them null.
 */
module Items {
  import opened Common

  datatype Item = Item(
    id: int,
    ownerId: int,                   // Item.userId: the user who listed the item
    name: Option<string>,
    description: Option<string>,
    available: Option<bool>,
    requestId: Option<int>)         // the item request it answers, if any

  /** A row of the items table: its name, description and available columns are NOT NULL. */
  predicate Complete(item: Item)
  {
    item.name.Some? && item.description.Some? && item.available.Some?
  }

  /** The item repository: complete rows, each stored under its own id. */
  ghost predicate CatalogValid(items: map<int, Item>)
  {
    forall id :: id in items ==> items[id].id == id && Complete(items[id])
  }

  /** `item.getAvailable()` on a stored row. */
  predicate IsAvailable(item: Item)
  {
    item.available == Some(true)
  }
}

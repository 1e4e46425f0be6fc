/** Line items of the cart, the lookup by id that every mutator starts with,
    and the two invariants the cart collection is meant to keep. */
module CartItems {

  /** What a caller passes to addItem: a snapshot of a catalog product
      without a quantity. Prices are integers in the smallest currency unit. */
  datatype Product = Product(id: string, name: string, price: int, image: string, artist: string)

  /** One product's presence in the cart. */
  datatype CartItem = CartItem(id: string, name: string, price: int, image: string, artist: string, quantity: int)

  /** The line item `{ ...item, quantity }` built from a product snapshot. */
  function LineOf(p: Product, quantity: int): (line: CartItem)
    ensures Snapshot(line) == p && line.quantity == quantity
  {
    CartItem(p.id, p.name, p.price, p.image, p.artist, quantity)
  }

  /** The display metadata of a line item, i.e. everything but its quantity. */
  function Snapshot(line: CartItem): Product
  {
    Product(line.id, line.name, line.price, line.image, line.artist)
  }

  /** Array.prototype.findIndex with the predicate `i.id === id`:
      the first position holding `id`, or -1 when there is none. */
  function FindIndex(items: seq<CartItem>, id: string): (i: int)
    ensures -1 <= i < |items|
    ensures 0 <= i ==> items[i].id == id && forall j :: 0 <= j < i ==> items[j].id != id
    ensures i < 0 ==> forall j :: 0 <= j < |items| ==> items[j].id != id
  {
    if items == [] then -1
    else if items[0].id == id then 0
    else
      var k := FindIndex(items[1..], id);
      if k < 0 then -1 else k + 1
  }

  predicate HasId(items: seq<CartItem>, id: string)
  {
    exists j :: 0 <= j < |items| && items[j].id == id
  }

  /** No two line items share an id. */
  predicate UniqueIds(items: seq<CartItem>)
  {
    forall i, j :: 0 <= i < j < |items| ==> items[i].id != items[j].id
  }

  /** No line item with a quantity of zero or less exists. */
  predicate AllPositive(items: seq<CartItem>)
  {
    forall i :: 0 <= i < |items| ==> items[i].quantity >= 1
  }

  predicate WellFormed(items: seq<CartItem>)
  {
    UniqueIds(items) && AllPositive(items)
  }

  /** findIndex finds an id exactly when some line item carries it. */
  lemma FindIndexFound(items: seq<CartItem>, id: string)
    ensures FindIndex(items, id) >= 0 <==> HasId(items, id)
  {
  }

  /** A position holding `id` after only non-matching positions is what findIndex returns. */
  lemma FindIndexFirst(items: seq<CartItem>, id: string, i: int)
    requires 0 <= i < |items| && items[i].id == id
    requires forall j :: 0 <= j < i ==> items[j].id != id
    ensures FindIndex(items, id) == i
  {
  }

  /** With unique ids, the position findIndex returns is the only one holding the id. */
  lemma FindIndexUnique(items: seq<CartItem>, id: string, j: int)
    requires UniqueIds(items)
    requires 0 <= j < |items| && items[j].id == id
    ensures FindIndex(items, id) == j
  {
    FindIndexFirst(items, id, j);
  }
}

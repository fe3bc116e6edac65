/** The cart store (`CartProvider`): an ordered list of line items keyed by
    product id, changed only through add / remove / update-quantity / clear,
    with the item count derived from it. */
module CartContext {
  import opened Wrappers
  import EcmaArray

  /** One line of the cart. */
  datatype CartItem = CartItem(
    id: int,
    name: string,
    price: int,
    image: string,
    category: Option<string>,
    quantity: int)

  /** What `addToCart` receives: a cart line without its quantity. */
  datatype Product = Product(
    id: int,
    name: string,
    price: int,
    image: string,
    category: Option<string>)

  function LineOf(p: Product, quantity: int): CartItem {
    CartItem(p.id, p.name, p.price, p.image, p.category, quantity)
  }

  function ProductOf(item: CartItem): Product {
    Product(item.id, item.name, item.price, item.image, item.category)
  }

  /** `items.find(item => item.id === id)` finds something. */
  predicate HasId(items: seq<CartItem>, id: int) {
    exists i :: 0 <= i < |items| && items[i].id == id
  }

  ghost predicate UniqueIds(items: seq<CartItem>) {
    forall i, j :: 0 <= i < j < |items| ==> items[i].id != items[j].id
  }

  ghost predicate QuantitiesPositive(items: seq<CartItem>) {
    forall i :: 0 <= i < |items| ==> items[i].quantity >= 1
  }

  /** The invariant every reachable cart satisfies. */
  ghost predicate WellFormed(items: seq<CartItem>) {
    UniqueIds(items) && QuantitiesPositive(items)
  }

  // ---------------------------------------------------------------------
  // The next state each operation builds from the previous one

  /** `prevItems.map(item => item.id === id ? {...item, quantity: item.quantity + 1} : item)` */
  function Bumped(items: seq<CartItem>, id: int): seq<CartItem> {
    seq(|items|, i requires 0 <= i < |items| =>
      if items[i].id == id then items[i].(quantity := items[i].quantity + 1) else items[i])
  }

  /** The state `addToCart(p)` produces. */
  function Added(items: seq<CartItem>, p: Product): seq<CartItem> {
    if HasId(items, p.id) then Bumped(items, p.id) else items + [LineOf(p, 1)]
  }

  function IdIsNot(id: int): CartItem -> bool {
    (item: CartItem) => item.id != id
  }

  /** The state `removeFromCart(id)` produces: `prevItems.filter(item => item.id !== id)`. */
  function Removed(items: seq<CartItem>, id: int): seq<CartItem> {
    EcmaArray.Filter(items, IdIsNot(id))
  }

  /** `prevItems.map(item => item.id === id ? {...item, quantity} : item)` */
  function WithQuantity(items: seq<CartItem>, id: int, q: int): seq<CartItem> {
    seq(|items|, i requires 0 <= i < |items| =>
      if items[i].id == id then items[i].(quantity := q) else items[i])
  }

  /** The state `updateQuantity(id, q)` produces. */
  function Updated(items: seq<CartItem>, id: int, q: int): seq<CartItem> {
    if q <= 0 then Removed(items, id) else WithQuantity(items, id, q)
  }

  /** `items.reduce((total, item) => total + item.quantity, 0)` */
  function Count(items: seq<CartItem>): int {
    if |items| == 0 then 0 else Count(items[..|items| - 1]) + items[|items| - 1].quantity
  }

  // ---------------------------------------------------------------------
  // The store

  class CartStore {
    var items: seq<CartItem>

    ghost predicate Valid()
      reads this
    {
      WellFormed(items)
    }

    constructor ()
      ensures Valid() && items == []
    {
      items := [];
    }

    /** `itemCount`: the sum of the quantities; zero exactly when the cart
        is empty, and never less than the number of lines. */
    function ItemCount(): (n: int)
      reads this
      requires Valid()
      ensures n >= |items|
      ensures n == 0 <==> items == []
    {
      CountAtLeastLines(items);
      Count(items)
    }

    method AddToCart(p: Product)
      requires Valid()
      modifies this
      ensures Valid()
      ensures items == Added(old(items), p)
    {
      if HasId(items, p.id) {
        items := Bumped(items, p.id);
      } else {
        items := items + [LineOf(p, 1)];
      }
      AddedWellFormed(old(items), p);
    }

    method RemoveFromCart(id: int)
      requires Valid()
      modifies this
      ensures Valid()
      ensures items == Removed(old(items), id)
    {
      RemovedWellFormed(items, id);
      items := Removed(items, id);
    }

    method UpdateQuantity(id: int, q: int)
      requires Valid()
      modifies this
      ensures Valid()
      ensures items == Updated(old(items), id, q)
    {
      if q <= 0 {
        RemoveFromCart(id);
        return;
      }
      WithQuantityWellFormed(items, id, q);
      items := WithQuantity(items, id, q);
    }

    method ClearCart()
      modifies this
      ensures Valid() && items == []
    {
      items := [];
    }
  }

  // ---------------------------------------------------------------------
  // Item count

  lemma {:induction false} CountAtLeastLines(items: seq<CartItem>)
    requires QuantitiesPositive(items)
    ensures Count(items) >= |items|
    ensures Count(items) == 0 <==> items == []
  {
    if |items| > 0 {
      CountAtLeastLines(items[..|items| - 1]);
    }
  }

  lemma {:induction false} CountAppend(items: seq<CartItem>, extra: seq<CartItem>)
    ensures Count(items + extra) == Count(items) + Count(extra)
    decreases |extra|
  {
    if |extra| == 0 {
      assert items + extra == items;
    } else {
      var init := extra[..|extra| - 1];
      assert (items + extra)[..|items + extra| - 1] == items + init;
      CountAppend(items, init);
    }
  }

  /** Raising one line's quantity by `d` raises the count by `d`. */
  lemma CountAfterChangeAt(items: seq<CartItem>, k: int, q: int)
    requires 0 <= k < |items|
    ensures Count(items[k := items[k].(quantity := q)]) == Count(items) - items[k].quantity + q
  {
    var changed := items[k := items[k].(quantity := q)];
    assert items == items[..k] + [items[k]] + items[k + 1..];
    assert changed == items[..k] + [changed[k]] + items[k + 1..];
    CountAppend(items[..k] + [items[k]], items[k + 1..]);
    CountAppend(items[..k], [items[k]]);
    CountAppend(items[..k] + [changed[k]], items[k + 1..]);
    CountAppend(items[..k], [changed[k]]);
    assert Count([items[k]]) == items[k].quantity by {
      assert [items[k]][..0] == [];
    }
    assert Count([changed[k]]) == q by {
      assert [changed[k]][..0] == [];
    }
  }

  // ---------------------------------------------------------------------
  // addToCart

  /** With unique ids, bumping the line at `k` changes that line only. */
  lemma BumpedAt(items: seq<CartItem>, k: int)
    requires UniqueIds(items) && 0 <= k < |items|
    ensures Bumped(items, items[k].id) == items[k := items[k].(quantity := items[k].quantity + 1)]
  {
  }

  /** Adding a product whose id is not in the cart appends one line with
      quantity 1 and the product's own data; earlier lines are unchanged. */
  lemma AddNewAppends(items: seq<CartItem>, p: Product)
    requires !HasId(items, p.id)
    ensures |Added(items, p)| == |items| + 1
    ensures Added(items, p)[..|items|] == items
    ensures Added(items, p)[|items|] == CartItem(p.id, p.name, p.price, p.image, p.category, 1)
  {
  }

  /** Adding a product whose id is at line `k` raises that line's quantity
      by exactly one, keeping its position and its own name, price, image
      and category (the product passed in is ignored); no other line
      changes. */
  lemma AddExistingBumps(items: seq<CartItem>, p: Product, k: int)
    requires UniqueIds(items) && 0 <= k < |items| && items[k].id == p.id
    ensures |Added(items, p)| == |items|
    ensures Added(items, p)[k] == items[k].(quantity := items[k].quantity + 1)
    ensures forall i :: 0 <= i < |items| && i != k ==> Added(items, p)[i] == items[i]
  {
    BumpedAt(items, k);
  }

  lemma AddedWellFormed(items: seq<CartItem>, p: Product)
    requires WellFormed(items)
    ensures WellFormed(Added(items, p))
  {
  }

  /** Every add raises the item count by exactly one. */
  lemma AddedCount(items: seq<CartItem>, p: Product)
    requires UniqueIds(items)
    ensures Count(Added(items, p)) == Count(items) + 1
  {
    if HasId(items, p.id) {
      var k :| 0 <= k < |items| && items[k].id == p.id;
      BumpedAt(items, k);
      CountAfterChangeAt(items, k, items[k].quantity + 1);
    } else {
      CountAppend(items, [LineOf(p, 1)]);
      assert [LineOf(p, 1)][..0] == [];
    }
  }

  /** Adding the same product twice to an empty cart leaves one line of
      quantity 2 whose data are those of the first call. */
  lemma AddTwiceSameId(p: Product, p': Product)
    requires p'.id == p.id
    ensures Added(Added([], p), p') == [LineOf(p, 2)]
  {
    var once := Added([], p);
    assert once == [LineOf(p, 1)];
    assert HasId(once, p'.id) by {
      assert once[0].id == p'.id;
    }
  }

  /** The cart reached by adding `ps` one after another. */
  function AddAll(items: seq<CartItem>, ps: seq<Product>): seq<CartItem>
    decreases |ps|
  {
    if |ps| == 0 then items else AddAll(Added(items, ps[0]), ps[1..])
  }

  ghost predicate DistinctIds(ps: seq<Product>) {
    forall i, j :: 0 <= i < j < |ps| ==> ps[i].id != ps[j].id
  }

  /** Adding products with distinct ids to a cart holding none of them
      yields one new line per call, and the count grows by one per call. */
  lemma {:induction false} AddDistinct(items: seq<CartItem>, ps: seq<Product>)
    requires WellFormed(items) && DistinctIds(ps)
    requires forall i :: 0 <= i < |ps| ==> !HasId(items, ps[i].id)
    ensures |AddAll(items, ps)| == |items| + |ps|
    ensures Count(AddAll(items, ps)) == Count(items) + |ps|
    decreases |ps|
  {
    if |ps| > 0 {
      var next := Added(items, ps[0]);
      AddedWellFormed(items, ps[0]);
      AddedCount(items, ps[0]);
      assert next == items + [LineOf(ps[0], 1)];
      forall i | 0 <= i < |ps[1..]| ensures !HasId(next, ps[1..][i].id) {
        assert ps[1..][i] == ps[i + 1];
        forall m | 0 <= m < |next| ensures next[m].id != ps[i + 1].id {
          if m == |items| {
            assert next[m].id == ps[0].id;
          }
        }
      }
      AddDistinct(next, ps[1..]);
    }
  }

  // ---------------------------------------------------------------------
  // removeFromCart

  lemma RemovedAbsent(items: seq<CartItem>, id: int)
    requires !HasId(items, id)
    ensures Removed(items, id) == items
  {
    EcmaArray.FilterKeepsAll(items, IdIsNot(id));
  }

  /** With unique ids, removing the id of line `k` deletes exactly that
      line and keeps the others in their order. */
  lemma RemovedDeletes(items: seq<CartItem>, k: int)
    requires UniqueIds(items) && 0 <= k < |items|
    ensures Removed(items, items[k].id) == items[..k] + items[k + 1..]
  {
    var id := items[k].id;
    var keep := IdIsNot(id);
    assert items == items[..k] + [items[k]] + items[k + 1..];
    EcmaArray.FilterConcat(items[..k] + [items[k]], items[k + 1..], keep);
    EcmaArray.FilterConcat(items[..k], [items[k]], keep);
    EcmaArray.FilterSingleton(items[k], keep);
    EcmaArray.FilterKeepsAll(items[..k], keep);
    EcmaArray.FilterKeepsAll(items[k + 1..], keep);
  }

  lemma RemovedWellFormed(items: seq<CartItem>, id: int)
    requires WellFormed(items)
    ensures WellFormed(Removed(items, id))
    ensures !HasId(Removed(items, id), id)
  {
    if HasId(items, id) {
      var k :| 0 <= k < |items| && items[k].id == id;
      RemovedDeletes(items, k);
      var r := items[..k] + items[k + 1..];
      forall i, j | 0 <= i < j < |r| ensures r[i].id != r[j].id {
        var i' := if i < k then i else i + 1;
        var j' := if j < k then j else j + 1;
        assert r[i] == items[i'] && r[j] == items[j'];
      }
      forall m | 0 <= m < |r| ensures r[m].id != id {
        var m' := if m < k then m else m + 1;
        assert r[m] == items[m'];
      }
    } else {
      RemovedAbsent(items, id);
    }
  }

  // ---------------------------------------------------------------------
  // updateQuantity

  lemma WithQuantityWellFormed(items: seq<CartItem>, id: int, q: int)
    requires WellFormed(items) && q > 0
    ensures WellFormed(WithQuantity(items, id, q))
  {
  }

  /** A positive quantity is set, not added, on the line with that id;
      nothing else changes. */
  lemma UpdateSetsQuantity(items: seq<CartItem>, k: int, q: int)
    requires UniqueIds(items) && 0 <= k < |items| && q > 0
    ensures Updated(items, items[k].id, q) == items[k := items[k].(quantity := q)]
  {
  }

  /** Updating an id that is not in the cart changes nothing, whatever the
      quantity. */
  lemma UpdateAbsentIsNoop(items: seq<CartItem>, id: int, q: int)
    requires !HasId(items, id)
    ensures Updated(items, id, q) == items
  {
    if q <= 0 {
      RemovedAbsent(items, id);
    }
  }

  /** Pressing "+" on a line (`updateQuantity(id, quantity + 1)`) leaves
      the same cart as adding that line's product again. */
  lemma PlusIsAddAgain(items: seq<CartItem>, k: int)
    requires WellFormed(items) && 0 <= k < |items|
    ensures Updated(items, items[k].id, items[k].quantity + 1) == Added(items, ProductOf(items[k]))
  {
    BumpedAt(items, k);
  }
}

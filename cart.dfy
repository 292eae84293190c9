/**
 * The shopping cart of the storefront as pure values: the list of cart lines,
 * the three transitions the `App` component applies to it (add, update the
 * quantity, remove), the notifications those handlers raise, and the two totals
 * derived from the lines (item count and subtotal).
 *
 * Prices are integer cents rather than floating-point dollars.
 */
module ShoppingCart {
  import opened Wrappers

  /** A catalog entry. `price` is in cents. */
  datatype Product = Product(id: int, name: string, price: int, image: string, category: string)

  /** A product in the cart: its fields as they were copied at first add, plus a quantity. */
  datatype CartLine = CartLine(id: int, name: string, price: int, image: string, category: string, quantity: int)

  /** A notification handed to the presentation layer: a success or an informational toast. */
  datatype Notice = Success(message: string) | Info(message: string)

  /** The product fields of a line, without its quantity. */
  function ProductOf(l: CartLine): Product {
    Product(l.id, l.name, l.price, l.image, l.category)
  }

  /** The line a first add creates: the product's fields and quantity 1. */
  function NewLine(p: Product): (l: CartLine)
    ensures ProductOf(l) == p && l.quantity == 1
  {
    CartLine(p.id, p.name, p.price, p.image, p.category, 1)
  }

  // ---------------------------------------------------------------------------
  // Invariants of a cart

  predicate HasId(s: seq<CartLine>, id: int) {
    exists i :: 0 <= i < |s| && s[i].id == id
  }

  /** At most one line per product id. */
  predicate DistinctIds(s: seq<CartLine>) {
    forall i, j :: 0 <= i < j < |s| ==> s[i].id != s[j].id
  }

  /** No line with a quantity below 1 exists. */
  predicate PositiveQuantities(s: seq<CartLine>) {
    forall i :: 0 <= i < |s| ==> s[i].quantity >= 1
  }

  predicate Valid(s: seq<CartLine>) {
    DistinctIds(s) && PositiveQuantities(s)
  }

  // ---------------------------------------------------------------------------
  // Queries

  /** `Array.prototype.find`: the first line with the id, if any. */
  function Find(s: seq<CartLine>, id: int): (r: Option<CartLine>)
    ensures r.Some? <==> HasId(s, id)
    ensures r.Some? ==> exists k :: 0 <= k < |s| && s[k] == r.value && r.value.id == id &&
                                    forall j :: 0 <= j < k ==> s[j].id != id
  {
    if s == [] then None
    else if s[0].id == id then Some(s[0])
    else
      var r := Find(s[1..], id);
      assert HasId(s, id) ==> HasId(s[1..], id) by {
        if HasId(s, id) {
          var i :| 0 <= i < |s| && s[i].id == id;
          assert s[1..][i - 1].id == id;
        }
      }
      assert r.Some? ==> exists k :: 0 <= k < |s| && s[k] == r.value && r.value.id == id &&
                                     forall j :: 0 <= j < k ==> s[j].id != id by {
        if r.Some? {
          var k :| 0 <= k < |s[1..]| && s[1..][k] == r.value && r.value.id == id &&
                   forall j :: 0 <= j < k ==> s[1..][j].id != id;
          assert s[k + 1] == r.value;
          forall j | 0 <= j < k + 1 ensures s[j].id != id {
            if j > 0 { assert s[j] == s[1..][j - 1]; }
          }
        }
      }
      r
  }

  /**
   * `cartCount`: the quantities summed from the left, starting at 0. When every
   * quantity is at least 1, there are no more lines than items.
   */
  function Count(s: seq<CartLine>): (n: int)
    ensures PositiveQuantities(s) ==> |s| <= n
  {
    if s == [] then 0 else Count(s[..|s| - 1]) + s[|s| - 1].quantity
  }

  /**
   * The drawer's `total` in cents: price times quantity per line, summed from
   * the left, starting at 0. It is never negative when no price is.
   */
  function Subtotal(s: seq<CartLine>): (n: int)
    ensures (forall i :: 0 <= i < |s| ==> s[i].price >= 0) && PositiveQuantities(s) ==> n >= 0
  {
    if s == [] then 0 else Subtotal(s[..|s| - 1]) + s[|s| - 1].price * s[|s| - 1].quantity
  }

  // ---------------------------------------------------------------------------
  // Transitions

  /** The `map` of `addToCart`: every line with the id gets one more unit. */
  function Increment(s: seq<CartLine>, id: int): (r: seq<CartLine>)
    ensures |r| == |s|
    ensures forall i :: 0 <= i < |s| && s[i].id != id ==> r[i] == s[i]
    ensures forall i :: 0 <= i < |s| && s[i].id == id ==> r[i] == s[i].(quantity := s[i].quantity + 1)
  {
    if s == [] then []
    else [if s[0].id == id then s[0].(quantity := s[0].quantity + 1) else s[0]] + Increment(s[1..], id)
  }

  /** `addToCart`: one more unit of an existing line, or a new line with quantity 1 at the end. */
  function Add(s: seq<CartLine>, p: Product): (r: seq<CartLine>)
    ensures !HasId(s, p.id) ==> r == s + [NewLine(p)]
    ensures HasId(s, p.id) ==> |r| == |s|
    ensures HasId(s, p.id) ==>
              forall i :: 0 <= i < |s| ==> r[i] == if s[i].id == p.id then s[i].(quantity := s[i].quantity + 1) else s[i]
  {
    if Find(s, p.id).Some? then Increment(s, p.id) else s + [NewLine(p)]
  }

  /** The `map` of `updateQuantity`: every line with the id gets quantity `q`. */
  function SetQuantity(s: seq<CartLine>, id: int, q: int): (r: seq<CartLine>)
    ensures |r| == |s|
    ensures forall i :: 0 <= i < |s| && s[i].id != id ==> r[i] == s[i]
    ensures forall i :: 0 <= i < |s| && s[i].id == id ==> r[i] == s[i].(quantity := q)
  {
    if s == [] then []
    else [if s[0].id == id then s[0].(quantity := q) else s[0]] + SetQuantity(s[1..], id, q)
  }

  /** `removeFromCart`: the `filter` that keeps the lines with another id. */
  function Remove(s: seq<CartLine>, id: int): (r: seq<CartLine>)
    ensures forall l :: l in r <==> l in s && l.id != id
    ensures !HasId(r, id)
    ensures |r| <= |s|
    ensures !HasId(s, id) ==> r == s
  {
    if s == [] then []
    else
      var t := Remove(s[1..], id);
      assert !HasId(s, id) ==> !HasId(s[1..], id) by {
        if HasId(s[1..], id) {
          var i :| 0 <= i < |s[1..]| && s[1..][i].id == id;
          assert s[i + 1].id == id;
        }
      }
      assert s == [s[0]] + s[1..];
      if s[0].id == id then t else [s[0]] + t
  }

  /** `updateQuantity`: below 1 it is a removal, otherwise an absolute set. */
  function Update(s: seq<CartLine>, id: int, q: int): (r: seq<CartLine>)
    ensures q < 1 ==> r == Remove(s, id)
    ensures q >= 1 ==> |r| == |s|
    ensures q >= 1 ==>
              forall i :: 0 <= i < |s| ==> r[i] == if s[i].id == id then s[i].(quantity := q) else s[i]
  {
    if q < 1 then Remove(s, id) else SetQuantity(s, id, q)
  }

  // ---------------------------------------------------------------------------
  // Notifications

  /** The success toast of `addToCart`, which names the product. */
  function AddNotice(p: Product): (n: Notice)
    ensures n.Success? && p.name <= n.message
  {
    Success(p.name + " added to cart!")
  }

  /** The informational toast of `removeFromCart`, raised whether or not a line was removed. */
  function RemoveNotice(): (n: Notice)
    ensures n.Info?
  {
    Info("Item removed from cart")
  }

  /** `updateQuantity` notifies only when it falls through to `removeFromCart`. */
  function UpdateNotice(q: int): (n: Option<Notice>)
    ensures n.Some? <==> q < 1
    ensures n.Some? ==> n.value == RemoveNotice()
  {
    if q < 1 then Some(RemoveNotice()) else None
  }
}

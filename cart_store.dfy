/**
 * The `cartItems` state cell of the `App` component and its three handlers.
 * Each handler replaces `lines` with the result of the matching transition and
 * returns the notification it raises, instead of calling the toast library.
 */
module CartStore {
  import opened Wrappers
  import opened ShoppingCart
  import CartLaws

  class Cart {
    var lines: seq<CartLine>

    /** At most one line per id, and every quantity at least 1. */
    ghost predicate Valid()
      reads this
    {
      ShoppingCart.Valid(lines)
    }

    /** A session starts with an empty cart. */
    constructor ()
      ensures lines == [] && Valid()
    {
      lines := [];
    }

    /** `cartCount`, recomputed from the lines; never fewer than the lines of a valid cart. */
    function CartCount(): (n: int)
      reads this
      ensures Valid() ==> 0 <= |lines| <= n
    {
      Count(lines)
    }

    /** The drawer's `total` in cents, recomputed from the lines; never negative when no price is. */
    function Total(): (t: int)
      reads this
      ensures Valid() && (forall i :: 0 <= i < |lines| ==> lines[i].price >= 0) ==> t >= 0
    {
      Subtotal(lines)
    }

    method AddToCart(p: Product) returns (n: Notice)
      modifies this
      ensures lines == Add(old(lines), p)
      ensures n == AddNotice(p)
      ensures old(Valid()) ==> Valid() && CartCount() == old(CartCount()) + 1
      ensures old(Valid()) ==> Total() == old(Total()) + match Find(old(lines), p.id) { case Some(l) => l.price case None => p.price }
    {
      if Valid() {
        CartLaws.AddPreservesValid(lines, p);
        CartLaws.AddTotals(lines, p);
      }
      lines := Add(lines, p);
      n := AddNotice(p);
    }

    method UpdateQuantity(id: int, q: int) returns (n: Option<Notice>)
      modifies this
      ensures lines == Update(old(lines), id, q)
      ensures n == UpdateNotice(q)
      ensures old(Valid()) ==> Valid()
    {
      if q < 1 {
        var removed := RemoveFromCart(id);
        n := Some(removed);
        return;
      }
      if Valid() {
        CartLaws.SetQuantityPreservesValid(lines, id, q);
      }
      lines := SetQuantity(lines, id, q);
      n := None;
    }

    method RemoveFromCart(id: int) returns (n: Notice)
      modifies this
      ensures lines == Remove(old(lines), id)
      ensures n == RemoveNotice()
      ensures old(Valid()) ==> Valid()
    {
      if Valid() {
        CartLaws.RemovePreservesValid(lines, id);
      }
      lines := Remove(lines, id);
      n := RemoveNotice();
    }
  }
}

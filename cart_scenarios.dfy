/** Concrete sessions over products of the storefront's catalog (prices in cents). */
module CartScenarios {
  import opened Wrappers
  import opened ShoppingCart
  import CartStore

  const Kingsguard := Product(1, "Dwarf Kingsguard - Sons of Ymir", 225, "/images/product-dwarf-kingsguard.jpg", "Miniatures")
  const Hussar := Product(3, "The Winged Hussar", 800, "/images/product-hussar.jpg", "Miniatures")

  /** Two adds of one product and one of another: two lines, three items, 12.50. */
  lemma AddAddAdd()
    ensures Add(Add(Add([], Kingsguard), Kingsguard), Hussar) == [NewLine(Kingsguard).(quantity := 2), NewLine(Hussar)]
    ensures Count(Add(Add(Add([], Kingsguard), Kingsguard), Hussar)) == 3
    ensures Subtotal(Add(Add(Add([], Kingsguard), Kingsguard), Hussar)) == 1250
  {
    var s1 := Add([], Kingsguard);
    assert s1 == [NewLine(Kingsguard)];
    var s2 := Add(s1, Kingsguard);
    assert s2 == [NewLine(Kingsguard).(quantity := 2)];
    var s3 := Add(s2, Hussar);
    assert Find(s2, Hussar.id) == None;
    assert s3 == s2 + [NewLine(Hussar)];
    assert s3[..1] == s2 && s2[..0] == [];
    assert Count(s2) == 2 && Subtotal(s2) == 450;
  }

  /** Setting the quantity is absolute: 2 becomes 5, not 7. */
  lemma UpdateIsAbsolute()
    ensures Update([NewLine(Kingsguard).(quantity := 2)], 1, 5) == [NewLine(Kingsguard).(quantity := 5)]
  {
  }

  /** Removing the second of two lines keeps the first. */
  lemma RemoveSecond()
    ensures Remove([NewLine(Kingsguard), NewLine(Hussar)], 3) == [NewLine(Kingsguard)]
  {
  }

  /** A quantity of 0 and a quantity of -3 both remove the line. */
  lemma UpdateZeroAndNegative()
    ensures Update([NewLine(Kingsguard)], 1, 0) == []
    ensures Update([NewLine(Kingsguard)], 1, -3) == []
  {
  }

  /** The same session through the store's handlers, relying on their contracts only. */
  method Session() returns (added: Notice, count: int, total: int, updated: Option<Notice>, zeroed: Option<Notice>)
    ensures added == Success("Dwarf Kingsguard - Sons of Ymir added to cart!")
    ensures count == 3 && total == 1250
    ensures updated == None && zeroed == Some(Info("Item removed from cart"))
  {
    var cart := new CartStore.Cart();
    added := cart.AddToCart(Kingsguard);
    var n := cart.AddToCart(Kingsguard);
    n := cart.AddToCart(Hussar);
    AddAddAdd();
    count, total := cart.CartCount(), cart.Total();
    updated := cart.UpdateQuantity(1, 5);
    zeroed := cart.UpdateQuantity(3, 0);
  }
}

/**
 * What the cart transitions promise: the invariants they keep, the lines they
 * leave alone, and how the item count and the subtotal move with each of them.
 */
module CartLaws {
  import opened Wrappers
  import opened ShoppingCart

  // ---------------------------------------------------------------------------
  // The two folds

  lemma {:induction false} CountAppend(a: seq<CartLine>, b: seq<CartLine>)
    ensures Count(a + b) == Count(a) + Count(b)
    ensures Subtotal(a + b) == Subtotal(a) + Subtotal(b)
  {
    if b == [] {
      assert a + b == a;
    } else {
      var b' := b[..|b| - 1];
      assert (a + b)[..|a + b| - 1] == a + b';
      CountAppend(a, b');
    }
  }

  /** Replacing one line changes the totals by that line's difference only. */
  lemma CountReplace(s: seq<CartLine>, k: int, l: CartLine)
    requires 0 <= k < |s|
    ensures Count(s[k := l]) == Count(s) - s[k].quantity + l.quantity
    ensures Subtotal(s[k := l]) == Subtotal(s) - s[k].price * s[k].quantity + l.price * l.quantity
  {
    assert s == s[..k] + [s[k]] + s[k + 1..];
    assert s[k := l] == s[..k] + [l] + s[k + 1..];
    CountAppend(s[..k] + [s[k]], s[k + 1..]);
    CountAppend(s[..k], [s[k]]);
    CountAppend(s[..k] + [l], s[k + 1..]);
    CountAppend(s[..k], [l]);
    assert [s[k]][..0] == [] && [l][..0] == [];
  }

  // ---------------------------------------------------------------------------
  // Finding a line

  /** When ids are distinct, `find` returns the one line that has the id. */
  lemma FindUnique(s: seq<CartLine>, k: int)
    requires DistinctIds(s) && 0 <= k < |s|
    ensures Find(s, s[k].id) == Some(s[k])
  {
    var r := Find(s, s[k].id);
    var k' :| 0 <= k' < |s| && s[k'] == r.value && r.value.id == s[k].id &&
              forall j :: 0 <= j < k' ==> s[j].id != s[k].id;
    assert k' == k;
  }

  lemma FindIndex(s: seq<CartLine>, id: int, l: CartLine) returns (k: int)
    requires Find(s, id) == Some(l)
    ensures 0 <= k < |s| && s[k] == l && l.id == id
  {
    k :| 0 <= k < |s| && s[k] == l && l.id == id && forall j :: 0 <= j < k ==> s[j].id != id;
  }

  /** With distinct ids, the line at `k` is the only one with its id. */
  lemma OnlyIndex(s: seq<CartLine>, k: int)
    requires DistinctIds(s) && 0 <= k < |s|
    ensures forall i :: 0 <= i < |s| && i != k ==> s[i].id != s[k].id
  {
    forall i | 0 <= i < |s| && i != k ensures s[i].id != s[k].id {
      if i < k { assert s[i].id != s[k].id; } else { assert s[k].id != s[i].id; }
    }
  }

  lemma IncrementAt(s: seq<CartLine>, k: int)
    requires DistinctIds(s) && 0 <= k < |s|
    ensures Increment(s, s[k].id) == s[k := s[k].(quantity := s[k].quantity + 1)]
  {
    OnlyIndex(s, k);
  }

  lemma SetQuantityAt(s: seq<CartLine>, k: int, q: int)
    requires DistinctIds(s) && 0 <= k < |s|
    ensures SetQuantity(s, s[k].id, q) == s[k := s[k].(quantity := q)]
  {
    OnlyIndex(s, k);
  }

  // ---------------------------------------------------------------------------
  // addToCart

  /** A new product is appended as a single line with quantity 1; the old lines stay in front. */
  lemma AddNew(s: seq<CartLine>, p: Product)
    requires !HasId(s, p.id)
    ensures |Add(s, p)| == |s| + 1 && Add(s, p)[..|s|] == s
    ensures Add(s, p)[|s|].quantity == 1 && ProductOf(Add(s, p)[|s|]) == p
    ensures Find(Add(s, p), p.id) == Some(NewLine(p))
  {
    var r := Add(s, p);
    assert r == s + [NewLine(p)];
    assert r[|s|].id == p.id;
    var k := FindIndex(r, p.id, Find(r, p.id).value);
  }

  /** A present product gets exactly one more unit on its own line; nothing else changes. */
  lemma AddExisting(s: seq<CartLine>, p: Product, l: CartLine)
    requires DistinctIds(s) && Find(s, p.id) == Some(l)
    ensures |Add(s, p)| == |s|
    ensures forall i :: 0 <= i < |s| && s[i].id != p.id ==> Add(s, p)[i] == s[i]
    ensures Find(Add(s, p), p.id) == Some(l.(quantity := l.quantity + 1))
    ensures DistinctIds(Add(s, p))
  {
    var k := FindIndex(s, p.id, l);
    var r := Add(s, p);
    assert r[k] == l.(quantity := l.quantity + 1);
    FindUnique(r, k);
  }

  lemma AddPreservesValid(s: seq<CartLine>, p: Product)
    requires Valid(s)
    ensures Valid(Add(s, p))
  {
    if Find(s, p.id).None? {
      var r := s + [NewLine(p)];
      forall i, j | 0 <= i < j < |r| ensures r[i].id != r[j].id {
        if j == |s| {
          assert s[i].id == r[i].id;
        }
      }
    }
  }

  /** One add is one more item, and the subtotal grows by the price stored on the product's line. */
  lemma AddTotals(s: seq<CartLine>, p: Product)
    requires DistinctIds(s)
    ensures Count(Add(s, p)) == Count(s) + 1
    ensures Subtotal(Add(s, p)) == Subtotal(s) + match Find(s, p.id) { case Some(l) => l.price case None => p.price }
  {
    match Find(s, p.id)
    case Some(l) => AddExistingTotals(s, p, l);
    case None => AddNewTotals(s, p);
  }

  lemma AddExistingTotals(s: seq<CartLine>, p: Product, l: CartLine)
    requires DistinctIds(s) && Find(s, p.id) == Some(l)
    ensures Count(Add(s, p)) == Count(s) + 1
    ensures Subtotal(Add(s, p)) == Subtotal(s) + l.price
  {
    var k := FindIndex(s, p.id, l);
    var l' := l.(quantity := l.quantity + 1);
    var r := s[k := l'];
    AddExistingAt(s, p, k);
    assert Add(s, p) == r;
    CountReplace(s, k, l');
    MulAddOne(l.price, l.quantity);
    assert Count(r) == Count(s) + 1;
    assert Subtotal(r) == Subtotal(s) + l.price;
  }

  lemma AddExistingAt(s: seq<CartLine>, p: Product, k: int)
    requires DistinctIds(s) && 0 <= k < |s| && s[k].id == p.id
    ensures Add(s, p) == s[k := s[k].(quantity := s[k].quantity + 1)]
  {
    assert HasId(s, p.id);
    IncrementAt(s, k);
  }

  lemma MulAddOne(a: int, b: int)
    ensures a * (b + 1) == a * b + a
  {
  }

  lemma AddNewTotals(s: seq<CartLine>, p: Product)
    requires Find(s, p.id) == None
    ensures Count(Add(s, p)) == Count(s) + 1
    ensures Subtotal(Add(s, p)) == Subtotal(s) + p.price
  {
    CountAppend(s, [NewLine(p)]);
    assert [NewLine(p)][..0] == [];
  }

  // ---------------------------------------------------------------------------
  // updateQuantity

  /** A quantity below 1 is a removal, with the removal's notification. */
  lemma UpdateBelowOneIsRemove(s: seq<CartLine>, id: int, q: int)
    requires q < 1
    ensures Update(s, id, q) == Remove(s, id)
    ensures UpdateNotice(q) == Some(RemoveNotice())
  {
  }

  /** A quantity of 1 or more is set exactly, on that line only, without a notification. */
  lemma UpdateSetsExactly(s: seq<CartLine>, id: int, q: int, l: CartLine)
    requires q >= 1 && DistinctIds(s) && Find(s, id) == Some(l)
    ensures |Update(s, id, q)| == |s|
    ensures forall i :: 0 <= i < |s| && s[i].id != id ==> Update(s, id, q)[i] == s[i]
    ensures Find(Update(s, id, q), id) == Some(l.(quantity := q))
    ensures UpdateNotice(q) == None
  {
    var k := FindIndex(s, id, l);
    var r := Update(s, id, q);
    assert r[k] == l.(quantity := q);
    FindUnique(r, k);
  }

  /** An id that is not in the cart leaves it as it is, whatever the quantity. */
  lemma UpdateAbsent(s: seq<CartLine>, id: int, q: int)
    requires !HasId(s, id)
    ensures Update(s, id, q) == s
  {
    if q >= 1 {
      assert SetQuantity(s, id, q) == s;
    }
  }

  lemma UpdateTotals(s: seq<CartLine>, id: int, q: int, l: CartLine)
    requires q >= 1 && DistinctIds(s) && Find(s, id) == Some(l)
    ensures Count(Update(s, id, q)) == Count(s) - l.quantity + q
    ensures Subtotal(Update(s, id, q)) == Subtotal(s) - l.price * l.quantity + l.price * q
  {
    var k := FindIndex(s, id, l);
    SetQuantityAt(s, k, q);
    CountReplace(s, k, l.(quantity := q));
  }

  lemma SetQuantityPreservesValid(s: seq<CartLine>, id: int, q: int)
    requires Valid(s) && q >= 1
    ensures Valid(SetQuantity(s, id, q))
  {
  }

  lemma UpdatePreservesValid(s: seq<CartLine>, id: int, q: int)
    requires Valid(s)
    ensures Valid(Update(s, id, q))
  {
    if q < 1 {
      RemovePreservesValid(s, id);
    } else {
      SetQuantityPreservesValid(s, id, q);
    }
  }

  // ---------------------------------------------------------------------------
  // removeFromCart

  /** The filter works line by line, so it keeps the order of the lines it keeps. */
  lemma {:induction false} RemoveAppend(a: seq<CartLine>, b: seq<CartLine>, id: int)
    ensures Remove(a + b, id) == Remove(a, id) + Remove(b, id)
  {
    if a == [] {
      assert a + b == b;
    } else {
      assert (a + b)[1..] == a[1..] + b;
      RemoveAppend(a[1..], b, id);
    }
  }

  lemma RemoveIdempotent(s: seq<CartLine>, id: int)
    ensures Remove(Remove(s, id), id) == Remove(s, id)
  {
  }

  lemma {:induction false} RemovePreservesValid(s: seq<CartLine>, id: int)
    requires Valid(s)
    ensures Valid(Remove(s, id))
  {
    var r := Remove(s, id);
    forall i | 0 <= i < |r| ensures r[i].quantity >= 1 {
      assert r[i] in s;
    }
    if s != [] {
      var t := Remove(s[1..], id);
      RemovePreservesValid(s[1..], id);
      if s[0].id != id {
        HeadNotInTail(s);
        ConsDistinct(s[0], t);
      }
    }
  }

  lemma HeadNotInTail(s: seq<CartLine>)
    requires DistinctIds(s) && s != []
    ensures forall l :: l in s[1..] ==> l.id != s[0].id
  {
    forall l | l in s[1..] ensures l.id != s[0].id {
      var m :| 0 <= m < |s[1..]| && s[1..][m] == l;
      assert s[m + 1] == l;
    }
  }

  lemma ConsDistinct(x: CartLine, t: seq<CartLine>)
    requires DistinctIds(t) && forall l :: l in t ==> l.id != x.id
    ensures DistinctIds([x] + t)
  {
    var r := [x] + t;
    forall i, j | 0 <= i < j < |r| ensures r[i].id != r[j].id {
      assert r[j] == t[j - 1];
      if i > 0 { assert r[i] == t[i - 1]; }
    }
  }

  /** With distinct ids, no line before or after `k` shares its id. */
  lemma NoIdAround(s: seq<CartLine>, k: int)
    requires DistinctIds(s) && 0 <= k < |s|
    ensures !HasId(s[..k], s[k].id) && !HasId(s[k + 1..], s[k].id)
  {
    OnlyIndex(s, k);
  }

  lemma RemoveMiddle(pre: seq<CartLine>, x: CartLine, post: seq<CartLine>)
    requires !HasId(pre, x.id) && !HasId(post, x.id)
    ensures Remove(pre + [x] + post, x.id) == pre + post
  {
    var u := pre + [x];
    RemoveAppend(u, post, x.id);
    RemoveAppend(pre, [x], x.id);
    RemoveSingle(x);
    assert Remove(u, x.id) == pre;
    assert Remove(post, x.id) == post;
  }

  lemma RemoveSingle(x: CartLine)
    ensures Remove([x], x.id) == []
  {
    assert [x][1..] == [];
  }

  /** Removing a present line drops exactly that line, in place. */
  lemma RemoveAt(s: seq<CartLine>, k: int)
    requires DistinctIds(s) && 0 <= k < |s|
    ensures Remove(s, s[k].id) == s[..k] + s[k + 1..]
  {
    NoIdAround(s, k);
    assert s == s[..k] + [s[k]] + s[k + 1..];
    RemoveMiddle(s[..k], s[k], s[k + 1..]);
  }

  /** Removing a present line takes exactly its items and its amount off the totals. */
  lemma RemoveTotals(s: seq<CartLine>, id: int, l: CartLine)
    requires DistinctIds(s) && Find(s, id) == Some(l)
    ensures |Remove(s, id)| == |s| - 1
    ensures Count(Remove(s, id)) == Count(s) - l.quantity
    ensures Subtotal(Remove(s, id)) == Subtotal(s) - l.price * l.quantity
  {
    var k := FindIndex(s, id, l);
    var pre, post := s[..k], s[k + 1..];
    RemoveAt(s, k);
    assert s == pre + [l] + post;
    CountAppend(pre, post);
    CountAppend(pre + [l], post);
    CountAppend(pre, [l]);
    assert [l][..0] == [];
  }

  // ---------------------------------------------------------------------------
  // Carts reachable from the empty cart

  /** One click of the user: an add, a quantity change or a removal. */
  datatype Op = AddOp(product: Product) | UpdateOp(id: int, quantity: int) | RemoveOp(id: int)

  function Apply(s: seq<CartLine>, op: Op): seq<CartLine> {
    match op
    case AddOp(p) => Add(s, p)
    case UpdateOp(id, q) => Update(s, id, q)
    case RemoveOp(id) => Remove(s, id)
  }

  /** The cart after the given operations, starting from the empty cart of a new session. */
  function Replay(ops: seq<Op>): seq<CartLine> {
    if ops == [] then [] else Apply(Replay(ops[..|ops| - 1]), ops[|ops| - 1])
  }

  lemma {:induction false} ReachableValid(ops: seq<Op>)
    ensures Valid(Replay(ops))
    ensures |Replay(ops)| <= Count(Replay(ops))
  {
    if ops != [] {
      var s := Replay(ops[..|ops| - 1]);
      ReachableValid(ops[..|ops| - 1]);
      match ops[|ops| - 1]
      case AddOp(p) => AddPreservesValid(s, p);
      case UpdateOp(id, q) => UpdatePreservesValid(s, id, q);
      case RemoveOp(id) => RemovePreservesValid(s, id);
    }
  }

  // ---------------------------------------------------------------------------
  // Prices come from a fixed catalog

  /** No two catalog products share an id. */
  predicate UniqueIds(cat: seq<Product>) {
    forall a, b :: a in cat && b in cat && a.id == b.id ==> a == b
  }

  /** Every line carries the catalog price of its product. */
  predicate PricedBy(s: seq<CartLine>, cat: seq<Product>) {
    forall i, p :: 0 <= i < |s| && p in cat && s[i].id == p.id ==> s[i].price == p.price
  }

  /** Every product added is one of the catalog's. */
  predicate FromCatalog(ops: seq<Op>, cat: seq<Product>) {
    forall i :: 0 <= i < |ops| && ops[i].AddOp? ==> ops[i].product in cat
  }

  lemma ApplyKeepsPrices(s: seq<CartLine>, op: Op, cat: seq<Product>)
    requires UniqueIds(cat) && PricedBy(s, cat)
    requires op.AddOp? ==> op.product in cat
    ensures PricedBy(Apply(s, op), cat)
  {
    var r := Apply(s, op);
    if op.RemoveOp? || (op.UpdateOp? && op.quantity < 1) {
      forall i, p | 0 <= i < |r| && p in cat && r[i].id == p.id ensures r[i].price == p.price {
        assert r[i] in s;
      }
    }
  }

  lemma {:induction false} ReachablePricedBy(ops: seq<Op>, cat: seq<Product>)
    requires UniqueIds(cat) && FromCatalog(ops, cat)
    ensures PricedBy(Replay(ops), cat)
  {
    if ops != [] {
      var init := ops[..|ops| - 1];
      assert FromCatalog(init, cat) by {
        forall i | 0 <= i < |init| && init[i].AddOp? ensures init[i].product in cat {
          assert init[i] == ops[i];
        }
      }
      ReachablePricedBy(init, cat);
      ApplyKeepsPrices(Replay(init), ops[|ops| - 1], cat);
    }
  }

  /** In any cart a session can reach, adding a catalog product raises the count by 1 and the subtotal by its price. */
  lemma ReachableAddTotals(ops: seq<Op>, cat: seq<Product>, p: Product)
    requires UniqueIds(cat) && FromCatalog(ops, cat) && p in cat
    ensures Count(Add(Replay(ops), p)) == Count(Replay(ops)) + 1
    ensures Subtotal(Add(Replay(ops), p)) == Subtotal(Replay(ops)) + p.price
  {
    var s := Replay(ops);
    ReachableValid(ops);
    ReachablePricedBy(ops, cat);
    AddTotals(s, p);
    if Find(s, p.id).Some? {
      var k := FindIndex(s, p.id, Find(s, p.id).value);
    }
  }
}

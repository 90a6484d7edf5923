/** The cart engine of the storefront's root component: the three state
    updaters (add, set quantity, remove), each a function from the previous
    cart to the next one, and the two totals, folds over the cart's entries
    in the order the page enumerates them. */
module CartEngine {
  import opened Types

  /** The cart, keyed by product id. */
  type Cart = map<int, CartItem>

  /** The cart invariant: each key is its line's product id and each line
      holds at least one unit. */
  predicate WellFormed(cart: Cart)
  {
    forall id | id in cart :: cart[id].id == id && cart[id].quantity >= 1
  }

  // ---------------------------------------------------------------------
  // The updaters

  /** Add one unit of a product. An absent product gets a line of quantity 1
      copied from the product; a present one keeps its stored line and gains
      one unit. */
  function AddToCart(prev: Cart, p: Product): (next: Cart)
    ensures next.Keys == prev.Keys + {p.id}
    ensures p.id !in prev ==> next[p.id] == WithQuantity(p, 1)
    ensures p.id in prev ==>
      ProductOf(next[p.id]) == ProductOf(prev[p.id]) &&
      next[p.id].quantity == prev[p.id].quantity + 1
    ensures forall id | id in prev && id != p.id :: next[id] == prev[id]
    ensures WellFormed(prev) ==> WellFormed(next)
  {
    var current := if p.id in prev then prev[p.id] else WithQuantity(p, 0);
    prev[p.id := current.(quantity := current.quantity + 1)]
  }

  /** Set the quantity of a line. A quantity below 1 and an id not in the
      cart are both ignored. */
  function SetItemQuantity(prev: Cart, id: int, quantity: int): (next: Cart)
    ensures quantity < 1 || id !in prev ==> next == prev
    ensures next.Keys == prev.Keys
    ensures quantity >= 1 && id in prev ==>
      ProductOf(next[id]) == ProductOf(prev[id]) && next[id].quantity == quantity
    ensures forall k | k in prev && k != id :: next[k] == prev[k]
    ensures WellFormed(prev) ==> WellFormed(next)
  {
    if quantity < 1 then prev
    else if id !in prev then prev
    else prev[id := prev[id].(quantity := quantity)]
  }

  /** Remove a line outright; an absent id leaves the cart as it was. */
  function RemoveItem(prev: Cart, id: int): (next: Cart)
    ensures next.Keys == prev.Keys - {id}
    ensures forall k | k in next :: next[k] == prev[k]
    ensures id !in prev ==> next == prev
    ensures WellFormed(prev) ==> WellFormed(next)
  {
    prev - {id}
  }

  /** Adding n units of one product, one click at a time. */
  function AddTimes(cart: Cart, p: Product, n: nat): Cart
  {
    if n == 0 then cart else AddToCart(AddTimes(cart, p, n - 1), p)
  }

  /** From an empty cart, n adds of a product give one line of quantity n. */
  lemma {:induction false} AddTimesFromEmpty(p: Product, n: nat)
    requires n >= 1
    ensures AddTimes(map[], p, n) == map[p.id := WithQuantity(p, n)]
  {
    if n > 1 {
      AddTimesFromEmpty(p, n - 1);
    }
  }

  /** Removing twice is removing once. */
  lemma RemoveIdempotent(cart: Cart, id: int)
    ensures RemoveItem(RemoveItem(cart, id), id) == RemoveItem(cart, id)
  {
  }

  /** Setting a line's quantity and then setting it back restores the cart. */
  lemma SetQuantityUndo(cart: Cart, id: int, quantity: int)
    requires WellFormed(cart) && id in cart
    ensures SetItemQuantity(SetItemQuantity(cart, id, quantity), id, cart[id].quantity) == cart
  {
    var next := SetItemQuantity(cart, id, quantity);
    if quantity >= 1 {
      assert next[id := next[id].(quantity := cart[id].quantity)] == cart;
    }
  }

  /** Adding a product and then removing it is the same as removing it. */
  lemma AddThenRemove(cart: Cart, p: Product)
    ensures RemoveItem(AddToCart(cart, p), p.id) == RemoveItem(cart, p.id)
  {
  }

  // ---------------------------------------------------------------------
  // The enumeration order of the cart's lines

  predicate Increasing(ks: seq<int>)
  {
    forall i, j | 0 <= i < j < |ks| :: ks[i] < ks[j]
  }

  lemma MinExists(ids: set<int>)
    requires ids != {}
    ensures exists m :: m in ids && forall x | x in ids :: m <= x
  {
    if forall z :: z !in ids { assert false; }
    var y :| y in ids;
    var rest := ids - {y};
    if rest == {} {
      forall x | x in ids ensures y <= x { assert x !in rest; }
    } else {
      MinExists(rest);
      var m :| m in rest && forall x | x in rest :: m <= x;
      var lo := if y < m then y else m;
      forall x | x in ids ensures lo <= x { if x != y { assert x in rest; } }
    }
  }

  function Min(ids: set<int>): (m: int)
    requires ids != {}
    ensures m in ids && forall x | x in ids :: m <= x
  {
    MinExists(ids);
    var m :| m in ids && forall x | x in ids :: m <= x; m
  }

  /** The ids in ascending order: the order in which the page enumerates the
      integer keys of the cart object. */
  function SortedKeys(ids: set<int>): (ks: seq<int>)
    ensures |ks| == |ids| && Increasing(ks)
    ensures forall id :: id in ks <==> id in ids
    decreases |ids|
  {
    if ids == {} then []
    else
      var m := Min(ids);
      var rest := SortedKeys(ids - {m});
      assert forall j | 0 <= j < |rest| :: rest[j] in ids - {m};
      [m] + rest
  }

  lemma FirstIn(s: seq<int>)
    ensures s != [] ==> s[0] in s
  {
  }

  /** Two increasing sequences with the same elements are equal. */
  lemma {:induction false} IncreasingUnique(a: seq<int>, b: seq<int>)
    requires Increasing(a) && Increasing(b)
    requires forall x :: x in a <==> x in b
    ensures a == b
  {
    if a == [] {
      FirstIn(b);
    } else {
      assert a[0] in a;
      assert a[0] in b;
      assert b != [];
      assert b[0] in b;
      assert b[0] in a;
      var i :| 0 <= i < |a| && a[i] == b[0];
      var j :| 0 <= j < |b| && b[j] == a[0];
      assert a[0] <= a[i] && b[0] <= b[j];
      assert a[0] == b[0];
      forall x ensures x in a[1..] <==> x in b[1..] {
        if x in a[1..] {
          var k :| 1 <= k < |a| && a[k] == x;
          assert x != a[0] && x in b;
          var l :| 0 <= l < |b| && b[l] == x;
          assert l != 0;
          assert b[l] == b[1..][l - 1];
        }
        if x in b[1..] {
          var k :| 1 <= k < |b| && b[k] == x;
          assert x != b[0] && x in a;
          var l :| 0 <= l < |a| && a[l] == x;
          assert l != 0;
          assert a[l] == a[1..][l - 1];
        }
      }
      IncreasingUnique(a[1..], b[1..]);
      assert a == [a[0]] + a[1..] && b == [b[0]] + b[1..];
    }
  }

  /** `Object.values(cart)`: every line once, in ascending id order. */
  function Entries(cart: Cart): (items: seq<CartItem>)
    ensures |items| == |cart|
    ensures forall i | 0 <= i < |items| :: items[i] == cart[SortedKeys(cart.Keys)[i]]
  {
    var ks := SortedKeys(cart.Keys);
    seq(|ks|, i requires 0 <= i < |ks| => cart[ks[i]])
  }

  /** Dropping one place from an increasing sequence keeps it increasing and
      drops exactly that element. */
  lemma DropIncreasing(ks: seq<int>, i: nat)
    requires Increasing(ks) && i < |ks|
    ensures Increasing(ks[..i] + ks[i + 1..])
    ensures forall x :: x in ks[..i] + ks[i + 1..] <==> x in ks && x != ks[i]
  {
    var ks' := ks[..i] + ks[i + 1..];
    forall a, b | 0 <= a < b < |ks'| ensures ks'[a] < ks'[b] {
      var a0 := if a < i then a else a + 1;
      var b0 := if b < i then b else b + 1;
      assert ks'[a] == ks[a0] && ks'[b] == ks[b0];
    }
    forall x ensures x in ks' <==> x in ks && x != ks[i] {
      if x in ks' {
        var a :| 0 <= a < |ks'| && ks'[a] == x;
        var a0 := if a < i then a else a + 1;
        assert ks[a0] == x && a0 != i;
      }
      if x in ks && x != ks[i] {
        var a :| 0 <= a < |ks| && ks[a] == x;
        if a < i { assert ks'[a] == x; } else { assert ks'[a - 1] == x; }
      }
    }
  }

  /** Taking an id out of a set takes its place out of the sorted ids. */
  lemma SortedKeysWithout(ids: set<int>, k: int) returns (i: nat)
    requires k in ids
    ensures i < |SortedKeys(ids)| && SortedKeys(ids)[i] == k
    ensures SortedKeys(ids - {k}) == SortedKeys(ids)[..i] + SortedKeys(ids)[i + 1..]
  {
    var ks := SortedKeys(ids);
    assert k in ks;
    i :| 0 <= i < |ks| && ks[i] == k;
    DropIncreasing(ks, i);
    IncreasingUnique(ks[..i] + ks[i + 1..], SortedKeys(ids - {k}));
  }

  /** Once an id's place is dropped from the sorted ids, the lines after
      that place move up by one. */
  lemma EntryShift(cart: Cart, k: int, i: nat, j: nat)
    requires k in cart && i < |SortedKeys(cart.Keys)|
    requires SortedKeys((cart - {k}).Keys) == SortedKeys(cart.Keys)[..i] + SortedKeys(cart.Keys)[i + 1..]
    requires j < |Entries(cart - {k})|
    ensures j + 1 < |Entries(cart)|
    ensures Entries(cart - {k})[j] == Entries(cart)[if j < i then j else j + 1]
  {
    var ks, ks' := SortedKeys(cart.Keys), SortedKeys((cart - {k}).Keys);
    var j0 := if j < i then j else j + 1;
    assert ks'[j] == ks[j0];
  }

  /** A line's place in the enumeration: removing the line removes exactly
      that place and keeps the others in order. */
  lemma EntriesWithout(cart: Cart, k: int) returns (i: nat)
    requires k in cart
    ensures i < |Entries(cart)| && Entries(cart)[i] == cart[k]
    ensures Entries(cart - {k}) == Entries(cart)[..i] + Entries(cart)[i + 1..]
  {
    assert (cart - {k}).Keys == cart.Keys - {k};
    i := SortedKeysWithout(cart.Keys, k);
    var e, e' := Entries(cart), Entries(cart - {k});
    var d := e[..i] + e[i + 1..];
    assert |e'| == |d|;
    forall j | 0 <= j < |e'| ensures e'[j] == d[j] {
      EntryShift(cart, k, i, j);
    }
  }

  // ---------------------------------------------------------------------
  // The folds

  /** `items.reduce((sum, item) => sum + w(item), 0)` over the first n
      items: the running sum of the reduction after n steps. */
  function FoldPrefix(items: seq<CartItem>, weight: Measure, n: nat): int
    requires n <= |items|
  {
    if n == 0 then 0 else FoldPrefix(items, weight, n - 1) + Weight(weight, items[n - 1])
  }

  /** `items.reduce((sum, item) => sum + w(item), 0)`. */
  function Fold(items: seq<CartItem>, weight: Measure): int
  {
    FoldPrefix(items, weight, |items|)
  }

  /** What a fold adds up over the lines: units or amount due. */
  datatype Measure = Units | Amount

  function Weight(m: Measure, item: CartItem): int
  {
    match m
    case Units => Quantity(item)
    case Amount => LineTotal(item)
  }

  function Quantity(item: CartItem): int
  {
    item.quantity
  }

  function LineTotal(item: CartItem): int
  {
    item.price * item.quantity
  }

  /** The fold of a weight over the cart's entries. */
  function Sum(cart: Cart, weight: Measure): int
  {
    Fold(Entries(cart), weight)
  }

  /** The number of units in the cart (the header badge). */
  function TotalItems(cart: Cart): int
  {
    Sum(cart, Units)
  }

  /** The amount due: the sum of price times quantity. */
  function TotalPrice(cart: Cart): int
  {
    Sum(cart, Amount)
  }

  /** The running sum after n steps depends only on the first n items. */
  lemma {:induction false} FoldPrefixAgree(a: seq<CartItem>, b: seq<CartItem>, weight: Measure, n: nat)
    requires n <= |a| && n <= |b|
    requires forall i | 0 <= i < n :: a[i] == b[i]
    ensures FoldPrefix(a, weight, n) == FoldPrefix(b, weight, n)
  {
    if n > 0 {
      FoldPrefixAgree(a, b, weight, n - 1);
    }
  }

  lemma {:induction false} FoldAppendPrefix(a: seq<CartItem>, b: seq<CartItem>, weight: Measure, m: nat)
    requires m <= |b|
    ensures FoldPrefix(a + b, weight, |a| + m) == Fold(a, weight) + FoldPrefix(b, weight, m)
  {
    if m == 0 {
      FoldPrefixAgree(a + b, a, weight, |a|);
    } else {
      FoldAppendPrefix(a, b, weight, m - 1);
      assert (a + b)[|a| + m - 1] == b[m - 1];
    }
  }

  /** Folding a concatenation adds the two folds. */
  lemma FoldAppend(a: seq<CartItem>, b: seq<CartItem>, weight: Measure)
    ensures Fold(a + b, weight) == Fold(a, weight) + Fold(b, weight)
  {
    FoldAppendPrefix(a, b, weight, |b|);
  }

  /** A fold does not depend on the order of its items. */
  lemma {:induction false} FoldPermutation(a: seq<CartItem>, b: seq<CartItem>, weight: Measure)
    requires multiset(a) == multiset(b)
    ensures Fold(a, weight) == Fold(b, weight)
    decreases |a|
  {
    if a == [] {
      assert |b| == |multiset(b)| == 0;
    } else {
      var n := |a| - 1;
      var x := a[n];
      assert x in multiset(b);
      var j :| 0 <= j < |b| && b[j] == x;
      var b' := b[..j] + b[j + 1..];
      assert multiset(b') == multiset(b) - multiset{x} by {
        assert b == b[..j] + [x] + b[j + 1..];
      }
      assert multiset(a[..n]) == multiset(a) - multiset{x} by {
        assert a == a[..n] + [x];
      }
      FoldPermutation(a[..n], b', weight);
      FoldDrop(a, n, weight);
      FoldDrop(b, j, weight);
      assert a[..n] + a[n + 1..] == a[..n];
    }
  }

  /** The totals are the same whatever order the lines are enumerated in. */
  lemma TotalsIgnoreOrder(cart: Cart, items: seq<CartItem>)
    requires multiset(items) == multiset(Entries(cart))
    ensures Fold(items, Units) == TotalItems(cart)
    ensures Fold(items, Amount) == TotalPrice(cart)
  {
    FoldPermutation(items, Entries(cart), Units);
    FoldPermutation(items, Entries(cart), Amount);
  }

  lemma FoldSingle(x: CartItem, weight: Measure)
    ensures Fold([x], weight) == Weight(weight, x)
  {
    assert FoldPrefix([x], weight, 0) == 0;
  }

  /** Folding with one place dropped takes that place's weight out. */
  lemma FoldDrop(e: seq<CartItem>, i: nat, weight: Measure)
    requires i < |e|
    ensures Fold(e, weight) == Weight(weight, e[i]) + Fold(e[..i] + e[i + 1..], weight)
  {
    var front, x, back := e[..i], e[i], e[i + 1..];
    assert e == front + [x] + back;
    FoldAppend(front + [x], back, weight);
    FoldAppend(front, [x], weight);
    FoldAppend(front, back, weight);
    FoldSingle(x, weight);
  }

  /** The sum over a cart is one line's weight plus the sum over the rest. */
  lemma SumWithout(cart: Cart, k: int, weight: Measure)
    requires k in cart
    ensures Sum(cart, weight) == Weight(weight, cart[k]) + Sum(cart - {k}, weight)
  {
    var i := EntriesWithout(cart, k);
    FoldDrop(Entries(cart), i, weight);
  }

  /** Putting a line under a key replaces that key's weight in the sum. */
  lemma SumPut(cart: Cart, k: int, item: CartItem, weight: Measure)
    ensures Sum(cart[k := item], weight)
         == Sum(cart, weight) - (if k in cart then Weight(weight, cart[k]) else 0) + Weight(weight, item)
  {
    SumWithout(cart[k := item], k, weight);
    PutThenRemove(cart, k, item);
    if k in cart {
      SumWithout(cart, k, weight);
    } else {
      RemoveAbsent(cart, k);
    }
  }

  lemma PutThenRemove(cart: Cart, k: int, item: CartItem)
    ensures cart[k := item] - {k} == cart - {k}
  {
  }

  lemma RemoveAbsent(cart: Cart, k: int)
    requires k !in cart
    ensures cart - {k} == cart
  {
  }

  lemma EmptyTotals()
    ensures TotalItems(map[]) == 0 && TotalPrice(map[]) == 0
  {
  }

  lemma {:induction false} FoldAtLeast(items: seq<CartItem>, weight: Measure, low: int, n: nat)
    requires n <= |items|
    requires forall i | 0 <= i < n :: Weight(weight, items[i]) >= low
    ensures FoldPrefix(items, weight, n) >= low * n
  {
    if n > 0 {
      FoldAtLeast(items, weight, low, n - 1);
      assert low * n == low * (n - 1) + low;
    }
  }

  /** Every line of a well-formed cart weighs at least one unit and a
      non-negative amount. */
  lemma EntriesWeights(cart: Cart)
    requires WellFormed(cart)
    ensures forall i | 0 <= i < |Entries(cart)| :: Weight(Units, Entries(cart)[i]) >= 1
    ensures forall i | 0 <= i < |Entries(cart)| :: Weight(Amount, Entries(cart)[i]) >= 0
  {
    var e, ks := Entries(cart), SortedKeys(cart.Keys);
    forall i | 0 <= i < |e| ensures e[i].quantity >= 1 {
      assert ks[i] in ks;
    }
  }

  lemma NonEmptySize(cart: Cart)
    ensures cart != map[] ==> |cart| >= 1
  {
    if |cart| == 0 {
      assert cart.Keys == {};
      assert cart == map[];
    }
  }

  /** In a well-formed cart the unit count is at least the number of lines,
      it is zero exactly for the empty cart, and the amount is never negative. */
  lemma TotalsBounds(cart: Cart)
    requires WellFormed(cart)
    ensures TotalItems(cart) >= |cart|
    ensures TotalItems(cart) == 0 <==> cart == map[]
    ensures TotalPrice(cart) >= 0
  {
    EntriesWeights(cart);
    FoldAtLeast(Entries(cart), Units, 1, |cart|);
    FoldAtLeast(Entries(cart), Amount, 0, |cart|);
    NonEmptySize(cart);
  }

  /** One add raises the unit count by one and the amount by the line's price. */
  lemma AddToCartTotals(cart: Cart, p: Product)
    ensures TotalItems(AddToCart(cart, p)) == TotalItems(cart) + 1
    ensures TotalPrice(AddToCart(cart, p))
         == TotalPrice(cart) + (if p.id in cart then cart[p.id].price else p.price)
  {
    var line := if p.id in cart then cart[p.id] else WithQuantity(p, 0);
    var item := line.(quantity := line.quantity + 1);
    assert AddToCart(cart, p) == cart[p.id := item];
    assert TotalItems(cart[p.id := item]) == TotalItems(cart) + 1 by {
      SumPut(cart, p.id, item, Units);
    }
    assert TotalPrice(cart[p.id := item]) == TotalPrice(cart) + line.price by {
      SumPut(cart, p.id, item, Amount);
      LineTotalStep(line);
    }
  }

  /** One more unit adds the unit price to a line's amount. */
  lemma LineTotalStep(line: CartItem)
    ensures LineTotal(line.(quantity := line.quantity + 1)) == LineTotal(line) + line.price
  {
    var p, q := line.price, line.quantity;
    assert p * (q + 1) == p * q + p;
  }

  /** A cart of one line sums to that line's weight. */
  lemma SingleLineSum(id: int, item: CartItem, weight: Measure)
    ensures Sum(map[id := item], weight) == Weight(weight, item)
  {
    SumWithout(map[id := item], id, weight);
    assert map[id := item] - {id} == map[];
  }

  /** n adds of one product to an empty cart give n units costing n times
      the product's price. */
  lemma AddTimesTotals(p: Product, n: nat)
    requires n >= 1
    ensures TotalItems(AddTimes(map[], p, n)) == n
    ensures TotalPrice(AddTimes(map[], p, n)) == p.price * n
  {
    var item := WithQuantity(p, n);
    assert AddTimes(map[], p, n) == map[p.id := item] by {
      AddTimesFromEmpty(p, n);
    }
    SingleLineSum(p.id, item, Units);
    SingleLineSum(p.id, item, Amount);
  }

  /** An accepted quantity change moves the totals by the difference. */
  lemma SetItemQuantityTotals(cart: Cart, id: int, quantity: int)
    requires quantity >= 1 && id in cart
    ensures TotalItems(SetItemQuantity(cart, id, quantity))
         == TotalItems(cart) - cart[id].quantity + quantity
    ensures TotalPrice(SetItemQuantity(cart, id, quantity))
         == TotalPrice(cart) + cart[id].price * (quantity - cart[id].quantity)
  {
    var item := cart[id].(quantity := quantity);
    SumPut(cart, id, item, Units);
    SumPut(cart, id, item, Amount);
    assert LineTotal(item) - LineTotal(cart[id]) == cart[id].price * (quantity - cart[id].quantity);
  }

  /** Removing a line takes its units and its amount out of the totals. */
  lemma RemoveItemTotals(cart: Cart, id: int)
    requires id in cart
    ensures TotalItems(RemoveItem(cart, id)) == TotalItems(cart) - cart[id].quantity
    ensures TotalPrice(RemoveItem(cart, id)) == TotalPrice(cart) - cart[id].price * cart[id].quantity
  {
    SumWithout(cart, id, Units);
    SumWithout(cart, id, Amount);
  }
}

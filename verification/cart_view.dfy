/** The cart page: quantity buttons built on the cart reducer, the running total,
    and order placement, one order per cart line. */
module CartView {
  import opened Seqs
  import opened Entities
  import opened CartSlice

  /** What one line contributes to the total: `item.price * item.quantity`. */
  function LineTotal(l: Line): int { l.product.price * l.quantity }

  /** `total()`: the sum of `price * quantity` over the lines. */
  function Total(lines: seq<Line>): (t: int)
    ensures (forall i :: 0 <= i < |lines| ==> lines[i].product.price >= 0 && lines[i].quantity >= 0) ==> t >= 0
  {
    assert (forall i :: 0 <= i < |lines| ==> lines[i].product.price >= 0 && lines[i].quantity >= 0) ==>
             SumOf(lines, LineTotal) >= 0 by {
      if forall i :: 0 <= i < |lines| ==> lines[i].product.price >= 0 && lines[i].quantity >= 0 {
        SumOfAtLeast(lines, LineTotal, 0);
      }
    }
    SumOf(lines, LineTotal)
  }

  /** The lines after `decrement(item)`: the item's line is removed and, when its
      quantity was above 1, re-added `quantity - 1` times, which leaves one line with
      quantity `quantity - 1` at the end of the cart. */
  function DecrementedLines(lines: seq<Line>, item: Line): (r: seq<Line>)
    ensures item.quantity > 1 ==>
              FindLine(r, item.product.id) == Some(|r| - 1) && r[|r| - 1] == Line(item.product, item.quantity - 1)
    ensures item.quantity <= 1 ==> FindLine(r, item.product.id) == None
  {
    var rest := RemovedLines(lines, item.product.id);
    if item.quantity > 1 then
      var r := rest + [Line(item.product, item.quantity - 1)];
      assert FindLine(r, item.product.id) == Some(|rest|) by {
        assert !HasId(rest, item.product.id);
        assert forall j :: 0 <= j < |rest| ==> r[j] == rest[j];
        assert r[|rest|].product.id == item.product.id;
      }
      r
    else
      rest
  }

  /** The order record built for one cart line. */
  datatype Order = Order(productId: string, price: int)

  function OrderFor(l: Line): Order { Order(l.product.id, LineTotal(l)) }

  /** The orders of a checkout, one per line, in cart order. */
  function OrdersFor(lines: seq<Line>): (orders: seq<Order>)
    ensures |orders| == |lines|
  {
    if lines == [] then [] else [OrderFor(lines[0])] + OrdersFor(lines[1..])
  }

  function OrderPrice(o: Order): int { o.price }

  /** How a checkout ended. */
  datatype Checkout = LoginRequired | Failed(at: nat) | Placed

  /** `!token`: a missing or empty token counts as logged out. */
  predicate HasToken(token: Option<string>) { token.Some? && token.value != "" }

  /** `total()` is the left fold of `reduce`: 0 for an empty cart, and each further
      line adds its `price * quantity`. */
  lemma TotalFold(lines: seq<Line>, l: Line)
    ensures Total([]) == 0
    ensures Total(lines + [l]) == Total(lines) + l.product.price * l.quantity
  {
    SumOfAppend(lines, [l], LineTotal);
  }

  /** Order i names line i's product and charges line i's `price * quantity`. */
  lemma {:induction false} OrdersMatchLines(lines: seq<Line>)
    ensures |OrdersFor(lines)| == |lines|
    ensures forall i :: 0 <= i < |lines| ==>
      OrdersFor(lines)[i].productId == lines[i].product.id &&
      OrdersFor(lines)[i].price == lines[i].product.price * lines[i].quantity
  {
    if lines != [] {
      OrdersMatchLines(lines[1..]);
      assert forall i :: 1 <= i < |lines| ==> OrdersFor(lines)[i] == OrdersFor(lines[1..])[i - 1];
    }
  }

  /** The order prices of a checkout add up to the cart total. */
  lemma {:induction false} OrderPricesSumToTotal(lines: seq<Line>)
    ensures SumOf(OrdersFor(lines), OrderPrice) == Total(lines)
  {
    if lines != [] {
      OrderPricesSumToTotal(lines[1..]);
    }
  }

  /** `increment` of a line already in the cart raises the total by the line's stored
      price (not by the price of the payload, which is only used for a new line). */
  lemma IncrementRaisesTotal(lines: seq<Line>, k: nat)
    requires UniqueIds(lines) && k < |lines|
    ensures Total(AddedLines(lines, lines[k].product)) == Total(lines) + lines[k].product.price
  {
    AddExisting(lines, lines[k].product, k);
    var r := AddedLines(lines, lines[k].product);
    assert r == lines[k := Line(lines[k].product, lines[k].quantity + 1)];
    SumOfUpdate(lines, k, Line(lines[k].product, lines[k].quantity + 1), LineTotal);
  }

  /** Decrementing a line whose quantity is 1 removes every line with its id. */
  lemma DecrementLastUnit(lines: seq<Line>, item: Line)
    requires item.quantity <= 1
    ensures !HasId(DecrementedLines(lines, item), item.product.id)
    ensures DecrementedLines(lines, item) == RemovedLines(lines, item.product.id)
  {
    RemovedContents(lines, item.product.id);
  }

  /** Decrementing a line of quantity q > 1 leaves exactly one line for its id, with
      quantity q - 1, at the end; the other lines keep their relative order. */
  lemma DecrementMovesToEnd(lines: seq<Line>, item: Line)
    requires item.quantity > 1
    ensures var r := DecrementedLines(lines, item);
      && r != []
      && r[|r| - 1] == Line(item.product, item.quantity - 1)
      && !HasId(r[..|r| - 1], item.product.id)
      && r[..|r| - 1] == RemovedLines(lines, item.product.id)
      && IsSubsequence(r[..|r| - 1], lines)
  {
    var r := DecrementedLines(lines, item);
    assert r[..|r| - 1] == RemovedLines(lines, item.product.id);
    RemovedContents(lines, item.product.id);
    RemovedKeepsOrder(lines, [], item.product.id);
  }

  /** Each decrement of a line in a valid cart lowers the count `sup` by exactly 1. */
  lemma DecrementLowersCount(lines: seq<Line>, k: nat)
    requires LinesValid(lines) && k < |lines|
    ensures SumQuantity(DecrementedLines(lines, lines[k])) == SumQuantity(lines) - 1
  {
    var item := lines[k];
    RemovedSum(lines, k);
    if item.quantity > 1 {
      SumOfAppend(RemovedLines(lines, item.product.id), [Line(item.product, item.quantity - 1)], Quantity);
    }
  }

  /** Decrementing keeps the reducer's invariant. */
  lemma DecrementPreservesValid(lines: seq<Line>, item: Line)
    requires LinesValid(lines)
    ensures LinesValid(DecrementedLines(lines, item))
  {
    var id := item.product.id;
    RemovePreservesValid(lines, id);
    RemovedContents(lines, id);
    if item.quantity > 1 {
      var rest := RemovedLines(lines, id);
      var r := rest + [Line(item.product, item.quantity - 1)];
      forall i, j | 0 <= i < j < |r| ensures r[i].product.id != r[j].product.id {
        if j == |rest| {
          assert !HasId(rest, id);
          assert rest[i].product.id != id;
        }
      }
    }
  }

  /** Re-adding a product whose only line is the last one raises that line's quantity. */
  lemma AddedLineMerges(rest: seq<Line>, p: Product, n: int)
    requires !HasId(rest, p.id)
    ensures AddedLines(rest + [Line(p, n)], p) == rest + [Line(p, n + 1)]
  {
    var lines := rest + [Line(p, n)];
    var r := FindLine(lines, p.id);
    assert HasId(lines, p.id) by { assert lines[|rest|].product.id == p.id; }
  }

  /** `increment(item)`: one `addToCart(item)`. */
  method Increment(store: CartStore, item: Line)
    modifies store
    ensures store.cartItems == AddedLines(old(store.cartItems), item.product)
    ensures store.sup == SumQuantity(store.cartItems)
    ensures old(store.Valid()) ==> store.Valid() && store.sup == old(store.sup) + 1
  {
    store.AddToCart(item.product);
  }

  /** `decrement(item)`: remove the item's line, then, when its quantity was above 1,
      dispatch `addToCart(item)` `quantity - 1` times. */
  method Decrement(store: CartStore, item: Line)
    modifies store
    ensures store.cartItems == DecrementedLines(old(store.cartItems), item)
    ensures store.sup == SumQuantity(store.cartItems)
    ensures old(store.Valid()) ==> store.Valid()
  {
    var id := item.product.id;
    store.RemoveFromCart(id);
    if item.quantity > 1 {
      ghost var rest := store.cartItems;
      var i := 0;
      while i < item.quantity - 1
        invariant 0 <= i <= item.quantity - 1
        invariant store.cartItems == rest + (if i == 0 then [] else [Line(item.product, i)])
        invariant store.sup == SumQuantity(store.cartItems)
      {
        if i == 0 {
          AddNew(rest, item.product);
          assert rest + [] == rest;
        } else {
          AddedLineMerges(rest, item.product, i);
        }
        assert AddedLines(store.cartItems, item.product) == rest + [Line(item.product, i + 1)];
        store.AddToCart(item.product);
        i := i + 1;
      }
    }
    if old(store.Valid()) {
      DecrementPreservesValid(old(store.cartItems), item);
    }
  }

  /** `handlePlaceOrder`: without a token nothing is sent and the cart is kept; otherwise
      one order per line is sent in cart order, `succeeds(i)` being the backend's answer
      to the i-th; the first failure stops the loop and keeps the cart, and only when
      every order succeeded is the cart cleared through the `clear` callback. */
  method HandlePlaceOrder(store: CartStore, token: Option<string>, succeeds: nat -> bool)
    returns (sent: seq<Order>, outcome: Checkout)
    modifies store
    ensures !HasToken(token) ==> outcome == LoginRequired && sent == []
    ensures HasToken(token) ==> outcome != LoginRequired
    ensures outcome == Placed <==>
      HasToken(token) && forall i :: 0 <= i < |old(store.cartItems)| ==> succeeds(i)
    ensures outcome == Placed ==>
      sent == OrdersFor(old(store.cartItems)) && store.cartItems == [] && store.sup == 0
    ensures outcome.Failed? ==>
      && outcome.at < |old(store.cartItems)|
      && !succeeds(outcome.at)
      && (forall i :: 0 <= i < outcome.at ==> succeeds(i))
      && sent == OrdersFor(old(store.cartItems))[..outcome.at + 1]
    ensures outcome != Placed ==>
      store.cartItems == old(store.cartItems) && store.sup == old(store.sup)
  {
    sent := [];
    if !HasToken(token) {
      return sent, LoginRequired;
    }
    var cartItems := store.cartItems;
    OrdersMatchLines(cartItems);
    var i := 0;
    while i < |cartItems|
      invariant 0 <= i <= |cartItems|
      invariant sent == OrdersFor(cartItems)[..i]
      invariant forall j :: 0 <= j < i ==> succeeds(j)
    {
      sent := sent + [OrderFor(cartItems[i])];
      if !succeeds(i) {
        assert sent == OrdersFor(cartItems)[..i + 1];
        return sent, Failed(i);
      }
      i := i + 1;
    }
    assert sent == OrdersFor(cartItems);
    store.ClearCart();
    outcome := Placed;
  }

  /** A cart holding p1 (price 10) once and p2 (price 5) twice totals 20; incrementing
      p1 brings the total to 30 and the count to 4. */
  method IncrementScenario() returns (before: int, after: int, count: int)
    ensures before == 20 && after == 30 && count == 4
  {
    var p1 := Product("p1", None, None, 10, "approved");
    var p2 := Product("p2", None, None, 5, "approved");
    var store := new CartStore();
    store.AddToCart(p1);
    store.AddToCart(p2);
    AddedLineMerges([Line(p1, 1)], p2, 1);
    store.AddToCart(p2);
    assert store.cartItems == [Line(p1, 1), Line(p2, 2)];
    TotalFold([Line(p1, 1)], Line(p2, 2));
    TotalFold([], Line(p1, 1));
    assert [] + [Line(p1, 1)] == [Line(p1, 1)];
    before := Total(store.cartItems);
    assert before == 20;
    assert store.sup == 3;
    IncrementRaisesTotal(store.cartItems, 0);
    Increment(store, store.cartItems[0]);
    after := Total(store.cartItems);
    count := store.sup;
  }
}

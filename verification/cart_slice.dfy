/** The cart reducer: an ordered list of line items keyed by product id, and the
    derived item count `sup` that every reducer recomputes. */
module CartSlice {
  import opened Seqs
  import opened Entities

  /** A cart entry: the product's own fields spread into the entry, plus a quantity. */
  datatype Line = Line(product: Product, quantity: int)

  function Quantity(l: Line): int { l.quantity }

  /** The cart count `sup`: the sum of all line quantities. In a valid cart it is at
      least the number of lines, since every line holds at least one unit. */
  function SumQuantity(lines: seq<Line>): (n: int)
    ensures LinesValid(lines) ==> n >= |lines|
  {
    assert LinesValid(lines) ==> SumOf(lines, Quantity) >= |lines| by {
      if LinesValid(lines) {
        SumOfAtLeast(lines, Quantity, 1);
      }
    }
    SumOf(lines, Quantity)
  }

  /** `sup` is the left fold of `reduce`: 0 for no lines, and each further line adds
      its quantity. */
  lemma CountFold(lines: seq<Line>, l: Line)
    ensures SumQuantity([]) == 0
    ensures SumQuantity(lines + [l]) == SumQuantity(lines) + l.quantity
  {
    SumOfAppend(lines, [l], Quantity);
  }

  /** At most one line per product id. */
  predicate UniqueIds(lines: seq<Line>)
  {
    forall i, j :: 0 <= i < j < |lines| ==> lines[i].product.id != lines[j].product.id
  }

  /** The reducer's data invariant: ids are unique and every quantity is at least 1. */
  predicate LinesValid(lines: seq<Line>)
  {
    UniqueIds(lines) && forall i :: 0 <= i < |lines| ==> lines[i].quantity >= 1
  }

  predicate HasId(lines: seq<Line>, id: string)
  {
    exists i :: 0 <= i < |lines| && lines[i].product.id == id
  }

  /** `cartItems.find(i => i._id === id)`, as the index of the first matching line. */
  function FindLine(lines: seq<Line>, id: string): (r: Option<nat>)
    ensures r.Some? ==> r.value < |lines| && lines[r.value].product.id == id
    ensures r.Some? ==> forall j :: 0 <= j < r.value ==> lines[j].product.id != id
    ensures r.None? <==> !HasId(lines, id)
  {
    if lines == [] then None
    else if lines[0].product.id == id then Some(0)
    else
      match FindLine(lines[1..], id)
      case None =>
        assert forall j :: 1 <= j < |lines| ==> lines[j] == lines[1..][j - 1];
        None
      case Some(k) => Some(k + 1)
  }

  /** The cart lines after `addToCart(item)`: the first line with the item's id has its
      quantity raised by one, otherwise `{...item, quantity: 1}` is appended. */
  function AddedLines(lines: seq<Line>, item: Product): (r: seq<Line>)
    ensures FindLine(r, item.id).Some?
    ensures |r| == if FindLine(lines, item.id).Some? then |lines| else |lines| + 1
  {
    match FindLine(lines, item.id)
    case Some(i) =>
      var r := lines[i := lines[i].(quantity := lines[i].quantity + 1)];
      assert r[i].product.id == item.id;
      r
    case None =>
      var r := lines + [Line(item, 1)];
      assert r[|lines|].product.id == item.id;
      r
  }

  function NotId(id: string): Line -> bool
  {
    (l: Line) => l.product.id != id
  }

  /** The cart lines after `removeFromCart(id)`: `cartItems.filter(i => i._id !== id)`. */
  function RemovedLines(lines: seq<Line>, id: string): (r: seq<Line>)
    ensures FindLine(r, id) == None
    ensures |r| <= |lines|
  {
    var r := Filter(lines, NotId(id));
    assert !HasId(r, id) by {
      FilterMembers(lines, NotId(id));
      assert forall i :: 0 <= i < |r| ==> NotId(id)(r[i]);
    }
    r
  }

  /** Adding an id that is already present raises that line's quantity by exactly one,
      leaves every other line and every other field as it was, and appends nothing. */
  lemma AddExisting(lines: seq<Line>, item: Product, k: nat)
    requires UniqueIds(lines) && k < |lines| && lines[k].product.id == item.id
    ensures |AddedLines(lines, item)| == |lines|
    ensures AddedLines(lines, item)[k] == Line(lines[k].product, lines[k].quantity + 1)
    ensures forall j :: 0 <= j < |lines| && j != k ==> AddedLines(lines, item)[j] == lines[j]
  {
    var r := FindLine(lines, item.id);
    assert r.Some? by { assert HasId(lines, item.id); }
    assert r.value == k;
  }

  /** Adding an id that is absent appends exactly one line with quantity 1 at the end. */
  lemma AddNew(lines: seq<Line>, item: Product)
    requires !HasId(lines, item.id)
    ensures AddedLines(lines, item) == lines + [Line(item, 1)]
  {
  }

  /** `sup` recomputed after `addToCart` is one more than before. */
  lemma AddedSum(lines: seq<Line>, item: Product)
    ensures SumQuantity(AddedLines(lines, item)) == SumQuantity(lines) + 1
  {
    match FindLine(lines, item.id)
    case Some(i) =>
      SumOfUpdate(lines, i, lines[i].(quantity := lines[i].quantity + 1), Quantity);
    case None =>
      SumOfAppend(lines, [Line(item, 1)], Quantity);
  }

  lemma AddPreservesValid(lines: seq<Line>, item: Product)
    requires LinesValid(lines)
    ensures LinesValid(AddedLines(lines, item))
  {
    match FindLine(lines, item.id)
    case Some(i) =>
    case None =>
      var r := lines + [Line(item, 1)];
      forall i, j | 0 <= i < j < |r| ensures r[i].product.id != r[j].product.id {
        if j == |lines| {
          assert !HasId(lines, item.id);
          assert lines[i].product.id != item.id;
        }
      }
  }

  /** After `removeFromCart(id)` no line carries `id` and every other line is still there. */
  lemma RemovedContents(lines: seq<Line>, id: string)
    ensures !HasId(RemovedLines(lines, id), id)
    ensures forall l :: l in lines && l.product.id != id ==> l in RemovedLines(lines, id)
    ensures forall l :: l in RemovedLines(lines, id) ==> l in lines
  {
    var r := RemovedLines(lines, id);
    FilterMembers(lines, NotId(id));
    forall i | 0 <= i < |r| ensures r[i].product.id != id {
      assert NotId(id)(r[i]);
    }
    forall l | l in lines && l.product.id != id ensures l in r {
      var i :| 0 <= i < |lines| && lines[i] == l;
      assert NotId(id)(lines[i]);
    }
  }

  /** The remaining lines keep their relative order: the result is a subsequence of the
      old lines, and removal distributes over concatenation. */
  lemma RemovedKeepsOrder(a: seq<Line>, b: seq<Line>, id: string)
    ensures IsSubsequence(RemovedLines(a, id), a)
    ensures RemovedLines(a + b, id) == RemovedLines(a, id) + RemovedLines(b, id)
  {
    FilterIsSubsequence(a, NotId(id));
    FilterAppend(a, b, NotId(id));
  }

  /** Removing an id that is absent is a no-op. */
  lemma RemoveAbsent(lines: seq<Line>, id: string)
    requires !HasId(lines, id)
    ensures RemovedLines(lines, id) == lines
  {
    forall l | l in lines ensures NotId(id)(l) {
      var i :| 0 <= i < |lines| && lines[i] == l;
    }
    FilterKeepsAll(lines, NotId(id));
  }

  lemma {:induction false} RemovePreservesValid(lines: seq<Line>, id: string)
    requires LinesValid(lines)
    ensures LinesValid(RemovedLines(lines, id))
  {
    if lines != [] {
      var rest := lines[1..];
      ValidTail(lines);
      RemovePreservesValid(rest, id);
      RemovedCons(lines, id);
      if lines[0].product.id != id {
        RemovedContents(rest, id);
        NoIdInSubset(RemovedLines(rest, id), rest, lines[0].product.id);
        ConsValid(lines[0], RemovedLines(rest, id));
      }
    }
  }

  lemma ValidTail(lines: seq<Line>)
    requires lines != [] && LinesValid(lines)
    ensures LinesValid(lines[1..]) && lines[0].quantity >= 1
    ensures !HasId(lines[1..], lines[0].product.id)
  {
    UniqueTail(lines);
  }

  lemma ConsValid(l: Line, s: seq<Line>)
    requires LinesValid(s) && !HasId(s, l.product.id) && l.quantity >= 1
    ensures LinesValid([l] + s)
  {
    var r := [l] + s;
    forall i, j | 0 <= i < j < |r| ensures r[i].product.id != r[j].product.id {
      assert r[j] == s[j - 1];
      if i > 0 {
        assert r[i] == s[i - 1];
      }
    }
  }

  lemma NoIdInSubset(a: seq<Line>, b: seq<Line>, id: string)
    requires forall l :: l in a ==> l in b
    requires !HasId(b, id)
    ensures !HasId(a, id)
  {
    forall i | 0 <= i < |a| ensures a[i].product.id != id {
      assert a[i] in b;
      var m :| 0 <= m < |b| && b[m] == a[i];
    }
  }

  /** Unfolds removal and the count by one line at the front. */
  lemma RemovedCons(lines: seq<Line>, id: string)
    requires lines != []
    ensures RemovedLines(lines, id) ==
      (if lines[0].product.id != id then [lines[0]] else []) + RemovedLines(lines[1..], id)
    ensures SumQuantity(RemovedLines(lines, id)) ==
      (if lines[0].product.id != id then lines[0].quantity else 0) + SumQuantity(RemovedLines(lines[1..], id))
  {
    var head := if lines[0].product.id != id then [lines[0]] else [];
    assert RemovedLines(lines, id) == head + RemovedLines(lines[1..], id);
    SumOfAppend(head, RemovedLines(lines[1..], id), Quantity);
  }

  lemma UniqueTail(lines: seq<Line>)
    requires lines != [] && UniqueIds(lines)
    ensures UniqueIds(lines[1..])
    ensures !HasId(lines[1..], lines[0].product.id)
  {
    var rest := lines[1..];
    forall j | 0 <= j < |rest| ensures rest[j].product.id != lines[0].product.id {
      assert rest[j] == lines[j + 1];
    }
  }

  /** Removing the line at index `k` of a cart with unique ids lowers the count by its quantity. */
  lemma RemovedSum(lines: seq<Line>, k: nat)
    requires UniqueIds(lines) && k < |lines|
    ensures SumQuantity(RemovedLines(lines, lines[k].product.id)) == SumQuantity(lines) - lines[k].quantity
  {
    forall j | 0 <= j < |lines| && j != k ensures lines[j].product.id != lines[k].product.id {
      if j < k {
        assert lines[j].product.id != lines[k].product.id;
      } else {
        assert lines[k].product.id != lines[j].product.id;
      }
    }
    RemovedSumAt(lines, k);
  }

  lemma {:induction false} RemovedSumAt(lines: seq<Line>, k: nat)
    requires k < |lines|
    requires forall j :: 0 <= j < |lines| && j != k ==> lines[j].product.id != lines[k].product.id
    ensures SumQuantity(RemovedLines(lines, lines[k].product.id)) == SumQuantity(lines) - lines[k].quantity
  {
    var id := lines[k].product.id;
    var rest := lines[1..];
    RemovedCons(lines, id);
    assert SumQuantity(lines) == lines[0].quantity + SumQuantity(rest);
    if k == 0 {
      assert !HasId(rest, id) by {
        forall j | 0 <= j < |rest| ensures rest[j].product.id != id {
          assert rest[j] == lines[j + 1];
        }
      }
      RemoveAbsent(rest, id);
      assert SumQuantity(RemovedLines(lines, id)) == SumQuantity(rest);
    } else {
      assert rest[k - 1] == lines[k];
      forall j | 0 <= j < |rest| && j != k - 1 ensures rest[j].product.id != id {
        assert rest[j] == lines[j + 1];
      }
      RemovedSumAt(rest, k - 1);
      assert SumQuantity(RemovedLines(lines, id)) == lines[0].quantity + SumQuantity(RemovedLines(rest, id));
    }
  }

  /** Starting from a cart with no line for `x`'s id, `addToCart(x)` followed by
      `removeFromCart(x._id)` gives back the original lines (and so the original count). */
  lemma AddThenRemove(lines: seq<Line>, x: Product)
    requires !HasId(lines, x.id)
    ensures RemovedLines(AddedLines(lines, x), x.id) == lines
    ensures SumQuantity(RemovedLines(AddedLines(lines, x), x.id)) == SumQuantity(lines)
  {
    FilterAppend(lines, [Line(x, 1)], NotId(x.id));
    RemoveAbsent(lines, x.id);
    assert RemovedLines([Line(x, 1)], x.id) == [];
  }

  /** The cart slice of the store: `cartItems` and the count `sup`. */
  class CartStore {
    var cartItems: seq<Line>
    var sup: int

    ghost predicate Valid()
      reads this
    {
      LinesValid(cartItems) && sup == SumQuantity(cartItems)
    }

    /** The initial state: no lines and a count of 0. */
    constructor ()
      ensures Valid()
      ensures cartItems == [] && sup == 0
    {
      cartItems := [];
      sup := 0;
    }

    method AddToCart(item: Product)
      modifies this
      ensures cartItems == AddedLines(old(cartItems), item)
      ensures sup == SumQuantity(cartItems)
      ensures old(Valid()) ==> Valid() && sup == old(sup) + 1
    {
      match FindLine(cartItems, item.id) {
        case Some(i) =>
          cartItems := cartItems[i := cartItems[i].(quantity := cartItems[i].quantity + 1)];
        case None =>
          cartItems := cartItems + [Line(item, 1)];
      }
      AddedSum(old(cartItems), item);
      if old(Valid()) {
        AddPreservesValid(old(cartItems), item);
      }
      sup := SumQuantity(cartItems);
    }

    method RemoveFromCart(id: string)
      modifies this
      ensures cartItems == RemovedLines(old(cartItems), id)
      ensures sup == SumQuantity(cartItems)
      ensures old(Valid()) ==> Valid()
    {
      if Valid() {
        RemovePreservesValid(cartItems, id);
      }
      cartItems := RemovedLines(cartItems, id);
      sup := SumQuantity(cartItems);
    }

    /** Resets to the initial state whatever came before, so a second call changes nothing. */
    method ClearCart()
      modifies this
      ensures Valid()
      ensures cartItems == [] && sup == 0
    {
      cartItems := [];
      sup := 0;
    }
  }
}

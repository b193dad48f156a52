/** The catalogue page: the category and search filter over `allProducts`, and the
    login gate in front of "Add to Cart". */
module ProductsView {
  import opened Seqs
  import opened Entities
  import opened CartSlice

  /** Case folding for the search, on ASCII letters only. */
  function LowerChar(c: char): char
  {
    if 'A' <= c <= 'Z' then (c as int + 32) as char else c
  }

  /** `s.toLowerCase()` (ASCII). */
  function Lower(s: string): (r: string)
    ensures |r| == |s|
    ensures forall i :: 0 <= i < |s| ==> r[i] == LowerChar(s[i])
  {
    if s == [] then [] else [LowerChar(s[0])] + Lower(s[1..])
  }

  predicate OccursAt(s: string, t: string, i: int)
  {
    0 <= i && i + |t| <= |s| && s[i..i + |t|] == t
  }

  /** `s.includes(t)`: `t` occurs somewhere in `s` (the empty string occurs everywhere). */
  function Includes(s: string, t: string): (b: bool)
    ensures b <==> exists i :: OccursAt(s, t, i)
    decreases |s|
  {
    if |t| > |s| then false
    else if s[..|t|] == t then
      assert OccursAt(s, t, 0);
      true
    else
      var rest := Includes(s[1..], t);
      IncludesShift(s, t);
      rest
  }

  /** An occurrence in `s` not at 0 is an occurrence in `s[1..]`, and back. */
  lemma IncludesShift(s: string, t: string)
    requires |t| <= |s| && s[..|t|] != t
    ensures (exists i :: OccursAt(s, t, i)) <==> (exists i :: OccursAt(s[1..], t, i))
  {
    if i :| OccursAt(s, t, i) {
      assert i != 0;
      assert s[1..][i - 1..i - 1 + |t|] == s[i..i + |t|];
      assert OccursAt(s[1..], t, i - 1);
    }
    if i :| OccursAt(s[1..], t, i) {
      assert s[1..][i..i + |t|] == s[i + 1..i + 1 + |t|];
      assert OccursAt(s, t, i + 1);
    }
  }

  /** `selectedCategory === 'All' || p.category === selectedCategory`. */
  predicate CategoryMatches(p: Product, category: string)
  {
    category == "All" || p.category == Some(category)
  }

  /** `p.description?.toLowerCase().includes(searchTerm.toLowerCase())`: a product
      without a description never matches. */
  predicate SearchMatches(p: Product, term: string)
  {
    p.description.Some? && Includes(Lower(p.description.value), Lower(term))
  }

  function Shown(category: string, term: string): Product -> bool
  {
    (p: Product) => CategoryMatches(p, category) && SearchMatches(p, term)
  }

  /** `filteredProducts`: the products passing both the category and the search test,
      or nothing when `allProducts` is not an array. */
  function FilteredProducts(all: ProductsValue, category: string, term: string): (r: seq<Product>)
    ensures forall i :: 0 <= i < |r| ==> r[i].description.Some? && CategoryMatches(r[i], category)
    ensures all.Products? ==> |r| <= |all.items|
    ensures all.NotAnArray? ==> r == []
  {
    match all
    case Products(items) =>
      var r := Filter(items, Shown(category, term));
      assert forall i :: 0 <= i < |r| ==> Shown(category, term)(r[i]) by {
        FilterMembers(items, Shown(category, term));
      }
      r
    case NotAnArray => []
  }

  /** A product is listed exactly when it is in the catalogue and passes both tests;
      the listing keeps catalogue order and repeats nothing. */
  lemma FilteredExactly(items: seq<Product>, category: string, term: string)
    ensures forall p :: p in FilteredProducts(Products(items), category, term) <==>
      p in items && CategoryMatches(p, category) && SearchMatches(p, term)
    ensures IsSubsequence(FilteredProducts(Products(items), category, term), items)
    ensures multiset(FilteredProducts(Products(items), category, term)) <= multiset(items)
  {
    var r := FilteredProducts(Products(items), category, term);
    FilterMembers(items, Shown(category, term));
    forall p | p in r ensures p in items && CategoryMatches(p, category) && SearchMatches(p, term) {
      var i :| 0 <= i < |r| && r[i] == p;
      assert Shown(category, term)(r[i]);
    }
    forall p | p in items && CategoryMatches(p, category) && SearchMatches(p, term) ensures p in r {
      var i :| 0 <= i < |items| && items[i] == p;
      assert Shown(category, term)(items[i]);
    }
    FilterIsSubsequence(items, Shown(category, term));
  }

  /** Each listed product appears exactly as often as it does in the catalogue. */
  lemma FilteredCounts(items: seq<Product>, category: string, term: string)
    ensures forall p :: multiset(FilteredProducts(Products(items), category, term))[p] ==
                (if CategoryMatches(p, category) && SearchMatches(p, term) then multiset(items)[p] else 0)
  {
    FilterCount(items, Shown(category, term));
    forall p: Product ensures Shown(category, term)(p) == (CategoryMatches(p, category) && SearchMatches(p, term)) {
    }
  }

  /** With a category other than "All", only products of that category are listed. */
  lemma CategoryRestricts(all: ProductsValue, category: string, term: string, p: Product)
    requires category != "All" && p in FilteredProducts(all, category, term)
    ensures p.category == Some(category)
  {
    FilteredExactly(all.items, category, term);
  }

  /** Products without a description are never listed. */
  lemma UndescribedExcluded(all: ProductsValue, category: string, term: string, p: Product)
    requires p.description.None?
    ensures p !in FilteredProducts(all, category, term)
  {
    if all.Products? {
      FilteredExactly(all.items, category, term);
    }
  }

  /** With an empty search term, every described product of the category is listed
      (with "All", every described product). */
  lemma EmptySearchKeepsDescribed(items: seq<Product>, category: string)
    ensures forall p :: p in FilteredProducts(Products(items), category, "") <==>
      p in items && CategoryMatches(p, category) && p.description.Some?
  {
    FilteredExactly(items, category, "");
    forall p: Product | p.description.Some? ensures SearchMatches(p, "") {
      assert OccursAt(Lower(p.description.value), Lower(""), 0);
    }
  }

  /** `handleAddToCart(item)`: without a logged-in user the cart is left alone and the
      user is sent to the login page; otherwise the item goes through `addToCart`. */
  method HandleAddToCart(store: CartStore, loggedIn: bool, item: Product)
    returns (redirectToLogin: bool)
    modifies store
    ensures redirectToLogin == !loggedIn
    ensures !loggedIn ==> store.cartItems == old(store.cartItems) && store.sup == old(store.sup)
    ensures loggedIn ==> store.cartItems == AddedLines(old(store.cartItems), item)
    ensures loggedIn ==> store.sup == SumQuantity(store.cartItems)
  {
    if !loggedIn {
      return true;
    }
    store.AddToCart(item);
    return false;
  }
}

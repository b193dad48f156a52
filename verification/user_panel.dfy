/** The seller's panel: products split by moderation status, orders without an
    approved cancellation, and the content chosen by the selected tab. */
module UserPanel {
  import opened Seqs
  import opened Entities

  function StatusIs(status: string): Product -> bool
  {
    (p: Product) => p.status == status
  }

  /** `products.filter(p => p.status === status)`: every kept product has that status. */
  function WithStatus(products: seq<Product>, status: string): (r: seq<Product>)
    ensures forall i :: 0 <= i < |r| ==> r[i].status == status
    ensures |r| <= |products|
  {
    var r := Filter(products, StatusIs(status));
    assert forall i :: 0 <= i < |r| ==> StatusIs(status)(r[i]) by {
      FilterMembers(products, StatusIs(status));
    }
    r
  }

  /** `products.filter(p => p.status === 'pending')`. */
  function Pending(products: seq<Product>): (r: seq<Product>)
    ensures forall i :: 0 <= i < |r| ==> r[i].status == "pending"
    ensures |r| <= |products|
  {
    WithStatus(products, "pending")
  }

  /** `products.filter(p => p.status === 'approved')`. */
  function Approved(products: seq<Product>): (r: seq<Product>)
    ensures forall i :: 0 <= i < |r| ==> r[i].status == "approved"
    ensures |r| <= |products|
  {
    WithStatus(products, "approved")
  }

  function PendingOrApproved(p: Product): bool { p.status == "pending" || p.status == "approved" }

  function NotCancelApproved(o: OrderRecord): bool { !o.cancelApproved }

  /** `orders.filter(order => !order.cancelApproved)`: no visible order has an approved
      cancellation. */
  function VisibleOrders(orders: seq<OrderRecord>): (r: seq<OrderRecord>)
    ensures forall i :: 0 <= i < |r| ==> !r[i].cancelApproved
    ensures |r| <= |orders|
  {
    var r := Filter(orders, NotCancelApproved);
    assert forall i :: 0 <= i < |r| ==> NotCancelApproved(r[i]) by {
      FilterMembers(orders, NotCancelApproved);
    }
    r
  }

  datatype Tab = PendingTab | ApprovedTab | OrdersTab

  /** An order row: the order and whether its "Request Cancel" button is shown
      (otherwise the row reads "Requested"). */
  datatype OrderRow = OrderRow(order: OrderRecord, cancelButton: bool)

  /** What `renderContent` shows. */
  datatype Content =
    | LoadError
    | NoProducts
    | ProductTable(rows: seq<Product>, actions: bool)
    | NoOrders
    | OrdersTable(orderRows: seq<OrderRow>)

  /** `renderProductTable(products, isPending)`: Edit/Delete actions only when `isPending`. */
  function ProductTableFor(products: seq<Product>, isPending: bool): (c: Content)
    ensures c.NoProducts? <==> products == []
    ensures c.NoProducts? || c.ProductTable?
    ensures c.ProductTable? ==> c.rows == products && c.actions == isPending
  {
    if |products| == 0 then NoProducts else ProductTable(products, isPending)
  }

  function RowFor(o: OrderRecord): OrderRow { OrderRow(o, !o.cancellationRequested) }

  /** `renderOrdersTable()`: one row per visible order. */
  function OrdersTableFor(orders: seq<OrderRecord>): (c: Content)
    ensures c.NoOrders? <==> VisibleOrders(orders) == []
    ensures c.NoOrders? || c.OrdersTable?
    ensures c.OrdersTable? ==>
              |c.orderRows| == |VisibleOrders(orders)|
              && forall i :: 0 <= i < |c.orderRows| ==> c.orderRows[i] == RowFor(VisibleOrders(orders)[i])
  {
    var visible := VisibleOrders(orders);
    if |visible| == 0 then NoOrders else OrdersTable(seq(|visible|, i requires 0 <= i < |visible| => RowFor(visible[i])))
  }

  /** `renderContent()`: a load error of either query wins over every tab. */
  function RenderContent(productError: bool, orderError: bool, tab: Tab,
                         products: seq<Product>, orders: seq<OrderRecord>): (c: Content)
    ensures c.LoadError? <==> productError || orderError
    ensures c.ProductTable? ==> tab != OrdersTab && |c.rows| > 0 && (c.actions <==> tab == PendingTab)
    ensures c.OrdersTable? ==> tab == OrdersTab && |c.orderRows| > 0
    ensures c.NoOrders? || c.OrdersTable? ==> tab == OrdersTab
    ensures var listed := if tab == PendingTab then Pending(products) else Approved(products);
      && (!productError && !orderError && tab != OrdersTab ==> (c.NoProducts? <==> listed == []))
      && (c.ProductTable? ==> c.rows == listed)
    ensures !productError && !orderError && tab == OrdersTab ==> c.NoOrders? || c.OrdersTable?
  {
    if productError || orderError then LoadError
    else
      match tab
      case PendingTab => ProductTableFor(Pending(products), true)
      case ApprovedTab => ProductTableFor(Approved(products), false)
      case OrdersTab => OrdersTableFor(orders)
  }

  /** `pending` holds exactly the products whose status is "pending", in input order,
      each as often as it occurs in the input. */
  lemma PendingExactly(products: seq<Product>)
    ensures forall p :: p in Pending(products) <==> p in products && p.status == "pending"
    ensures forall p :: multiset(Pending(products))[p] ==
                (if p.status == "pending" then multiset(products)[p] else 0)
    ensures IsSubsequence(Pending(products), products)
  {
    StatusFilterExactly(products, "pending");
  }

  /** `approved` holds exactly the products whose status is "approved", in input order,
      each as often as it occurs in the input. */
  lemma ApprovedExactly(products: seq<Product>)
    ensures forall p :: p in Approved(products) <==> p in products && p.status == "approved"
    ensures forall p :: multiset(Approved(products))[p] ==
                (if p.status == "approved" then multiset(products)[p] else 0)
    ensures IsSubsequence(Approved(products), products)
  {
    StatusFilterExactly(products, "approved");
  }

  lemma StatusFilterExactly(products: seq<Product>, status: string)
    ensures forall p :: p in WithStatus(products, status) <==> p in products && p.status == status
    ensures forall p :: multiset(WithStatus(products, status))[p] ==
                (if p.status == status then multiset(products)[p] else 0)
    ensures IsSubsequence(WithStatus(products, status), products)
  {
    var r := Filter(products, StatusIs(status));
    FilterMembers(products, StatusIs(status));
    forall p: Product ensures multiset(r)[p] == if p.status == status then multiset(products)[p] else 0 {
      assert StatusIs(status)(p) == (p.status == status);
    }
    forall p | p in r ensures p in products && p.status == status {
      var i :| 0 <= i < |r| && r[i] == p;
      assert StatusIs(status)(r[i]);
    }
    forall p | p in products && p.status == status ensures p in r {
      var i :| 0 <= i < |products| && products[i] == p;
      assert StatusIs(status)(products[i]);
    }
    FilterIsSubsequence(products, StatusIs(status));
  }

  /** No product is both pending and approved, and a product with any other status
      (such as "rejected") is in neither list. */
  lemma PendingApprovedDisjoint(products: seq<Product>)
    ensures forall p :: !(p in Pending(products) && p in Approved(products))
    ensures forall p: Product :: p.status != "pending" && p.status != "approved" ==>
      p !in Pending(products) && p !in Approved(products)
  {
    PendingExactly(products);
    ApprovedExactly(products);
  }

  /** Together the two lists hold each pending or approved product exactly as often as
      the input does, and no other product: nothing is lost and nothing is duplicated. */
  lemma PartitionCounts(products: seq<Product>)
    ensures forall p :: (multiset(Pending(products)) + multiset(Approved(products)))[p] ==
                (if PendingOrApproved(p) then multiset(products)[p] else 0)
  {
    PendingExactly(products);
    ApprovedExactly(products);
  }

  /** `visibleOrders` holds exactly the orders without an approved cancellation, in input
      order, each as often as it occurs in the input. */
  lemma VisibleOrdersExactly(orders: seq<OrderRecord>)
    ensures forall o :: o in VisibleOrders(orders) <==> o in orders && !o.cancelApproved
    ensures forall o :: multiset(VisibleOrders(orders))[o] ==
                (if !o.cancelApproved then multiset(orders)[o] else 0)
    ensures IsSubsequence(VisibleOrders(orders), orders)
  {
    var r := VisibleOrders(orders);
    FilterMembers(orders, NotCancelApproved);
    forall o | o in r ensures o in orders && !o.cancelApproved {
      var i :| 0 <= i < |r| && r[i] == o;
    }
    forall o | o in orders && !o.cancelApproved ensures o in r {
      var i :| 0 <= i < |orders| && orders[i] == o;
    }
    FilterIsSubsequence(orders, NotCancelApproved);
  }

  /** If either query failed, the error is shown whatever the tab. */
  lemma ErrorWins(productError: bool, orderError: bool, products: seq<Product>, orders: seq<OrderRecord>)
    requires productError || orderError
    ensures forall tab :: RenderContent(productError, orderError, tab, products, orders) == LoadError
  {
  }

  /** Edit/Delete actions appear only on the pending tab, and always there when it lists something. */
  lemma ActionsOnlyOnPending(tab: Tab, products: seq<Product>, orders: seq<OrderRecord>)
    ensures var c := RenderContent(false, false, tab, products, orders);
      (c.ProductTable? && c.actions <==> tab == PendingTab && |Pending(products)| > 0)
  {
  }

  /** Whatever the products, the orders tab lists the visible orders in order, and a row offers "Request Cancel"
      exactly when no cancellation has been requested for it. */
  lemma OrderRowsShowCancel(products: seq<Product>, orders: seq<OrderRecord>)
    ensures var c := RenderContent(false, false, OrdersTab, products, orders);
      && (c.NoOrders? <==> VisibleOrders(orders) == [])
      && (VisibleOrders(orders) != [] ==> c.OrdersTable?)
      && (c.OrdersTable? ==>
            |c.orderRows| == |VisibleOrders(orders)|
            && forall i :: 0 <= i < |c.orderRows| ==>
                 c.orderRows[i].order == VisibleOrders(orders)[i]
                 && !c.orderRows[i].order.cancelApproved
                 && (c.orderRows[i].cancelButton <==> !c.orderRows[i].order.cancellationRequested))
  {
    var v := VisibleOrders(orders);
    FilterMembers(orders, NotCancelApproved);
    forall i | 0 <= i < |v| ensures !v[i].cancelApproved {
      assert NotCancelApproved(v[i]);
    }
  }
}

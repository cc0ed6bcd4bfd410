/** The "my orders" page: how one order is summarised (the totals it falls
    back on, its status label and action buttons), which orders a status tab
    shows, and the newest-first order of the list. */
module OrderHistory {
  import opened Common
  import ShoppingCart
  import Checkout
  import OrderService

  const DisplayDeliveryFee: real := 40.0
  const DisplayGstRate: real := 0.05
  const AllTab: string := "all"

  /** An entry of `order.items` as the page reads it; a missing price or
      quantity (or a zero one) counts as 0 through `|| 0`. */
  datatype DisplayItem = DisplayItem(price: Option<real>, quantity: Option<int>)

  /** An order as received from the API. `id` is None when absent; `items` is
      None when it is not an array; each money field is None when it is null
      or undefined, which is when `??` falls back. `createdAt` is the time of
      creation as a number. */
  datatype DisplayOrder = DisplayOrder(
    id: Option<int>,
    items: Option<seq<DisplayItem>>,
    status: string,
    createdAt: int,
    subtotal: Option<real>,
    deliveryFee: Option<real>,
    gst: Option<real>,
    total: Option<real>)

  function OrZero(x: Option<real>): real {
    if x.Some? then x.value else 0.0
  }

  function OrZeroInt(x: Option<int>): int {
    if x.Some? then x.value else 0
  }

  function ItemAmount(item: DisplayItem): real {
    LineTotal(OrZero(item.price), OrZeroInt(item.quantity))
  }

  /** `items.reduce((sum, item) => sum + (item.price || 0) * (item.quantity || 0), 0)`. */
  function ItemsSum(items: seq<DisplayItem>): real {
    if items == [] then 0.0 else ItemsSum(items[..|items| - 1]) + ItemAmount(items[|items| - 1])
  }

  datatype DisplayTotals = DisplayTotals(subtotal: real, deliveryFee: real, gst: real, total: real)

  /** The four figures on an order card: each is the server's value when it is
      present, and otherwise the same formula the checkout used, applied to
      the figures already settled. */
  function Totals(items: seq<DisplayItem>, o: DisplayOrder): (t: DisplayTotals)
    ensures t.subtotal == if o.subtotal.Some? then o.subtotal.value else ItemsSum(items)
    ensures t.deliveryFee == if o.deliveryFee.Some? then o.deliveryFee.value else DisplayDeliveryFee
    ensures o.gst.None? ==> t.gst * 20.0 == t.subtotal
    ensures o.gst.Some? ==> t.gst == o.gst.value
    ensures t.total == if o.total.Some? then o.total.value else t.subtotal + t.deliveryFee + t.gst
  {
    var subtotal := if o.subtotal.Some? then o.subtotal.value else ItemsSum(items);
    var fee := if o.deliveryFee.Some? then o.deliveryFee.value else DisplayDeliveryFee;
    var gst := if o.gst.Some? then o.gst.value else subtotal * DisplayGstRate;
    var total := if o.total.Some? then o.total.value else subtotal + fee + gst;
    DisplayTotals(subtotal, fee, gst, total)
  }

  /** The card's action buttons. */
  datatype Action = CancelOrder | ContactKitchen | TrackOrder | Reorder | RateOrder

  /** `getStatusText`. */
  function StatusText(status: string): (r: string)
    ensures r != "Unknown" <==> status in ["pending", "preparing", "delivered", "cancelled"]
    ensures r != "Unknown" ==> |r| == |status| && r[1..] == status[1..]
    ensures r != "Unknown" ==> 'a' <= status[0] <= 'z' && r[0] as int == status[0] as int - 32
  {
    match status
    case "pending" => "Pending"
    case "preparing" => "Preparing"
    case "delivered" => "Delivered"
    case "cancelled" => "Cancelled"
    case _ => "Unknown"
  }

  /** `getOrderActions`. */
  function Actions(status: string): (r: seq<Action>)
    ensures r != [] <==> status in ["pending", "preparing", "delivered"]
    ensures CancelOrder in r <==> status == "pending"
    ensures TrackOrder in r <==> status == "preparing"
    ensures Reorder in r <==> status == "delivered"
    ensures RateOrder in r <==> status == "delivered"
    ensures ContactKitchen in r <==> status == "pending" || status == "preparing"
  {
    match status
    case "pending" => [CancelOrder, ContactKitchen]
    case "preparing" => [TrackOrder, ContactKitchen]
    case "delivered" => [Reorder, RateOrder]
    case _ => []
  }

  /** Of the seven statuses the server accepts, three have no label on this
      page and are shown as `Unknown`, without any action. */
  lemma ServerStatusesShownAsUnknown(s: string)
    requires s in OrderService.ValidStatuses
    ensures StatusText(s) == "Unknown" <==> s in ["confirmed", "ready", "out_for_delivery"]
    ensures StatusText(s) == "Unknown" ==> Actions(s) == []
  {
  }

  /** A rendered card, or nothing for an order that is unusable. */
  datatype Card = Skipped | Card(id: int, statusLabel: string, totals: DisplayTotals, actions: seq<Action>)

  /** `createOrderHTML`: an order without a (truthy) id or without an items
      array renders as the empty string. */
  function Render(o: DisplayOrder): (c: Card)
    ensures c.Skipped? <==> o.id.None? || o.id.value == 0 || o.items.None?
    ensures c.Card? ==> c.id == o.id.value && c.statusLabel == StatusText(o.status) &&
                        c.totals == Totals(o.items.value, o) && c.actions == Actions(o.status)
  {
    if o.id.None? || o.id.value == 0 || o.items.None? then Skipped
    else Card(o.id.value, StatusText(o.status), Totals(o.items.value, o), Actions(o.status))
  }

  /** Display items carrying a cart's prices and quantities. */
  predicate ItemsOfCart(items: seq<DisplayItem>, cart: seq<ShoppingCart.CartLine>) {
    |items| == |cart| &&
    forall i :: 0 <= i < |cart| ==> items[i] == DisplayItem(Some(cart[i].price), Some(cart[i].quantity))
  }

  lemma {:induction false} ItemsSumOfCart(items: seq<DisplayItem>, cart: seq<ShoppingCart.CartLine>)
    requires ItemsOfCart(items, cart)
    ensures ItemsSum(items) == ShoppingCart.Subtotal(cart)
  {
    if cart != [] {
      var n := |cart|;
      assert ItemsOfCart(items[..n - 1], cart[..n - 1]) by {
        assert forall i :: 0 <= i < n - 1 ==> items[..n - 1][i] == items[i] && cart[..n - 1][i] == cart[i];
      }
      ItemsSumOfCart(items[..n - 1], cart[..n - 1]);
    }
  }

  /** An order sent without any of the four figures is shown with the totals
      the checkout page showed for the same lines. */
  lemma FallbackTotalsMatchCheckout(o: DisplayOrder, cart: seq<ShoppingCart.CartLine>)
    requires o.items.Some? && ItemsOfCart(o.items.value, cart)
    requires o.subtotal.None? && o.deliveryFee.None? && o.gst.None? && o.total.None?
    ensures var t := Totals(o.items.value, o); var c := Checkout.Totals(cart);
            t.subtotal == c.subtotal && t.deliveryFee == c.deliveryFee && t.gst == c.gst && t.total == c.total
  {
    ItemsSumOfCart(o.items.value, cart);
  }

  /** The status tabs: `all`, or one status. */
  predicate Shown(tab: string, status: string) {
    tab == AllTab || status == tab
  }

  /** The cards a tab leaves visible, in list order. */
  function ShownOrders(orders: seq<DisplayOrder>, tab: string): (r: seq<DisplayOrder>)
    ensures |r| <= |orders|
  {
    if orders == [] then []
    else
      var last := orders[|orders| - 1];
      ShownOrders(orders[..|orders| - 1], tab) + (if Shown(tab, last.status) then [last] else [])
  }

  /** A tab shows exactly the orders it selects: the `all` tab hides nothing,
      any other tab shows exactly the orders in that status. */
  lemma {:induction false} TabsMeaning(orders: seq<DisplayOrder>, tab: string)
    ensures forall o :: o in ShownOrders(orders, tab) <==> o in orders && Shown(tab, o.status)
    ensures tab == AllTab ==> ShownOrders(orders, tab) == orders
    ensures tab != AllTab ==> forall o :: o in ShownOrders(orders, tab) <==> o in orders && o.status == tab
  {
    if orders != [] {
      TabsMeaning(orders[..|orders| - 1], tab);
      assert orders[..|orders| - 1] + [orders[|orders| - 1]] == orders;
    }
  }

  /** Newest first: creation times never increase along the list. */
  predicate NewestFirst(s: seq<DisplayOrder>) {
    forall i, j :: 0 <= i < j < |s| ==> s[i].createdAt >= s[j].createdAt
  }

  /** Places `x` before the first order not newer than it. */
  function InsertByDate(x: DisplayOrder, s: seq<DisplayOrder>): (r: seq<DisplayOrder>)
    requires NewestFirst(s)
    ensures NewestFirst(r)
    ensures multiset(r) == multiset(s) + multiset{x}
  {
    if s == [] then [x]
    else if x.createdAt >= s[0].createdAt then [x] + s
    else
      var rest := InsertByDate(x, s[1..]);
      assert s == [s[0]] + s[1..];
      InsertedFollowsHead(x, s, rest);
      [s[0]] + rest
  }

  lemma InsertedFollowsHead(x: DisplayOrder, s: seq<DisplayOrder>, rest: seq<DisplayOrder>)
    requires s != [] && NewestFirst(s) && NewestFirst(rest) && x.createdAt < s[0].createdAt
    requires multiset(rest) == multiset(s[1..]) + multiset{x}
    ensures NewestFirst([s[0]] + rest)
  {
    forall o | o in rest ensures o.createdAt <= s[0].createdAt {
      assert o in multiset(rest);
      if o != x {
        assert o in multiset(s[1..]);
        var j :| 0 <= j < |s[1..]| && s[1..][j] == o;
        assert s[j + 1] == o;
      }
    }
    var r := [s[0]] + rest;
    forall i, j | 0 <= i < j < |r| ensures r[i].createdAt >= r[j].createdAt {
      if i == 0 {
        assert r[j] == rest[j - 1] && r[j] in rest;
      } else {
        assert r[i] == rest[i - 1] && r[j] == rest[j - 1];
      }
    }
  }

  /** `orders.sort((a, b) => new Date(b.createdAt) - new Date(a.createdAt))`. */
  function SortNewestFirst(orders: seq<DisplayOrder>): (r: seq<DisplayOrder>)
    ensures NewestFirst(r)
    ensures multiset(r) == multiset(orders)
  {
    if orders == [] then []
    else
      assert orders == [orders[0]] + orders[1..];
      InsertByDate(orders[0], SortNewestFirst(orders[1..]))
  }
}

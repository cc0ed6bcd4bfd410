/** The order routes: create an order priced from the catalog, overwrite an
    order's status, read one order subject to the owner-or-admin rule, and list
    orders under a status filter. The tables are fields of `OrderStore`. */
module OrderService {
  import opened Common
  import AuthGate

  const DeliveryFee: real := 40.0
  const GstRate: real := 0.05
  const PendingStatus: string := "pending"
  const ValidStatuses: seq<string> :=
    ["pending", "confirmed", "preparing", "ready", "out_for_delivery", "delivered", "cancelled"]

  /** The two columns of `menu_items` that create-order reads. */
  datatype MenuItem = MenuItem(price: real, isAvailable: bool)

  /** One entry of the request's `items`. `price` is whatever the client sent;
      nothing reads it. */
  datatype LineRequest = LineRequest(menuItemId: int, quantity: int, price: Option<real>)

  datatype CreateRequest = CreateRequest(
    items: Option<seq<LineRequest>>,
    deliveryAddress: Field,
    deliveryPhone: Field,
    paymentMethod: Field,
    specialInstructions: Field,
    scheduledDelivery: Field)

  /** An entry of `orderItemsData`: a request line priced from the catalog. */
  datatype PricedLine = PricedLine(menuItemId: int, quantity: int, unitPrice: real, totalPrice: real)

  /** A row of `orders`. */
  datatype Order = Order(
    id: int,
    userId: int,
    status: string,
    totalAmount: real,
    paymentMethod: Field,
    deliveryAddress: Field,
    deliveryPhone: Field,
    specialInstructions: Field,
    deliveryFee: real,
    gstAmount: real)

  /** A row of `order_items`. */
  datatype OrderItem = OrderItem(orderId: int, menuItemId: int, quantity: int, unitPrice: real, totalPrice: real)

  /** The three 400 answers of create-order. */
  datatype CreateError = ItemsRequired | DeliveryInfoRequired | ItemUnavailable(menuItemId: int)

  datatype CreateOutcome = Created(id: int, totalAmount: real, status: string) | Rejected(error: CreateError)

  datatype UpdateOutcome = Forbidden | InvalidStatus | StatusUpdated

  datatype OrderView = OrderView(order: Order, items: seq<OrderItem>)

  datatype Pricing = Priced(lines: seq<PricedLine>) | Missing(menuItemId: int)

  datatype Checked = Accepted(lines: seq<PricedLine>) | Refused(error: CreateError)

  // ---------------------------------------------------------------------------
  // Pricing

  /** `SELECT price FROM menu_items WHERE id = ? AND is_available = 1` finds a row. */
  predicate Available(catalog: map<int, MenuItem>, id: int) {
    id in catalog && catalog[id].isAvailable
  }

  function Lookup(catalog: map<int, MenuItem>, id: int): (r: Option<real>)
    ensures r.Some? <==> Available(catalog, id)
    ensures r.Some? ==> r.value == catalog[id].price
  {
    if Available(catalog, id) then Some(catalog[id].price) else None
  }

  /** The priced line for an available request line: unit price from the catalog. */
  function Resolve(catalog: map<int, MenuItem>, item: LineRequest): PricedLine
    requires Available(catalog, item.menuItemId)
  {
    var unitPrice := catalog[item.menuItemId].price;
    PricedLine(item.menuItemId, item.quantity, unitPrice, LineTotal(unitPrice, item.quantity))
  }

  /** What the lookup loop produces: every line priced, or the id of the first
      line whose menu item is missing or unavailable. */
  function PriceLines(catalog: map<int, MenuItem>, items: seq<LineRequest>): (r: Pricing)
    decreases |items|
    ensures r.Priced? ==> |r.lines| == |items|
    ensures r.Priced? ==> forall i :: 0 <= i < |items| ==>
              Available(catalog, items[i].menuItemId) && r.lines[i] == Resolve(catalog, items[i])
    ensures r.Missing? ==>
              exists k :: 0 <= k < |items| && items[k].menuItemId == r.menuItemId &&
                !Available(catalog, items[k].menuItemId) &&
                forall j :: 0 <= j < k ==> Available(catalog, items[j].menuItemId)
  {
    if items == [] then Priced([])
    else
      var last := items[|items| - 1];
      match PriceLines(catalog, items[..|items| - 1])
      case Missing(id) => Missing(id)
      case Priced(acc) =>
        if Available(catalog, last.menuItemId) then Priced(acc + [Resolve(catalog, last)])
        else Missing(last.menuItemId)
  }

  /** Once a prefix of the request fails, the whole request fails on the same id. */
  lemma {:induction false} PriceLinesPrefixMissing(catalog: map<int, MenuItem>, items: seq<LineRequest>, n: nat)
    requires n <= |items| && PriceLines(catalog, items[..n]).Missing?
    ensures PriceLines(catalog, items) == PriceLines(catalog, items[..n])
    decreases |items|
  {
    if n == |items| {
      assert items[..n] == items;
    } else {
      var init := items[..|items| - 1];
      assert init[..n] == items[..n];
      PriceLinesPrefixMissing(catalog, init, n);
    }
  }

  /** The client's `price` fields never matter: requests that agree on ids and
      quantities are priced identically. */
  lemma {:induction false} PriceLinesIgnoresClientPrice(catalog: map<int, MenuItem>, a: seq<LineRequest>, b: seq<LineRequest>)
    requires |a| == |b|
    requires forall i :: 0 <= i < |a| ==> a[i].menuItemId == b[i].menuItemId && a[i].quantity == b[i].quantity
    ensures PriceLines(catalog, a) == PriceLines(catalog, b)
    decreases |a|
  {
    if a != [] {
      var a', b' := a[..|a| - 1], b[..|b| - 1];
      assert forall i :: 0 <= i < |a'| ==> a'[i] == a[i] && b'[i] == b[i];
      PriceLinesIgnoresClientPrice(catalog, a', b');
    }
  }

  /** `subtotal`: the sum of the line totals, accumulated in request order. */
  function Subtotal(lines: seq<PricedLine>): real
    decreases |lines|
  {
    if lines == [] then 0.0 else Subtotal(lines[..|lines| - 1]) + lines[|lines| - 1].totalPrice
  }

  lemma SubtotalAppend(lines: seq<PricedLine>, line: PricedLine)
    ensures Subtotal(lines + [line]) == Subtotal(lines) + line.totalPrice
  {
    assert (lines + [line])[..|lines|] == lines;
  }

  /** `gst_amount`: five per cent of the subtotal, unrounded. */
  function Gst(subtotal: real): real {
    subtotal * GstRate
  }

  /** `total_amount`. */
  function Total(subtotal: real): real {
    subtotal + DeliveryFee + Gst(subtotal)
  }

  /** The checks create-order makes before its first write, in its order. */
  function CheckRequest(catalog: map<int, MenuItem>, req: CreateRequest): (r: Checked)
    ensures r.Accepted? ==> req.items.Some? && |r.lines| == |req.items.value| &&
                            Truthy(req.deliveryAddress) && Truthy(req.deliveryPhone)
    ensures r == Refused(DeliveryInfoRequired) ==> req.items.Some? && req.items.value != []
    ensures r.Refused? && r.error.ItemUnavailable? ==>
              req.items.Some? && req.items.value != [] && Truthy(req.deliveryAddress) && Truthy(req.deliveryPhone)
  {
    if req.items.None? || req.items.value == [] then Refused(ItemsRequired)
    else if !Truthy(req.deliveryAddress) || !Truthy(req.deliveryPhone) then Refused(DeliveryInfoRequired)
    else match PriceLines(catalog, req.items.value)
      case Missing(id) => Refused(ItemUnavailable(id))
      case Priced(lines) => Accepted(lines)
  }

  /** A request is accepted exactly when it has items, both delivery fields and
      only available menu items; each accepted line carries the catalog price. */
  lemma CheckRequestAccepted(catalog: map<int, MenuItem>, req: CreateRequest)
    ensures CheckRequest(catalog, req).Accepted? <==>
              req.items.Some? && req.items.value != [] &&
              Truthy(req.deliveryAddress) && Truthy(req.deliveryPhone) &&
              forall i :: 0 <= i < |req.items.value| ==> Available(catalog, req.items.value[i].menuItemId)
    ensures CheckRequest(catalog, req).Accepted? ==>
              var items, lines := req.items.value, CheckRequest(catalog, req).lines;
              |lines| == |items| &&
              forall i :: 0 <= i < |items| ==>
                lines[i].menuItemId == items[i].menuItemId &&
                lines[i].quantity == items[i].quantity &&
                lines[i].unitPrice == catalog[items[i].menuItemId].price &&
                lines[i].totalPrice == LineTotal(lines[i].unitPrice, items[i].quantity)
  {
    if req.items.Some? && req.items.value != [] && Truthy(req.deliveryAddress) && Truthy(req.deliveryPhone) {
      var p := PriceLines(catalog, req.items.value);
      if p.Missing? {
        var k :| 0 <= k < |req.items.value| && req.items.value[k].menuItemId == p.menuItemId &&
          !Available(catalog, req.items.value[k].menuItemId);
      }
    }
  }

  /** A rejected line names the first request line whose item is missing or unavailable. */
  lemma CheckRequestNamesFirstUnavailable(catalog: map<int, MenuItem>, req: CreateRequest)
    requires CheckRequest(catalog, req).Refused? && CheckRequest(catalog, req).error.ItemUnavailable?
    ensures var items := req.items.value;
            exists k :: 0 <= k < |items| && items[k].menuItemId == CheckRequest(catalog, req).error.menuItemId &&
              !Available(catalog, items[k].menuItemId) &&
              forall j :: 0 <= j < k ==> Available(catalog, items[j].menuItemId)
  {
  }

  /** The example of one line of two portions at 150: subtotal 300, GST 15, total 355. */
  lemma WorkedExample()
    ensures var catalog := map[7 := MenuItem(150.0, true)];
            var req := CreateRequest(Some([LineRequest(7, 2, None)]), Some("12 Park Road"), Some("9876543210"),
                                     Some("cod"), None, None);
            CheckRequest(catalog, req) == Accepted([PricedLine(7, 2, 150.0, 300.0)]) &&
            Subtotal([PricedLine(7, 2, 150.0, 300.0)]) == 300.0 &&
            Gst(300.0) == 15.0 && Total(300.0) == 355.0
  {
    var catalog := map[7 := MenuItem(150.0, true)];
    var items := [LineRequest(7, 2, None)];
    assert items[..0] == [];
    assert PriceLines(catalog, items) == Priced([PricedLine(7, 2, 150.0, 300.0)]);
    var lines := [PricedLine(7, 2, 150.0, 300.0)];
    assert lines[..0] == [];
  }

  // ---------------------------------------------------------------------------
  // Rows

  /** The header create-order inserts. The status column takes its default,
      which the response reports as `pending`. */
  function Header(id: int, userId: int, req: CreateRequest, subtotal: real): Order {
    Order(id, userId, PendingStatus, Total(subtotal), req.paymentMethod, req.deliveryAddress,
          req.deliveryPhone, req.specialInstructions, DeliveryFee, Gst(subtotal))
  }

  function Row(orderId: int, line: PricedLine): OrderItem {
    OrderItem(orderId, line.menuItemId, line.quantity, line.unitPrice, line.totalPrice)
  }

  /** The order-item rows inserted for `lines`, one per line, in order. */
  function Rows(orderId: int, lines: seq<PricedLine>): (r: seq<OrderItem>)
    ensures |r| == |lines|
    ensures forall k :: 0 <= k < |lines| ==> r[k] == Row(orderId, lines[k])
  {
    seq(|lines|, k requires 0 <= k < |lines| => Row(orderId, lines[k]))
  }

  /** The priced line a stored row records. */
  function LineOf(row: OrderItem): PricedLine {
    PricedLine(row.menuItemId, row.quantity, row.unitPrice, row.totalPrice)
  }

  function Lines(rows: seq<OrderItem>): (r: seq<PricedLine>)
    ensures |r| == |rows|
    ensures forall k :: 0 <= k < |rows| ==> r[k] == LineOf(rows[k])
  {
    seq(|rows|, k requires 0 <= k < |rows| => LineOf(rows[k]))
  }

  /** Storing priced lines loses nothing: reading the rows back gives the lines. */
  lemma LinesOfRows(orderId: int, lines: seq<PricedLine>)
    ensures Lines(Rows(orderId, lines)) == lines
  {
  }

  /** The rows of one order, in insertion order (`WHERE oi.order_id = ?`). */
  function ItemsOf(rows: seq<OrderItem>, orderId: int): (r: seq<OrderItem>)
    ensures forall x :: x in r <==> x in rows && x.orderId == orderId
  {
    if rows == [] then []
    else (if rows[0].orderId == orderId then [rows[0]] else []) + ItemsOf(rows[1..], orderId)
  }

  lemma {:induction false} ItemsOfAppend(a: seq<OrderItem>, b: seq<OrderItem>, orderId: int)
    ensures ItemsOf(a + b, orderId) == ItemsOf(a, orderId) + ItemsOf(b, orderId)
    decreases |a|
  {
    if a == [] {
      assert a + b == b;
    } else {
      assert (a + b)[1..] == a[1..] + b;
      ItemsOfAppend(a[1..], b, orderId);
    }
  }

  lemma {:induction false} ItemsOfUniform(rows: seq<OrderItem>, orderId: int)
    requires forall k :: 0 <= k < |rows| ==> rows[k].orderId == orderId
    ensures ItemsOf(rows, orderId) == rows
    decreases |rows|
  {
    if rows != [] {
      ItemsOfUniform(rows[1..], orderId);
    }
  }

  lemma {:induction false} ItemsOfAbsent(rows: seq<OrderItem>, orderId: int)
    requires forall k :: 0 <= k < |rows| ==> rows[k].orderId != orderId
    ensures ItemsOf(rows, orderId) == []
    decreases |rows|
  {
    if rows != [] {
      ItemsOfAbsent(rows[1..], orderId);
    }
  }

  /** The money stored in an order header agrees with its rows: fee 40, GST five
      per cent of the rows' subtotal, total the sum of the three. */
  predicate PricedConsistently(o: Order, rows: seq<OrderItem>) {
    var subtotal := Subtotal(Lines(rows));
    o.deliveryFee == DeliveryFee && o.gstAmount == Gst(subtotal) && o.totalAmount == Total(subtotal)
  }

  /** `WHERE o.id = ? AND (o.user_id = ? OR ? = 'admin')`. */
  predicate Visible(o: Order, caller: AuthGate.User) {
    o.userId == caller.id || caller.role == "admin"
  }

  /** `status && status !== 'all'` switches the filter on; the SQL
      `o.status = ?` that follows is compared exactly, without MySQL's
      case-insensitive collation. */
  predicate PassesStatusFilter(filter: Field, status: string) {
    !Truthy(filter) || filter.value == "all" || filter.value == status
  }

  predicate IsValidStatus(status: Field) {
    status.Some? && status.value in ValidStatuses
  }

  /** An admin sees every order; two callers who are not admins both see an
      order only when they are the same user. */
  lemma VisibleToOwnerOrAdmin(o: Order, a: AuthGate.User, b: AuthGate.User)
    ensures a.role == "admin" ==> Visible(o, a)
    ensures Visible(o, a) && Visible(o, b) && a.role != "admin" && b.role != "admin" ==> a.id == b.id
  {
  }

  /** No filter, an empty one or `all` keeps every order; any other filter
      keeps exactly the orders in that status. */
  lemma StatusFilterMeaning(filter: Field, status: string)
    ensures !Truthy(filter) || filter.value == "all" ==> PassesStatusFilter(filter, status)
    ensures Truthy(filter) && filter.value != "all" ==>
              (PassesStatusFilter(filter, status) <==> status == filter.value)
  {
  }

  /** The status check compares exactly: each of the seven stored statuses
      passes, while a missing status and the pages' capitalised labels do not. */
  lemma StatusCheckIsExact()
    ensures forall s :: s in ValidStatuses ==> IsValidStatus(Some(s))
    ensures !IsValidStatus(None) && !IsValidStatus(Some(""))
    ensures !IsValidStatus(Some("Delivered")) && !IsValidStatus(Some("Cancelled"))
  {
  }

  /** The orders after `UPDATE orders SET status = ? WHERE id = ?`. */
  function WithStatus(orders: seq<Order>, orderId: int, status: string): (r: seq<Order>)
    ensures |r| == |orders|
    ensures forall i :: 0 <= i < |orders| ==>
              r[i] == if orders[i].id == orderId then orders[i].(status := status) else orders[i]
  {
    seq(|orders|, i requires 0 <= i < |orders| =>
      if orders[i].id == orderId then orders[i].(status := status) else orders[i])
  }

  /** A status update touches nothing but the status of the order with that id:
      identities and money of every order stay as they were. */
  lemma WithStatusKeepsRest(orders: seq<Order>, orderId: int, status: string)
    ensures var r := WithStatus(orders, orderId, status);
            forall i :: 0 <= i < |orders| ==>
              r[i].(status := orders[i].status) == orders[i] &&
              (r[i].status == status <== orders[i].id == orderId) &&
              (orders[i].id != orderId ==> r[i] == orders[i])
  {
  }

  // ---------------------------------------------------------------------------
  // The tables

  class OrderStore {
    var catalog: map<int, MenuItem>
    var orders: seq<Order>
    var orderItems: seq<OrderItem>
    var nextOrderId: int

    ghost predicate Valid()
      reads this
    {
      StoreValid(orders, orderItems, nextOrderId)
    }

    constructor (catalog: map<int, MenuItem>)
      ensures Valid()
      ensures this.catalog == catalog && orders == [] && orderItems == [] && nextOrderId == 1
    {
      this.catalog := catalog;
      orders := [];
      orderItems := [];
      nextOrderId := 1;
    }

    /** POST `/`: every lookup precedes the first insert, so a rejected request
        writes nothing; an accepted one appends one header and one row per line. */
    method CreateOrder(caller: AuthGate.User, req: CreateRequest) returns (out: CreateOutcome)
      requires Valid()
      modifies this`orders, this`orderItems, this`nextOrderId
      ensures Valid()
      ensures CheckRequest(old(catalog), req).Refused? ==>
                out == Rejected(CheckRequest(old(catalog), req).error) &&
                orders == old(orders) && orderItems == old(orderItems) && nextOrderId == old(nextOrderId)
      ensures CheckRequest(old(catalog), req).Accepted? ==>
                var lines := CheckRequest(old(catalog), req).lines;
                var id := old(nextOrderId);
                out == Created(id, Total(Subtotal(lines)), PendingStatus) &&
                orders == old(orders) + [Header(id, caller.id, req, Subtotal(lines))] &&
                orderItems == old(orderItems) + Rows(id, lines) &&
                nextOrderId == id + 1
    {
      if req.items.None? || |req.items.value| == 0 {
        assert CheckRequest(catalog, req) == Refused(ItemsRequired);
        return Rejected(ItemsRequired);
      }
      if !Truthy(req.deliveryAddress) || !Truthy(req.deliveryPhone) {
        assert CheckRequest(catalog, req) == Refused(DeliveryInfoRequired);
        return Rejected(DeliveryInfoRequired);
      }
      var priced, subtotal := PriceItems(req.items.value);
      if priced.Missing? {
        assert CheckRequest(catalog, req) == Refused(ItemUnavailable(priced.menuItemId));
        return Rejected(ItemUnavailable(priced.menuItemId));
      }
      assert CheckRequest(catalog, req) == Accepted(priced.lines);
      var orderId := InsertOrder(caller.id, req, priced.lines, subtotal);
      out := Created(orderId, Total(subtotal), PendingStatus);
    }

    /** The writes of an accepted create-order: the header with fee, GST and
        total computed from the subtotal, then one row per priced line. */
    method InsertOrder(userId: int, req: CreateRequest, lines: seq<PricedLine>, subtotal: real) returns (orderId: int)
      requires Valid() && LinesTotalled(lines) && subtotal == Subtotal(lines)
      modifies this`orders, this`orderItems, this`nextOrderId
      ensures Valid()
      ensures orderId == old(nextOrderId) && nextOrderId == orderId + 1
      ensures orders == old(orders) + [Header(orderId, userId, req, subtotal)]
      ensures orderItems == old(orderItems) + Rows(orderId, lines)
    {
      var deliveryFee := DeliveryFee;
      var gstAmount := subtotal * GstRate;
      var totalAmount := subtotal + deliveryFee + gstAmount;
      orderId := nextOrderId;
      var header := Order(orderId, userId, PendingStatus, totalAmount, req.paymentMethod,
                          req.deliveryAddress, req.deliveryPhone, req.specialInstructions,
                          deliveryFee, gstAmount);
      CreateKeepsValid(orders, orderItems, orderId, header, lines);
      orders := orders + [header];
      nextOrderId := nextOrderId + 1;
      InsertRows(orderId, lines);
    }

    /** The lookup loop of create-order: one catalog query per line, in
        request order, stopping at the first line whose item is missing or
        unavailable; `subtotal` accumulates the line totals. */
    method PriceItems(items: seq<LineRequest>) returns (p: Pricing, subtotal: real)
      ensures p == PriceLines(catalog, items)
      ensures p.Priced? ==> subtotal == Subtotal(p.lines) && LinesTotalled(p.lines)
    {
      subtotal := 0.0;
      var data: seq<PricedLine> := [];
      var i := 0;
      while i < |items|
        invariant 0 <= i <= |items|
        invariant PriceLines(catalog, items[..i]) == Priced(data)
        invariant subtotal == Subtotal(data)
        invariant LinesTotalled(data)
      {
        var item := items[i];
        assert items[..i + 1][..i] == items[..i];
        var found := Lookup(catalog, item.menuItemId);
        if found.None? {
          PriceLinesPrefixMissing(catalog, items, i + 1);
          return Missing(item.menuItemId), subtotal;
        }
        var unitPrice := found.value;
        var itemTotal := LineTotal(unitPrice, item.quantity);
        subtotal := subtotal + itemTotal;
        var line := PricedLine(item.menuItemId, item.quantity, unitPrice, itemTotal);
        assert line == Resolve(catalog, item);
        assert items[..i + 1][i] == item;
        assert PriceLines(catalog, items[..i + 1]) == Priced(data + [line]);
        SubtotalAppend(data, line);
        data := data + [line];
        i := i + 1;
      }
      assert items[..i] == items;
      p := Priced(data);
    }

    /** The insert loop of create-order: one order-item row per priced line. */
    method InsertRows(orderId: int, lines: seq<PricedLine>)
      modifies this`orderItems
      ensures orderItems == old(orderItems) + Rows(orderId, lines)
    {
      var j := 0;
      while j < |lines|
        invariant 0 <= j <= |lines|
        invariant orderItems == old(orderItems) + Rows(orderId, lines[..j])
      {
        assert Rows(orderId, lines[..j + 1]) == Rows(orderId, lines[..j]) + [Row(orderId, lines[j])];
        orderItems := orderItems + [Row(orderId, lines[j])];
        j := j + 1;
      }
      assert lines[..j] == lines;
    }

    /** PUT `/:id/status`, behind `verifyAdmin`: any of the seven statuses may
        replace any other; an id with no order is answered with success too. */
    method UpdateStatus(caller: AuthGate.User, orderId: int, status: Field) returns (out: UpdateOutcome)
      requires Valid()
      modifies this`orders
      ensures Valid()
      ensures AuthGate.VerifyAdmin(caller) != AuthGate.Next ==> out == Forbidden && orders == old(orders)
      ensures AuthGate.VerifyAdmin(caller) == AuthGate.Next && !IsValidStatus(status) ==>
                out == InvalidStatus && orders == old(orders)
      ensures AuthGate.VerifyAdmin(caller) == AuthGate.Next && IsValidStatus(status) ==>
                out == StatusUpdated && orders == WithStatus(old(orders), orderId, status.value)
    {
      if AuthGate.VerifyAdmin(caller) != AuthGate.Next {
        return Forbidden;
      }
      if !IsValidStatus(status) {
        return InvalidStatus;
      }
      var updated := WithStatus(orders, orderId, status.value);
      StatusUpdateKeepsValid(orders, orderItems, nextOrderId, orderId, status.value);
      orders := updated;
      out := StatusUpdated;
    }

    /** GET `/:id`: the order and its rows, or nothing (404) when the caller
        neither owns it nor is an admin. */
    function GetOrder(orderId: int, caller: AuthGate.User): (r: Option<OrderView>)
      reads this
      ensures r.Some? <==> exists i :: 0 <= i < |orders| && orders[i].id == orderId && Visible(orders[i], caller)
      ensures r.Some? ==> r.value.order in orders && r.value.order.id == orderId &&
                          Visible(r.value.order, caller) && r.value.items == ItemsOf(orderItems, orderId)
    {
      match FirstIndex(orders, (o: Order) => o.id == orderId && Visible(o, caller))
      case None => None
      case Some(k) => Some(OrderView(orders[k], ItemsOf(orderItems, orderId)))
    }

    /** GET `/user`: the caller's orders under the status filter, newest first. */
    function UserOrders(caller: AuthGate.User, filter: Field): (r: seq<Order>)
      reads this
      requires Valid()
      ensures forall o :: o in r <==> o in orders && o.userId == caller.id && PassesStatusFilter(filter, o.status)
      ensures forall i, j :: 0 <= i < j < |r| ==> r[i].id > r[j].id
    {
      NewestFirst(orders, (o: Order) => o.userId == caller.id && PassesStatusFilter(filter, o.status), (o: Order) => o.id)
    }

    /** GET `/admin`, behind `verifyAdmin`: every order under the status filter,
        newest first; nothing for a caller who is not an admin. */
    function AdminOrders(caller: AuthGate.User, filter: Field): (r: Option<seq<Order>>)
      reads this
      requires Valid()
      ensures r.Some? <==> caller.role == "admin"
      ensures r.Some? ==> forall o :: o in r.value <==> o in orders && PassesStatusFilter(filter, o.status)
      ensures r.Some? ==> forall i, j :: 0 <= i < j < |r.value| ==> r.value[i].id > r.value[j].id
    {
      if AuthGate.VerifyAdmin(caller) != AuthGate.Next then None
      else Some(NewestFirst(orders, (o: Order) => PassesStatusFilter(filter, o.status), (o: Order) => o.id))
    }
  }

  /** Some stored order carries `id`. */
  predicate HasOrder(orders: seq<Order>, id: int) {
    exists i :: 0 <= i < |orders| && orders[i].id == id
  }

  /** Ids are assigned in increasing order, all below `nextOrderId`. */
  predicate IdsAssigned(orders: seq<Order>, nextOrderId: int) {
    && 1 <= nextOrderId
    && (forall i :: 0 <= i < |orders| ==> orders[i].id < nextOrderId)
    && (forall i, j :: 0 <= i < j < |orders| ==> orders[i].id < orders[j].id)
  }

  /** Every order-item row belongs to a stored order. */
  predicate RowsOwned(orders: seq<Order>, rows: seq<OrderItem>) {
    forall k :: 0 <= k < |rows| ==> HasOrder(orders, rows[k].orderId)
  }

  /** Every order-item row records its own line total. */
  predicate RowsTotalled(rows: seq<OrderItem>) {
    forall k :: 0 <= k < |rows| ==> rows[k].totalPrice == LineTotal(rows[k].unitPrice, rows[k].quantity)
  }

  /** Every priced line records its own total. */
  predicate LinesTotalled(lines: seq<PricedLine>) {
    forall k :: 0 <= k < |lines| ==> lines[k].totalPrice == LineTotal(lines[k].unitPrice, lines[k].quantity)
  }

  /** Every order's money agrees with its rows. */
  predicate OrdersPriced(orders: seq<Order>, rows: seq<OrderItem>) {
    forall i :: 0 <= i < |orders| ==> PricedConsistently(orders[i], ItemsOf(rows, orders[i].id))
  }

  /** The store invariant: ids are assigned in increasing order below
      `nextOrderId`, every order-item row belongs to a stored order and records
      its own line total, and every order's money agrees with its rows. */
  predicate StoreValid(orders: seq<Order>, rows: seq<OrderItem>, nextOrderId: int) {
    IdsAssigned(orders, nextOrderId) && RowsOwned(orders, rows) && RowsTotalled(rows) && OrdersPriced(orders, rows)
  }

  /** No stored row belongs to an id at or above `nextOrderId`. */
  lemma NoRowsForFreshId(orders: seq<Order>, rows: seq<OrderItem>, nextOrderId: int)
    requires IdsAssigned(orders, nextOrderId) && RowsOwned(orders, rows)
    ensures forall k :: 0 <= k < |rows| ==> rows[k].orderId != nextOrderId
  {
    forall k | 0 <= k < |rows| ensures rows[k].orderId != nextOrderId {
      var m :| 0 <= m < |orders| && orders[m].id == rows[k].orderId;
    }
  }

  /** Rows appended for a new order leave the rows of every other order alone. */
  lemma ItemsOfOtherOrder(rows: seq<OrderItem>, id: int, lines: seq<PricedLine>, other: int)
    requires other != id
    ensures ItemsOf(rows + Rows(id, lines), other) == ItemsOf(rows, other)
  {
    ItemsOfAppend(rows, Rows(id, lines), other);
    ItemsOfAbsent(Rows(id, lines), other);
    assert ItemsOf(rows, other) + [] == ItemsOf(rows, other);
  }

  /** The new order's rows are exactly the rows appended for it. */
  lemma ItemsOfNewOrder(rows: seq<OrderItem>, id: int, lines: seq<PricedLine>)
    requires forall k :: 0 <= k < |rows| ==> rows[k].orderId != id
    ensures ItemsOf(rows + Rows(id, lines), id) == Rows(id, lines)
  {
    ItemsOfAppend(rows, Rows(id, lines), id);
    ItemsOfAbsent(rows, id);
    ItemsOfUniform(Rows(id, lines), id);
    assert [] + Rows(id, lines) == Rows(id, lines);
  }

  lemma AppendKeepsIdsAssigned(orders: seq<Order>, id: int, header: Order)
    requires IdsAssigned(orders, id) && header.id == id
    ensures IdsAssigned(orders + [header], id + 1)
  {
    assert forall i :: 0 <= i < |orders| ==> (orders + [header])[i] == orders[i];
  }

  lemma AppendKeepsRowsOwned(orders: seq<Order>, rows: seq<OrderItem>, header: Order, lines: seq<PricedLine>)
    requires RowsOwned(orders, rows)
    ensures RowsOwned(orders + [header], rows + Rows(header.id, lines))
  {
    var orders', added := orders + [header], Rows(header.id, lines);
    var rows' := rows + added;
    forall k | 0 <= k < |rows'| ensures HasOrder(orders', rows'[k].orderId) {
      if k >= |rows| {
        assert rows'[k] == added[k - |rows|];
        assert orders'[|orders|] == header;
      } else {
        assert rows'[k] == rows[k];
        var m :| 0 <= m < |orders| && orders[m].id == rows[k].orderId;
        assert orders'[m] == orders[m];
      }
    }
  }

  lemma AppendKeepsRowsTotalled(rows: seq<OrderItem>, id: int, lines: seq<PricedLine>)
    requires RowsTotalled(rows) && LinesTotalled(lines)
    ensures RowsTotalled(rows + Rows(id, lines))
  {
    var added := Rows(id, lines);
    var rows' := rows + added;
    forall k | 0 <= k < |rows'|
      ensures rows'[k].totalPrice == LineTotal(rows'[k].unitPrice, rows'[k].quantity)
    {
      if k >= |rows| {
        assert rows'[k] == added[k - |rows|];
      } else {
        assert rows'[k] == rows[k];
      }
    }
  }

  lemma AppendKeepsOrdersPriced(orders: seq<Order>, rows: seq<OrderItem>, id: int, header: Order, lines: seq<PricedLine>)
    requires OrdersPriced(orders, rows)
    requires forall i :: 0 <= i < |orders| ==> orders[i].id != id
    requires forall k :: 0 <= k < |rows| ==> rows[k].orderId != id
    requires header.id == id && header.deliveryFee == DeliveryFee
    requires header.gstAmount == Gst(Subtotal(lines)) && header.totalAmount == Total(Subtotal(lines))
    ensures OrdersPriced(orders + [header], rows + Rows(id, lines))
  {
    var orders', rows' := orders + [header], rows + Rows(id, lines);
    forall i | 0 <= i < |orders'|
      ensures PricedConsistently(orders'[i], ItemsOf(rows', orders'[i].id))
    {
      if i < |orders| {
        assert orders'[i] == orders[i];
        ItemsOfOtherOrder(rows, id, lines, orders[i].id);
      } else {
        assert orders'[i] == header;
        ItemsOfNewOrder(rows, id, lines);
        LinesOfRows(id, lines);
      }
    }
  }

  /** Appending a header priced from `lines` under the next id, followed by one
      row per line, keeps the store invariant. */
  lemma CreateKeepsValid(orders: seq<Order>, rows: seq<OrderItem>, id: int, header: Order, lines: seq<PricedLine>)
    requires StoreValid(orders, rows, id)
    requires header.id == id && header.deliveryFee == DeliveryFee
    requires header.gstAmount == Gst(Subtotal(lines)) && header.totalAmount == Total(Subtotal(lines))
    requires LinesTotalled(lines)
    ensures StoreValid(orders + [header], rows + Rows(id, lines), id + 1)
  {
    AppendKeepsIdsAssigned(orders, id, header);
    AppendKeepsRowsOwned(orders, rows, header, lines);
    AppendKeepsRowsTotalled(rows, id, lines);
    NoRowsForFreshId(orders, rows, id);
    AppendKeepsOrdersPriced(orders, rows, id, header, lines);
  }

  /** A status update keeps the store invariant. */
  lemma StatusUpdateKeepsValid(orders: seq<Order>, rows: seq<OrderItem>, next: int, orderId: int, status: string)
    requires StoreValid(orders, rows, next)
    ensures StoreValid(WithStatus(orders, orderId, status), rows, next)
  {
    var updated := WithStatus(orders, orderId, status);
    forall k | 0 <= k < |rows| ensures HasOrder(updated, rows[k].orderId) {
      var m :| 0 <= m < |orders| && orders[m].id == rows[k].orderId;
      assert updated[m].id == orders[m].id;
    }
  }
}

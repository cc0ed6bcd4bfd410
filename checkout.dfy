/** The checkout page: the form check run before an order is placed, the
    totals shown and submitted, and the order request built from the cart. */
module Checkout {
  import opened Common
  import opened ShoppingCart
  import OrderService

  const DeliveryFee: real := 40.0
  const GstRate: real := 0.05
  const ScheduledTime: string := "scheduled"

  const RequiredMessage: string := "This field is required"
  const PhoneMessage: string := "Please enter a valid 10-digit phone number"
  const PinMessage: string := "Please enter a valid 6-digit PIN code"
  const DateMessage: string := "Please select delivery date"
  const SlotMessage: string := "Please select time slot"

  // ---------------------------------------------------------------------------
  // Totals

  /** The four figures of the order summary. */
  datatype CheckoutTotals = CheckoutTotals(subtotal: real, deliveryFee: real, gst: real, total: real)

  /** The totals of `displayCheckoutItems` and of `getFormData`, which compute
      them the same way: the cart subtotal, the flat fee, five per cent GST on
      the subtotal, and their sum. The figure is the cart page's total with
      the GST added on top. */
  function Totals(cart: seq<CartLine>): (t: CheckoutTotals)
    ensures t.subtotal == Subtotal(cart) && t.subtotal == Summary(cart).subtotal
    ensures t.deliveryFee == 40.0
    ensures t.gst * 20.0 == t.subtotal
    ensures t.total == Summary(cart).total + t.gst
  {
    var subtotal := Subtotal(cart);
    var gst := subtotal * GstRate;
    CheckoutTotals(subtotal, DeliveryFee, gst, subtotal + DeliveryFee + gst)
  }

  // ---------------------------------------------------------------------------
  // Form validation

  /** An `input[required]` or `textarea[required]` of the form, by name. */
  datatype InputField = InputField(name: string, value: string)

  /** What the check reads from the page. */
  datatype CheckoutForm = CheckoutForm(
    required: seq<InputField>,
    phone: string,
    pincode: string,
    deliveryTime: string,
    deliveryDate: string,
    deliveryTimeSlot: string)

  /** One `showFieldError` call: the field it marks and its message. */
  datatype FieldError = FieldError(field: string, message: string)

  /** `/^\d{10}$/.test(phone.replace(/\D/g, ''))`: ten digits once every
      other character is dropped. */
  predicate PhoneValid(phone: string) {
    |StripNonDigits(phone)| == 10
  }

  /** `/^\d{6}$/.test(pincode)`: exactly six digits and nothing else. */
  predicate PinValid(pincode: string) {
    |pincode| == 6 && AllDigits(pincode)
  }

  /** The PIN passes exactly when it has six digits and holds nothing that
      stripping would remove. */
  lemma PinValidMeaning(pincode: string)
    ensures PinValid(pincode) <==> |StripNonDigits(pincode)| == 6 && StripNonDigits(pincode) == pincode
  {
    StripNonDigitsFixesDigits(pincode);
  }

  /** The errors of the `forEach` over the required fields, in document order. */
  function RequiredErrors(fields: seq<InputField>): (r: seq<FieldError>)
    ensures |r| <= |fields|
    ensures forall e :: e in r ==> e.message == RequiredMessage
  {
    if fields == [] then []
    else
      var last := fields[|fields| - 1];
      RequiredErrors(fields[..|fields| - 1]) +
      (if Blank(last.value) then [FieldError(last.name, RequiredMessage)] else [])
  }

  function ScheduleErrors(form: CheckoutForm): seq<FieldError> {
    if form.deliveryTime != ScheduledTime then []
    else
      (if form.deliveryDate == "" then [FieldError("deliveryDate", DateMessage)] else []) +
      (if form.deliveryTimeSlot == "" then [FieldError("deliveryTimeSlot", SlotMessage)] else [])
  }

  function PhoneErrors(form: CheckoutForm): seq<FieldError> {
    if PhoneValid(form.phone) then [] else [FieldError("phone", PhoneMessage)]
  }

  function PinErrors(form: CheckoutForm): seq<FieldError> {
    if PinValid(form.pincode) then [] else [FieldError("pincode", PinMessage)]
  }

  /** Every error `validateCheckoutForm` shows, in the order it shows them. */
  function CheckoutErrors(form: CheckoutForm): seq<FieldError> {
    RequiredErrors(form.required) + PhoneErrors(form) + PinErrors(form) + ScheduleErrors(form)
  }

  /** A required field is reported exactly when it is blank: every blank
      field has its error, and every error names a blank field. */
  lemma {:induction false} RequiredErrorsComplete(fields: seq<InputField>)
    ensures RequiredErrors(fields) == [] <==> forall i :: 0 <= i < |fields| ==> !Blank(fields[i].value)
    ensures forall i :: 0 <= i < |fields| && Blank(fields[i].value) ==>
              FieldError(fields[i].name, RequiredMessage) in RequiredErrors(fields)
    ensures forall e :: e in RequiredErrors(fields) ==>
              exists i :: 0 <= i < |fields| && Blank(fields[i].value) && e.field == fields[i].name
  {
    if fields != [] {
      var n := |fields|;
      var front := fields[..n - 1];
      var last := fields[n - 1];
      RequiredErrorsComplete(front);
      var tail := if Blank(last.value) then [FieldError(last.name, RequiredMessage)] else [];
      assert RequiredErrors(fields) == RequiredErrors(front) + tail;
      forall i | 0 <= i < n && Blank(fields[i].value)
        ensures FieldError(fields[i].name, RequiredMessage) in RequiredErrors(fields)
      {
        if i < n - 1 {
          assert front[i] == fields[i];
        } else {
          assert tail == [FieldError(fields[i].name, RequiredMessage)];
        }
      }
      forall e | e in RequiredErrors(fields)
        ensures exists i :: 0 <= i < n && Blank(fields[i].value) && e.field == fields[i].name
      {
        if e in RequiredErrors(front) {
          var i :| 0 <= i < n - 1 && Blank(front[i].value) && e.field == front[i].name;
          assert front[i] == fields[i];
        } else {
          assert e in tail;
          assert Blank(fields[n - 1].value) && e.field == fields[n - 1].name;
        }
      }
      if RequiredErrors(fields) == [] {
        forall i | 0 <= i < n ensures !Blank(fields[i].value) {
          if i < n - 1 { assert front[i] == fields[i]; }
        }
      } else if RequiredErrors(front) == [] {
        assert Blank(last.value);
      } else {
        var i :| 0 <= i < n - 1 && Blank(front[i].value);
        assert front[i] == fields[i];
      }
    }
  }

  /** The form passes exactly when no check fails; and no check is skipped
      because an earlier one failed: each failing check leaves its own error. */
  lemma CheckoutErrorsMeaning(form: CheckoutForm)
    ensures CheckoutErrors(form) == [] <==>
              (forall i :: 0 <= i < |form.required| ==> !Blank(form.required[i].value)) &&
              PhoneValid(form.phone) && PinValid(form.pincode) &&
              (form.deliveryTime == ScheduledTime ==> form.deliveryDate != "" && form.deliveryTimeSlot != "")
    ensures forall i :: 0 <= i < |form.required| && Blank(form.required[i].value) ==>
              FieldError(form.required[i].name, RequiredMessage) in CheckoutErrors(form)
    ensures !PhoneValid(form.phone) ==> FieldError("phone", PhoneMessage) in CheckoutErrors(form)
    ensures !PinValid(form.pincode) ==> FieldError("pincode", PinMessage) in CheckoutErrors(form)
    ensures form.deliveryTime == ScheduledTime && form.deliveryDate == "" ==>
              FieldError("deliveryDate", DateMessage) in CheckoutErrors(form)
    ensures form.deliveryTime == ScheduledTime && form.deliveryTimeSlot == "" ==>
              FieldError("deliveryTimeSlot", SlotMessage) in CheckoutErrors(form)
  {
    RequiredErrorsComplete(form.required);
  }

  /** The `forEach` over the required fields: one error per blank field, and
      the flag cleared by any of them. */
  method CheckRequiredFields(fields: seq<InputField>) returns (isValid: bool, shown: seq<FieldError>)
    ensures shown == RequiredErrors(fields)
    ensures isValid <==> shown == []
  {
    isValid := true;
    shown := [];
    for i := 0 to |fields|
      invariant shown == RequiredErrors(fields[..i])
      invariant isValid <==> shown == []
    {
      assert fields[..i + 1][..i] == fields[..i];
      var field := fields[i];
      if Blank(field.value) {
        shown := shown + [FieldError(field.name, RequiredMessage)];
        isValid := false;
      }
    }
    assert fields[..|fields|] == fields;
  }

  /** `validateCheckoutForm`: every required field, then phone, PIN and, for a
      scheduled delivery, date and slot; `isValid` only ever turns false. */
  method ValidateCheckoutForm(form: CheckoutForm) returns (isValid: bool, shown: seq<FieldError>)
    ensures shown == CheckoutErrors(form)
    ensures isValid <==> shown == []
  {
    isValid, shown := CheckRequiredFields(form.required);
    ghost var required := shown;
    if !PhoneValid(form.phone) {
      shown := shown + [FieldError("phone", PhoneMessage)];
      isValid := false;
    }
    assert shown == required + PhoneErrors(form) && (isValid <==> shown == []);
    ghost var checked := shown;
    if !PinValid(form.pincode) {
      shown := shown + [FieldError("pincode", PinMessage)];
      isValid := false;
    }
    assert shown == checked + PinErrors(form) && (isValid <==> shown == []);
    var scheduleValid, scheduleShown := CheckSchedule(form);
    shown := shown + scheduleShown;
    isValid := isValid && scheduleValid;
  }

  /** The date and slot checks of a scheduled delivery. */
  method CheckSchedule(form: CheckoutForm) returns (isValid: bool, shown: seq<FieldError>)
    ensures shown == ScheduleErrors(form)
    ensures isValid <==> shown == []
  {
    isValid, shown := true, [];
    if form.deliveryTime == ScheduledTime {
      if form.deliveryDate == "" {
        shown := shown + [FieldError("deliveryDate", DateMessage)];
        isValid := false;
      }
      if form.deliveryTimeSlot == "" {
        shown := shown + [FieldError("deliveryTimeSlot", SlotMessage)];
        isValid := false;
      }
    }
  }

  /** The phone check looks only at the digits: separators anywhere make no
      difference, and a string of digits passes exactly when it has ten. */
  lemma PhoneIgnoresSeparators(a: string, sep: string, b: string)
    requires forall i :: 0 <= i < |sep| ==> !IsDigit(sep[i])
    ensures PhoneValid(a + sep + b) <==> PhoneValid(a + b)
    ensures AllDigits(a) ==> (PhoneValid(a) <==> |a| == 10)
  {
    StripNonDigitsAppend(a + sep, b);
    StripNonDigitsAppend(a, sep);
    StripNonDigitsAppend(a, b);
    StripNonDigitsFixesDigits(sep);
    StripNonDigitsFixesDigits(a);
  }

  /** The PIN check strips nothing: a PIN typed with a space fails even though
      its digits are six. */
  lemma PinIsNotStripped()
    ensures !PinValid("560 001") && |StripNonDigits("560 001")| == 6
  {
    assert !IsDigit("560 001"[3]);
    StripNonDigitsAppend("560", " 001");
    StripNonDigitsAppend(" ", "001");
    StripNonDigitsFixesDigits("560");
    StripNonDigitsFixesDigits("001");
    StripNonDigitsFixesDigits(" ");
  }

  // ---------------------------------------------------------------------------
  // The order request

  /** What `getFormData` collected and `processSuccessfulOrder` reads. */
  datatype OrderDetails = OrderDetails(
    address: string,
    city: string,
    state: string,
    pincode: string,
    phone: string,
    paymentMethod: string,
    instructions: Field,
    deliveryTime: string,
    deliveryDate: string,
    deliveryTimeSlot: string)

  /** An entry of the request's `items`: the cart line's id and quantity only. */
  datatype PayloadLine = PayloadLine(menuItemId: string, quantity: int)

  /** The body `createOrder` sends. `scheduledDelivery` is the local date and
      time text that is handed to `new Date(...)`. */
  datatype OrderPayload = OrderPayload(
    items: seq<PayloadLine>,
    deliveryAddress: string,
    deliveryPhone: string,
    paymentMethod: string,
    specialInstructions: string,
    scheduledDelivery: Option<string>)

  /** `cart.map(item => ({ menu_item_id: item.id, quantity: item.quantity }))`. */
  function PayloadItems(cart: seq<CartLine>): (r: seq<PayloadLine>)
    ensures |r| == |cart|
    ensures forall i :: 0 <= i < |cart| ==> r[i] == PayloadLine(cart[i].id, cart[i].quantity)
  {
    seq(|cart|, i requires 0 <= i < |cart| => PayloadLine(cart[i].id, cart[i].quantity))
  }

  /** Carts that differ only in names and prices produce the same items: no
      price leaves the browser. */
  lemma PayloadIgnoresPrices(a: seq<CartLine>, b: seq<CartLine>)
    requires |a| == |b|
    requires forall i :: 0 <= i < |a| ==> a[i].id == b[i].id && a[i].quantity == b[i].quantity
    ensures PayloadItems(a) == PayloadItems(b)
  {
  }

  /** `${address}, ${city}, ${state} - ${pincode}`. */
  function DeliveryAddress(d: OrderDetails): (r: string)
    ensures |r| == |d.address| + |d.city| + |d.state| + |d.pincode| + 7
    ensures r[..|d.address| + 2] == d.address + ", "
    ensures r[|d.address| + 2..|d.address| + |d.city| + 4] == d.city + ", "
    ensures r[|d.address| + |d.city| + 4..|r| - |d.pincode| - 3] == d.state
    ensures r[|r| - |d.pincode| - 3..] == " - " + d.pincode
  {
    d.address + ", " + d.city + ", " + d.state + " - " + d.pincode
  }

  /** The text before the first `-` of a slot such as `12:00-14:00`. */
  function SlotStart(slot: string): (r: string)
    ensures |r| <= |slot| && r == slot[..|r|]
    ensures forall i :: 0 <= i < |r| ==> r[i] != '-'
    ensures |r| < |slot| ==> slot[|r|] == '-'
  {
    if slot == [] || slot[0] == '-' then [] else [slot[0]] + SlotStart(slot[1..])
  }

  /** The request body of `processSuccessfulOrder`. */
  function Payload(cart: seq<CartLine>, d: OrderDetails): (p: OrderPayload)
    ensures p.items == PayloadItems(cart)
    ensures p.deliveryAddress == DeliveryAddress(d)
    ensures p.scheduledDelivery.Some? <==> d.deliveryTime == ScheduledTime
    ensures d.deliveryTime == ScheduledTime ==>
              p.scheduledDelivery == Some(d.deliveryDate + "T" + SlotStart(d.deliveryTimeSlot) + ":00")
    ensures p.deliveryPhone == d.phone && p.paymentMethod == d.paymentMethod
    ensures p.specialInstructions == OrElse(d.instructions, "")
  {
    OrderPayload(
      PayloadItems(cart),
      DeliveryAddress(d),
      d.phone,
      d.paymentMethod,
      OrElse(d.instructions, ""),
      if d.deliveryTime == ScheduledTime then Some(d.deliveryDate + "T" + SlotStart(d.deliveryTimeSlot) + ":00")
      else None)
  }

  /** `processSuccessfulOrder`: send the request built from the cart and clear
      the cart only when the answer reports success. `succeeds` stands for the
      API call and whether its answer has `success` set. */
  method ProcessSuccessfulOrder(cart: Cart, d: OrderDetails, succeeds: OrderPayload -> bool)
    returns (sent: OrderPayload)
    modifies cart
    ensures sent == Payload(old(cart.lines), d)
    ensures succeeds(sent) ==> cart.lines == []
    ensures !succeeds(sent) ==> cart.lines == old(cart.lines)
  {
    sent := Payload(cart.lines, d);
    if succeeds(sent) {
      cart.Clear();
    }
  }

  // ---------------------------------------------------------------------------
  // Agreement with the server

  /** How the server reads the body: `menu_item_id` becomes a number through
      `idOf` (the database's conversion of the string id), no line carries a
      price, and every present field arrives as a string. */
  function AsCreateRequest(p: OrderPayload, idOf: string -> int): (req: OrderService.CreateRequest)
    ensures req.items.Some? && |req.items.value| == |p.items|
    ensures forall i :: 0 <= i < |p.items| ==>
              req.items.value[i] == OrderService.LineRequest(idOf(p.items[i].menuItemId), p.items[i].quantity, None)
  {
    OrderService.CreateRequest(
      Some(seq(|p.items|, i requires 0 <= i < |p.items| =>
        OrderService.LineRequest(idOf(p.items[i].menuItemId), p.items[i].quantity, None))),
      Some(p.deliveryAddress),
      Some(p.deliveryPhone),
      Some(p.paymentMethod),
      Some(p.specialInstructions),
      p.scheduledDelivery)
  }

  /** The menu still offers every cart line at the price the cart holds. */
  predicate PricesCurrent(cart: seq<CartLine>, catalog: map<int, OrderService.MenuItem>, idOf: string -> int) {
    forall i :: 0 <= i < |cart| ==>
      OrderService.Available(catalog, idOf(cart[i].id)) && catalog[idOf(cart[i].id)].price == cart[i].price
  }

  /** Server line totals matching the cart's amounts add up to the cart's subtotal. */
  lemma {:induction false} ServerSubtotalIsCartSubtotal(lines: seq<OrderService.PricedLine>, cart: seq<CartLine>)
    requires |lines| == |cart|
    requires forall i :: 0 <= i < |cart| ==> lines[i].totalPrice == Amount(cart[i])
    ensures OrderService.Subtotal(lines) == Subtotal(cart)
  {
    if cart != [] {
      var n := |cart|;
      assert forall i :: 0 <= i < n - 1 ==> lines[..n - 1][i] == lines[i] && cart[..n - 1][i] == cart[i];
      ServerSubtotalIsCartSubtotal(lines[..n - 1], cart[..n - 1]);
    }
  }

  /** A non-empty cart whose form passed the phone check, priced as the menu
      still prices it, is accepted by create-order, which charges the total
      the checkout page showed. */
  lemma ServerAcceptsCheckout(cart: seq<CartLine>, d: OrderDetails,
                              catalog: map<int, OrderService.MenuItem>, idOf: string -> int)
    requires cart != [] && PhoneValid(d.phone) && PricesCurrent(cart, catalog, idOf)
    ensures OrderService.CheckRequest(catalog, AsCreateRequest(Payload(cart, d), idOf)).Accepted?
    ensures OrderService.Total(OrderService.Subtotal(
              OrderService.CheckRequest(catalog, AsCreateRequest(Payload(cart, d), idOf)).lines)) ==
            Totals(cart).total
  {
    var req := AsCreateRequest(Payload(cart, d), idOf);
    var items := req.items.value;
    assert forall i :: 0 <= i < |cart| ==> items[i].menuItemId == idOf(cart[i].id) && items[i].quantity == cart[i].quantity;
    assert Truthy(req.deliveryAddress) by {
      assert |DeliveryAddress(d)| > 0;
    }
    assert Truthy(req.deliveryPhone) by {
      assert |StripNonDigits(d.phone)| <= |d.phone|;
    }
    var pricing := OrderService.PriceLines(catalog, items);
    assert forall k :: 0 <= k < |items| ==> OrderService.Available(catalog, items[k].menuItemId);
    assert pricing.Priced?;
    var lines := pricing.lines;
    assert OrderService.CheckRequest(catalog, req) == OrderService.Accepted(lines);
    forall i | 0 <= i < |cart| ensures lines[i].totalPrice == Amount(cart[i]) {
      assert lines[i] == OrderService.Resolve(catalog, items[i]);
    }
    ServerSubtotalIsCartSubtotal(lines, cart);
  }
}

/** The order confirmation page: the four-step progress tracker, when the page
    stops polling for updates, and the figures and texts it shows. */
module OrderTracking {
  import opened Common
  import OrderService

  const Steps: seq<string> := ["Confirmed", "Preparing", "Out for Delivery", "Delivered"]
  const DefaultStatus: string := "Confirmed"
  const FinalStatuses: seq<string> := ["Delivered", "Cancelled"]

  /** `statuses.indexOf(currentStatus)`, with -1 replaced by 0. */
  function StepIndex(status: string): (r: nat)
    ensures r < |Steps|
    ensures status in Steps ==> Steps[r] == status
    ensures status !in Steps ==> r == 0
  {
    match FirstIndex(Steps, (s: string) => s == status)
    case None => 0
    case Some(k) => k
  }

  /** How one step is drawn: a check mark, the orange dot, or grey. */
  datatype StepState = Completed | Current | Upcoming

  function StateOf(index: nat, current: nat): StepState {
    if index < current then Completed else if index == current then Current else Upcoming
  }

  /** The tracker as `updateOrderStatusVisuals` leaves it. */
  function TrackerStates(status: string): (r: seq<StepState>)
    ensures |r| == |Steps|
    ensures forall i :: 0 <= i < |r| ==> (r[i] == Completed <==> i < StepIndex(status))
    ensures forall i :: 0 <= i < |r| ==> (r[i] == Current <==> i == StepIndex(status))
    ensures forall i :: 0 <= i < |r| ==> (r[i] == Upcoming <==> i > StepIndex(status))
  {
    var current := StepIndex(status);
    seq(|Steps|, i requires 0 <= i < |Steps| => StateOf(i, current))
  }

  /** Exactly one step is current, and it is the step named by the status. */
  lemma ExactlyOneCurrent(status: string)
    ensures (set i | 0 <= i < |Steps| && TrackerStates(status)[i] == Current) == {StepIndex(status)}
    ensures status in Steps ==> Steps[StepIndex(status)] == status
  {
    var r := TrackerStates(status);
    var cur := set i | 0 <= i < |Steps| && r[i] == Current;
    assert StepIndex(status) in cur;
    forall i | i in cur ensures i == StepIndex(status) {
    }
  }

  /** `['Delivered', 'Cancelled'].includes(order.status)`: the raw status, not
      the tracker's default, compared exactly. */
  predicate StopsPolling(status: Field) {
    status.Some? && status.value in FinalStatuses
  }

  /** Polling stops on `Delivered`, drawn with every earlier step completed,
      and on `Cancelled`, which the tracker does not know and draws at its
      first step. */
  lemma StopsPollingMeaning(s: string)
    ensures StopsPolling(Some(s)) <==> s == "Delivered" || s == "Cancelled"
    ensures s == "Delivered" ==> TrackerStates(s) == [Completed, Completed, Completed, Current]
    ensures s == "Cancelled" ==> TrackerStates(s) == [Current, Upcoming, Upcoming, Upcoming]
  {
    if s == "Cancelled" {
      assert s !in Steps;
    }
  }

  /** The statuses the server stores are lower case, so none of them names a
      tracker step or stops the polling: for a stored order the tracker stays on
      its first step and the page keeps asking. */
  lemma TrackerIgnoresBackendStatuses(s: string)
    requires s in OrderService.ValidStatuses
    ensures StepIndex(s) == 0
    ensures TrackerStates(s) == [Current, Upcoming, Upcoming, Upcoming]
    ensures !StopsPolling(Some(s))
  {
    assert s !in Steps;
  }

  /** `parseFloat(item.price || 0) * parseInt(item.quantity || 1)`: a missing or
      zero price counts as 0, a missing or zero quantity as 1. */
  function ItemTotal(price: Option<real>, quantity: Option<int>): (r: real)
    ensures quantity.None? || quantity == Some(0) ==> r == LineTotal(if price.Some? then price.value else 0.0, 1)
    ensures price.None? ==> r == 0.0
    ensures price.Some? && quantity.Some? && quantity.value != 0 ==> r == LineTotal(price.value, quantity.value)
  {
    var p := if price.Some? then price.value else 0.0;
    var q := if quantity.None? || quantity.value == 0 then 1 else quantity.value;
    LineTotal(p, q)
  }

  /** The three figures of `renderFinancialDetails`: the server's value, or 0. */
  datatype Financials = Financials(subtotal: real, gst: real, total: real)

  function FinancialDetails(subtotal: Option<real>, gstAmount: Option<real>, totalAmount: Option<real>): (f: Financials)
    ensures subtotal.Some? ==> f.subtotal == subtotal.value
    ensures gstAmount.Some? ==> f.gst == gstAmount.value
    ensures totalAmount.Some? ==> f.total == totalAmount.value
    ensures subtotal.None? ==> f.subtotal == 0.0
    ensures gstAmount.None? ==> f.gst == 0.0
    ensures totalAmount.None? ==> f.total == 0.0
  {
    Financials(
      if subtotal.Some? then subtotal.value else 0.0,
      if gstAmount.Some? then gstAmount.value else 0.0,
      if totalAmount.Some? then totalAmount.value else 0.0)
  }

  /** `toLowerCase` on the letters A to Z. */
  function LowerAscii(s: string): (r: string)
    ensures |r| == |s|
    ensures forall i :: 0 <= i < |s| ==>
              r[i] == if 'A' <= s[i] <= 'Z' then (s[i] as int + 32) as char else s[i]
  {
    seq(|s|, i requires 0 <= i < |s| => if 'A' <= s[i] <= 'Z' then (s[i] as int + 32) as char else s[i])
  }

  const CashOnDelivery: string := "Cash on Delivery"
  const PaidOnline: string := "Paid Online"

  /** `renderDeliveryDetails`' payment line. */
  function PaymentText(paymentMethod: Field): string {
    if LowerAscii(OrElse(paymentMethod, "N/A")) == "cod" then CashOnDelivery else PaidOnline
  }

  /** Cash on delivery is shown exactly for `cod` written in any mix of cases;
      a missing method reads `N/A` and so shows as paid online. */
  lemma PaymentTextMeaning(paymentMethod: Field)
    ensures PaymentText(paymentMethod) == CashOnDelivery <==>
              Truthy(paymentMethod) && var m := paymentMethod.value;
              |m| == 3 && (m[0] == 'c' || m[0] == 'C') && (m[1] == 'o' || m[1] == 'O') && (m[2] == 'd' || m[2] == 'D')
    ensures !Truthy(paymentMethod) ==> PaymentText(paymentMethod) == PaidOnline
  {
    var m := OrElse(paymentMethod, "N/A");
    var l := LowerAscii(m);
    if l == "cod" {
      assert l[0] == 'c' && l[1] == 'o' && l[2] == 'd';
    }
    if !Truthy(paymentMethod) {
      assert l[0] == 'n';
    }
  }

  /** `value || 'Not Provided'` for the address and phone lines. */
  function DeliveryText(value: Field): (r: string)
    ensures Truthy(value) ==> r == value.value
    ensures !Truthy(value) ==> r == "Not Provided"
  {
    OrElse(value, "Not Provided")
  }

  /** The page's state: the module-level `orderStatusInterval`, as whether it
      is still running, and the tracker's four steps. */
  class TrackingPage {
    var polling: bool
    var tracker: seq<StepState>

    predicate Valid()
      reads this
    {
      |tracker| == |Steps|
    }

    /** `initOrderConfirmation`: polling starts when the URL carries an order id.
        The script draws no step before the first load; the all-grey tracker
        stands for the page markup's initial look. */
    constructor (orderId: Field)
      ensures polling == Truthy(orderId)
      ensures tracker == [Upcoming, Upcoming, Upcoming, Upcoming]
      ensures Valid()
    {
      polling := Truthy(orderId);
      tracker := [Upcoming, Upcoming, Upcoming, Upcoming];
    }

    /** `updateOrderStatusVisuals`: redraws each step in turn. */
    method UpdateOrderStatusVisuals(currentStatus: string)
      requires Valid()
      modifies this`tracker
      ensures tracker == TrackerStates(currentStatus)
      ensures Valid()
    {
      var current := StepIndex(currentStatus);
      for i := 0 to |Steps|
        invariant |tracker| == |Steps|
        invariant forall j :: 0 <= j < i ==> tracker[j] == StateOf(j, current)
      {
        tracker := tracker[i := StateOf(i, current)];
      }
    }

    /** `displayOrderDetails`: draws the tracker for the status, `Confirmed`
        when there is none, and stops polling on a final status. */
    method DisplayOrderDetails(status: Field)
      requires Valid()
      modifies this
      ensures tracker == TrackerStates(OrElse(status, DefaultStatus))
      ensures polling == (old(polling) && !StopsPolling(status))
      ensures Valid()
    {
      UpdateOrderStatusVisuals(OrElse(status, DefaultStatus));
      if StopsPolling(status) {
        polling := false;
      }
    }

    /** `handleOrderLoadError`: a failed load stops polling and leaves the
        tracker as it was. */
    method LoadFailed()
      modifies this`polling
      ensures !polling
    {
      polling := false;
    }
  }
}

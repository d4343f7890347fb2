/**
 * The order page: the order it loads, what it renders, the displayed
 * total, and the local update made once a payment has gone through.
 */
module OrderDetailsPage {
  import opened Common
  import opened Entities

  const LoadFailedMessage: string := "Erreur de chargement de la commande"
  const PaidStatus: string := "Payée"
  const PendingStatusLabel: string := "En attente"

  /** The order the page starts from, and falls back to when the response has no body. */
  const EmptyOrder: Order := Order("", [], map[], "", false, "", Some(0), Some(0), None)

  /** The page's state: the order, the spinner, the load error and the payment modal. */
  datatype PageState = PageState(order: Order, loading: bool, error: Option<string>, showPaymentModal: bool)

  const InitialState: PageState := PageState(EmptyOrder, true, None, false)

  /**
   * The loading effect, with the server's answer as an input: a body
   * replaces the order, a missing body is replaced by the empty order,
   * and a failure keeps the order and records a message.
   */
  function Loaded(state: PageState, response: Outcome<Option<Order>>): (s: PageState)
    ensures !s.loading && s.showPaymentModal == state.showPaymentModal
    ensures response.Success? ==> s.error == state.error
    ensures response.Success? && response.body.Some? ==> s.order == response.body.value
    ensures response.Success? && response.body.None? ==> s.order == EmptyOrder
    ensures response.Failed? ==> s.order == state.order
    ensures response.Failed? ==> s.error.Some? && s.error.value != ""
    ensures response.Failed? && DataMessage(response.failure) != "" ==> s.error == Some(DataMessage(response.failure))
    ensures response.Failed? && DataMessage(response.failure) == "" ==> s.error == Some(LoadFailedMessage)
  {
    match response
    case Success(body) =>
      var order := if body.Some? then body.value else EmptyOrder;
      state.(order := order, loading := false)
    case Failed(f) =>
      state.(error := Some(Or(DataMessage(f), LoadFailedMessage)), loading := false)
  }

  /** `x || 0` on an optional amount. */
  function AmountOrZero(x: Option<int>): int
  {
    if x.Some? then x.value else 0
  }

  /** `calculateTotal`: the order total plus shipping, a missing amount counting as 0. */
  function DisplayTotal(order: Order): (t: int)
    ensures order.totalPrice.None? && order.shippingPrice.None? ==> t == 0
    ensures order.totalPrice.Some? && order.shippingPrice.Some? ==> t == order.totalPrice.value + order.shippingPrice.value
    ensures order.totalPrice.Some? && order.shippingPrice.None? ==> t == order.totalPrice.value
    ensures order.totalPrice.None? && order.shippingPrice.Some? ==> t == order.shippingPrice.value
  {
    AmountOrZero(order.totalPrice) + AmountOrZero(order.shippingPrice)
  }

  /** What the page renders. */
  datatype View =
    | Spinner
    | LoadError(message: string)
    | NotFound
    | Details(order: Order, statusLabel: string, paid: bool, payButton: bool, total: int)

  function Render(state: PageState): (v: View)
    ensures state.loading <==> v == Spinner
    ensures !state.loading && state.error.Some? && state.error.value != "" <==> v.LoadError?
    ensures v.LoadError? ==> v.message == state.error.value
    ensures v.NotFound? <==> !state.loading && (state.error.None? || state.error.value == "") && state.order.id == ""
    ensures v.Details? ==> state.order.id != "" && v.order == state.order
    ensures v.Details? ==> (v.payButton <==> !state.order.isPaid) && v.paid == state.order.isPaid
    ensures v.Details? ==> v.statusLabel == (if state.order.status != "" then state.order.status else PendingStatusLabel)
    ensures v.Details? ==> v.total == DisplayTotal(state.order)
  {
    if state.loading then Spinner
    else if state.error.Some? && state.error.value != "" then LoadError(state.error.value)
    else if state.order.id == "" then NotFound
    else Details(state.order, Or(state.order.status, PendingStatusLabel), state.order.isPaid,
                 !state.order.isPaid, DisplayTotal(state.order))
  }

  /**
   * `handlePaymentSuccess`: closes the modal and marks the order paid at
   * `now`; every other field of the order and of the page is kept.
   */
  function PaymentSuccess(state: PageState, now: string): (s: PageState)
    ensures !s.showPaymentModal
    ensures s.order.isPaid && s.order.status == PaidStatus && s.order.paidAt == Some(now)
    ensures s.order.id == state.order.id && s.order.orderItems == state.order.orderItems
    ensures s.order.shippingAddress == state.order.shippingAddress && s.order.paymentMethod == state.order.paymentMethod
    ensures s.order.totalPrice == state.order.totalPrice && s.order.shippingPrice == state.order.shippingPrice
    ensures s.loading == state.loading && s.error == state.error
  {
    state.(showPaymentModal := false,
           order := state.order.(isPaid := true, paidAt := Some(now), status := PaidStatus))
  }

  /** A response without a body renders the not-found view. */
  lemma EmptyResponseNotFound(state: PageState)
    requires state.error == None
    ensures Render(Loaded(state, Success(None))) == NotFound
  {
  }

  /** A failed load renders its message, whatever order was there before. */
  lemma FailedLoadShowsError(state: PageState, f: Failure)
    ensures Render(Loaded(state, Failed(f))) == LoadError(Or(DataMessage(f), LoadFailedMessage))
  {
  }

  /**
   * On an order that was shown, a payment keeps the order shown, with the
   * same total, labelled paid, and without the pay button.
   */
  lemma PaymentHidesPayButton(state: PageState, now: string)
    requires Render(state).Details?
    ensures var v := Render(PaymentSuccess(state, now));
      && v.Details? && v.paid && !v.payButton && v.statusLabel == PaidStatus
      && v.total == Render(state).total
      && v.order.id == state.order.id
  {
  }

  /** A second payment notification only moves the payment date. */
  lemma PaymentSuccessTwice(state: PageState, t1: string, t2: string)
    ensures PaymentSuccess(PaymentSuccess(state, t1), t2) == PaymentSuccess(state, t2)
  {
  }
}

/**
 * The orders slice: order creation at checkout, the user's order history
 * and a single-entry cache for the order being viewed. Each operation runs
 * pending, then fulfilled or rejected; creation also keeps a `success`
 * flag that the checkout page watches.
 */
module OrdersSlice {
  import opened Common
  import opened Entities

  const EmptyOrderMessage: string := "Aucun article dans la commande"
  const CreateFailedMessage: string := "Erreur lors de la création de la commande"
  const FetchOrdersFailedMessage: string := "Erreur lors de la récupération des commandes"
  const FetchOrderFailedMessage: string := "Erreur lors de la récupération de la commande"

  /** `orderData && orderData.orderItems && orderData.orderItems.length !== 0` */
  predicate HasOrderItems(data: Option<OrderData>)
  {
    data.Some? && data.value.orderItems.Some? && |data.value.orderItems.value| > 0
  }

  /** `error.response?.status` */
  function ResponseStatus(f: Failure): Option<int>
  {
    if f.ServerError? then Some(f.status) else None
  }

  /**
   * The message a failed creation reports: the body's `message`, else its
   * `error`, else the request error's own message, else the default.
   */
  function CreateFailureMessage(f: Failure): (m: string)
    ensures m != ""
    ensures DataMessage(f) != "" ==> m == DataMessage(f)
    ensures DataMessage(f) == "" && DataError(f) != "" ==> m == DataError(f)
    ensures DataMessage(f) == "" && DataError(f) == "" && f.message != "" ==> m == f.message
    ensures m == CreateFailedMessage <== DataMessage(f) == "" && DataError(f) == "" && f.message == ""
  {
    Or(DataMessage(f), Or(DataError(f), Or(f.message, CreateFailedMessage)))
  }

  /**
   * `createOrder(orderData)`: an order without lines is rejected before
   * any request; otherwise the order is posted and the server's order is
   * the result, or the failure is reported as `{message, status, details}`.
   */
  function CreateOrder(data: Option<OrderData>, response: Outcome<Order>): (s: Settled<Order>)
    ensures s.requested <==> HasOrderItems(data)
    ensures !HasOrderItems(data) ==> s.result == Err(Detailed(EmptyOrderMessage, None, None))
    ensures s.requested && response.Success? ==> s.result == Ok(response.body)
    ensures s.requested && response.Failed? ==>
      var f := response.failure;
      s.result == Err(Detailed(CreateFailureMessage(f), ResponseStatus(f), ResponseData(f)))
  {
    if !HasOrderItems(data) then Settled(Err(Detailed(EmptyOrderMessage, None, None)), false)
    else match response
      case Success(order) => Settled(Ok(order), true)
      case Failed(f) => Settled(Err(Detailed(CreateFailureMessage(f), ResponseStatus(f), ResponseData(f))), true)
  }

  /** The string the two fetch operations reject with: the body's `message`, else the default. */
  function FetchFailureMessage(f: Failure, default: string): (m: string)
    requires default != ""
    ensures m != ""
    ensures DataMessage(f) != "" ==> m == DataMessage(f)
    ensures DataMessage(f) == "" ==> m == default
  {
    Or(DataMessage(f), default)
  }

  /** `fetchUserOrders()` */
  function FetchUserOrders(response: Outcome<seq<Order>>): (r: Result<seq<Order>, ErrorPayload>)
    ensures r.Ok? <==> response.Success?
    ensures r.Ok? ==> r.value == response.body
    ensures r.Err? ==> r.error == Text(FetchFailureMessage(response.failure, FetchOrdersFailedMessage))
  {
    match response
    case Success(list) => Ok(list)
    case Failed(f) => Err(Text(FetchFailureMessage(f, FetchOrdersFailedMessage)))
  }

  /** `fetchOrderById(id)` */
  function FetchOrderById(response: Outcome<Order>): (r: Result<Order, ErrorPayload>)
    ensures r.Ok? <==> response.Success?
    ensures r.Ok? ==> r.value == response.body
    ensures r.Err? ==> r.error == Text(FetchFailureMessage(response.failure, FetchOrderFailedMessage))
  {
    match response
    case Success(order) => Ok(order)
    case Failed(f) => Err(Text(FetchFailureMessage(f, FetchOrderFailedMessage)))
  }

  /** Without order lines, the outcome of creation does not depend on the network at all. */
  lemma EmptyOrderIgnoresNetwork(data: Option<OrderData>, r1: Outcome<Order>, r2: Outcome<Order>)
    requires !HasOrderItems(data)
    ensures CreateOrder(data, r1) == CreateOrder(data, r2)
    ensures !CreateOrder(data, r1).requested
  {
  }

  class OrdersState {
    var orders: seq<Order>
    var currentOrder: Option<Order>
    var loading: bool
    var error: Option<ErrorPayload>
    var success: bool

    constructor ()
      ensures orders == [] && currentOrder == None && !loading && error == None && !success
    {
      orders := [];
      currentOrder := None;
      loading := false;
      error := None;
      success := false;
    }

    /** `clearOrderError`: only `error` changes. */
    method ClearOrderError()
      modifies this
      ensures error == None
      ensures orders == old(orders) && currentOrder == old(currentOrder)
      ensures loading == old(loading) && success == old(success)
    {
      error := None;
    }

    /** `clearOrderSuccess`: only `success` changes. */
    method ClearOrderSuccess()
      modifies this
      ensures !success
      ensures orders == old(orders) && currentOrder == old(currentOrder)
      ensures loading == old(loading) && error == old(error)
    {
      success := false;
    }

    /** `createOrder.pending` */
    method CreatePending()
      modifies this
      ensures loading && error == None && !success
      ensures orders == old(orders) && currentOrder == old(currentOrder)
    {
      loading := true;
      error := None;
      success := false;
    }

    /** `createOrder.fulfilled`: the new order becomes the current one; the history is untouched. */
    method CreateFulfilled(order: Order)
      modifies this
      ensures !loading && currentOrder == Some(order) && success
      ensures orders == old(orders) && error == old(error)
    {
      loading := false;
      currentOrder := Some(order);
      success := true;
    }

    /** `createOrder.rejected` */
    method CreateRejected(payload: ErrorPayload)
      modifies this
      ensures !loading && error == Some(payload) && !success
      ensures orders == old(orders) && currentOrder == old(currentOrder)
    {
      loading := false;
      error := Some(payload);
      success := false;
    }

    /** The `pending` case of `fetchUserOrders` and of `fetchOrderById`. */
    method FetchPending()
      modifies this
      ensures loading && error == None
      ensures orders == old(orders) && currentOrder == old(currentOrder) && success == old(success)
    {
      loading := true;
      error := None;
    }

    /** `fetchUserOrders.fulfilled`: replaces the history only. */
    method FetchUserOrdersFulfilled(list: seq<Order>)
      modifies this
      ensures !loading && orders == list
      ensures currentOrder == old(currentOrder) && error == old(error) && success == old(success)
    {
      loading := false;
      orders := list;
    }

    /** `fetchOrderById.fulfilled`: replaces the current order only. */
    method FetchOrderByIdFulfilled(order: Order)
      modifies this
      ensures !loading && currentOrder == Some(order)
      ensures orders == old(orders) && error == old(error) && success == old(success)
    {
      loading := false;
      currentOrder := Some(order);
    }

    /** The `rejected` case of `fetchUserOrders` and of `fetchOrderById`. */
    method FetchRejected(payload: ErrorPayload)
      modifies this
      ensures !loading && error == Some(payload)
      ensures orders == old(orders) && currentOrder == old(currentOrder) && success == old(success)
    {
      loading := false;
      error := Some(payload);
    }

    /** Dispatching `createOrder(data)` when the server would answer `response`. */
    method DispatchCreateOrder(data: Option<OrderData>, response: Outcome<Order>)
      modifies this
      ensures success <==> HasOrderItems(data) && response.Success?
      ensures success ==> currentOrder == Some(response.body) && error == None
      ensures !success ==> currentOrder == old(currentOrder) && error == Some(CreateOrder(data, response).result.error)
      ensures orders == old(orders) && !loading
    {
      CreatePending();
      match CreateOrder(data, response).result
      case Ok(order) => CreateFulfilled(order);
      case Err(e) => CreateRejected(e);
    }

    /** Dispatching `fetchUserOrders()` when the server answers `response`. */
    method DispatchFetchUserOrders(response: Outcome<seq<Order>>)
      modifies this
      ensures response.Success? ==> orders == response.body && error == None
      ensures response.Failed? ==> orders == old(orders) && error == Some(FetchUserOrders(response).error)
      ensures currentOrder == old(currentOrder) && success == old(success) && !loading
    {
      FetchPending();
      match FetchUserOrders(response)
      case Ok(list) => FetchUserOrdersFulfilled(list);
      case Err(e) => FetchRejected(e);
    }

    /** Dispatching `fetchOrderById(id)` when the server answers `response`. */
    method DispatchFetchOrderById(response: Outcome<Order>)
      modifies this
      ensures response.Success? ==> currentOrder == Some(response.body) && error == None
      ensures response.Failed? ==> currentOrder == old(currentOrder) && error == Some(FetchOrderById(response).error)
      ensures orders == old(orders) && success == old(success) && !loading
    {
      FetchPending();
      match FetchOrderById(response)
      case Ok(order) => FetchOrderByIdFulfilled(order);
      case Err(e) => FetchRejected(e);
    }
  }
}

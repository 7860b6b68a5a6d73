/**
 * The order store: the orders list, the order just placed, and the progress of the three
 * order requests (fetch, create, delete). Only the transitions on a request's outcome are
 * modelled; the requests themselves are not.
 */
module OrderSlice {
  import opened Wrappers
  import Lists

  /** An order as the API returns it; `order_id` is the only field the store reads. */
  datatype Order = Order(orderId: Option<string>, body: string)

  /** `orders.filter(order => order.order_id !== orderId)`. */
  function RemoveOrder(orders: seq<Order>, orderId: Option<string>): (r: seq<Order>)
    ensures |r| <= |orders|
    ensures forall o :: o in r ==> o in orders && o.orderId != orderId
  {
    Lists.Filter(orders, (o: Order) => o.orderId != orderId)
  }

  /** Deleting removes every order with the id and keeps the others in their order. */
  lemma RemoveOrderEffect(orders: seq<Order>, orderId: Option<string>)
    ensures forall o :: o in RemoveOrder(orders, orderId) <==> o in orders && o.orderId != orderId
    ensures Lists.IsSubsequence(RemoveOrder(orders, orderId), orders)
    ensures (forall k :: 0 <= k < |orders| ==> orders[k].orderId != orderId) ==>
              RemoveOrder(orders, orderId) == orders
  {
    Lists.FilterIsSubsequence(orders, (o: Order) => o.orderId != orderId);
    if forall k :: 0 <= k < |orders| ==> orders[k].orderId != orderId {
      Lists.FilterKeepingAll(orders, (o: Order) => o.orderId != orderId);
    }
  }

  class OrderStore {
    var orders: seq<Order>
    var currentOrder: Option<Order>
    var loading: bool
    var error: Option<string>

    constructor ()
      ensures orders == [] && currentOrder == None && !loading && error == None
    {
      orders, currentOrder, loading, error := [], None, false, None;
    }

    method ClearCurrentOrder()
      modifies this`currentOrder
      ensures currentOrder == None
    {
      currentOrder := None;
    }

    /** The pending case of each of the three requests. */
    method Pending()
      modifies this`loading, this`error
      ensures loading && error == None
    {
      loading, error := true, None;
    }

    /** The rejected case of each of the three requests: `orders` and `currentOrder` stay. */
    method Rejected(message: Option<string>)
      modifies this`loading, this`error
      ensures !loading && error == message
    {
      loading, error := false, message;
    }

    /** `fetchOrders.fulfilled`: the list becomes the payload; `error` is not cleared. */
    method FetchFulfilled(list: seq<Order>)
      modifies this`loading, this`orders
      ensures !loading && orders == list
    {
      loading, orders := false, list;
    }

    /** `createOrder.fulfilled`: the new order goes at the end and becomes the current order. */
    method CreateFulfilled(order: Order)
      modifies this`loading, this`orders, this`currentOrder
      ensures !loading && orders == old(orders) + [order] && currentOrder == Some(order)
    {
      loading := false;
      orders := orders + [order];
      currentOrder := Some(order);
    }

    /** `deleteOrder.fulfilled`: every order with the response's `order_id` goes. */
    method DeleteFulfilled(response: Order)
      modifies this`loading, this`orders
      ensures !loading && orders == RemoveOrder(old(orders), response.orderId)
    {
      loading := false;
      orders := RemoveOrder(orders, response.orderId);
    }
  }
}

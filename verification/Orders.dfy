/** The provider's sell orders and the calls that move them: apps/providerd/src/main.rs and market_support.rs. */
module Orders {
  import opened Wrappers

  datatype OrderStatus = Open | Locked | Settling | Settled | Cancelled | Expired

  datatype SellOrder = SellOrder(orderId: string, status: OrderStatus)

  datatype Answer = NotFound | InvalidTransition | Done

  /** The requests the agent sends, and those the provider's operator makes. */
  datatype Action = Lock | MarkSettling | MarkSettled | Release | Cancel | Expire | Retry

  predicate ByOperator(action: Action) {
    action.Cancel? || action.Expire? || action.Retry?
  }

  predicate CanTransition(current: OrderStatus, next: OrderStatus) {
    || (current == Open && next == Locked)
    || (current == Locked && next == Settling)
    || (current == Settling && next == Settled)
  }

  // ---- One order ----

  /** Where an action takes an order, if it is allowed. */
  function Moved(status: OrderStatus, action: Action): Option<OrderStatus> {
    match action
    case Lock => if status == Locked || CanTransition(status, Locked) then Some(Locked) else None
    case MarkSettling => if status == Settling || CanTransition(status, Settling) then Some(Settling) else None
    case MarkSettled => if status == Settled || CanTransition(status, Settled) then Some(Settled) else None
    case Release => Some(if status == Settled then Settled else Open)
    case Cancel => Some(Cancelled)
    case Expire => Some(Expired)
    case Retry => Some(if status == Cancelled || status == Expired then Open else status)
  }

  /** Repeating a request that took effect but whose answer was lost succeeds and changes nothing more. */
  lemma RepeatingIsHarmless(status: OrderStatus, action: Action)
    requires Moved(status, action).Some?
    ensures Moved(Moved(status, action).value, action) == Moved(status, action)
  {
  }

  /** A settled order leaves that status by the operator's cancel or expire and by nothing else. */
  lemma SettledIsFinal(action: Action)
    ensures (Moved(Settled, action).Some? && Moved(Settled, action).value != Settled) <==> action in {Cancel, Expire}
  {
  }

  /**
   * A cancelled or expired order takes no request that would lock or settle it until it is retried or released, which opens it;
   * a retry of any other order changes nothing.
   */
  lemma ClosedUntilReopened(status: OrderStatus, action: Action)
    ensures Moved(status, Cancel) == Some(Cancelled) && Moved(status, Expire) == Some(Expired)
    ensures status in {Cancelled, Expired} ==>
              && (action in {Lock, MarkSettling, MarkSettled} ==> Moved(status, action) == None)
              && (action in {Retry, Release} ==> Moved(status, action) == Some(Open))
    ensures status !in {Cancelled, Expired} ==> Moved(status, Retry) == Some(status)
  {
  }

  // ---- The order book ----

  /** The orders by identifier; a handler finds the first with a given identifier, so the first one counts. */
  function Book(orders: seq<SellOrder>): map<string, OrderStatus> {
    if orders == [] then map[]
    else
      var n := |orders| - 1;
      var earlier := Book(orders[..n]);
      if orders[n].orderId in earlier then earlier else earlier[orders[n].orderId := orders[n].status]
  }

  lemma {:induction false} NotBooked(orders: seq<SellOrder>, id: string)
    requires forall i :: 0 <= i < |orders| ==> orders[i].orderId != id
    ensures id !in Book(orders)
  {
    if orders != [] {
      NotBooked(orders[..|orders| - 1], id);
    }
  }

  function Handled(book: map<string, OrderStatus>, action: Action, id: string): (map<string, OrderStatus>, Answer) {
    if id !in book then (book, NotFound)
    else
      match Moved(book[id], action)
      case None => (book, InvalidTransition)
      case Some(status) => (book[id := status], Done)
  }

  /** The order is in one of the two statuses from which the action is allowed: the one before it, or its own. */
  predicate Accepts(status: OrderStatus, action: Action) {
    match action
    case Lock => status in {Open, Locked}
    case MarkSettling => status in {Locked, Settling}
    case MarkSettled => status in {Settling, Settled}
    case _ => true
  }

  /** A handler does not find exactly the orders not booked, and refuses exactly what their status does not accept. */
  lemma HandlerAnswers(book: map<string, OrderStatus>, action: Action, id: string)
    ensures var (after, answer) := Handled(book, action, id);
            && (answer == NotFound <==> id !in book)
            && (answer == InvalidTransition <==> id in book && !Accepts(book[id], action))
            && (answer != Done ==> after == book) && after.Keys == book.Keys
            && (forall o :: o in book && o != id ==> after[o] == book[o])
            && (answer == Done && action in {Lock, MarkSettling, MarkSettled} ==>
                  after[id] == match action case Lock => Locked case MarkSettling => Settling case _ => Settled)
  {
  }

  predicate IsFirst(orders: seq<SellOrder>, i: nat, id: string) {
    i < |orders| && orders[i].orderId == id && forall j :: 0 <= j < i ==> orders[j].orderId != id
  }

  lemma {:induction false} FirstIsBooked(orders: seq<SellOrder>, i: nat, id: string, status: OrderStatus)
    requires IsFirst(orders, i, id)
    ensures id in Book(orders) && Book(orders)[id] == orders[i].status
    ensures Book(orders)[id := orders[i].status] == Book(orders)
    ensures Book(orders[i := SellOrder(id, status)]) == Book(orders)[id := status]
  {
    var n := |orders| - 1;
    var updated := orders[i := SellOrder(id, status)];
    if i < n {
      FirstIsBooked(orders[..n], i, id, status);
      assert updated[..n] == orders[..n][i := SellOrder(id, status)];
    } else {
      assert updated[..n] == orders[..n];
      NotBooked(orders[..n], id);
    }
  }

  class SellOrders {
    var orders: seq<SellOrder>

    constructor (orders: seq<SellOrder>)
      ensures this.orders == orders
    {
      this.orders := orders;
    }

    method Find(id: string) returns (found: Option<nat>)
      ensures found.Some? ==> IsFirst(orders, found.value, id)
      ensures found.None? ==> id !in Book(orders)
    {
      for i := 0 to |orders|
        invariant forall j :: 0 <= j < i ==> orders[j].orderId != id
      {
        if orders[i].orderId == id {
          return Some(i);
        }
      }
      NotBooked(orders, id);
      return None;
    }

    method LockSellOrder(id: string) returns (answer: Answer)
      modifies this
      ensures (Book(orders), answer) == Handled(Book(old(orders)), Lock, id)
    {
      hide Book;
      var found := Find(id);
      if found.None? {
        return NotFound;
      }
      var order := orders[found.value];
      FirstIsBooked(orders, found.value, id, Locked);
      if order.status == Locked {
        return Done;
      }
      if !CanTransition(order.status, Locked) {
        return InvalidTransition;
      }
      orders := orders[found.value := order.(status := Locked)];
      answer := Done;
    }

    method MarkSellOrderSettling(id: string) returns (answer: Answer)
      modifies this
      ensures (Book(orders), answer) == Handled(Book(old(orders)), MarkSettling, id)
    {
      hide Book;
      var found := Find(id);
      if found.None? {
        return NotFound;
      }
      var order := orders[found.value];
      FirstIsBooked(orders, found.value, id, Settling);
      if order.status == Settling {
        return Done;
      }
      if !CanTransition(order.status, Settling) {
        return InvalidTransition;
      }
      orders := orders[found.value := order.(status := Settling)];
      answer := Done;
    }

    method MarkSellOrderSettled(id: string) returns (answer: Answer)
      modifies this
      ensures (Book(orders), answer) == Handled(Book(old(orders)), MarkSettled, id)
    {
      hide Book;
      var found := Find(id);
      if found.None? {
        return NotFound;
      }
      var order := orders[found.value];
      FirstIsBooked(orders, found.value, id, Settled);
      if order.status == Settled {
        return Done;
      }
      if !CanTransition(order.status, Settled) {
        return InvalidTransition;
      }
      orders := orders[found.value := order.(status := Settled)];
      answer := Done;
    }

    method ReleaseSellOrder(id: string) returns (answer: Answer)
      modifies this
      ensures (Book(orders), answer) == Handled(Book(old(orders)), Release, id)
    {
      hide Book;
      var found := Find(id);
      if found.None? {
        return NotFound;
      }
      var order := orders[found.value];
      FirstIsBooked(orders, found.value, id, if order.status == Settled then Settled else Open);
      if order.status != Settled {
        orders := orders[found.value := order.(status := Open)];
      }
      answer := Done;
    }

    method CancelSellOrder(id: string) returns (answer: Answer)
      modifies this
      ensures (Book(orders), answer) == Handled(Book(old(orders)), Cancel, id)
    {
      hide Book;
      var found := Find(id);
      if found.None? {
        return NotFound;
      }
      FirstIsBooked(orders, found.value, id, Cancelled);
      orders := orders[found.value := orders[found.value].(status := Cancelled)];
      answer := Done;
    }

    method ExpireSellOrder(id: string) returns (answer: Answer)
      modifies this
      ensures (Book(orders), answer) == Handled(Book(old(orders)), Expire, id)
    {
      hide Book;
      var found := Find(id);
      if found.None? {
        return NotFound;
      }
      FirstIsBooked(orders, found.value, id, Expired);
      orders := orders[found.value := orders[found.value].(status := Expired)];
      answer := Done;
    }

    method RetrySellOrder(id: string) returns (answer: Answer)
      modifies this
      ensures (Book(orders), answer) == Handled(Book(old(orders)), Retry, id)
    {
      hide Book;
      var found := Find(id);
      if found.None? {
        return NotFound;
      }
      var order := orders[found.value];
      if order.status == Cancelled || order.status == Expired {
        FirstIsBooked(orders, found.value, id, Open);
        orders := orders[found.value := order.(status := Open)];
      } else {
        FirstIsBooked(orders, found.value, id, order.status);
      }
      answer := Done;
    }

    /** Confirming a suggestion adds an order behind the others; one with a known identifier stays unreachable. */
    method AddOrder(order: SellOrder)
      modifies this
      ensures Book(orders) ==
                if order.orderId in Book(old(orders)) then Book(old(orders))
                else Book(old(orders))[order.orderId := order.status]
    {
      orders := orders + [order];
      assert orders[..|orders| - 1] == old(orders);
    }
  }

  // ---- A call over the network ----

  /** What becomes of a request: answered, carried out with the answer lost, or never arrived. */
  datatype Delivery = Answered | AnswerLost | NotReached

  /** The new book, and whether the caller saw success. */
  function Call(book: map<string, OrderStatus>, action: Action, id: string, delivery: Delivery)
    : (r: (map<string, OrderStatus>, bool))
    ensures r.0.Keys == book.Keys
  {
    match delivery
    case Answered => var (after, answer) := Handled(book, action, id); (after, answer.Done?)
    case AnswerLost => (Handled(book, action, id).0, false)
    case NotReached => (book, false)
  }

  /** No settled order leaves that status. */
  predicate KeepsSettled(before: map<string, OrderStatus>, after: map<string, OrderStatus>) {
    forall id :: id in before && before[id] == Settled ==> id in after && after[id] == Settled
  }

  predicate IsSettled(book: map<string, OrderStatus>, id: string) {
    id in book && book[id] == Settled
  }

  /** Whatever happens to a call of the agent, settled orders stay settled; a mark seen to succeed has settled its order. */
  lemma CallKeepsSettled(book: map<string, OrderStatus>, action: Action, id: string, delivery: Delivery)
    requires !ByOperator(action)
    ensures var (after, ok) := Call(book, action, id, delivery);
            && KeepsSettled(book, after)
            && (ok && action == MarkSettled ==> IsSettled(after, id))
  {
  }
}

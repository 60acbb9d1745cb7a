/** The cart state machine: the in-memory catalog, the two storage slots it
    writes, and the handlers for add, remove, empty and payment confirmation.
    Each handler returns the next state and the outcome it reports. */
module Cart {
  import opened Catalog

  datatype Option<T> = None | Some(value: T)

  /** The record saved to the "customerData" slot at checkout. */
  datatype Customer = Customer(name: string, email: string)

  /** The catalog in memory, the "cart" slot and the "customerData" slot.
      A slot holds an exact copy of the value last written to it. */
  datatype State = State(products: seq<Product>, cartSlot: Option<seq<Product>>, customerSlot: Option<Customer>)

  /** Which handler's error alert was shown. */
  datatype Failure = AddFailed | RemoveFailed | PaymentFailed

  /** What a handler reports: success, the "sin stock" alert, silence after
      doing nothing, or an error alert from its catch block. */
  datatype Outcome = Ok | OutOfStock | NoOp | Error(failure: Failure)

  /** The cart slot holds the catalog currently in memory. */
  predicate Synced(s: State) {
    s.cartSlot == Some(s.products)
  }

  /** d is c with the stock at position i moved by delta and nothing else changed. */
  predicate StockMoved(c: seq<Product>, d: seq<Product>, i: int, delta: int) {
    && |d| == |c|
    && 0 <= i < |c|
    && d[i] == c[i].(stock := c[i].stock + delta)
    && forall j :: 0 <= j < |c| && j != i ==> d[j] == c[j]
  }

  /** Writes the whole catalog to the cart slot. */
  function Persist(s: State): (r: State)
    ensures Synced(r) && r.products == s.products && r.customerSlot == s.customerSlot
  {
    s.(cartSlot := Some(s.products))
  }

  /** Replaces the catalog by the saved one when the cart slot is present. */
  function Restore(s: State): (r: State)
    ensures r.cartSlot == s.cartSlot && r.customerSlot == s.customerSlot
    ensures Synced(r) <==> s.cartSlot.Some?
    ensures s.cartSlot.None? ==> r == s
  {
    match s.cartSlot
    case Some(saved) => s.(products := saved)
    case None => s
  }

  function AddTo(s: State, i: int): (r: (State, Outcome))
    ensures r.1 == Ok <==> 0 <= i < |s.products| && s.products[i].stock > 0
    ensures r.1 == OutOfStock <==> 0 <= i < |s.products| && s.products[i].stock <= 0
    ensures r.1 == Error(AddFailed) <==> !(0 <= i < |s.products|)
    ensures r.1 != Ok ==> r.0 == s
    ensures r.1 == Ok ==>
              && StockMoved(s.products, r.0.products, i, -1)
              && Synced(r.0)
              && r.0.customerSlot == s.customerSlot
  {
    if !(0 <= i < |s.products|) then (s, Error(AddFailed))
    else if s.products[i].stock > 0 then
      var p := s.products[i];
      (Persist(s.(products := s.products[i := p.(stock := p.stock - 1)])), Ok)
    else (s, OutOfStock)
  }

  function RemoveFrom(s: State, i: int): (r: (State, Outcome))
    ensures r.1 == Ok <==> 0 <= i < |s.products| && s.products[i].stock < MaxStock
    ensures r.1 == NoOp <==> 0 <= i < |s.products| && s.products[i].stock >= MaxStock
    ensures r.1 == Error(RemoveFailed) <==> !(0 <= i < |s.products|)
    ensures r.1 != Ok ==> r.0 == s
    ensures r.1 == Ok ==>
              && StockMoved(s.products, r.0.products, i, 1)
              && Synced(r.0)
              && r.0.customerSlot == s.customerSlot
  {
    if !(0 <= i < |s.products|) then (s, Error(RemoveFailed))
    else if s.products[i].stock < MaxStock then
      var p := s.products[i];
      (Persist(s.(products := s.products[i := p.(stock := p.stock + 1)])), Ok)
    else (s, NoOp)
  }

  function EmptyCart(s: State): (r: (State, Outcome))
    ensures r.1 == Ok
    ensures SameShelf(s.products, r.0.products)
    ensures forall j :: 0 <= j < |r.0.products| ==> r.0.products[j].stock == MaxStock
    ensures Synced(r.0) && r.0.customerSlot == s.customerSlot
  {
    (Persist(s.(products := Reset(s.products))), Ok)
  }

  /** The confirm-payment handler: both fields must be non-empty; then the
      customer record is saved, the cart slot removed, and the cart emptied,
      which saves the reset catalog to the cart slot again. */
  function ConfirmPayment(s: State, name: string, email: string): (r: (State, Outcome))
    ensures r.1 == Ok <==> name != [] && email != []
    ensures r.1 != Ok ==> r.0 == s && r.1 == Error(PaymentFailed)
    ensures r.1 == Ok ==>
              && r.0.customerSlot == Some(Customer(name, email))
              && SameShelf(s.products, r.0.products)
              && (forall j :: 0 <= j < |r.0.products| ==> r.0.products[j].stock == MaxStock)
              && r.0.cartSlot == Some(r.0.products)
  {
    if name == [] || email == [] then (s, Error(PaymentFailed))
    else
      var saved := s.(customerSlot := Some(Customer(name, email)));
      var cleared := saved.(cartSlot := None);
      (EmptyCart(cleared).0, Ok)
  }

  /** A user action, as delivered to its event handler. */
  datatype Event =
    | AddClicked(index: int)
    | RemoveClicked(index: int)
    | EmptyClicked
    | PayConfirmed(name: string, email: string)

  function Step(s: State, e: Event): (r: (State, Outcome)) {
    match e
    case AddClicked(i) => AddTo(s, i)
    case RemoveClicked(i) => RemoveFrom(s, i)
    case EmptyClicked => EmptyCart(s)
    case PayConfirmed(name, email) => ConfirmPayment(s, name, email)
  }

  /** The state after handling a sequence of actions in order. */
  function Run(s: State, es: seq<Event>): (r: State)
    decreases |es|
  {
    if |es| == 0 then s else Run(Step(s, es[0]).0, es[1..])
  }
}

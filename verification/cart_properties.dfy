/** Properties that relate several handler calls, or a handler to the cart
    summary it leaves behind. */
module CartProperties {
  import opened Catalog
  import opened Cart

  /** A handler writes the cart slot exactly when it succeeds; a failed or
      silent handler changes nothing at all. */
  lemma StepSavesOnlyOnSuccess(s: State, e: Event)
    ensures Step(s, e).1 == Ok ==> Synced(Step(s, e).0)
    ensures Step(s, e).1 != Ok ==> Step(s, e).0 == s
  {
  }

  /** Saving and restoring round-trips: after any successful handler,
      loading the cart slot gives back the catalog in memory. */
  lemma RestoreAfterSuccess(s: State, e: Event)
    requires Step(s, e).1 == Ok
    ensures Restore(Step(s, e).0) == Step(s, e).0
  {
  }

  /** Stock stays within [0, MaxStock] across every handler. */
  lemma StepPreservesBounds(s: State, e: Event)
    requires Bounded(s.products)
    ensures Bounded(Step(s, e).0.products)
  {
  }

  /** Stock stays within [0, MaxStock] across any sequence of actions. */
  lemma {:induction false} RunPreservesBounds(s: State, es: seq<Event>)
    requires Bounded(s.products)
    ensures Bounded(Run(s, es).products)
    decreases |es|
  {
    if |es| > 0 {
      StepPreservesBounds(s, es[0]);
      RunPreservesBounds(Step(s, es[0]).0, es[1..]);
    }
  }

  /** No sequence of actions changes the length, order, names, prices or
      images of the catalog: only stock counters move. */
  lemma {:induction false} RunKeepsShelf(s: State, es: seq<Event>)
    ensures SameShelf(s.products, Run(s, es).products)
    decreases |es|
  {
    if |es| > 0 {
      var t := Step(s, es[0]).0;
      assert SameShelf(s.products, t.products);
      RunKeepsShelf(t, es[1..]);
    }
  }

  /** Once the cart slot mirrors the catalog, it keeps mirroring it after
      any sequence of actions. */
  lemma {:induction false} RunKeepsSync(s: State, es: seq<Event>)
    requires Synced(s)
    ensures Synced(Run(s, es))
    decreases |es|
  {
    if |es| > 0 {
      RunKeepsSync(Step(s, es[0]).0, es[1..]);
    }
  }

  /** Emptying twice gives the same state as emptying once. */
  lemma EmptyIdempotent(s: State)
    ensures EmptyCart(EmptyCart(s).0) == EmptyCart(s)
  {
    ResetIdempotent(s.products);
  }

  /** After emptying, the cart list is empty and the total is 0. */
  lemma EmptyClearsCart(s: State)
    ensures Lines(EmptyCart(s).0.products) == []
    ensures Total(EmptyCart(s).0.products) == 0
  {
    NothingInCart(EmptyCart(s).0.products);
  }

  /** After a successful checkout, the cart list is empty, the total is 0,
      and the cart slot is present and holds the reset catalog. */
  lemma CheckoutClearsCart(s: State, name: string, email: string)
    requires name != [] && email != []
    ensures Lines(ConfirmPayment(s, name, email).0.products) == []
    ensures Total(ConfirmPayment(s, name, email).0.products) == 0
    ensures Restore(ConfirmPayment(s, name, email).0) == ConfirmPayment(s, name, email).0
  {
    NothingInCart(ConfirmPayment(s, name, email).0.products);
  }

  /** Adding and then removing the same product restores the catalog. */
  lemma AddThenRemove(s: State, i: int)
    requires 0 <= i < |s.products| && 0 < s.products[i].stock <= MaxStock
    ensures AddTo(s, i).1 == Ok
    ensures RemoveFrom(AddTo(s, i).0, i).1 == Ok
    ensures RemoveFrom(AddTo(s, i).0, i).0 == Persist(s)
  {
  }

  /** Removing and then adding the same product restores the catalog. */
  lemma RemoveThenAdd(s: State, i: int)
    requires 0 <= i < |s.products| && 0 <= s.products[i].stock < MaxStock
    ensures RemoveFrom(s, i).1 == Ok
    ensures AddTo(RemoveFrom(s, i).0, i).1 == Ok
    ensures AddTo(RemoveFrom(s, i).0, i).0 == Persist(s)
  {
    var c := s.products;
    var d := AddTo(RemoveFrom(s, i).0, i).0.products;
    assert d[i] == c[i];
    assert forall j :: 0 <= j < |c| ==> d[j] == c[j];
    assert d == c;
  }

  /** A successful add raises the total by the product's price exactly when
      the product was not yet in the cart, and leaves it alone otherwise. */
  lemma AddTotal(s: State, i: int)
    requires AddTo(s, i).1 == Ok
    ensures Total(AddTo(s, i).0.products)
            == Total(s.products) + (if s.products[i].stock == MaxStock then s.products[i].precio else 0)
  {
    var p := s.products[i];
    TotalUpdate(s.products, i, p.(stock := p.stock - 1));
  }

  /** A successful remove lowers the total by the product's price exactly
      when that remove takes the product out of the cart. */
  lemma RemoveTotal(s: State, i: int)
    requires RemoveFrom(s, i).1 == Ok
    ensures Total(RemoveFrom(s, i).0.products)
            == Total(s.products) - (if s.products[i].stock == MaxStock - 1 then s.products[i].precio else 0)
  {
    var p := s.products[i];
    TotalUpdate(s.products, i, p.(stock := p.stock + 1));
  }

  /** One product at 9.99: four adds bring its stock to 1 and the cart shows
      one line for 9.99; emptying brings the stock back to 5 and the total to 0. */
  lemma SingleProductScenario()
    ensures var s0 := State([Product("Taza", 999, "img/taza.png", 5)], None, None);
            var s4 := Run(s0, [AddClicked(0), AddClicked(0), AddClicked(0), AddClicked(0)]);
            && s4.products[0].stock == 1
            && Lines(s4.products) == [Line(0, "Taza", 999)]
            && Total(s4.products) == 999
            && Run(s4, [EmptyClicked]).products[0].stock == 5
            && Total(Run(s4, [EmptyClicked]).products) == 0
  {
  }

  /** Prices 10.00 at full stock and 20.00 at stock 4: only the second is in
      the cart, so the cart shows one line and the total is 20.00. */
  lemma TwoProductTotal()
    ensures var c := [Product("A", 1000, "a.png", 5), Product("B", 2000, "b.png", 4)];
            Lines(c) == [Line(1, "B", 2000)] && Total(c) == 2000
  {
  }
}

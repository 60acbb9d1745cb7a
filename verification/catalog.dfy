/** The product catalog: the records the shop shows, the stock counter that
    doubles as cart membership, and the cart contents and total derived from it. */
module Catalog {

  /** The stock level that means "not in the cart"; every reset returns to it. */
  const MaxStock: int := 5

  /** One catalog entry. Prices are whole cents; the stock counter is whatever
      the catalog document holds, since nothing validates it on load. */
  datatype Product = Product(nombre: string, precio: int, imagen: string, stock: int)

  /** A product is in the cart exactly when its stock is below the maximum. */
  predicate InCart(p: Product) {
    p.stock < MaxStock
  }

  /** Every stock counter lies in [0, MaxStock]. */
  predicate Bounded(c: seq<Product>) {
    forall j :: 0 <= j < |c| ==> 0 <= c[j].stock <= MaxStock
  }

  /** Same length, and the same name, price and image at every position:
      only stock counters may differ. */
  predicate SameShelf(c: seq<Product>, d: seq<Product>) {
    && |c| == |d|
    && forall j :: 0 <= j < |c| ==>
         c[j].nombre == d[j].nombre && c[j].precio == d[j].precio && c[j].imagen == d[j].imagen
  }

  /** What one product adds to the total: its price once if it is in the
      cart, however far its stock is below the maximum. */
  function Charge(p: Product): (r: int) {
    if InCart(p) then p.precio else 0
  }

  /** The cart total: the sum of Charge over the catalog, in catalog order. */
  function Total(c: seq<Product>): (r: int) {
    if |c| == 0 then 0 else Total(c[..|c| - 1]) + Charge(c[|c| - 1])
  }

  /** One entry of the cart list: the catalog position its remove button is
      bound to, and the name and price it shows. */
  datatype Line = Line(index: nat, nombre: string, precio: int)

  function LineOf(c: seq<Product>, i: nat): (r: Line)
    requires i < |c|
  {
    Line(i, c[i].nombre, c[i].precio)
  }

  /** The cart list: one line per product in the cart, in catalog order. */
  function Lines(c: seq<Product>): (r: seq<Line>) {
    if |c| == 0 then []
    else Lines(c[..|c| - 1]) + (if InCart(c[|c| - 1]) then [LineOf(c, |c| - 1)] else [])
  }

  /** The sum of the prices the cart list shows. */
  function SumPrices(ls: seq<Line>): (r: int) {
    if |ls| == 0 then 0 else SumPrices(ls[..|ls| - 1]) + ls[|ls| - 1].precio
  }

  /** Every stock forced to the maximum, everything else kept. */
  function Reset(c: seq<Product>): (r: seq<Product>)
    ensures SameShelf(c, r)
    ensures forall j :: 0 <= j < |r| ==> r[j].stock == MaxStock
  {
    seq(|c|, j requires 0 <= j < |c| => c[j].(stock := MaxStock))
  }

  /** Every line of the cart list stands for a product in the cart at the
      position it names, and shows that product's name and price. */
  lemma {:induction false} LinesAreInCart(c: seq<Product>)
    ensures forall k :: 0 <= k < |Lines(c)| ==>
              Lines(c)[k].index < |c| && InCart(c[Lines(c)[k].index])
              && Lines(c)[k] == LineOf(c, Lines(c)[k].index)
  {
    if |c| > 0 {
      var p := c[..|c| - 1];
      LinesAreInCart(p);
      forall k | 0 <= k < |Lines(p)|
        ensures Lines(p)[k].index < |c| && InCart(c[Lines(p)[k].index])
                && Lines(p)[k] == LineOf(c, Lines(p)[k].index)
      {
        assert c[Lines(p)[k].index] == p[Lines(p)[k].index];
      }
    }
  }

  /** Every product in the cart has its line in the cart list. */
  lemma {:induction false} InCartHasLine(c: seq<Product>, i: nat)
    requires i < |c| && InCart(c[i])
    ensures LineOf(c, i) in Lines(c)
  {
    var p := c[..|c| - 1];
    if i < |c| - 1 {
      InCartHasLine(p, i);
      assert LineOf(p, i) == LineOf(c, i);
    } else {
      assert Lines(c)[|Lines(c)| - 1] == LineOf(c, i);
    }
  }

  /** The cart list is in strictly increasing catalog order, so no product
      appears twice. */
  lemma {:induction false} LinesIncreasing(c: seq<Product>)
    ensures forall a, b :: 0 <= a < b < |Lines(c)| ==> Lines(c)[a].index < Lines(c)[b].index
  {
    if |c| > 0 {
      var p := c[..|c| - 1];
      LinesIncreasing(p);
      LinesAreInCart(p);
    }
  }

  /** The cart list is empty exactly when no product is in the cart. */
  lemma LinesEmptyIff(c: seq<Product>)
    ensures Lines(c) == [] <==> forall j :: 0 <= j < |c| ==> !InCart(c[j])
  {
  }

  /** The total is the sum of the prices the cart list shows. */
  lemma {:induction false} TotalIsSumOfLines(c: seq<Product>)
    ensures SumPrices(Lines(c)) == Total(c)
  {
    if |c| > 0 {
      var p := c[..|c| - 1];
      TotalIsSumOfLines(p);
      if InCart(c[|c| - 1]) {
        var ls := Lines(p) + [LineOf(c, |c| - 1)];
        assert ls[..|ls| - 1] == Lines(p);
      } else {
        assert Lines(c) == Lines(p) + [] == Lines(p);
      }
    }
  }

  /** Replacing one product changes the total by the difference of the two
      products' charges and by nothing else. */
  lemma {:induction false} TotalUpdate(c: seq<Product>, i: nat, q: Product)
    requires i < |c|
    ensures Total(c[i := q]) == Total(c) - Charge(c[i]) + Charge(q)
  {
    var d := c[i := q];
    if i < |c| - 1 {
      TotalUpdate(c[..|c| - 1], i, q);
      assert d[..|d| - 1] == c[..|c| - 1][i := q];
    } else {
      assert d[..|d| - 1] == c[..|c| - 1];
    }
  }

  /** The cart list and the total depend only on which products are in the
      cart, not on how far below the maximum their stock is. */
  lemma {:induction false} QuantityIrrelevant(c: seq<Product>, d: seq<Product>)
    requires SameShelf(c, d)
    requires forall j :: 0 <= j < |c| ==> (InCart(c[j]) <==> InCart(d[j]))
    ensures Lines(c) == Lines(d)
    ensures Total(c) == Total(d)
  {
    if |c| > 0 {
      QuantityIrrelevant(c[..|c| - 1], d[..|d| - 1]);
    }
  }

  /** With nothing in the cart, the cart list is empty and the total is 0. */
  lemma {:induction false} NothingInCart(c: seq<Product>)
    requires forall j :: 0 <= j < |c| ==> !InCart(c[j])
    ensures Lines(c) == []
    ensures Total(c) == 0
  {
    if |c| > 0 {
      NothingInCart(c[..|c| - 1]);
    }
  }

  /** Resetting twice is resetting once. */
  lemma ResetIdempotent(c: seq<Product>)
    ensures Reset(Reset(c)) == Reset(c)
  {
  }
}

/** The two views that summarise the cart: the cart summary, rebuilt after
    every change, and the payment summary, built when checkout opens. Both
    walk the catalog once and keep the products whose stock is below the
    maximum, adding each such price once to a running total. */
module Summary {
  import opened Catalog

  /** An entry of the payment summary: a name and a price, with no remove button. */
  datatype Item = Item(nombre: string, precio: int)

  /** The payment entries that correspond to cart lines, position by position. */
  function Unbound(ls: seq<Line>): (r: seq<Item>)
    ensures |r| == |ls|
    ensures forall k :: 0 <= k < |ls| ==> r[k] == Item(ls[k].nombre, ls[k].precio)
  {
    if |ls| == 0 then [] else Unbound(ls[..|ls| - 1]) + [Item(ls[|ls| - 1].nombre, ls[|ls| - 1].precio)]
  }

  /** The cart summary: the cart list with each line's remove-button index,
      and the total it displays. */
  method UpdateCartSummary(c: seq<Product>) returns (lines: seq<Line>, total: int)
    ensures lines == Lines(c)
    ensures total == Total(c)
    ensures total == SumPrices(lines)
  {
    lines := [];
    total := 0;
    var k := 0;
    while k < |c|
      invariant 0 <= k <= |c|
      invariant lines == Lines(c[..k])
      invariant total == Total(c[..k])
    {
      assert c[..k + 1][..k] == c[..k];
      if c[k].stock < MaxStock {
        lines := lines + [Line(k, c[k].nombre, c[k].precio)];
        total := total + c[k].precio;
      }
      k := k + 1;
    }
    assert c[..|c|] == c;
    TotalIsSumOfLines(c);
  }

  /** The payment summary: the same filter and the same total as the cart
      summary, computed again from the catalog. */
  method UpdatePaymentSummary(c: seq<Product>) returns (items: seq<Item>, total: int)
    ensures items == Unbound(Lines(c))
    ensures total == Total(c)
  {
    items := [];
    total := 0;
    var k := 0;
    while k < |c|
      invariant 0 <= k <= |c|
      invariant items == Unbound(Lines(c[..k]))
      invariant total == Total(c[..k])
    {
      assert c[..k + 1][..k] == c[..k];
      if c[k].stock < MaxStock {
        var ls := Lines(c[..k]) + [LineOf(c[..k + 1], k)];
        assert ls[..|ls| - 1] == Lines(c[..k]);
        items := items + [Item(c[k].nombre, c[k].precio)];
        total := total + c[k].precio;
      } else {
        assert Lines(c[..k + 1]) == Lines(c[..k]) + [] == Lines(c[..k]);
      }
      k := k + 1;
    }
    assert c[..|c|] == c;
  }
}

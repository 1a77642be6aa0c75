/** What the invoice of a shop order charges, told by the fields of the payload alone. */
module ShopLaws {
  import opened Basics
  import opened Money
  import opened ShopInvoice

  /** A quantity in thousandths: a number counts unless it is the JSON number zero; anything else is one piece. */
  function ReadQuantity(v: Raw): int
    requires WellFormed(v)
  {
    match v
    case Number(n, d, text) => if text || n != 0 then HalfEven(1000 * n, d) else 1000
    case _ => 1000
  }

  function PriceRead(it: Item): int
    requires it.Item? && WellFormed(it.unitPrice) && WellFormed(it.price)
  {
    Read(it.unitPrice, Read(it.price, 0))
  }

  lemma LineReads(it: Item)
    requires it.Item? && WellFormed(it.unitPrice) && WellFormed(it.price) && WellFormed(it.quantity)
    ensures LineOf(it) == Line(PriceRead(it), ReadQuantity(it.quantity))
  {
    OrReads(it.unitPrice, it.price);
    HalfEvenExact(1000, 1);
  }

  /** Items become lines in their order, and what is no object becomes none. */
  lemma {:induction false} ItemsInOrder(a: seq<Item>, b: seq<Item>)
    requires forall it :: it in a + b && it.Item? ==>
      WellFormed(it.unitPrice) && WellFormed(it.price) && WellFormed(it.quantity)
    ensures ItemLines(a + b) == ItemLines(a) + ItemLines(b)
    decreases |b|
  {
    if b == [] {
      assert a + b == a;
    } else {
      assert (a + b)[..|a + b| - 1] == a + b[..|b| - 1];
      assert forall it :: it in a + b[..|b| - 1] ==> it in a + b;
      ItemsInOrder(a, b[..|b| - 1]);
    }
  }

  lemma OneItem(it: Item)
    requires it.Item? ==> WellFormed(it.unitPrice) && WellFormed(it.price) && WellFormed(it.quantity)
    ensures ItemLines([it]) == if it.Item? then [Line(PriceRead(it), ReadQuantity(it.quantity))] else []
  {
    assert [it][..0] == [];
    if it.Item? { LineReads(it); }
  }

  /** What the first n items ask for, in thousandths of a fil: price by quantity. */
  function ChargeTo(o: Order, n: nat): int
    requires Valid(o) && n <= |o.items|
  {
    if n == 0 then 0
    else
      var it := o.items[n - 1];
      ChargeTo(o, n - 1) + if it.Item? then PriceRead(it) * ReadQuantity(it.quantity) else 0
  }

  /** What the order asks for: its items, or its total when it has none. */
  function Charge(o: Order): int
    requires Valid(o)
  {
    if |o.items| == 0 then 1000 * Read(o.total, 0) else ChargeTo(o, |o.items|)
  }

  lemma TotalsSnoc(ls: seq<Line>, l: Line)
    ensures Totals(ls + [l]) == Totals(ls) + l.price * l.qty
  {
    TotalsPrefix(ls, [l], |ls|);
  }

  lemma {:induction false} TotalsPrefix(a: seq<Line>, b: seq<Line>, n: nat)
    requires n <= |a|
    ensures TotalsTo(a + b, n) == TotalsTo(a, n)
  {
    if n > 0 { TotalsPrefix(a, b, n - 1); }
  }

  lemma {:induction false} ItemsCharge(o: Order, n: nat)
    requires Valid(o) && n <= |o.items|
    ensures Totals(ItemLines(o.items[..n])) == ChargeTo(o, n)
  {
    if n > 0 {
      ItemsCharge(o, n - 1);
      assert o.items[..n][..n - 1] == o.items[..n - 1];
      var it := o.items[n - 1];
      assert ItemLines(o.items[..n - 1]) + [] == ItemLines(o.items[..n - 1]);
      if it.Item? {
        LineReads(it);
        TotalsSnoc(ItemLines(o.items[..n - 1]), Line(PriceRead(it), ReadQuantity(it.quantity)));
      }
    }
  }

  /** Before the discount the lines charge exactly what the payload asks for. */
  lemma GrossCharges(o: Order)
    requires Valid(o)
    ensures Totals(GrossLines(o)) == Charge(o)
  {
    OrReads(Null, o.total);
    if o.items == [] {
      assert TotalsTo(GrossLines(o), 0) == 0;
    } else {
      ItemsCharge(o, |o.items|);
      assert o.items[..|o.items|] == o.items;
    }
  }

  /** No item asks for a negative price, and each is one piece. */
  predicate Pieces(o: Order)
    requires Valid(o)
  {
    Read(o.total, 0) >= 0 && forall i :: 0 <= i < |o.items| && o.items[i].Item? ==>
      PriceRead(o.items[i]) >= 0 && ReadQuantity(o.items[i].quantity) == 1000
  }

  lemma {:induction false} PieceLines(o: Order, n: nat)
    requires Valid(o) && Pieces(o) && n <= |o.items|
    ensures forall l :: l in ItemLines(o.items[..n]) ==> l.price >= 0 && l.qty == 1000
  {
    if n > 0 {
      PieceLines(o, n - 1);
      assert o.items[..n][..n - 1] == o.items[..n - 1];
      if o.items[n - 1].Item? { LineReads(o.items[n - 1]); }
    }
  }

  lemma GrossPieces(o: Order)
    requires Valid(o) && Pieces(o)
    ensures NonNegative(GrossLines(o)) && WholeQuantities(GrossLines(o))
    ensures forall i :: 0 <= i < |GrossLines(o)| ==> GrossLines(o)[i].qty == 1000
  {
    OrReads(Null, o.total);
    PieceLines(o, |o.items|);
    assert o.items[..|o.items|] == o.items;
    forall i | 0 <= i < |GrossLines(o)| ensures GrossLines(o)[i].price >= 0 && GrossLines(o)[i].qty == 1000 {
      if o.items != [] { assert GrossLines(o)[i] in ItemLines(o.items); }
    }
  }

  lemma MultiplesMeet(before: int, after: int, rem: int)
    requires before % 1000 == 0 && after % 1000 == 0 && rem % 1000 == 0
    requires 2 * Abs(after - Max(0, before - rem)) <= 1000
    ensures after == Max(0, before - rem)
  {
  }

  lemma WholeDiscount(ls: seq<Line>, rem: int)
    requires WholeQuantities(ls)
    ensures Totals(ls) % 1000 == 0 && Totals(Discounted(ls, rem)) % 1000 == 0
  {
    DiscountKeepsWholeQuantities(ls, rem);
    WholeTotals(ls, |ls|);
    WholeTotals(Discounted(ls, rem), |Discounted(ls, rem)|);
  }

  lemma PiecesDiscountWithin(ls: seq<Line>, rem: int)
    requires NonNegative(ls) && rem >= 0 && forall i :: 0 <= i < |ls| ==> ls[i].qty == 1000
    ensures 2 * Abs(Totals(Discounted(ls, rem)) - Max(0, Totals(ls) - rem)) <= 1000
  {
    var k := ShopDiscountBound(ls, rem);
  }

  /** Of single pieces the discount takes exactly what there is to take: no rounding is left. */
  lemma PiecesDiscountExactly(ls: seq<Line>, rem: int)
    requires NonNegative(ls) && rem >= 0 && rem % 1000 == 0 && forall i :: 0 <= i < |ls| ==> ls[i].qty == 1000
    ensures Totals(Discounted(ls, rem)) == Max(0, Totals(ls) - rem)
  {
    PiecesDiscountWithin(ls, rem);
    WholePieces(ls);
    WholeDiscount(ls, rem);
    MultiplesMeet(Totals(ls), Totals(Discounted(ls, rem)), rem);
  }

  lemma WholePieces(ls: seq<Line>)
    requires forall i :: 0 <= i < |ls| ==> ls[i].qty == 1000
    ensures WholeQuantities(ls)
  {
  }

  /**
   An order of single pieces whose amount due is what it asks for less its discount is invoiced for exactly that.
   */
  lemma ConsistentOrderIsMet(o: Order)
    requires Valid(o) && Pieces(o) && Read(o.discount, 0) >= 0
    requires 1000 * Read(o.total, 0) == Charge(o) - 1000 * Read(o.discount, 0)
    ensures Totals(InvoiceLines(o)) == 1000 * Read(o.total, 0)
  {
    OrReads(Null, o.total);
    OrReads(Null, o.discount);
    GrossCharges(o);
    GrossPieces(o);
    PiecesDiscountExactly(GrossLines(o), 1000 * Read(o.discount, 0));
  }

  /** Without a discount, of any quantities, such an order is invoiced for exactly what it asks for, line by line. */
  lemma UndiscountedOrderIsMet(o: Order)
    requires Valid(o) && Read(o.discount, 0) <= 0 && 1000 * Read(o.total, 0) == Charge(o)
    ensures InvoiceLines(o) == GrossLines(o) && Totals(InvoiceLines(o)) == 1000 * Read(o.total, 0)
  {
    OrReads(Null, o.total);
    OrReads(Null, o.discount);
    GrossCharges(o);
    var gross, rem := GrossLines(o), 1000 * Read(o.discount, 0);
    forall j | 0 <= j < |gross| ensures Discounted(gross, rem)[j] == gross[j] { NothingLeft(gross, rem, 0, j); }
    assert Discounted(gross, rem) == gross;
  }

  /** The difference goes to the first unit price that can take it, and to no other line. */
  lemma FirstTakesIt(ls: seq<Line>, due: int, k: nat)
    requires k < |ls| && Reconciled(ls, due)[k] != ls[k]
    ensures 1000 * ls[k].price + Missing(ls, due) >= 0 && Reconciled(ls, due)[k].qty == ls[k].qty
    ensures forall j :: 0 <= j < k ==> 1000 * ls[j].price + Missing(ls, due) < 0
    ensures forall j :: 0 <= j < |ls| && j != k ==> Reconciled(ls, due)[j] == ls[j]
  {
  }
}

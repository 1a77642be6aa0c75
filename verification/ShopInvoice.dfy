/** Invoice lines of a shop order: greedy discount over line totals and reconciliation on a unit price. */
module ShopInvoice {
  import opened Basics
  import opened Money

  /** An element of the order's item list; elements that are no objects are skipped. */
  datatype Item = NoObject | Item(unitPrice: Raw, price: Raw, quantity: Raw)

  datatype Order = Order(items: seq<Item>, total: Raw, discount: Raw)

  predicate Valid(o: Order)
  {
    && WellFormed(o.total) && WellFormed(o.discount)
    && forall i :: 0 <= i < |o.items| && o.items[i].Item? ==>
         WellFormed(o.items[i].unitPrice) && WellFormed(o.items[i].price) && WellFormed(o.items[i].quantity)
  }

  /** Unit price in fils, quantity in thousandths. */
  datatype Line = Line(price: int, qty: int)

  /** Line total in thousandths of a fil. */
  function Total(l: Line): int { l.price * l.qty }

  function TotalsTo(ls: seq<Line>, n: nat): int
    requires n <= |ls|
  {
    if n == 0 then 0 else TotalsTo(ls, n - 1) + Total(ls[n - 1])
  }

  function Totals(ls: seq<Line>): int { TotalsTo(ls, |ls|) }

  ghost predicate NonNegative(ls: seq<Line>)
  {
    forall i :: 0 <= i < |ls| ==> ls[i].price >= 0 && ls[i].qty >= 0
  }

  // ---- discount ----

  /** One line's share of what is left of the discount (in thousandths of a fil), rounded back to a unit price. */
  function Reduce(l: Line, rem: int): Line
  {
    if Total(l) > 0 && rem > 0 then l.(price := HalfEven(Total(l) - Min(Total(l), rem), l.qty)) else l
  }

  function LeftOver(l: Line, rem: int): int
  {
    if Total(l) > 0 && rem > 0 then rem - Min(Total(l), rem) else rem
  }

  /** What is left of the discount when the loop reaches line n. */
  function LeftAt(ls: seq<Line>, rem: int, n: nat): int
    requires n <= |ls|
  {
    if n == 0 then rem else LeftOver(ls[n - 1], LeftAt(ls, rem, n - 1))
  }

  function Discounted(ls: seq<Line>, rem: int): seq<Line>
  {
    seq(|ls|, i requires 0 <= i < |ls| => Reduce(ls[i], LeftAt(ls, rem, i)))
  }

  /** Once nothing is left, later lines lose nothing: the early exit changes nothing. */
  lemma {:induction false} NothingLeft(ls: seq<Line>, rem: int, i: nat, j: nat)
    requires i <= j <= |ls| && LeftAt(ls, rem, i) <= 0
    ensures LeftAt(ls, rem, j) == LeftAt(ls, rem, i)
  {
    if i < j { NothingLeft(ls, rem, i, j - 1); }
  }

  method ApplyDiscount(lines: seq<Line>, discount: int) returns (ls: seq<Line>)
    ensures ls == Discounted(lines, 1000 * discount)
  {
    if discount <= 0 {
      forall j | 0 <= j < |lines| ensures Discounted(lines, 1000 * discount)[j] == lines[j] {
        NothingLeft(lines, 1000 * discount, 0, j);
      }
      return lines;
    }
    ls := Distribute(lines, 1000 * discount);
    assert ls == Discounted(lines, 1000 * discount);
  }

  method Distribute(lines: seq<Line>, discount: int) returns (ls: seq<Line>)
    requires discount > 0
    ensures |ls| == |lines|
    ensures forall j {:trigger ls[j]} :: 0 <= j < |ls| ==> ls[j] == Reduce(lines[j], LeftAt(lines, discount, j))
  {
    ls := lines;
    var rem := discount;
    var i := 0;
    while i < |ls|
      invariant 0 <= i <= |ls| == |lines| && rem == LeftAt(lines, discount, i)
      invariant forall j {:trigger ls[j]} :: 0 <= j < i ==> ls[j] == Reduce(lines[j], LeftAt(lines, discount, j))
      invariant forall j {:trigger ls[j]} :: i <= j < |ls| ==> ls[j] == lines[j]
    {
      var total := Total(ls[i]);
      if total > 0 && rem > 0 {
        var deduction := Min(total, rem);
        ls := ls[i := ls[i].(price := HalfEven(total - deduction, ls[i].qty))];
        rem := rem - deduction;
        if rem <= 0 {
          forall j | i < j < |ls| ensures LeftAt(lines, discount, j) <= 0 { NothingLeft(lines, discount, i + 1, j); }
          break;
        }
      }
      i := i + 1;
    }
  }

  /** A line whose total is used up costs nothing afterwards. */
  lemma ReduceAll(l: Line, rem: int)
    requires l.qty > 0 && 0 < Total(l) <= rem
    ensures Reduce(l, rem).price == 0
  {
    HalfEvenExact(0, l.qty);
  }

  /** What rounding a partly reduced line costs: at most half a fil per unit. */
  lemma ReducePartly(l: Line, rem: int)
    requires l.price >= 0 && l.qty > 0 && 0 < rem < Total(l)
    ensures Reduce(l, rem).price >= 0 && 2 * Abs(Total(Reduce(l, rem)) - (Total(l) - rem)) <= l.qty
  {
    HalfEvenNonNegative(Total(l) - rem, l.qty);
  }

  /** Among the first n lines, where the discount runs out: earlier positive lines are zero, later ones untouched. */
  ghost predicate RunsOutAt(ls: seq<Line>, after: seq<Line>, k: nat, n: nat)
  {
    && k <= n <= |ls| == |after|
    && (forall i {:trigger after[i]} :: 0 <= i < n ==> after[i].price >= 0 && after[i].qty == ls[i].qty)
    && (forall i {:trigger after[i]} :: 0 <= i < k && Total(ls[i]) > 0 ==> after[i].price == 0)
    && (forall i {:trigger after[i]} :: k < i < n ==> after[i] == ls[i])
  }

  /** How the totals of the first n lines stand: all used up, or short by the discount up to the rounding of line k. */
  ghost predicate TotalsStand(ls: seq<Line>, after: seq<Line>, rem: int, k: nat, n: nat)
    requires k <= n <= |ls| == |after|
  {
    if k == n then TotalsTo(after, n) == 0 && LeftAt(ls, rem, n) == rem - TotalsTo(ls, n) >= 0
    else
      && LeftAt(ls, rem, n) == 0 && TotalsTo(ls, n) >= rem
      && 2 * Abs(TotalsTo(after, n) - (TotalsTo(ls, n) - rem)) <= ls[k].qty
  }

  lemma ProductNonNegative(l: Line)
    requires l.price >= 0 && l.qty >= 0
    ensures Total(l) >= 0 && (Total(l) > 0 ==> l.qty > 0) && (l.price == 0 ==> Total(l) == 0)
  {
  }

  /** The effect of the loop on one line, with what is left before it. */
  lemma ReduceCases(l: Line, rem: int)
    requires l.price >= 0 && l.qty >= 0 && rem >= 0
    ensures var r := Reduce(l, rem);
      && r.price >= 0 && r.qty == l.qty
      && (rem == 0 || Total(l) == 0 ==> r == l)
      && (0 < Total(l) <= rem ==> r.price == 0 && Total(r) == 0)
      && (0 < rem < Total(l) ==> 2 * Abs(Total(r) - (Total(l) - rem)) <= l.qty)
  {
    ProductNonNegative(l);
    if 0 < Total(l) <= rem { ReduceAll(l, rem); }
    if 0 < rem < Total(l) { ReducePartly(l, rem); }
  }

  /** One more line. */
  lemma NextLine(ls: seq<Line>, after: seq<Line>, rem: int, k: nat, n: nat) returns (k': nat)
    requires NonNegative(ls) && n < |ls| == |after|
    requires RunsOutAt(ls, after, k, n) && TotalsStand(ls, after, rem, k, n)
    requires after[n] == Reduce(ls[n], LeftAt(ls, rem, n))
    ensures RunsOutAt(ls, after, k', n + 1) && TotalsStand(ls, after, rem, k', n + 1)
  {
    var l, left := ls[n], LeftAt(ls, rem, n);
    ProductNonNegative(l);
    ReduceCases(l, left);
    k' := if k == n && Total(l) <= left then n + 1 else k;
  }

  lemma {:induction false} DiscountUpTo(ls: seq<Line>, after: seq<Line>, rem: int, n: nat) returns (k: nat)
    requires NonNegative(ls) && rem >= 0 && n <= |ls| == |after|
    requires forall i {:trigger after[i]} :: 0 <= i < |ls| ==> after[i] == Reduce(ls[i], LeftAt(ls, rem, i))
    ensures RunsOutAt(ls, after, k, n) && TotalsStand(ls, after, rem, k, n)
  {
    if n == 0 { return 0; }
    k := DiscountUpTo(ls, after, rem, n - 1);
    k := NextLine(ls, after, rem, k, n - 1);
  }

  /**
   The discount loop on non-negative lines: at most one line is partly reduced, all earlier positive ones are zero,
   none is negative, and the total misses max(0, total - discount) by at most half a fil times that line's quantity.
   */
  lemma ShopDiscountBound(ls: seq<Line>, rem: int) returns (k: nat)
    requires NonNegative(ls) && rem >= 0
    ensures RunsOutAt(ls, Discounted(ls, rem), k, |ls|)
    ensures 2 * Abs(Totals(Discounted(ls, rem)) - Max(0, Totals(ls) - rem)) <= if k < |ls| then ls[k].qty else 0
  {
    k := DiscountUpTo(ls, Discounted(ls, rem), rem, |ls|);
  }

  // ---- reconciliation ----

  /** First line from `start` on whose unit price can take the difference (in thousandths of a fil), or |ls|. */
  function AbsorbingFrom(ls: seq<Line>, diff: int, start: nat): (i: nat)
    requires start <= |ls|
    ensures start <= i <= |ls| && (i < |ls| ==> 1000 * ls[i].price + diff >= 0)
    ensures forall j :: start <= j < i ==> 1000 * ls[j].price + diff < 0
    decreases |ls| - start
  {
    if start == |ls| || 1000 * ls[start].price + diff >= 0 then start else AbsorbingFrom(ls, diff, start + 1)
  }

  function FirstAbsorbing(ls: seq<Line>, diff: int): nat { AbsorbingFrom(ls, diff, 0) }

  /** The difference to the target, in thousandths of a fil. */
  function Missing(ls: seq<Line>, target: int): int { 1000 * target - Totals(ls) }

  function Reconciled(ls: seq<Line>, target: int): seq<Line>
  {
    var diff := Missing(ls, target);
    var i := FirstAbsorbing(ls, diff);
    if target > 0 && Abs(diff) <= 10000 && diff != 0 && i < |ls|
    then ls[i := ls[i].(price := HalfEven(1000 * ls[i].price + diff, 1000))]
    else ls
  }

  method SumTotals(ls: seq<Line>) returns (total: int)
    ensures total == Totals(ls)
  {
    total := 0;
    var i := 0;
    while i < |ls|
      invariant 0 <= i <= |ls| && total == TotalsTo(ls, i)
    {
      total := total + Total(ls[i]);
      i := i + 1;
    }
  }

  method Reconcile(lines: seq<Line>, target: int) returns (ls: seq<Line>)
    ensures ls == Reconciled(lines, target)
  {
    ls := lines;
    if target <= 0 || lines == [] { return; }
    var current := SumTotals(lines);
    var diff := 1000 * target - current;
    if Abs(diff) <= 10000 && diff != 0 {
      var i := 0;
      while i < |ls|
        invariant 0 <= i <= |ls| && ls == lines && FirstAbsorbing(lines, diff) == AbsorbingFrom(lines, diff, i)
      {
        if 1000 * ls[i].price + diff >= 0 {
          ls := ls[i := ls[i].(price := HalfEven(1000 * ls[i].price + diff, 1000))];
          return;
        }
        i := i + 1;
      }
    }
  }

  lemma {:induction false} TotalsToUpdate(ls: seq<Line>, i: nat, l: Line, n: nat)
    requires i < |ls| && n <= |ls|
    ensures TotalsTo(ls[i := l], n) == TotalsTo(ls, n) + (if i < n then Total(l) - Total(ls[i]) else 0)
  {
    if n > 0 { TotalsToUpdate(ls, i, l, n - 1); }
  }

  lemma TotalsUpdate(ls: seq<Line>, i: nat, l: Line)
    requires i < |ls|
    ensures Totals(ls[i := l]) == Totals(ls) - Total(ls[i]) + Total(l)
  {
    TotalsToUpdate(ls, i, l, |ls|);
  }

  /** The reconciliation takes place, on line FirstAbsorbing. */
  ghost predicate Adjusts(ls: seq<Line>, target: int)
  {
    target > 0 && 0 < Abs(Missing(ls, target)) <= 10000 && FirstAbsorbing(ls, Missing(ls, target)) < |ls|
  }

  ghost predicate WholeQuantities(ls: seq<Line>)
  {
    forall i :: 0 <= i < |ls| ==> ls[i].qty % 1000 == 0
  }

  lemma {:induction false} WholeTotals(ls: seq<Line>, n: nat)
    requires WholeQuantities(ls) && n <= |ls|
    ensures TotalsTo(ls, n) % 1000 == 0
  {
    if n > 0 {
      WholeTotals(ls, n - 1);
      var l := ls[n - 1];
      assert Total(l) == 1000 * (l.price * (l.qty / 1000));
    }
  }

  /**
   For whole quantities, adjusting a line of quantity q leaves exactly (1 - q) times the difference: the invoice
   meets the target exactly when the absorbing line has quantity 1.
   */
  lemma ShopResidual(ls: seq<Line>, target: int)
    requires WholeQuantities(ls) && Adjusts(ls, target)
    ensures var diff := Missing(ls, target); var q := ls[FirstAbsorbing(ls, diff)].qty / 1000;
      && Missing(Reconciled(ls, target), target) == diff * (1 - q)
      && (Totals(Reconciled(ls, target)) == 1000 * target <==> q == 1)
  {
    var diff := Missing(ls, target);
    var i := FirstAbsorbing(ls, diff);
    var l, q := ls[i], ls[i].qty / 1000;
    WholeTotals(ls, |ls|);
    var d := diff / 1000;
    assert diff == 1000 * d;
    HalfEvenExact(l.price + d, 1000);
    var l' := l.(price := l.price + d);
    TotalsUpdate(ls, i, l');
    assert l.qty == 1000 * q;
    ResidualArithmetic(l.price, d, q);
  }

  lemma ResidualArithmetic(p: int, d: int, q: int)
    ensures (p + d) * (1000 * q) - p * (1000 * q) == 1000 * (d * q)
    ensures (1000 * d) * (1 - q) == 1000 * d - 1000 * (d * q)
    ensures d != 0 ==> (d - d * q == 0 <==> q == 1)
  {
    assert (p + d) * (1000 * q) == p * (1000 * q) + d * (1000 * q);
    NoZeroDivisors(d, q);
  }

  lemma NoZeroDivisors(d: int, q: int)
    ensures d != 0 ==> (d - d * q == 0 <==> q == 1)
  {
    assert d - d * q == d * (1 - q);
  }

  /** Whatever the other quantities, an absorbing line of quantity 1 leaves at most half a fil. */
  lemma UnitLineResidual(ls: seq<Line>, target: int)
    requires Adjusts(ls, target) && ls[FirstAbsorbing(ls, Missing(ls, target))].qty == 1000
    ensures 2 * Abs(Missing(Reconciled(ls, target), target)) <= 1000
  {
    var diff := Missing(ls, target);
    var i := FirstAbsorbing(ls, diff);
    var p := HalfEven(1000 * ls[i].price + diff, 1000);
    TotalsUpdate(ls, i, ls[i].(price := p));
  }

  /**
   An adjustment takes place exactly when the difference is small and some unit price can take it; else nothing
   changes.
   */
  lemma AdjustsExactly(ls: seq<Line>, target: int)
    ensures Adjusts(ls, target) <==> (
      && target > 0 && 0 < Abs(Missing(ls, target)) <= 10000
      && exists i :: 0 <= i < |ls| && 1000 * ls[i].price + Missing(ls, target) >= 0)
    ensures !Adjusts(ls, target) ==> Reconciled(ls, target) == ls
  {
    var k := FirstAbsorbing(ls, Missing(ls, target));
    if k < |ls| { assert 1000 * ls[k].price + Missing(ls, target) >= 0; }
  }

  lemma DiscountKeepsWholeQuantities(ls: seq<Line>, rem: int)
    requires WholeQuantities(ls)
    ensures WholeQuantities(Discounted(ls, rem))
  {
    forall i | 0 <= i < |ls| ensures Discounted(ls, rem)[i].qty == ls[i].qty { }
  }

  /**
   End to end, for whole quantities: the invoice total equals the order total exactly when the discounted lines
   already sum to it, or the difference goes to a line of quantity 1.
   */
  lemma ShopInvoiceSum(gross: seq<Line>, discount: int, target: int)
    requires WholeQuantities(gross)
    ensures var ls := Discounted(gross, 1000 * discount);
      Totals(Reconciled(ls, target)) == 1000 * target <==>
        Missing(ls, target) == 0 || (Adjusts(ls, target) && ls[FirstAbsorbing(ls, Missing(ls, target))].qty == 1000)
  {
    var ls := Discounted(gross, 1000 * discount);
    DiscountKeepsWholeQuantities(gross, 1000 * discount);
    AdjustsExactly(ls, target);
    if Adjusts(ls, target) { ShopResidual(ls, target); }
  }

  // ---- the whole invoice ----

  function LineOf(it: Item): Line
    requires it.Item? && WellFormed(it.unitPrice) && WellFormed(it.price) && WellFormed(it.quantity)
  {
    Line(Fils(Or(it.unitPrice, it.price)), Quantise(Or(it.quantity, Number(1, 1, true)), 1000))
  }

  function ItemLines(items: seq<Item>): seq<Line>
    requires forall i :: 0 <= i < |items| && items[i].Item? ==>
      WellFormed(items[i].unitPrice) && WellFormed(items[i].price) && WellFormed(items[i].quantity)
  {
    if items == [] then []
    else ItemLines(items[..|items| - 1]) + (if items[|items| - 1].Item? then [LineOf(items[|items| - 1])] else [])
  }

  /** Lines before discount: the items', or one for the total when there are none. */
  function GrossLines(o: Order): seq<Line>
    requires Valid(o)
  {
    if o.items == [] then [Line(Fils(o.total), 1000)] else ItemLines(o.items)
  }

  function InvoiceLines(o: Order): seq<Line>
    requires Valid(o)
  {
    Reconciled(Discounted(GrossLines(o), 1000 * Fils(o.discount)), Fils(o.total))
  }

  method BuildShopOrderInvoiceLines(o: Order) returns (ls: seq<Line>)
    requires Valid(o)
    ensures ls == InvoiceLines(o)
  {
    ls := [];
    if o.items != [] {
      var i := 0;
      while i < |o.items|
        invariant 0 <= i <= |o.items| && ls == ItemLines(o.items[..i])
      {
        assert o.items[..i + 1][..i] == o.items[..i];
        if o.items[i].Item? {
          ls := ls + [LineOf(o.items[i])];
        }
        i := i + 1;
      }
      assert o.items[..i] == o.items;
    } else {
      ls := [Line(Fils(o.total), 1000)];
    }
    ls := ApplyDiscount(ls, Fils(o.discount));
    ls := Reconcile(ls, Fils(o.total));
  }
}

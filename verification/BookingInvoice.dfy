/** Invoice lines of a booking: line selection, greedy discount and reconciliation with the total. */
module BookingInvoice {
  import opened Basics
  import opened Money

  /** The payload fields that the builder reads; `services` holds the base prices of the well-formed entries. */
  datatype Booking = Booking(
    rewarded: bool,          // payment type "rewarded", booking type "loyalty" or loyalty data present
    voucher: bool,           // payment type "gift_voucher" or a voucher id present
    total: Raw, pricingTotal: Raw,
    arrangement: Raw, pricingArrangement: Raw,
    services: seq<Raw>,
    addon: Raw, pricingAddon: Raw,
    extraMinutes: Raw, extraTime: Raw, pricingExtra: Raw,
    fees: Raw, pricingFees: Raw,
    discount: Raw, pricingDiscount: Raw)

  predicate Valid(b: Booking)
  {
    && WellFormed(b.total) && WellFormed(b.pricingTotal) && WellFormed(b.arrangement)
        && WellFormed(b.pricingArrangement)
    && WellFormed(b.addon) && WellFormed(b.pricingAddon) && WellFormed(b.extraMinutes) && WellFormed(b.extraTime)
    && WellFormed(b.pricingExtra) && WellFormed(b.fees) && WellFormed(b.pricingFees)
    && WellFormed(b.discount) && WellFormed(b.pricingDiscount)
    && forall i :: 0 <= i < |b.services| ==> WellFormed(b.services[i])
  }

  datatype Kind = MainService | ServiceEntry(i: nat) | AddOns | ExtraTime | ServiceFees | LoyaltyReward

  /** One invoice line, quantity 1; `free` marks the 100 percent discount of a loyalty reward. */
  datatype Line = Line(kind: Kind, price: int, free: bool)

  function Prices(ls: seq<Line>): seq<int>
  {
    seq(|ls|, i requires 0 <= i < |ls| => ls[i].price)
  }

  // ---- the amounts read from the payload ----

  function Arrangement(b: Booking): int
    requires Valid(b)
  {
    Fils(Or(b.arrangement, Or(b.pricingArrangement, Or(b.total, b.pricingTotal))))
  }

  function Target(b: Booking): int
    requires Valid(b)
  {
    Fils(Or(b.total, b.pricingTotal))
  }

  function Discount(b: Booking): int
    requires Valid(b)
  {
    Fils(Or(b.discount, b.pricingDiscount))
  }

  function EntryPrices(b: Booking): seq<int>
    requires Valid(b)
  {
    seq(|b.services|, i requires 0 <= i < |b.services| => Fils(b.services[i]))
  }

  /** The per-service prices reconcile with the arrangement price. */
  predicate Splits(b: Booking)
    requires Valid(b)
  {
    |b.services| > 1 && Sum(EntryPrices(b)) > 0 && Abs(Sum(EntryPrices(b)) - Arrangement(b)) <= 1
  }

  function OneLine(k: Kind, price: int): seq<Line> { if price > 0 then [Line(k, price, false)] else [] }

  function Extras(b: Booking): seq<Line>
    requires Valid(b)
  {
    OneLine(AddOns, Fils(Or(b.addon, b.pricingAddon)))
    + OneLine(ExtraTime, Fils(Or(b.extraMinutes, Or(b.extraTime, b.pricingExtra))))
    + OneLine(ServiceFees, Fils(Or(b.fees, b.pricingFees)))
  }

  function SplitLines(b: Booking): seq<Line>
    requires Valid(b)
  {
    seq(|b.services|, i requires 0 <= i < |b.services| => Line(ServiceEntry(i), Fils(b.services[i]), false)) + Extras(b)
  }

  function SingleLines(b: Booking): seq<Line>
    requires Valid(b)
  {
    [Line(MainService, Arrangement(b), false)] + Extras(b)
  }

  /** Lines before discount and reconciliation. */
  function GrossLines(b: Booking): seq<Line>
    requires Valid(b)
  {
    if Splits(b) then SplitLines(b) else SingleLines(b)
  }

  // ---- discount ----

  ghost predicate NonNegative(ps: seq<int>) { forall i :: 0 <= i < |ps| ==> ps[i] >= 0 }

  function Positive(p: int): int { Max(p, 0) }

  /** Sum of the positive ones among the first n prices. */
  function SumPos(ps: seq<int>, n: nat): int
    requires n <= |ps|
  {
    if n == 0 then 0 else SumPos(ps, n - 1) + Positive(ps[n - 1])
  }

  /** What line i loses: as much as it has, up to what earlier lines left of the discount. */
  function Deduction(ps: seq<int>, d: int, i: nat): int
    requires i < |ps|
  {
    Min(Positive(ps[i]), Max(0, d - SumPos(ps, i)))
  }

  function Discounted(ps: seq<int>, d: int): seq<int>
  {
    seq(|ps|, i requires 0 <= i < |ps| => ps[i] - Deduction(ps, d, i))
  }

  lemma {:induction false} SumPosMonotone(ps: seq<int>, i: nat, j: nat)
    requires i <= j <= |ps|
    ensures SumPos(ps, i) <= SumPos(ps, j)
  {
    if i < j { SumPosMonotone(ps, i, j - 1); }
  }

  /** What is left of the discount after line i. */
  lemma LeftAfter(ps: seq<int>, d: int, i: nat)
    requires i < |ps|
    ensures Max(0, d - SumPos(ps, i + 1)) == Max(0, d - SumPos(ps, i)) - Deduction(ps, d, i)
  {
  }

  /** Once the discount is used up, later lines lose nothing: the early exit changes nothing. */
  lemma NothingLeft(ps: seq<int>, d: int, i: nat)
    requires i <= |ps| && d - SumPos(ps, i) <= 0
    ensures forall j {:trigger Discounted(ps, d)[j]} :: i <= j < |ps| ==> Discounted(ps, d)[j] == ps[j]
  {
    forall j | i <= j < |ps| ensures Deduction(ps, d, j) == 0 { SumPosMonotone(ps, i, j); }
  }

  /** The greedy loop: each positive line absorbs what it can until nothing of the discount is left. */
  method ApplyDiscount(gross: seq<Line>, discount: int) returns (ls: seq<Line>)
    ensures SameKinds(ls, gross)
    ensures Prices(ls) == if discount > 0 then Discounted(Prices(gross), discount) else Prices(gross)
  {
    if discount <= 0 { return gross; }
    ls := Distribute(gross, Prices(gross), discount);
    assert Prices(ls) == Discounted(Prices(gross), discount);
  }

  method Distribute(gross: seq<Line>, ghost ps: seq<int>, discount: int) returns (ls: seq<Line>)
    requires discount > 0 && |ps| == |gross| && forall j {:trigger gross[j]} :: 0 <= j < |gross| ==>
        gross[j].price == ps[j]
    ensures SameKinds(ls, gross)
    ensures forall j {:trigger ls[j]} :: 0 <= j < |ls| ==> ls[j].price == Discounted(ps, discount)[j]
  {
    ls := gross;
    var rem := discount;
    var i := 0;
    while i < |ls|
      invariant 0 <= i <= |ls| == |gross|
      invariant rem == Max(0, discount - SumPos(ps, i))
      invariant forall j {:trigger ls[j]} :: 0 <= j < |ls| ==>
          ls[j].kind == gross[j].kind && ls[j].free == gross[j].free
      invariant forall j {:trigger ls[j]} :: 0 <= j < i ==> ls[j].price == Discounted(ps, discount)[j]
      invariant forall j {:trigger ls[j]} :: i <= j < |ls| ==> ls[j].price == ps[j]
    {
      LeftAfter(ps, discount, i);
      if ls[i].price > 0 && rem > 0 {
        var deduction := Min(ls[i].price, rem);
        ls := ls[i := ls[i].(price := ls[i].price - deduction)];
        rem := rem - deduction;
        if rem <= 0 {
          NothingLeft(ps, discount, i + 1);
          break;
        }
      }
      i := i + 1;
    }
  }

  ghost predicate SameKinds(a: seq<Line>, b: seq<Line>)
  {
    |a| == |b| && forall i :: 0 <= i < |a| ==> a[i].kind == b[i].kind && a[i].free == b[i].free
  }

  /** Up to any line, the discount has taken exactly what there was to take. */
  lemma {:induction false} DiscountedSum(ps: seq<int>, d: int, n: nat)
    requires d >= 0 && n <= |ps|
    ensures SumTo(Discounted(ps, d), n) == SumTo(ps, n) - Min(d, SumPos(ps, n))
  {
    if n > 0 {
      DiscountedSum(ps, d, n - 1);
      LeftAfter(ps, d, n - 1);
    }
  }

  lemma {:induction false} SumPosIsSum(ps: seq<int>, n: nat)
    requires n <= |ps| && NonNegative(ps)
    ensures 0 <= SumPos(ps, n) == SumTo(ps, n)
  {
    if n > 0 { SumPosIsSum(ps, n - 1); }
  }

  lemma DiscountedTotal(ps: seq<int>, d: int)
    requires d >= 0 && NonNegative(ps)
    ensures Sum(Discounted(ps, d)) == Max(0, Sum(ps) - d) && Sum(ps) >= 0
  {
    DiscountedSum(ps, d, |ps|);
    SumPosIsSum(ps, |ps|);
  }

  /** For non-negative lines the total becomes exactly max(0, total - d) and no line goes negative. */
  lemma DiscountExact(ps: seq<int>, d: int)
    requires d >= 0 && NonNegative(ps)
    ensures Sum(Discounted(ps, d)) == Max(0, Sum(ps) - d)
    ensures forall i {:trigger Discounted(ps, d)[i]} :: 0 <= i < |ps| ==> 0 <= Discounted(ps, d)[i] <= ps[i]
  {
    DiscountedTotal(ps, d);
    forall i | 0 <= i < |ps| ensures 0 <= Deduction(ps, d, i) <= ps[i] { assert ps[i] >= 0; }
  }

  // ---- reconciliation ----

  /** First line from `start` on that can absorb the difference, or |ps|. */
  function AbsorbingFrom(ps: seq<int>, diff: int, start: nat): (i: nat)
    requires start <= |ps|
    ensures start <= i <= |ps| && (i < |ps| ==> ps[i] + diff >= 0)
    ensures forall j :: start <= j < i ==> ps[j] + diff < 0
    decreases |ps| - start
  {
    if start == |ps| || ps[start] + diff >= 0 then start else AbsorbingFrom(ps, diff, start + 1)
  }

  function FirstAbsorbing(ps: seq<int>, diff: int): nat { AbsorbingFrom(ps, diff, 0) }

  /** A fractional difference of at most 10 fils from a positive target is put on the first line that can take it. */
  function Reconciled(ps: seq<int>, target: int): seq<int>
  {
    var diff := target - Sum(ps);
    var i := FirstAbsorbing(ps, diff);
    if target > 0 && Abs(diff) <= 10 && i < |ps| then ps[i := ps[i] + diff] else ps
  }

  method SumPrices(ls: seq<Line>) returns (total: int)
    ensures total == Sum(Prices(ls))
  {
    total := 0;
    var i := 0;
    while i < |ls|
      invariant 0 <= i <= |ls| && total == SumTo(Prices(ls), i)
    {
      total := total + ls[i].price;
      i := i + 1;
    }
  }

  method Reconcile(lines: seq<Line>, target: int) returns (ls: seq<Line>)
    ensures SameKinds(ls, lines)
    ensures Prices(ls) == Reconciled(Prices(lines), target)
  {
    ls := lines;
    if target <= 0 || lines == [] { return; }
    var current := SumPrices(lines);
    var diff := target - current;
    if Abs(diff) <= 10 && diff != 0 {
      ghost var ps := Prices(lines);
      var i := 0;
      while i < |ls|
        invariant 0 <= i <= |ls| && ls == lines && FirstAbsorbing(ps, diff) == AbsorbingFrom(ps, diff, i)
      {
        if ls[i].price + diff >= 0 {
          ls := ls[i := ls[i].(price := ls[i].price + diff)];
          assert Prices(ls) == ps[i := ps[i] + diff];
          return;
        }
        i := i + 1;
      }
    }
  }

  /** The target is positive, at most 10 fils away, and some line can take the difference. */
  ghost predicate CanReconcile(ps: seq<int>, target: int)
  {
    target > 0 && Abs(target - Sum(ps)) <= 10 && exists i :: 0 <= i < |ps| && ps[i] + (target - Sum(ps)) >= 0
  }

  /**
   After reconciliation the lines sum to the target exactly when they did before or the difference can be
   reconciled; otherwise nothing changes. Non-negative lines stay non-negative.
   */
  lemma ReconcileExactly(ps: seq<int>, target: int)
    ensures Sum(Reconciled(ps, target)) == target <==> Sum(ps) == target || CanReconcile(ps, target)
    ensures Sum(Reconciled(ps, target)) != target ==> Reconciled(ps, target) == ps
    ensures |Reconciled(ps, target)| == |ps|
    ensures (forall i :: 0 <= i < |ps| ==> ps[i] >= 0) ==> forall i :: 0 <= i < |ps| ==> Reconciled(ps, target)[i] >= 0
  {
    var diff := target - Sum(ps);
    var i := FirstAbsorbing(ps, diff);
    if i < |ps| {
      SumUpdate(ps, i, ps[i] + diff);
      assert CanReconcile(ps, target) <==> target > 0 && Abs(diff) <= 10;
    } else {
      assert !CanReconcile(ps, target);
    }
  }

  // ---- the whole invoice ----

  /** What the discount leaves; one that is not positive is not applied. */
  function Remaining(gross: seq<int>, discount: int): seq<int>
  {
    if discount > 0 then Discounted(gross, discount) else gross
  }

  function NetPrices(gross: seq<int>, discount: int, target: int): seq<int>
  {
    Reconciled(Remaining(gross, discount), target)
  }

  /** Lines before discount, as the builder appends them. */
  method BuildGrossLines(b: Booking) returns (ls: seq<Line>)
    requires Valid(b)
    ensures ls == GrossLines(b)
  {
    ls := [];
    var arrangement := Arrangement(b);
    if Splits(b) {
      var i := 0;
      while i < |b.services|
        invariant 0 <= i <= |b.services| && |ls| == i
        invariant forall j :: 0 <= j < i ==> ls[j] == Line(ServiceEntry(j), Fils(b.services[j]), false)
      {
        ls := ls + [Line(ServiceEntry(i), Fils(b.services[i]), false)];
        i := i + 1;
      }
    }
    if ls == [] {
      ls := [Line(MainService, arrangement, false)];
    }
    ls := AppendExtras(ls, b);
  }

  method AppendExtras(base: seq<Line>, b: Booking) returns (ls: seq<Line>)
    requires Valid(b)
    ensures ls == base + Extras(b)
  {
    ls := base;
    var addon := Fils(Or(b.addon, b.pricingAddon));
    if addon > 0 { ls := ls + [Line(AddOns, addon, false)]; }
    var extra := Fils(Or(b.extraMinutes, Or(b.extraTime, b.pricingExtra)));
    if extra > 0 { ls := ls + [Line(ExtraTime, extra, false)]; }
    var fees := Fils(Or(b.fees, b.pricingFees));
    if fees > 0 { ls := ls + [Line(ServiceFees, fees, false)]; }
  }

  function WithPrices(ls: seq<Line>, ps: seq<int>): seq<Line>
    requires |ps| == |ls|
  {
    seq(|ls|, i requires 0 <= i < |ls| => ls[i].(price := ps[i]))
  }

  lemma NetPricesLength(gross: seq<int>, discount: int, target: int)
    ensures |NetPrices(gross, discount, target)| == |gross|
  {
  }

  /** The lines of the whole invoice: of a reward, of a redeemed voucher (none), or of a paid booking. */
  function InvoiceLines(b: Booking): seq<Line>
    requires Valid(b)
  {
    if b.rewarded then [Line(LoyaltyReward, Fils(Or(b.total, Or(b.pricingTotal, b.arrangement))), true)]
    else if b.voucher then []
    else
      var gross := GrossLines(b);
      NetPricesLength(Prices(gross), Discount(b), Target(b));
      WithPrices(gross, NetPrices(Prices(gross), Discount(b), Target(b)))
  }

  method BuildBookingInvoiceLines(b: Booking) returns (ls: seq<Line>)
    requires Valid(b)
    ensures ls == InvoiceLines(b)
  {
    if b.rewarded {
      return [Line(LoyaltyReward, Fils(Or(b.total, Or(b.pricingTotal, b.arrangement))), true)];
    }
    if b.voucher {
      return [];
    }
    ls := BuildGrossLines(b);
    ls := ApplyDiscount(ls, Discount(b));
    ls := Reconcile(ls, Target(b));
    LinesFromPrices(ls, GrossLines(b), NetPrices(Prices(GrossLines(b)), Discount(b), Target(b)));
  }

  lemma LinesFromPrices(ls: seq<Line>, gross: seq<Line>, ps: seq<int>)
    requires SameKinds(ls, gross) && |ps| == |gross| && Prices(ls) == ps
    ensures ls == WithPrices(gross, ps)
  {
    forall i | 0 <= i < |ls| ensures ls[i] == WithPrices(gross, ps)[i] {
      assert Prices(ls)[i] == ls[i].price;
    }
  }

  /**
   End to end: with the gross lines non-negative, the invoice sums to the target exactly when what remains of the
   gross total after the discount equals it or can be reconciled with it; else it sums to what remains.
   */
  lemma InvoiceSum(gross: seq<int>, discount: int, target: int)
    requires NonNegative(gross) && discount >= 0
    ensures var net := NetPrices(gross, discount, target); var rest := Max(0, Sum(gross) - discount);
      && NonNegative(net)
      && (Sum(net) == target <==> rest == target || CanReconcile(Discounted(gross, discount), target))
      && (Sum(net) == target || Sum(net) == rest)
  {
    DiscountExact(gross, discount);
    if discount == 0 {
      DiscountNone(gross);
    }
    ReconcileExactly(Discounted(gross, discount), target);
  }

  lemma DiscountNone(ps: seq<int>)
    requires NonNegative(ps)
    ensures Discounted(ps, 0) == ps
  {
    forall i | 0 <= i < |ps| ensures Deduction(ps, 0, i) == 0 { SumPosMonotone(ps, 0, i); }
  }

  // ---- the amount paid that is sent along with the invoice ----

  datatype Fraction = Fraction(num: int, den: int)

  /** The total of the payload, not rounded and without falling back to the pricing; None when it is no number. */
  function AmountPaid(b: Booking): Option<Fraction>
    requires Valid(b)
  {
    if !Truthy(b.total) then Some(Fraction(0, 1))
    else match b.total
      case Number(n, d, _) => Some(Fraction(n, d))
      case _ => None
  }

  /** The amount paid is defined and is exactly so many fils. */
  predicate PaidIs(b: Booking, fils: int)
    requires Valid(b)
  {
    AmountPaid(b).Some? && fils * AmountPaid(b).value.den == 1000 * AmountPaid(b).value.num
  }

  /** With a total: it is a number of at most three decimals. Without: the pricing's total rounds to nothing. */
  predicate PaidMatches(b: Booking)
    requires Valid(b)
  {
    if Truthy(b.total) then b.total.Number? && (1000 * b.total.num) % b.total.den == 0
    else b.pricingTotal.Number? ==> 2 * Abs(1000 * b.pricingTotal.num) <= b.pricingTotal.den
  }

  /** The amount paid is the target that the invoice is reconciled with, if and only if PaidMatches. */
  lemma AmountPaidIsTarget(b: Booking)
    requires Valid(b)
    ensures PaidIs(b, Target(b)) <==> PaidMatches(b)
  {
    if Truthy(b.total) && b.total.Number? {
      ExactFils(1000 * b.total.num, b.total.den);
    } else if !Truthy(b.total) && b.pricingTotal.Number? {
      RoundsToNothing(1000 * b.pricingTotal.num, b.pricingTotal.den);
    }
  }

  lemma ExactFils(n: int, d: int)
    requires d > 0
    ensures HalfEven(n, d) * d == n <==> n % d == 0
  {
    if n % d == 0 {
      assert n == (n / d) * d;
      HalfEvenExact(n / d, d);
    } else {
      MultipleHasNoRemainder(HalfEven(n, d), d);
    }
  }

  lemma RoundsToNothing(n: int, d: int)
    requires d > 0
    ensures HalfEven(n, d) == 0 <==> 2 * Abs(n) <= d
  {
    assert 0 * d == 0;
    if 2 * Abs(n) <= d { HalfEvenUnique(n, d, 0); }
  }

  // ---- the invoice that is sent ----

  /** What each line charges: nothing when it carries the 100 percent discount. */
  function Charges(ls: seq<Line>): seq<int>
  {
    seq(|ls|, i requires 0 <= i < |ls| => if ls[i].free then 0 else ls[i].price)
  }

  /** What the whole invoice charges. */
  function InvoiceTotal(b: Booking): int
    requires Valid(b)
  {
    Sum(Charges(InvoiceLines(b)))
  }

  /** No line, no invoice: exactly for the redemption of a voucher that is no reward. */
  lemma NoInvoiceForVouchers(b: Booking)
    requires Valid(b)
    ensures InvoiceLines(b) == [] <==> b.voucher && !b.rewarded
  {
    if Splits(b) { assert |SplitLines(b)| > 0; } else { assert |SingleLines(b)| > 0; }
  }

  lemma PaidBookingCharges(b: Booking)
    requires Valid(b) && !b.rewarded && !b.voucher
    ensures Charges(InvoiceLines(b)) == NetPrices(Prices(GrossLines(b)), Discount(b), Target(b))
  {
    var gross := GrossLines(b);
    NetPricesLength(Prices(gross), Discount(b), Target(b));
    NothingIsFree(b);
  }

  ghost predicate NoneFree(ls: seq<Line>) { forall i :: 0 <= i < |ls| ==> !ls[i].free }

  lemma NoneFreeAppend(a: seq<Line>, b: seq<Line>)
    requires NoneFree(a) && NoneFree(b)
    ensures NoneFree(a + b)
  {
  }

  lemma NothingIsFree(b: Booking)
    requires Valid(b)
    ensures NoneFree(GrossLines(b))
  {
    var addOn := OneLine(AddOns, Fils(Or(b.addon, b.pricingAddon)));
    var time := OneLine(ExtraTime, Fils(Or(b.extraMinutes, Or(b.extraTime, b.pricingExtra))));
    var fees := OneLine(ServiceFees, Fils(Or(b.fees, b.pricingFees)));
    NoneFreeAppend(addOn, time);
    NoneFreeAppend(addOn + time, fees);
    if Splits(b) {
      var entries :=
        seq(|b.services|, i requires 0 <= i < |b.services| => Line(ServiceEntry(i), Fils(b.services[i]), false));
      NoneFreeAppend(entries, Extras(b));
    } else {
      NoneFreeAppend([Line(MainService, Arrangement(b), false)], Extras(b));
    }
  }

  lemma RewardCharges(b: Booking)
    requires Valid(b) && b.rewarded
    ensures InvoiceTotal(b) == 0
  {
    var cs := Charges(InvoiceLines(b));
    assert cs == [0] && SumTo(cs, 0) == 0;
  }

  /** Nothing is paid: there is no total, or it is zero. */
  lemma NothingPaid(b: Booking)
    requires Valid(b)
    ensures PaidIs(b, 0) <==> !Truthy(b.total) || (b.total.Number? && b.total.num == 0)
  {
  }

  /**
   For every booking: the invoice that the builder's lines make charges the amount paid if and only if, for a reward,
   nothing is said to be paid; for a paid booking, it can be brought to the target and PaidMatches, or it cannot and
   what the discount left is the amount paid by itself. A redeemed voucher has no line, and nothing to match.
   */
  lemma InvoiceMeetsAmountPaid(b: Booking)
    requires Valid(b)
    ensures InvoiceLines(b) == [] <==> b.voucher && !b.rewarded
    ensures InvoiceLines(b) != [] ==>
      var left := Remaining(Prices(GrossLines(b)), Discount(b));
      PaidIs(b, InvoiceTotal(b)) <==>
        if b.rewarded then !Truthy(b.total) || (b.total.Number? && b.total.num == 0)
        else if Sum(left) == Target(b) || CanReconcile(left, Target(b)) then PaidMatches(b)
        else PaidIs(b, Sum(left))
  {
    NoInvoiceForVouchers(b);
    if b.rewarded {
      RewardCharges(b);
      NothingPaid(b);
    } else if !b.voucher {
      PaidBookingCharges(b);
      ReconcileExactly(Remaining(Prices(GrossLines(b)), Discount(b)), Target(b));
      AmountPaidIsTarget(b);
    }
  }

  /** A reward worth 5 KWD: its invoice charges nothing, and 5 KWD are said to be paid. */
  const REWARD: Booking :=
    Booking(true, false, Number(5, 1, false), Null, Null, Null, [],
            Null, Null, Null, Null, Null, Null, Null, Null, Null)

  lemma RewardIsSaidToBePaid()
    ensures Valid(REWARD) && InvoiceTotal(REWARD) == 0 && PaidIs(REWARD, 5000)
  {
    RewardCharges(REWARD);
  }

  lemma MultipleHasNoRemainder(q: int, d: int)
    requires d > 0
    ensures (q * d) % d == 0
  {
    var k, r := (q * d) / d, (q * d) % d;
    assert (q - k) * d == r;
    Multiple(q - k, d);
    Multiple(k - q, d);
  }

  // ---- the per-service split against the single line ----

  /** Some line keeps at least 10 fils after the discount. */
  ghost predicate RoomFor10(ps: seq<int>) { exists i :: 0 <= i < |ps| && ps[i] >= 10 }

  lemma ExtrasNonNegative(b: Booking)
    requires Valid(b)
    ensures NonNegative(Prices(Extras(b)))
  {
    assert forall l :: l in Extras(b) ==> l.price > 0;
    forall i | 0 <= i < |Extras(b)| ensures Prices(Extras(b))[i] >= 0 { assert Extras(b)[i] in Extras(b); }
  }

  lemma SplitSum(b: Booking)
    requires Valid(b)
    ensures Prices(SplitLines(b)) == EntryPrices(b) + Prices(Extras(b))
    ensures Sum(Prices(SplitLines(b))) == Sum(EntryPrices(b)) + Sum(Prices(Extras(b)))
  {
    assert Prices(SplitLines(b)) == EntryPrices(b) + Prices(Extras(b));
    SumAppend(EntryPrices(b), Prices(Extras(b)));
  }

  lemma SingleSum(b: Booking)
    requires Valid(b)
    ensures Prices(SingleLines(b)) == [Arrangement(b)] + Prices(Extras(b))
    ensures Sum(Prices(SingleLines(b))) == Arrangement(b) + Sum(Prices(Extras(b)))
  {
    assert Prices(SingleLines(b)) == [Arrangement(b)] + Prices(Extras(b));
    SumAppend([Arrangement(b)], Prices(Extras(b)));
    assert SumTo([Arrangement(b)], 0) == 0;
  }

  /** An invoice form meets a positive target that is within 10 fils, if it has a roomy line left. */
  ghost predicate MeetsNear(gross: seq<int>, discount: int, target: int)
  {
    var left := Discounted(gross, discount);
    target > 0 && Abs(target - Sum(left)) <= 10 && RoomFor10(left) ==> Sum(NetPrices(gross, discount, target)) == target
  }

  lemma RoomReconciles(gross: seq<int>, discount: int, target: int)
    requires NonNegative(gross) && discount >= 0
    ensures MeetsNear(gross, discount, target)
  {
    if target > 0 && Abs(target - Sum(Discounted(gross, discount))) <= 10 && RoomFor10(Discounted(gross, discount)) {
      assert CanReconcile(Discounted(gross, discount), target);
      InvoiceSum(gross, discount, target);
    }
  }

  lemma StayClose(a: int, b: int, d: int)
    requires Abs(a - b) <= 1
    ensures Abs(Max(0, a - d) - Max(0, b - d)) <= 1
  {
  }

  lemma SumsStayClose(s: seq<int>, t: seq<int>, discount: int)
    requires NonNegative(s) && NonNegative(t) && discount >= 0 && Abs(Sum(s) - Sum(t)) <= 1
    ensures Abs(Sum(Discounted(s, discount)) - Sum(Discounted(t, discount))) <= 1
  {
    DiscountedTotal(s, discount);
    DiscountedTotal(t, discount);
    StayClose(Sum(s), Sum(t), discount);
  }

  lemma SplitNonNegative(b: Booking)
    requires Valid(b)
    ensures NonNegative(EntryPrices(b)) ==> NonNegative(Prices(SplitLines(b)))
  {
    SplitSum(b);
    ExtrasNonNegative(b);
  }

  /**
   Whenever the split is chosen, it and the single line form differ by at most 1 fil after the discount; and each
   meets any positive target within 10 fils of what it has left, if a line of at least 10 fils is left to it.
   */
  lemma SplitAgreesWithSingle(b: Booking)
    requires Valid(b) && Splits(b) && NonNegative(EntryPrices(b)) && Discount(b) >= 0
    ensures var split, single := Prices(SplitLines(b)), Prices(SingleLines(b));
      Abs(Sum(Discounted(split, Discount(b))) - Sum(Discounted(single, Discount(b)))) <= 1
    ensures MeetsNear(Prices(SplitLines(b)), Discount(b), Target(b))
    ensures MeetsNear(Prices(SingleLines(b)), Discount(b), Target(b))
  {
    SplitSumsNear(b);
    SplitNonNegative(b);
    var split, single := Prices(SplitLines(b)), Prices(SingleLines(b));
    SumsStayClose(split, single, Discount(b));
    RoomReconciles(split, Discount(b), Target(b));
    RoomReconciles(single, Discount(b), Target(b));
  }

  /**
   The target is positive, within 9 fils of what the second form has left, and each form has a line of 10 fils left.
   */
  ghost predicate TargetNearBoth(s: seq<int>, t: seq<int>, discount: int, target: int)
  {
    && target > 0 && Abs(target - Sum(Discounted(t, discount))) <= 9
    && RoomFor10(Discounted(s, discount)) && RoomFor10(Discounted(t, discount))
  }

  lemma BothMeet(s: seq<int>, t: seq<int>, discount: int, target: int)
    requires NonNegative(s) && NonNegative(t) && discount >= 0 && Abs(Sum(s) - Sum(t)) <= 1
    ensures TargetNearBoth(s, t, discount, target) ==>
      Sum(NetPrices(s, discount, target)) == target == Sum(NetPrices(t, discount, target))
  {
    SumsStayClose(s, t, discount);
    RoomReconciles(s, discount, target);
    RoomReconciles(t, discount, target);
  }

  /** And so both meet one target that is near the single line form. */
  lemma SplitAndSingleMeetTarget(b: Booking)
    requires Valid(b) && Splits(b) && NonNegative(EntryPrices(b)) && Discount(b) >= 0
    ensures TargetNearBoth(Prices(SplitLines(b)), Prices(SingleLines(b)), Discount(b), Target(b)) ==>
      Sum(NetPrices(Prices(SplitLines(b)), Discount(b), Target(b))) == Target(b)
      == Sum(NetPrices(Prices(SingleLines(b)), Discount(b), Target(b)))
  {
    SplitSumsNear(b);
    SplitNonNegative(b);
    BothMeet(Prices(SplitLines(b)), Prices(SingleLines(b)), Discount(b), Target(b));
  }

  // ---- entries of any sign ----

  lemma {:induction false} SumPosAtLeast(ps: seq<int>, n: nat)
    requires n <= |ps|
    ensures SumPos(ps, n) >= 0 && SumPos(ps, n) >= SumTo(ps, n)
  {
    if n > 0 { SumPosAtLeast(ps, n - 1); }
  }

  lemma RemainingSum(ps: seq<int>, d: int)
    requires d > 0
    ensures Sum(Remaining(ps, d)) == Sum(ps) - Min(d, SumPos(ps, |ps|))
  {
    DiscountedSum(ps, d, |ps|);
  }

  /** The discount is small enough for either form, or the negative prices hardly matter. */
  predicate FormsAgree(s: seq<int>, t: seq<int>, d: int)
  {
    d <= Max(Sum(t), Sum(s) + 1) || SumPos(s, |s|) - Sum(s) <= 1
  }

  lemma AgreeExactly(s: seq<int>, t: seq<int>, d: int)
    requires NonNegative(t) && Sum(s) >= 0 && Abs(Sum(s) - Sum(t)) <= 1
    ensures Abs(Sum(Remaining(s, d)) - Sum(Remaining(t, d))) <= 1 <==> FormsAgree(s, t, d)
  {
    SumPosIsSum(t, |t|);
    SumPosAtLeast(s, |s|);
    if d > 0 {
      RemainingSum(s, d);
      RemainingSum(t, d);
      AgreeArithmetic(Sum(s), SumPos(s, |s|), Sum(t), d);
    }
  }

  lemma AgreeArithmetic(s: int, p: int, t: int, d: int)
    requires 0 <= s <= p && 0 <= t && d > 0 && Abs(s - t) <= 1
    ensures Abs((s - Min(d, p)) - (t - Min(d, t))) <= 1 <==> d <= Max(t, s + 1) || p - s <= 1
  {
  }

  /** Before the discount the two forms differ by at most 1 fil. */
  lemma SplitSumsNear(b: Booking)
    requires Valid(b)
    ensures Splits(b) ==> NonNegative(Prices(SingleLines(b))) && Sum(Prices(SplitLines(b))) >= 0
    ensures Splits(b) ==> Abs(Sum(Prices(SplitLines(b))) - Sum(Prices(SingleLines(b)))) <= 1
  {
    SplitSum(b);
    SingleSum(b);
    ExtrasNonNegative(b);
    SumPosIsSum(Prices(Extras(b)), |Prices(Extras(b))|);
  }

  /**
   Whenever the split is chosen, whatever the signs of its entries and of the discount: what the two forms have left
   differs by at most 1 fil if and only if FormsAgree.
   */
  lemma SplitAgreesExactly(b: Booking)
    requires Valid(b)
    ensures Splits(b) ==>
      var split, single := Prices(SplitLines(b)), Prices(SingleLines(b));
      Abs(Sum(Remaining(split, Discount(b))) - Sum(Remaining(single, Discount(b)))) <= 1
      <==> FormsAgree(split, single, Discount(b))
  {
    SplitSumsNear(b);
    if Splits(b) {
      AgreeExactly(Prices(SplitLines(b)), Prices(SingleLines(b)), Discount(b));
    }
  }

  /** Entries of 10 and -5 fils, an arrangement price of 5 and a discount of 7. */
  const REFUNDED_ENTRY: Booking :=
    Booking(false, false, Null, Null, Number(5, 1000, false), Null, [Number(10, 1000, false), Number(-5, 1000, false)],
            Null, Null, Null, Null, Null, Null, Null, Number(7, 1000, false), Null)

  /** A negative entry can make the two forms differ: this split leaves -2 fils, the single line nothing. */
  lemma NegativeEntryBreaksAgreement()
    ensures Valid(REFUNDED_ENTRY) && Splits(REFUNDED_ENTRY) && Discount(REFUNDED_ENTRY) == 7
    ensures Sum(Remaining(Prices(SplitLines(REFUNDED_ENTRY)), 7)) == -2
    ensures Sum(Remaining(Prices(SingleLines(REFUNDED_ENTRY)), 7)) == 0
  {
    var b := REFUNDED_ENTRY;
    HalfEvenExact(5, 1000);
    HalfEvenExact(10, 1000);
    HalfEvenExact(-5, 1000);
    HalfEvenExact(7, 1000);
    var entries := EntryPrices(b);
    assert entries == [10, -5] && SumTo(entries, 1) == 10;
    assert Splits(b) && Extras(b) == [];
    assert Prices(SplitLines(b)) == entries && Prices(SingleLines(b)) == [5];
    assert SumPos(entries, 1) == 10 && SumPos(entries, 2) == 10 && SumPos([5], 0) == 0 && SumTo([5], 0) == 0;
    RemainingSum(entries, 7);
    RemainingSum([5], 7);
  }
}

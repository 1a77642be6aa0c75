/** What the invoice of a booking charges, told by the fields of the payload alone. */
module BookingLaws {
  import opened Basics
  import opened Money
  import opened BookingInvoice

  // ---- the fields ----

  function Main(b: Booking): int
    requires Valid(b)
  {
    Read(b.arrangement, Read(b.pricingArrangement, Read(b.total, Read(b.pricingTotal, 0))))
  }

  function AddOn(b: Booking): int
    requires Valid(b)
  {
    Read(b.addon, Read(b.pricingAddon, 0))
  }

  function Time(b: Booking): int
    requires Valid(b)
  {
    Read(b.extraMinutes, Read(b.extraTime, Read(b.pricingExtra, 0)))
  }

  function Fee(b: Booking): int
    requires Valid(b)
  {
    Read(b.fees, Read(b.pricingFees, 0))
  }

  function Due(b: Booking): int
    requires Valid(b)
  {
    Read(b.total, Read(b.pricingTotal, 0))
  }

  function Off(b: Booking): int
    requires Valid(b)
  {
    Read(b.discount, Read(b.pricingDiscount, 0))
  }

  /** The first n entries together. */
  function EntriesTo(b: Booking, n: nat): int
    requires Valid(b) && n <= |b.services|
  {
    if n == 0 then 0 else EntriesTo(b, n - 1) + Read(b.services[n - 1], 0)
  }

  /** More than one entry, together positive, and within 1 fil of the main price. */
  predicate SplitUp(b: Booking)
    requires Valid(b)
  {
    var entries := EntriesTo(b, |b.services|);
    |b.services| > 1 && entries > 0 && -1 <= entries - Main(b) <= 1
  }

  /** The services, by the entry or as one, and whatever of the extras is positive. */
  function Charge(b: Booking): int
    requires Valid(b)
  {
    (if SplitUp(b) then EntriesTo(b, |b.services|) else Main(b)) + Max(0, AddOn(b)) + Max(0, Time(b)) + Max(0, Fee(b))
  }

  // ---- the builder reads the fields ----

  lemma ReadsMain(b: Booking)
    requires Valid(b)
    ensures Arrangement(b) == Main(b) && Target(b) == Due(b) && Discount(b) == Off(b)
  {
    OrReads(b.total, b.pricingTotal);
    OrReads(b.pricingArrangement, Or(b.total, b.pricingTotal));
    OrReads(b.arrangement, Or(b.pricingArrangement, Or(b.total, b.pricingTotal)));
    OrReads(b.discount, b.pricingDiscount);
  }

  lemma ReadsExtras(b: Booking)
    requires Valid(b)
    ensures Fils(Or(b.addon, b.pricingAddon)) == AddOn(b)
    ensures Fils(Or(b.extraMinutes, Or(b.extraTime, b.pricingExtra))) == Time(b)
    ensures Fils(Or(b.fees, b.pricingFees)) == Fee(b)
  {
    OrReads(b.addon, b.pricingAddon);
    OrReads(b.extraTime, b.pricingExtra);
    OrReads(b.extraMinutes, Or(b.extraTime, b.pricingExtra));
    OrReads(b.fees, b.pricingFees);
  }

  lemma {:induction false} ReadsEntries(b: Booking, n: nat)
    requires Valid(b) && n <= |b.services|
    ensures SumTo(EntryPrices(b), n) == EntriesTo(b, n)
  {
    if n > 0 {
      ReadsEntries(b, n - 1);
      OrReads(Null, b.services[n - 1]);
    }
  }

  lemma ReadsSplit(b: Booking)
    requires Valid(b)
    ensures Splits(b) <==> SplitUp(b)
  {
    ReadsMain(b);
    ReadsEntries(b, |b.services|);
  }

  // ---- the lines, by their kind ----

  /** What the first n lines of one kind charge together. */
  function PriceOf(ls: seq<Line>, kind: Kind, n: nat): int
    requires n <= |ls|
  {
    if n == 0 then 0 else PriceOf(ls, kind, n - 1) + if ls[n - 1].kind == kind then ls[n - 1].price else 0
  }

  lemma {:induction false} PriceOfPrefix(a: seq<Line>, b: seq<Line>, kind: Kind, n: nat)
    requires n <= |a|
    ensures PriceOf(a + b, kind, n) == PriceOf(a, kind, n)
  {
    if n > 0 { PriceOfPrefix(a, b, kind, n - 1); }
  }

  lemma {:induction false} PriceOfAppend(a: seq<Line>, b: seq<Line>, kind: Kind, n: nat)
    requires n <= |b|
    ensures PriceOf(a + b, kind, |a| + n) == PriceOf(a, kind, |a|) + PriceOf(b, kind, n)
  {
    if n == 0 { PriceOfPrefix(a, b, kind, |a|); } else { PriceOfAppend(a, b, kind, n - 1); }
  }

  lemma PriceOfOne(k: Kind, price: int, kind: Kind)
    ensures var ls := OneLine(k, price); PriceOf(ls, kind, |ls|) == if k == kind then Max(0, price) else 0
  {
    var ls := OneLine(k, price);
    if price > 0 { assert |ls| == 1 && PriceOf(ls, kind, 0) == 0; }
  }

  lemma PriceOfExtras(b: Booking, kind: Kind)
    requires Valid(b)
    ensures PriceOf(Extras(b), kind, |Extras(b)|) ==
      match kind
      case AddOns => Max(0, AddOn(b))
      case ExtraTime => Max(0, Time(b))
      case ServiceFees => Max(0, Fee(b))
      case _ => 0
  {
    ReadsExtras(b);
    var addOn, time, fees := OneLine(AddOns, AddOn(b)), OneLine(ExtraTime, Time(b)), OneLine(ServiceFees, Fee(b));
    assert Extras(b) == addOn + time + fees;
    PriceOfOne(AddOns, AddOn(b), kind);
    PriceOfOne(ExtraTime, Time(b), kind);
    PriceOfOne(ServiceFees, Fee(b), kind);
    PriceOfAppend(addOn, time, kind, |time|);
    PriceOfAppend(addOn + time, fees, kind, |fees|);
  }

  function EntryLines(b: Booking): seq<Line>
    requires Valid(b)
  {
    seq(|b.services|, i requires 0 <= i < |b.services| => Line(ServiceEntry(i), Fils(b.services[i]), false))
  }

  lemma {:induction false} PriceOfEntries(b: Booking, kind: Kind, n: nat)
    requires Valid(b) && n <= |b.services|
    ensures PriceOf(EntryLines(b), kind, n) ==
      if kind.ServiceEntry? && kind.i < n then Read(b.services[kind.i], 0) else 0
  {
    if n > 0 {
      PriceOfEntries(b, kind, n - 1);
      OrReads(Null, b.services[n - 1]);
    }
  }

  lemma SplitByKind(b: Booking, kind: Kind)
    requires Valid(b) && Splits(b)
    ensures PriceOf(GrossLines(b), kind, |GrossLines(b)|) ==
      (if kind.ServiceEntry? && kind.i < |b.services| then Read(b.services[kind.i], 0) else 0)
      + PriceOf(Extras(b), kind, |Extras(b)|)
  {
    PriceOfEntries(b, kind, |b.services|);
    PriceOfAppend(EntryLines(b), Extras(b), kind, |Extras(b)|);
  }

  lemma SingleByKind(b: Booking, kind: Kind)
    requires Valid(b) && !Splits(b)
    ensures PriceOf(GrossLines(b), kind, |GrossLines(b)|) ==
      (if kind == MainService then Main(b) else 0) + PriceOf(Extras(b), kind, |Extras(b)|)
  {
    ReadsMain(b);
    var main := [Line(MainService, Arrangement(b), false)];
    assert PriceOf(main, kind, 0) == 0;
    PriceOfAppend(main, Extras(b), kind, |Extras(b)|);
  }

  /** Every gross line is there for its amount: the services by the entry or as one, and each positive extra. */
  lemma LinesByKind(b: Booking, kind: Kind)
    requires Valid(b)
    ensures PriceOf(GrossLines(b), kind, |GrossLines(b)|) ==
      match kind
      case MainService => if SplitUp(b) then 0 else Main(b)
      case ServiceEntry(i) => if SplitUp(b) && i < |b.services| then Read(b.services[i], 0) else 0
      case AddOns => Max(0, AddOn(b))
      case ExtraTime => Max(0, Time(b))
      case ServiceFees => Max(0, Fee(b))
      case LoyaltyReward => 0
  {
    ReadsSplit(b);
    PriceOfExtras(b, kind);
    if Splits(b) { SplitByKind(b, kind); } else { SingleByKind(b, kind); }
  }

  /** The order in which kinds of lines come: services as in the payload, add-ons, extra time, fees. */
  function Rank(b: Booking, kind: Kind): int
  {
    match kind
    case MainService => 0
    case ServiceEntry(i) => i
    case AddOns => |b.services| + 1
    case ExtraTime => |b.services| + 2
    case ServiceFees => |b.services| + 3
    case LoyaltyReward => |b.services| + 4
  }

  ghost predicate Ordered(b: Booking, ls: seq<Line>)
  {
    forall i, j :: 0 <= i < j < |ls| ==> Rank(b, ls[i].kind) < Rank(b, ls[j].kind)
  }

  lemma OrderedAppend(b: Booking, x: seq<Line>, y: seq<Line>, n: int)
    requires Ordered(b, x) && Ordered(b, y)
    requires (forall i :: 0 <= i < |x| ==> Rank(b, x[i].kind) < n) && forall i :: 0 <= i < |y| ==>
        Rank(b, y[i].kind) >= n
    ensures Ordered(b, x + y)
  {
  }

  lemma ExtrasInOrder(b: Booking)
    requires Valid(b)
    ensures Ordered(b, Extras(b))
    ensures forall i :: 0 <= i < |Extras(b)| ==> Rank(b, Extras(b)[i].kind) > |b.services|
  {
    var addOn := OneLine(AddOns, Fils(Or(b.addon, b.pricingAddon)));
    var time := OneLine(ExtraTime, Fils(Or(b.extraMinutes, Or(b.extraTime, b.pricingExtra))));
    var fees := OneLine(ServiceFees, Fils(Or(b.fees, b.pricingFees)));
    OrderedAppend(b, addOn, time, |b.services| + 2);
    OrderedAppend(b, addOn + time, fees, |b.services| + 3);
  }

  lemma EntriesInOrder(b: Booking, extras: seq<Line>)
    requires Valid(b) && Ordered(b, extras)
    requires forall i :: 0 <= i < |extras| ==> Rank(b, extras[i].kind) > |b.services|
    ensures Ordered(b, EntryLines(b) + extras)
    ensures Ordered(b, [Line(MainService, Arrangement(b), false)] + extras)
  {
    OrderedAppend(b, EntryLines(b), extras, |b.services|);
  }

  /** Lines come in that order, and so each kind at most once. */
  lemma LinesInOrder(b: Booking)
    requires Valid(b)
    ensures Ordered(b, GrossLines(b))
  {
    ExtrasInOrder(b);
    EntriesInOrder(b, Extras(b));
  }

  // ---- the sum ----

  lemma SumOfOne(k: Kind, price: int)
    ensures Sum(Prices(OneLine(k, price))) == Max(0, price)
  {
    var ps := Prices(OneLine(k, price));
    if price > 0 { assert ps == [price] && SumTo(ps, 0) == 0; }
  }

  lemma PricesAppend(a: seq<Line>, b: seq<Line>)
    ensures Sum(Prices(a + b)) == Sum(Prices(a)) + Sum(Prices(b))
  {
    assert Prices(a + b) == Prices(a) + Prices(b);
    SumAppend(Prices(a), Prices(b));
  }

  lemma SumOfExtras(b: Booking)
    requires Valid(b)
    ensures Sum(Prices(Extras(b))) == Max(0, AddOn(b)) + Max(0, Time(b)) + Max(0, Fee(b))
  {
    ReadsExtras(b);
    var addOn, time, fees := OneLine(AddOns, AddOn(b)), OneLine(ExtraTime, Time(b)), OneLine(ServiceFees, Fee(b));
    assert Extras(b) == addOn + time + fees;
    SumOfOne(AddOns, AddOn(b));
    SumOfOne(ExtraTime, Time(b));
    SumOfOne(ServiceFees, Fee(b));
    PricesAppend(addOn, time);
    PricesAppend(addOn + time, fees);
  }

  /** Before the discount the lines charge exactly what the payload asks for. */
  lemma GrossCharges(b: Booking)
    requires Valid(b)
    ensures Sum(Prices(GrossLines(b))) == Charge(b)
  {
    ReadsSplit(b);
    ReadsMain(b);
    ReadsEntries(b, |b.services|);
    SumOfExtras(b);
    SplitSum(b);
    SingleSum(b);
  }

  /** No service is charged a negative amount. */
  predicate NothingNegative(b: Booking)
    requires Valid(b)
  {
    if SplitUp(b) then forall i :: 0 <= i < |b.services| ==> Read(b.services[i], 0) >= 0 else Main(b) >= 0
  }

  lemma GrossNonNegative(b: Booking)
    requires Valid(b) && NothingNegative(b)
    ensures NonNegative(Prices(GrossLines(b)))
  {
    ReadsSplit(b);
    ReadsMain(b);
    ExtrasNonNegative(b);
    if Splits(b) {
      forall i | 0 <= i < |b.services| ensures EntryPrices(b)[i] >= 0 { OrReads(Null, b.services[i]); }
      SplitNonNegative(b);
    } else {
      SingleSum(b);
    }
  }

  lemma NonNegativeSum(ps: seq<int>)
    requires NonNegative(ps)
    ensures Sum(ps) >= 0
  {
    SumPosIsSum(ps, |ps|);
  }

  /** What the discount leaves of the charge. */
  function Left(b: Booking): int
    requires Valid(b)
  {
    Max(0, Charge(b) - Max(0, Off(b)))
  }

  lemma RemainingCharges(b: Booking)
    requires Valid(b) && NothingNegative(b)
    ensures var left := Remaining(Prices(GrossLines(b)), Off(b));
      Sum(left) == Left(b) && NonNegative(left) && |left| == |GrossLines(b)| > 0
  {
    GrossNonNegative(b);
    GrossCharges(b);
    NonNegativeSum(Prices(GrossLines(b)));
    if Off(b) > 0 { DiscountExact(Prices(GrossLines(b)), Off(b)); }
    NeverEmpty(b);
  }

  lemma NeverEmpty(b: Booking)
    requires Valid(b)
    ensures |GrossLines(b)| > 0
  {
    if Splits(b) { assert |SplitLines(b)| > 0; } else { assert |SingleLines(b)| > 0; }
  }

  /**
   The whole invoice of a paid booking, by the fields: it charges what the discount leaves; up to 10 fils of
   difference from a positive amount due are put right, a shortfall always, an excess where a line has room for it.
   */
  lemma InvoiceCharges(b: Booking)
    requires Valid(b) && !b.rewarded && !b.voucher && NothingNegative(b)
    ensures Due(b) <= 0 || Due(b) < Left(b) - 10 || Due(b) > Left(b) + 10 ==> InvoiceTotal(b) == Left(b)
    ensures Due(b) > 0 && Left(b) <= Due(b) <= Left(b) + 10 ==> InvoiceTotal(b) == Due(b)
    ensures InvoiceTotal(b) == Due(b) || InvoiceTotal(b) == Left(b)
  {
    ReadsMain(b);
    RemainingCharges(b);
    PaidBookingCharges(b);
    Reconciles(Remaining(Prices(GrossLines(b)), Off(b)), Due(b));
  }

  lemma Reconciles(left: seq<int>, due: int)
    requires NonNegative(left) && |left| > 0
    ensures due <= 0 || due < Sum(left) - 10 || due > Sum(left) + 10 ==> Sum(Reconciled(left, due)) == Sum(left)
    ensures due > 0 && Sum(left) <= due <= Sum(left) + 10 ==> Sum(Reconciled(left, due)) == due
    ensures Sum(Reconciled(left, due)) == due || Sum(Reconciled(left, due)) == Sum(left)
  {
    ReconcileExactly(left, due);
    if due > 0 && Sum(left) <= due <= Sum(left) + 10 { assert left[0] + (due - Sum(left)) >= 0; }
  }

  /** In particular a payload whose amount due is its charge less its discount is invoiced for exactly that. */
  lemma ConsistentBookingIsMet(b: Booking)
    requires Valid(b) && !b.rewarded && !b.voucher && NothingNegative(b)
    requires Off(b) >= 0 && Due(b) == Charge(b) - Off(b) >= 0
    ensures InvoiceTotal(b) == Due(b)
  {
    InvoiceCharges(b);
  }

  /**
   The discount is taken from the front: a line loses something only when all positive lines before it are used up.
   */
  lemma FrontFirst(ps: seq<int>, d: int, i: nat, j: nat)
    requires i < j < |ps| && ps[i] > 0 && Discounted(ps, d)[j] != ps[j]
    ensures Discounted(ps, d)[i] == 0 && Discounted(ps, d)[j] < ps[j]
  {
    SumPosMonotone(ps, i + 1, j);
  }

  /** The difference is put on the first line that does not turn negative by it, and on no other. */
  lemma FirstTakesIt(ps: seq<int>, due: int, k: nat)
    requires k < |ps| && Reconciled(ps, due)[k] != ps[k]
    ensures Reconciled(ps, due)[k] == ps[k] + due - Sum(ps) >= 0
    ensures forall j :: 0 <= j < k ==> ps[j] + due - Sum(ps) < 0 && Reconciled(ps, due)[j] == ps[j]
    ensures forall j :: k < j < |ps| ==> Reconciled(ps, due)[j] == ps[j]
  {
  }

  /** A reward shows its whole value on one free line. */
  lemma RewardShowsItsValue(b: Booking)
    requires Valid(b) && b.rewarded
    ensures InvoiceLines(b) ==
      [Line(LoyaltyReward, Read(b.total, Read(b.pricingTotal, Read(b.arrangement, 0))), true)]
  {
    OrReads(b.pricingTotal, b.arrangement);
    OrReads(b.total, Or(b.pricingTotal, b.arrangement));
  }
}

/** The cart pricing calculator: line items in, an integer-cent price
    breakdown out (subtotal, capped discount, free-shipping threshold and
    progress, shipping fee, total and a 10% donation). */
module CartUtils {
  import opened Wrappers

  /** The cart's configuration constants. The donation rate 0.10 is kept as
      its reciprocal: the donation is one tenth of the discounted subtotal. */
  const DonationDivisor: int := 10
  const FreeShipThresholdCents: int := 20000
  const DefaultShippingCents: int := 1000

  type PositiveInt = d: int | d > 0 witness 1

  /** A catalogue price in dollars, with exact value num / den. */
  datatype Dollars = Dollars(num: int, den: PositiveInt)

  /** One cart entry: a price in dollars and a quantity. */
  datatype LineItem = LineItem(price: Dollars, quantity: int)

  /** What `calcCartTotals` returns; every amount is in cents. */
  datatype CartTotals = CartTotals(
    subtotalCents: int,
    discountsCents: int,
    discountedSubtotalCents: int,
    qualifiesFreeShip: bool,
    shippingAppliedCents: int,
    totalCents: int,
    donationCents: int,
    remainingForFreeShipCents: int,
    freeShipProgressPercent: int)

  /** `dollarsToCents`: `Math.round(dollars * 100)`, the nearest whole cent
      with halves rounded up. The result c satisfies
      c - 1/2 <= 100 * num / den < c + 1/2. */
  function DollarsToCents(d: Dollars): (c: int)
    ensures 2 * c * d.den - d.den <= 200 * d.num < 2 * c * d.den + d.den
  {
    var a := 200 * d.num + d.den;
    var b := 2 * d.den;
    var q := a / b;
    assert b * q <= a < b * q + b;
    assert 2 * q * d.den == b * q;
    q
  }

  /** The cents one line contributes to the subtotal. */
  function LineCents(item: LineItem): int {
    DollarsToCents(item.price) * item.quantity
  }

  /** The `reduce` of `calcCartTotals`: starting from `acc`, add each line's
      cents from left to right. The result is `acc` plus the reference sum. */
  function FoldLineCents(acc: int, items: seq<LineItem>): (r: int)
    ensures r == acc + SumLineCents(items)
    decreases items
  {
    if items == [] then acc
    else
      SumOfConcat([items[0]], items[1..]);
      assert [items[0]] + items[1..] == items;
      assert [items[0]][..0] == [];
      FoldLineCents(acc + LineCents(items[0]), items[1..])
  }

  /** Reference definition of the subtotal: the sum of the line cents. */
  function SumLineCents(items: seq<LineItem>): int {
    if items == [] then 0 else SumLineCents(items[..|items| - 1]) + LineCents(items[|items| - 1])
  }

  /** `Math.max(0, subtotal - discounts)` */
  function DiscountedSubtotal(subtotalCents: int, discountsCents: int): (d: int)
    ensures d >= 0 && d >= subtotalCents - discountsCents
    ensures d == 0 || d == subtotalCents - discountsCents
  {
    if subtotalCents - discountsCents > 0 then subtotalCents - discountsCents else 0
  }

  /** `Math.floor(discounted * 0.10)` */
  function Donation(discountedCents: int): (r: int)
    requires discountedCents >= 0
    ensures 0 <= r <= discountedCents
    ensures DonationDivisor * r <= discountedCents < DonationDivisor * r + DonationDivisor
  {
    discountedCents / DonationDivisor
  }

  /** `Math.max(0, threshold - discounted)` */
  function RemainingForFreeShip(discountedCents: int): (r: int)
    ensures r >= 0
    ensures r == 0 <==> discountedCents >= FreeShipThresholdCents
    ensures r > 0 ==> discountedCents + r == FreeShipThresholdCents
  {
    if FreeShipThresholdCents - discountedCents > 0 then FreeShipThresholdCents - discountedCents else 0
  }

  /** `Math.min(100, Math.round(discounted / threshold * 100))`. With the
      threshold at 20000 the rounded percentage is the nearest whole number
      to discounted / 200, halves rounded up. */
  function FreeShipProgress(discountedCents: int): (p: int)
    requires discountedCents >= 0
    ensures 0 <= p <= 100
    ensures discountedCents >= 19900 ==> p == 100
    ensures discountedCents < 19900 ==> 200 * p - 100 <= discountedCents < 200 * p + 100
  {
    var rounded := (discountedCents * 100 + FreeShipThresholdCents / 2) / FreeShipThresholdCents;
    if rounded < 100 then rounded else 100
  }

  /** `calcCartTotals({lineItems, discountsCents, shippingCents})`. A caller
      that omits the discount passes 0; `None` stands for an omitted or null
      shipping fee. */
  function CalcCartTotals(lineItems: seq<LineItem>, discountsCents: int, shippingCents: Option<int>): (r: CartTotals)
    ensures r.subtotalCents == SumLineCents(lineItems)
    ensures r.discountsCents == discountsCents
    ensures r.discountedSubtotalCents >= 0
    ensures r.discountedSubtotalCents >= r.subtotalCents - discountsCents
    ensures r.discountedSubtotalCents == 0 || r.discountedSubtotalCents == r.subtotalCents - discountsCents
    ensures r.qualifiesFreeShip <==> r.discountedSubtotalCents >= FreeShipThresholdCents
    ensures r.qualifiesFreeShip ==> r.shippingAppliedCents == 0
    ensures !r.qualifiesFreeShip && shippingCents.Some? ==> r.shippingAppliedCents == shippingCents.value
    ensures !r.qualifiesFreeShip && shippingCents.None? ==> r.shippingAppliedCents == DefaultShippingCents
    ensures r.totalCents == r.discountedSubtotalCents + r.shippingAppliedCents
    ensures DonationDivisor * r.donationCents <= r.discountedSubtotalCents < DonationDivisor * r.donationCents + DonationDivisor
    ensures r.remainingForFreeShipCents >= 0
    ensures r.remainingForFreeShipCents == 0 <==> r.qualifiesFreeShip
    ensures !r.qualifiesFreeShip ==> r.discountedSubtotalCents + r.remainingForFreeShipCents == FreeShipThresholdCents
    ensures 0 <= r.freeShipProgressPercent <= 100
    ensures r.qualifiesFreeShip ==> r.freeShipProgressPercent == 100
    ensures r.freeShipProgressPercent == FreeShipProgress(r.discountedSubtotalCents)
    ensures r.donationCents == Donation(r.discountedSubtotalCents)
    ensures r.remainingForFreeShipCents == RemainingForFreeShip(r.discountedSubtotalCents)
  {
    var subtotal := FoldLineCents(0, lineItems);
    var discounted := DiscountedSubtotal(subtotal, discountsCents);
    var qualifies := discounted >= FreeShipThresholdCents;
    var shipping := if qualifies then 0 else shippingCents.GetOr(DefaultShippingCents);
    CartTotals(
      subtotalCents := subtotal,
      discountsCents := discountsCents,
      discountedSubtotalCents := discounted,
      qualifiesFreeShip := qualifies,
      shippingAppliedCents := shipping,
      totalCents := discounted + shipping,
      donationCents := Donation(discounted),
      remainingForFreeShipCents := RemainingForFreeShip(discounted),
      freeShipProgressPercent := FreeShipProgress(discounted))
  }

  // ---------------------------------------------------------------------
  // The subtotal
  // ---------------------------------------------------------------------

  lemma {:induction false} SumAppendOne(items: seq<LineItem>, item: LineItem)
    ensures SumLineCents(items + [item]) == SumLineCents(items) + LineCents(item)
  {
    assert (items + [item])[..|items|] == items;
  }

  /** The subtotal of two carts put together is the sum of their subtotals. */
  lemma {:induction false} SumOfConcat(a: seq<LineItem>, b: seq<LineItem>)
    ensures SumLineCents(a + b) == SumLineCents(a) + SumLineCents(b)
  {
    if b != [] {
      var last := b[|b| - 1];
      var init := b[..|b| - 1];
      assert a + b == (a + init) + [last];
      assert b == init + [last];
      SumOfConcat(a, init);
      SumAppendOne(a + init, last);
      SumAppendOne(init, last);
    } else {
      assert a + b == a;
    }
  }

  /** An empty cart has subtotal 0. */
  lemma EmptyCartSubtotal(discountsCents: int, shippingCents: Option<int>)
    ensures CalcCartTotals([], discountsCents, shippingCents).subtotalCents == 0
  {
  }

  /** The order of the line items does not change the subtotal. */
  lemma {:induction false} SubtotalPermutation(a: seq<LineItem>, b: seq<LineItem>)
    requires multiset(a) == multiset(b)
    ensures SumLineCents(a) == SumLineCents(b)
    decreases |a|
  {
    if a == [] {
      assert |b| == |multiset(b)| == 0;
    } else {
      var last := a[|a| - 1];
      var init := a[..|a| - 1];
      assert a == init + [last];
      assert last in multiset(b);
      var k :| 0 <= k < |b| && b[k] == last;
      var rest := b[..k] + b[k + 1..];
      assert b == b[..k] + [last] + b[k + 1..];
      assert multiset(init) == multiset(a) - multiset{last};
      assert multiset(rest) == multiset(b) - multiset{last};
      SubtotalPermutation(init, rest);
      SumAppendOne(init, last);
      SumOfConcat(b[..k] + [last], b[k + 1..]);
      SumAppendOne(b[..k], last);
      SumOfConcat(b[..k], b[k + 1..]);
    }
  }

  /** A price that is not negative costs a whole number of cents that is
      not negative. */
  lemma DollarsToCentsNonNegative(d: Dollars)
    requires d.num >= 0
    ensures DollarsToCents(d) >= 0
  {
    var c := DollarsToCents(d);
    assert 0 * d.den < (2 * c + 1) * d.den;
    MulCancelLess(0, 2 * c + 1, d.den);
  }

  /** A price already in whole cents converts exactly. */
  lemma DollarsToCentsExact(cents: int)
    ensures DollarsToCents(Dollars(cents, 100)) == cents
  {
  }

  /** With non-negative prices and quantities the subtotal is not negative. */
  lemma {:induction false} SubtotalNonNegative(items: seq<LineItem>)
    requires forall i :: 0 <= i < |items| ==> items[i].price.num >= 0 && items[i].quantity >= 0
    ensures SumLineCents(items) >= 0
  {
    if items != [] {
      SubtotalNonNegative(items[..|items| - 1]);
      DollarsToCentsNonNegative(items[|items| - 1].price);
    }
  }

  // ---------------------------------------------------------------------
  // Properties of the breakdown
  // ---------------------------------------------------------------------

  /** A non-negative discount never raises the subtotal. */
  lemma DiscountNeverRaises(lineItems: seq<LineItem>, discountsCents: int, shippingCents: Option<int>)
    requires discountsCents >= 0
    requires forall i :: 0 <= i < |lineItems| ==> lineItems[i].price.num >= 0 && lineItems[i].quantity >= 0
    ensures var r := CalcCartTotals(lineItems, discountsCents, shippingCents);
      0 <= r.discountedSubtotalCents <= r.subtotalCents
  {
    SubtotalNonNegative(lineItems);
  }

  /** With the default shipping fee or a non-negative one every amount of
      the breakdown is non-negative. */
  lemma BreakdownNonNegative(lineItems: seq<LineItem>, discountsCents: int, shippingCents: Option<int>)
    requires forall i :: 0 <= i < |lineItems| ==> lineItems[i].price.num >= 0 && lineItems[i].quantity >= 0
    requires shippingCents.Some? ==> shippingCents.value >= 0
    ensures var r := CalcCartTotals(lineItems, discountsCents, shippingCents);
      r.subtotalCents >= 0 && r.discountedSubtotalCents >= 0 && r.shippingAppliedCents >= 0 &&
      r.totalCents >= 0 && r.donationCents >= 0 && r.remainingForFreeShipCents >= 0
  {
    SubtotalNonNegative(lineItems);
  }

  /** The shipping fee never affects the donation, nor anything derived from
      the discounted subtotal alone. */
  lemma DonationIgnoresShipping(lineItems: seq<LineItem>, discountsCents: int, s1: Option<int>, s2: Option<int>)
    ensures var r1 := CalcCartTotals(lineItems, discountsCents, s1);
      var r2 := CalcCartTotals(lineItems, discountsCents, s2);
      r1.donationCents == r2.donationCents &&
      r1.qualifiesFreeShip == r2.qualifiesFreeShip &&
      r1.remainingForFreeShipCents == r2.remainingForFreeShipCents &&
      r1.freeShipProgressPercent == r2.freeShipProgressPercent
  {
  }

  /** The threshold is tested on the discounted subtotal: a discount can
      take a cart whose raw subtotal reaches the threshold below it. */
  lemma ThresholdUsesDiscountedSubtotal()
    ensures var r := CalcCartTotals([LineItem(Dollars(200, 1), 1)], 1, None);
      r.subtotalCents == 20000 && !r.qualifiesFreeShip && r.shippingAppliedCents == 1000
  {
  }

  /** Exactly 20000 cents qualifies for free shipping; 19999 does not and pays
      the default fee. */
  lemma ThresholdBoundary()
    ensures var r := CalcCartTotals([LineItem(Dollars(200, 1), 1)], 0, None);
      r.qualifiesFreeShip && r.shippingAppliedCents == 0 && r.totalCents == 20000
    ensures var r := CalcCartTotals([LineItem(Dollars(19999, 100), 1)], 0, None);
      !r.qualifiesFreeShip && r.shippingAppliedCents == 1000 && r.totalCents == 20999
  {
  }

  /** An explicit shipping fee is used even when it is 0. */
  lemma ExplicitZeroShipping(lineItems: seq<LineItem>, discountsCents: int)
    requires !CalcCartTotals(lineItems, discountsCents, Some(0)).qualifiesFreeShip
    ensures CalcCartTotals(lineItems, discountsCents, Some(0)).shippingAppliedCents == 0
    ensures CalcCartTotals(lineItems, discountsCents, None).shippingAppliedCents == DefaultShippingCents
  {
  }

  /** A discount larger than the subtotal is capped: 5000 cents of goods
      with a 9000 cent discount cost only the shipping fee. */
  lemma DiscountCapExample()
    ensures var r := CalcCartTotals([LineItem(Dollars(50, 1), 1)], 9000, None);
      r.subtotalCents == 5000 && r.discountedSubtotalCents == 0 &&
      r.totalCents == r.shippingAppliedCents == 1000
  {
  }

  /** The donation is truncated, not rounded: 10099 cents give 1009. */
  lemma DonationTruncates()
    ensures Donation(10099) == 1009
  {
  }

  /** The worked example: 2 x $45 and 1 x $30, a $10 discount and no
      shipping fee given. */
  lemma WorkedExample()
    ensures CalcCartTotals([LineItem(Dollars(45, 1), 2), LineItem(Dollars(30, 1), 1)], 1000, None)
      == CartTotals(12000, 1000, 11000, false, 1000, 12000, 1100, 9000, 55)
  {
  }

  /** As the discounted subtotal grows, the progress never falls and the
      amount still to spend never rises. */
  lemma FreeShipMonotone(d1: int, d2: int)
    requires 0 <= d1 <= d2
    ensures FreeShipProgress(d1) <= FreeShipProgress(d2)
    ensures RemainingForFreeShip(d1) >= RemainingForFreeShip(d2)
    ensures Donation(d1) <= Donation(d2)
  {
    var n1 := d1 * 100 + FreeShipThresholdCents / 2;
    var n2 := d2 * 100 + FreeShipThresholdCents / 2;
    DivMonotone(n1, n2, FreeShipThresholdCents);
    DivMonotone(d1, d2, DonationDivisor);
  }

  lemma DivMonotone(a: int, b: int, k: int)
    requires 0 <= a <= b && k > 0
    ensures a / k <= b / k
  {
    assert (a / k) * k <= a;
    assert b < (b / k + 1) * k;
    MulCancelLess(a / k, b / k + 1, k);
  }

  lemma MulCancelLess(x: int, y: int, k: int)
    requires k > 0 && x * k < y * k
    ensures x < y
  {
  }

  /** Between 19900 and 19999 cents the progress already reads 100% while
      100 cents or less remain to be spent before shipping is free. */
  lemma ProgressFullBeforeFreeShipping()
    ensures FreeShipProgress(19900) == 100 && RemainingForFreeShip(19900) == 100
  {
  }
}

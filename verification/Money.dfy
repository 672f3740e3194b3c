/** Exact EUR arithmetic in integer minor units (cents). Every number is a 32-bit amount checked explicitly. */
module Money {
  import opened Basics

  const MAX_COMMERCE_AMOUNT: int := 2_000_000_000
  const MAX_MONEY_MINOR: int := 2_147_483_647
  const MAX_WEIGHT_AMOUNT_MG: int := 100_000_000
  const WEIGHT_ORDER_STEP_MG: int := 100_000
  const CHECKOUT_SHIPPING_MINOR: int := 500
  const FIRST_PURCHASE_DISCOUNT_BASIS_POINTS: int := 600

  datatype SaleKind = Kit | Package | Weight

  datatype AmountRules = AmountRules(maximum: Option<int>, minimum: int, step: int, saleKind: SaleKind)

  function Min(a: int, b: int): int { if a <= b then a else b }

  function Max(a: int, b: int): int { if a >= b then a else b }

  function MaximumAmount(rules: AmountRules): int {
    if rules.saleKind == Weight
    then Min(if rules.maximum.Some? then rules.maximum.value else MAX_WEIGHT_AMOUNT_MG, MAX_WEIGHT_AMOUNT_MG)
    else if rules.maximum.Some? then rules.maximum.value else MAX_COMMERCE_AMOUNT
  }

  // A zero step makes the remainder NaN in the source, which is never equal to zero.
  predicate IsValidOrderAmount(amount: int, rules: AmountRules) {
    && rules.minimum <= amount <= MaximumAmount(rules)
    && (rules.saleKind == Weight ==>
          rules.minimum == WEIGHT_ORDER_STEP_MG && rules.step == WEIGHT_ORDER_STEP_MG)
    && rules.step != 0
    && (amount - rules.minimum) % rules.step == 0
  }

  predicate ProportionalInput(priceMinor: int, amount: int, basis: int) {
    && 0 <= priceMinor
    && 1 <= amount <= MAX_COMMERCE_AMOUNT
    && 1 <= basis <= MAX_COMMERCE_AMOUNT
  }

  function RoundHalfUp(numerator: int, basis: int): int
    requires 0 <= numerator && 1 <= basis
  {
    (2 * numerator + basis) / (2 * basis)
  }

  function LineTotalMinor(priceMinor: int, amount: int, basis: int): (r: Outcome<int>) {
    if !ProportionalInput(priceMinor, amount, basis) then Rejected(MoneyOutOfRange)
    else
      var product := priceMinor * amount;
      assert 0 <= product by { ProductNonNegative(priceMinor, amount); }
      var rounded := RoundHalfUp(product, basis);
      if rounded > MAX_MONEY_MINOR then Rejected(MoneyOutOfRange) else Ok(rounded)
  }

  function AddMoneyMinor(left: int, right: int): (r: Outcome<int>) {
    if left < 0 || right < 0 || left + right > MAX_MONEY_MINOR then Rejected(MoneyOutOfRange) else Ok(left + right)
  }

  /** The running subtotal every checkout path computes, line by line from `start`. */
  function AddAll(start: int, totals: seq<int>): (r: Outcome<int>)
    decreases |totals|
  {
    if totals == [] then Ok(start)
    else match AddMoneyMinor(start, totals[0])
      case Ok(sum) => AddAll(sum, totals[1..])
      case Rejected(e) => Rejected(e)
  }

  datatype DiscountKind = NoDiscount | FirstPurchase

  datatype Pricing = Pricing(
    discountKind: DiscountKind,
    discountBasisPoints: int,
    discountMinor: int,
    itemSubtotalMinor: int,
    shippingMinor: int,
    totalMinor: int)

  function CheckoutPricing(subtotal: int, applyDiscount: bool): (r: Outcome<Pricing>) {
    if subtotal < 0 || subtotal > MAX_MONEY_MINOR then Rejected(MoneyOutOfRange)
    else
      var points := if applyDiscount then FIRST_PURCHASE_DISCOUNT_BASIS_POINTS else 0;
      var discount := if applyDiscount
                      then (subtotal * FIRST_PURCHASE_DISCOUNT_BASIS_POINTS + 5_000) / 10_000 else 0;
      match AddMoneyMinor(subtotal - discount, CHECKOUT_SHIPPING_MINOR)
      case Rejected(e) => Rejected(e)
      case Ok(total) =>
        Ok(Pricing(if applyDiscount then FirstPurchase else NoDiscount,
                   points, discount, subtotal, CHECKOUT_SHIPPING_MINOR, total))
  }

  // ----- Facts about rounding -----

  lemma ProductNonNegative(a: int, b: int)
    requires 0 <= a && 0 <= b
    ensures 0 <= a * b
  {
  }

  lemma StepUp(d: int, x: int, y: int)
    requires 0 <= d && x < y
    ensures d * x + d <= d * y
  {
    ProductNonNegative(d, y - x - 1);
    assert d * y == d * x + d + d * (y - x - 1);
  }

  /** The quotient is the one integer within half a unit of numerator/basis, a tie going up. */
  lemma RoundHalfUpIsNearest(numerator: int, basis: int)
    requires 0 <= numerator && 1 <= basis
    ensures 0 <= RoundHalfUp(numerator, basis)
    ensures 2 * numerator - basis < 2 * basis * RoundHalfUp(numerator, basis) <= 2 * numerator + basis
  {
    var d := 2 * basis;
    var q := (2 * numerator + basis) / d;
    assert 2 * numerator + basis == d * q + (2 * numerator + basis) % d;
    if q <= -1 {
      StepUp(d, q, 0);
      assert false;
    }
  }

  ghost predicate Nearest(numerator: int, basis: int, cents: int) {
    2 * numerator - basis < 2 * basis * cents <= 2 * numerator + basis
  }

  lemma OnlyOneNearest(numerator: int, basis: int, x: int, y: int)
    requires 1 <= basis
    requires Nearest(numerator, basis, x) && Nearest(numerator, basis, y)
    ensures x == y
  {
    if x < y {
      StepUp(2 * basis, x, y);
    } else if y < x {
      StepUp(2 * basis, y, x);
    }
  }

  /** A line total is accepted exactly when its inputs and its nearest cent are in range, and is then that cent. */
  lemma LineTotalIsNearestCent(priceMinor: int, amount: int, basis: int, cents: int)
    ensures (LineTotalMinor(priceMinor, amount, basis) == Ok(cents))
         == (&& ProportionalInput(priceMinor, amount, basis)
             && Nearest(priceMinor * amount, basis, cents)
             && cents <= MAX_MONEY_MINOR)
  {
    if ProportionalInput(priceMinor, amount, basis) {
      ProductNonNegative(priceMinor, amount);
      RoundHalfUpIsNearest(priceMinor * amount, basis);
      var r := RoundHalfUp(priceMinor * amount, basis);
      assert Nearest(priceMinor * amount, basis, r);
      if Nearest(priceMinor * amount, basis, cents) {
        OnlyOneNearest(priceMinor * amount, basis, r, cents);
      }
    }
  }

  lemma NearestMonotone(low: int, high: int, basis: int, x: int, y: int)
    requires 1 <= basis && low <= high
    requires Nearest(low, basis, x) && Nearest(high, basis, y)
    ensures x <= y
  {
    if y < x { StepUp(2 * basis, y, x); }
  }

  /** Buying more never costs less. */
  lemma LineTotalMonotone(priceMinor: int, amount: int, larger: int, basis: int)
    requires amount <= larger
    requires LineTotalMinor(priceMinor, amount, basis).Ok?
    requires LineTotalMinor(priceMinor, larger, basis).Ok?
    ensures 0 <= LineTotalMinor(priceMinor, amount, basis).value <= LineTotalMinor(priceMinor, larger, basis).value
  {
    var low := LineTotalMinor(priceMinor, amount, basis).value;
    var high := LineTotalMinor(priceMinor, larger, basis).value;
    LineTotalIsNearestCent(priceMinor, amount, basis, low);
    LineTotalIsNearestCent(priceMinor, larger, basis, high);
    ProductNonNegative(priceMinor, amount);
    RoundHalfUpIsNearest(priceMinor * amount, basis);
    ProductNonNegative(priceMinor, larger - amount);
    assert priceMinor * larger == priceMinor * amount + priceMinor * (larger - amount);
    NearestMonotone(priceMinor * amount, priceMinor * larger, basis, low, high);
  }

  // ----- Facts about bounded summation -----

  ghost function Total(xs: seq<int>): int {
    if xs == [] then 0 else xs[0] + Total(xs[1..])
  }

  lemma {:induction false} TotalNonNegative(xs: seq<int>)
    requires forall i :: 0 <= i < |xs| ==> 0 <= xs[i]
    ensures 0 <= Total(xs)
  {
    if xs != [] { TotalNonNegative(xs[1..]); }
  }

  /** Bounded addition of cents succeeds exactly when the grand total fits, whatever the order. */
  lemma {:induction false} AddAllIsBoundedTotal(start: int, xs: seq<int>)
    requires 0 <= start <= MAX_MONEY_MINOR
    requires forall i :: 0 <= i < |xs| ==> 0 <= xs[i]
    ensures AddAll(start, xs)
         == if start + Total(xs) <= MAX_MONEY_MINOR then Ok(start + Total(xs)) else Rejected(MoneyOutOfRange)
    decreases |xs|
  {
    if xs != [] {
      TotalNonNegative(xs[1..]);
      if start + xs[0] <= MAX_MONEY_MINOR { AddAllIsBoundedTotal(start + xs[0], xs[1..]); }
    }
  }

  lemma {:induction false} TotalOfParts(xs: seq<int>, ys: seq<int>)
    ensures Total(xs + ys) == Total(xs) + Total(ys)
  {
    if xs == [] {
      assert xs + ys == ys;
    } else {
      assert (xs + ys)[1..] == xs[1..] + ys;
      TotalOfParts(xs[1..], ys);
    }
  }

  lemma {:induction false} TotalIgnoresOrder(xs: seq<int>, ys: seq<int>)
    requires multiset(xs) == multiset(ys)
    ensures Total(xs) == Total(ys)
  {
    assert |multiset(xs)| == |multiset(ys)|;
    if xs != [] {
      var i := MatchHead(xs, ys);
      TotalIgnoresOrder(xs[1..], ys[..i] + ys[i + 1..]);
      TotalOfParts(ys[..i], [ys[i]] + ys[i + 1..]);
      TotalOfParts([ys[i]], ys[i + 1..]);
      TotalOfParts(ys[..i], ys[i + 1..]);
    }
  }

  /** Permuting the lines changes neither the sum nor whether it is accepted. */
  lemma SubtotalIgnoresLineOrder(xs: seq<int>, ys: seq<int>)
    requires multiset(xs) == multiset(ys)
    requires forall i :: 0 <= i < |xs| ==> 0 <= xs[i]
    ensures AddAll(0, xs) == AddAll(0, ys)
  {
    forall i | 0 <= i < |ys| ensures 0 <= ys[i] {
      assert ys[i] in multiset(xs);
    }
    AddAllIsBoundedTotal(0, xs);
    AddAllIsBoundedTotal(0, ys);
    TotalIgnoresOrder(xs, ys);
  }

  // ----- Deviation of a rounded sum from the exact one -----

  datatype PricedLine = PricedLine(priceMinor: int, amount: int, basis: int)

  ghost predicate Priced(lines: seq<PricedLine>) {
    forall i :: 0 <= i < |lines| ==> LineTotalMinor(lines[i].priceMinor, lines[i].amount, lines[i].basis).Ok?
  }

  ghost function ExactTotal(lines: seq<PricedLine>): real
    requires Priced(lines)
  {
    if lines == [] then 0.0
    else
      assert ProportionalInput(lines[0].priceMinor, lines[0].amount, lines[0].basis);
      (lines[0].priceMinor * lines[0].amount) as real / lines[0].basis as real + ExactTotal(lines[1..])
  }

  ghost function RoundedTotal(lines: seq<PricedLine>): int
    requires Priced(lines)
  {
    if lines == [] then 0
    else LineTotalMinor(lines[0].priceMinor, lines[0].amount, lines[0].basis).value + RoundedTotal(lines[1..])
  }

  lemma TimesPositive(b: real, x: real)
    requires b > 0.0 && x > 0.0
    ensures b * x > 0.0
  {
  }

  lemma WithinHalf(b: real, x: real, scaled: real)
    requires b > 0.0 && b * x == scaled && -b <= 2.0 * scaled <= b
    ensures -0.5 <= x <= 0.5
  {
    if x > 0.5 {
      TimesPositive(b, x - 0.5);
      assert false;
    }
    if x < -0.5 {
      TimesPositive(b, -0.5 - x);
      assert false;
    }
  }

  lemma TimesQuotient(n: real, b: real, c: real)
    requires b > 0.0
    ensures b * (c - n / b) == b * c - n
  {
    assert b * (n / b) == n;
  }

  lemma IntProductAsReal(x: int, y: int)
    ensures (x * y) as real == x as real * y as real
  {
  }

  lemma HalfUnit(numerator: int, basis: int, cents: int)
    requires 1 <= basis
    requires Nearest(numerator, basis, cents)
    ensures -0.5 <= cents as real - numerator as real / basis as real <= 0.5
  {
    var scaled := basis * cents;
    var b, n, c := basis as real, numerator as real, cents as real;
    assert 2 * basis * cents == 2 * scaled;
    assert -b <= 2.0 * (scaled as real - n) <= b;
    TimesQuotient(n, b, c);
    IntProductAsReal(basis, cents);
    WithinHalf(b, c - n / b, scaled as real - n);
  }

  /** k lines, each rounded on its own, are together at most k/2 cents away from the exact sum. */
  lemma {:induction false} RoundingErrorIsBounded(lines: seq<PricedLine>)
    requires Priced(lines)
    ensures -(|lines| as real) / 2.0 <= RoundedTotal(lines) as real - ExactTotal(lines) <= |lines| as real / 2.0
  {
    if lines != [] {
      var line := lines[0];
      var cents := LineTotalMinor(line.priceMinor, line.amount, line.basis).value;
      LineTotalIsNearestCent(line.priceMinor, line.amount, line.basis, cents);
      HalfUnit(line.priceMinor * line.amount, line.basis, cents);
      RoundingErrorIsBounded(lines[1..]);
    }
  }

  // ----- Facts about checkout pricing -----

  /**
   * Pricing succeeds exactly when the total fits in 32 bits; the discount is the nearest cent to 6% of the items, a tie
   * going up, lies between nothing and the items' price, and never touches shipping.
   */
  lemma PricingIsExact(subtotal: int, applyDiscount: bool)
    ensures CheckoutPricing(subtotal, applyDiscount).Ok? ==>
      var p := CheckoutPricing(subtotal, applyDiscount).value;
      && p.itemSubtotalMinor == subtotal && p.shippingMinor == 500
      && 0 <= p.discountMinor <= subtotal
      && p.totalMinor == subtotal - p.discountMinor + 500
      && 500 <= p.totalMinor <= MAX_MONEY_MINOR
      && (p.discountKind == FirstPurchase <==> applyDiscount)
      && (applyDiscount ==>
            12 * subtotal - 100 < 200 * p.discountMinor <= 12 * subtotal + 100
            && p.discountBasisPoints == 600)
      && (!applyDiscount ==> p.discountMinor == 0 && p.discountBasisPoints == 0)
    ensures CheckoutPricing(subtotal, applyDiscount).Ok?
         == (0 <= subtotal <= if applyDiscount then MAX_MONEY_MINOR else MAX_MONEY_MINOR - 500)
  {
  }
}

/**
 Fixed-price rating: quantity x seconds x price per unit second, as an exact rational, rounded up to a
 whole minor unit that must fit a signed 64-bit integer.
 */
module Billing {
  import opened Basics
  import opened Text

  const TWO_62 := 0x4000_0000_0000_0000
  const NANOS := 1_000_000_000

  datatype Result<+T> = Ok(value: T) | Err(error: Error)
  datatype Error = UnknownRate | InvalidUsage

  // ----- rationals in lowest terms -----

  function Gcd(a: nat, b: nat): (g: nat)
    ensures a > 0 || b > 0 ==> g > 0
    decreases b
  {
    if b == 0 then a else Gcd(b, a % b)
  }

  lemma Multiply(a: int, b: int, k: int)
    requires a <= b && k >= 0
    ensures a * k <= b * k
  {
  }

  lemma DivisionUnique(n: nat, q: int, r: nat, d: nat)
    requires n == q * d + r && r < d
    ensures n / d == q && n % d == r
  {
    var q', r' := n / d, n % d;
    assert n == q' * d + r';
    assert (q - q') * d == q * d - q' * d;
    if q > q' { Multiply(1, q - q', d); }
    if q < q' {
      assert (q' - q) * d == q' * d - q * d;
      Multiply(1, q' - q, d);
    }
  }

  lemma Regroup(c: int, i: int, g: int, j: int, a: int, b: int, r: int)
    requires a == c * b + r && b == i * g && r == j * g
    ensures a == (c * i + j) * g
  {
    assert c * (i * g) == (c * i) * g;
    assert (c * i + j) * g == (c * i) * g + j * g;
  }

  /** The divisor divides both numbers; the quotients are returned. */
  lemma {:induction false} GcdDivides(a: nat, b: nat) returns (i: nat, j: nat)
    ensures a == i * Gcd(a, b) && b == j * Gcd(a, b)
    decreases b
  {
    if b == 0 {
      i, j := 1, 0;
    } else {
      var i', j' := GcdDivides(b, a % b);
      Regroup(a / b, i', Gcd(b, a % b), j', a, b, a % b);
      NatProduct(a / b, i');
      i, j := (a / b) * i' + j', i';
    }
  }

  lemma NatProduct(a: nat, b: nat)
    ensures a * b >= 0
  {
  }

  /** Every common divisor divides it, so dividing it out leaves lowest terms. */
  lemma {:induction false} CommonDivisor(a: nat, b: nat, k: nat, x: nat, y: nat) returns (z: nat)
    requires k > 0 && a == x * k && b == y * k
    ensures Gcd(a, b) == z * k
    decreases b
  {
    if b == 0 {
      z := x;
    } else {
      var q := a / b;
      assert a == q * b + a % b;
      assert (x - q * y) * k == x * k - q * (y * k);
      assert x - q * y >= 0 by { if x - q * y < 0 { Multiply(x - q * y, -1, k); } }
      z := CommonDivisor(b, a % b, k, y, x - q * y);
    }
  }

  function ReducedNum(num: nat, den: nat): nat
    requires den > 0
  {
    num / Gcd(num, den)
  }

  function ReducedDen(num: nat, den: nat): nat
    requires den > 0
  {
    den / Gcd(num, den)
  }

  lemma Reduced(num: nat, den: nat)
    requires den > 0
    ensures var g := Gcd(num, den);
      g > 0 && num == ReducedNum(num, den) * g && den == ReducedDen(num, den) * g && ReducedDen(num, den) > 0
  {
    var i, j := GcdDivides(num, den);
    var g := Gcd(num, den);
    DivisionUnique(num, i, 0, g);
    DivisionUnique(den, j, 0, g);
  }

  lemma MultipleGcd(k: nat, b: nat)
    requires b > 0 && k * b >= 0
    ensures Gcd(k * b, b) == b
  {
    DivisionUnique(k * b, k, 0, b);
    assert Gcd(b, 0) == b;
  }

  /** A rational in lowest terms has denominator 1 exactly when it is an integer. */
  lemma IntegerIffUnitDenominator(num: nat, den: nat)
    requires den > 0
    ensures ReducedDen(num, den) == 1 <==> num % den == 0
  {
    Reduced(num, den);
    var g, n := Gcd(num, den), ReducedNum(num, den);
    if ReducedDen(num, den) == 1 {
      DivisionUnique(num, n, 0, den);
    }
    if num % den == 0 {
      var k := num / den;
      assert num == k * den;
      MultipleGcd(k, den);
    }
  }

  // ----- rounding up -----

  /** c - 1 < num / den <= c */
  predicate IsCeiling(c: int, num: int, den: int) {
    (c - 1) * den < num <= c * den
  }

  /** `num / den` is what the rational holds; big rationals keep it in lowest terms. */
  function CeilRatInt64(num: int, den: nat): Result<int>
    requires den > 0
  {
    if num < 0 then Err(InvalidUsage)
    else
      var n, d := ReducedNum(num, den), ReducedDen(num, den);
      if d != 1 && n >= TWO_62 then Err(InvalidUsage)
      else if d == 0 then Err(InvalidUsage)
      else
        var quotient, remainder := n / d, n % d;
        var rounded := if remainder != 0 then quotient + 1 else quotient;
        if rounded > MAX_INT64 then Err(InvalidUsage) else Ok(rounded)
  }

  lemma CeilingOfQuotient(n: nat, d: nat)
    requires d > 0
    ensures IsCeiling(if n % d != 0 then n / d + 1 else n / d, n, d)
  {
    var q := n / d;
    assert n == q * d + n % d;
    assert (q + 1 - 1) * d == q * d && (q + 1) * d == q * d + d && (q - 1) * d == q * d - d;
  }

  lemma ScaleCeiling(c: int, n: int, d: int, g: int)
    requires g > 0 && IsCeiling(c, n, d)
    ensures IsCeiling(c, n * g, d * g)
  {
    assert (c - 1) * (d * g) == ((c - 1) * d) * g && c * (d * g) == (c * d) * g;
    Multiply((c - 1) * d + 1, n, g);
    Multiply(n, c * d, g);
    assert ((c - 1) * d + 1) * g == ((c - 1) * d) * g + g;
  }

  lemma CeilingUnique(a: int, b: int, num: int, den: int)
    requires den > 0 && IsCeiling(a, num, den) && IsCeiling(b, num, den)
    ensures a == b
  {
    if a < b { Multiply(a, b - 1, den); }
    if b < a { Multiply(b, a - 1, den); }
  }

  /**
   Rounding succeeds exactly for non-negative integers that fit 64 bits, and for other non-negative values
   whose numerator in lowest terms has at most 62 bits; it then returns the exact ceiling.
   */
  lemma CeilRatExact(num: int, den: nat)
    requires den > 0
    ensures var r := CeilRatInt64(num, den);
      && (r.Ok? <==> num >= 0 && if num % den == 0 then num <= MAX_INT64 * den else num < TWO_62 * Gcd(num, den))
      && (r.Ok? ==> IsCeiling(r.value, num, den) && 0 <= r.value <= MAX_INT64)
  {
    if num >= 0 {
      Reduced(num, den);
      IntegerIffUnitDenominator(num, den);
      var g, n, d := Gcd(num, den), ReducedNum(num, den), ReducedDen(num, den);
      CeilingOfQuotient(n, d);
      ScaleCeiling(if n % d != 0 then n / d + 1 else n / d, n, d, g);
      NumeratorBound(n, d, g);
      QuotientSmall(n, d);
      NatProduct(n / d, d);
      hide Gcd, IsCeiling, ReducedNum, ReducedDen;
      if d == 1 { assert n % d == 0 && n / d == n; }
    }
  }

  /** Bounds on a reduced numerator, said of the numerator itself. */
  lemma NumeratorBound(n: nat, d: nat, g: nat)
    requires g > 0 && d > 0
    ensures n * g < TWO_62 * g <==> n < TWO_62
    ensures d == 1 ==> (n * g <= MAX_INT64 * g <==> n <= MAX_INT64)
  {
    if n < TWO_62 { Multiply(n + 1, TWO_62, g); assert (n + 1) * g == n * g + g; } else { Multiply(TWO_62, n, g); }
    if n <= MAX_INT64 { Multiply(n, MAX_INT64, g); } else { Multiply(MAX_INT64 + 1, n, g); }
  }

  lemma QuotientSmall(n: nat, d: nat)
    requires d >= 1
    ensures n / d <= n
  {
    assert n == (n / d) * d + n % d;
    Multiply(1, d, n / d);
  }

  /** The bit bound is tighter than 64-bit range: this amount rounds to 2^62 + 1 and is refused. */
  lemma FittingAmountRefused()
    ensures IsCeiling(TWO_62 + 1, 2 * TWO_62 + 1, 2) && TWO_62 + 1 <= MAX_INT64
    ensures CeilRatInt64(2 * TWO_62 + 1, 2).Err?
  {
    CeilRatExact(2 * TWO_62 + 1, 2);
    assert Gcd(2 * TWO_62 + 1, 2) == 1 by {
      assert (2 * TWO_62 + 1) % 2 == 1;
      assert Gcd(2, 1) == Gcd(1, 0) == 1;
    }
  }

  // ----- rating -----

  datatype Rate = Rate(priceBook: string, version: int, minorPerUnit: int, currency: string)

  /** A parsed decimal or fraction; None when the text is not a number. */
  datatype Quantity = Number(num: int, den: int) | NotANumber

  // Instants are nanoseconds; None is the zero time.
  datatype Instant = Unset | Instant(ns: int)

  datatype Fact = Fact(
    id: string, tenant: string, project: string, resourceClass: string, quantity: Quantity,
    start: Instant, end: Instant)

  datatype Rated = Rated(factId: string, priceBook: string, version: int, amount: int, currency: string)

  /** Differences of instants saturate at the largest 64-bit duration. */
  function Elapsed(start: int, end: int): int {
    if end - start > MAX_INT64 then MAX_INT64 else end - start
  }

  function CostNum(quantity: Quantity, elapsed: int, minorPerUnit: int): int
    requires quantity.Number?
  {
    quantity.num * elapsed * minorPerUnit
  }

  function CostDen(quantity: Quantity): int
    requires quantity.Number?
  {
    quantity.den * NANOS
  }

  predicate WellFormed(f: Fact) {
    f.quantity.Number? ==> f.quantity.den > 0
  }

  function RateUsage(rates: map<string, Rate>, f: Fact): Result<Rated>
    requires WellFormed(f)
  {
    var resourceClass := Trim(f.resourceClass);
    if resourceClass !in rates then Err(UnknownRate)
    else if Blank(f.id) || Blank(f.resourceClass) || f.tenant == "" || f.project == ""
            || f.start.Unset? || f.end.Unset? || f.end.ns <= f.start.ns then Err(InvalidUsage)
    else if f.quantity.NotANumber? || f.quantity.num <= 0 then Err(InvalidUsage)
    else
      var rate := rates[resourceClass];
      match CeilRatInt64(CostNum(f.quantity, Elapsed(f.start.ns, f.end.ns), rate.minorPerUnit), CostDen(f.quantity))
      case Err(e) => Err(e)
      case Ok(amount) => Ok(Rated(f.id, rate.priceBook, rate.version, amount, rate.currency))
  }

  /** A rated amount is the exact ceiling of quantity x seconds x price, and fits 64 bits. */
  lemma RatedExactly(rates: map<string, Rate>, f: Fact)
    requires WellFormed(f) && RateUsage(rates, f).Ok?
    ensures var rate := rates[Trim(f.resourceClass)]; var amount := RateUsage(rates, f).value.amount;
      && Trim(f.resourceClass) in rates && f.quantity.Number? && f.quantity.num > 0
      && f.start.Instant? && f.end.Instant?
      && IsCeiling(amount, CostNum(f.quantity, Elapsed(f.start.ns, f.end.ns), rate.minorPerUnit), CostDen(f.quantity))
      && 0 <= amount <= MAX_INT64
      && RateUsage(rates, f).value.currency == rate.currency && RateUsage(rates, f).value.factId == f.id
  {
    var rate := rates[Trim(f.resourceClass)];
    CeilRatExact(CostNum(f.quantity, Elapsed(f.start.ns, f.end.ns), rate.minorPerUnit), CostDen(f.quantity));
  }

  /** The time of a fact in nanoseconds, up to the longest 64-bit duration. */
  function Time(f: Fact): int
    requires f.start.Instant? && f.end.Instant?
  {
    var ns := f.end.ns - f.start.ns;
    if ns <= 0x7FFF_FFFF_FFFF_FFFF then ns else 0x7FFF_FFFF_FFFF_FFFF
  }

  /** Everything a fact has to carry to be rated. */
  predicate Complete(f: Fact) {
    && Trim(f.id) != "" && Trim(f.resourceClass) != "" && f.tenant != "" && f.project != ""
    && f.start.Instant? && f.end.Instant? && f.start.ns < f.end.ns
    && f.quantity.Number? && f.quantity.num > 0
  }

  /**
   Exactly the complete facts of a known class are rated whose cost does not exceed what the rounding takes;
   the record then names the fact and its rate.
   */
  lemma RatedIff(rates: map<string, Rate>, f: Fact)
    requires WellFormed(f)
    ensures var r := RateUsage(rates, f);
      && (r == Err(UnknownRate) <==> Trim(f.resourceClass) !in rates)
      && (r.Ok? <==>
            && Trim(f.resourceClass) in rates && Complete(f)
            && var rate := rates[Trim(f.resourceClass)];
            var num, den := f.quantity.num * Time(f) * rate.minorPerUnit, f.quantity.den * 1_000_000_000;
            num >= 0 && if num % den == 0 then num <= MAX_INT64 * den else num < TWO_62 * Gcd(num, den))
      && (r.Ok? ==>
            var rate := rates[Trim(f.resourceClass)];
            && r.value == Rated(f.id, rate.priceBook, rate.version, r.value.amount, rate.currency)
            && IsCeiling(r.value.amount, f.quantity.num * Time(f) * rate.minorPerUnit,
                         f.quantity.den * 1_000_000_000))
  {
    hide Trim, CeilRatInt64, IsCeiling, Gcd;
    if Trim(f.resourceClass) in rates && Complete(f) {
      assert Elapsed(f.start.ns, f.end.ns) == Time(f);
      CeilRatExact(CostNum(f.quantity, Elapsed(f.start.ns, f.end.ns), rates[Trim(f.resourceClass)].minorPerUnit),
                   CostDen(f.quantity));
    }
    CeilRatErrors();
  }

  lemma CeilRatErrors()
    ensures forall num, den: nat {:trigger CeilRatInt64(num, den)} :: den > 0 && CeilRatInt64(num, den).Err? ==>
      CeilRatInt64(num, den).error == InvalidUsage
  {
  }

  const ONE_RATE := map["gpu" := Rate("book", 1, 1, "USD")]

  function SecondOf(quantity: Quantity): Fact {
    Fact("f", "t", "p", "gpu", quantity, Instant(1), Instant(1 + NANOS))
  }

  lemma OneRateFound()
    ensures !Blank("f") && Trim("gpu") == "gpu" && !Blank("gpu")
  {
    NothingToTrim("f");
    NothingToTrim("gpu");
  }

  /** So rating refuses 2^62 + 1/2 units for one second at one minor unit, whose amount fits. */
  lemma FittingUsageRefused()
    ensures var f := SecondOf(Number(2 * TWO_62 + 1, 2));
      && WellFormed(f) && RateUsage(ONE_RATE, f) == Err(InvalidUsage)
      && IsCeiling(TWO_62 + 1, CostNum(f.quantity, Elapsed(f.start.ns, f.end.ns), 1), CostDen(f.quantity))
      && TWO_62 + 1 <= MAX_INT64
  {
    OneRateFound();
    var num, den := (2 * TWO_62 + 1) * NANOS, 2 * NANOS;
    CeilRatExact(num, den);
    assert Gcd(num, den) == Gcd(den, NANOS) == Gcd(NANOS, 0);
    hide Trim, Gcd;
  }

  // ----- monotonicity -----

  predicate AtMost(p: Quantity, q: Quantity)
    requires p.Number? && q.Number?
  {
    p.num * q.den <= q.num * p.den
  }

  lemma CeilingMonotone(c1: int, num1: int, den1: int, c2: int, num2: int, den2: int)
    requires den1 > 0 && den2 > 0 && num1 * den2 <= num2 * den1
    requires IsCeiling(c1, num1, den1) && IsCeiling(c2, num2, den2)
    ensures c1 <= c2
  {
    if c2 < c1 {
      Multiply(c2, c1 - 1, den1);
      Multiply(c2 * den1 + 1, num1, den2);
      Multiply(num2, c2 * den2, den1);
      RegroupProducts(c2, den1, den2);
    }
  }

  lemma RegroupProducts(c: int, d1: int, d2: int)
    ensures (c * d1 + 1) * d2 == c * d1 * d2 + d2 && c * d2 * d1 == c * d1 * d2
  {
  }

  lemma CostMonotone(p: Quantity, q: Quantity, d1: int, d2: int, price: int)
    requires p.Number? && q.Number? && p.den > 0 && q.den > 0 && p.num > 0 && AtMost(p, q)
    requires 0 < d1 <= d2 && price >= 0
    ensures CostNum(p, d1, price) * CostDen(q) <= CostNum(q, d2, price) * CostDen(p)
  {
    var k := price * NANOS;
    calc {
      CostNum(p, d1, price) * CostDen(q);
      (p.num * d1 * price) * (q.den * NANOS);
      ((p.num * q.den) * d1) * k;
      <= { Multiply(p.num * q.den, q.num * p.den, d1); Multiply((p.num * q.den) * d1, (q.num * p.den) * d1, k); }
      ((q.num * p.den) * d1) * k;
      <= { PositiveProduct(p, q); Multiply(d1, d2, q.num * p.den);
           Multiply((q.num * p.den) * d1, (q.num * p.den) * d2, k); }
      ((q.num * p.den) * d2) * k;
      (q.num * d2 * price) * (p.den * NANOS);
      CostNum(q, d2, price) * CostDen(p);
    }
  }

  lemma PositiveProduct(p: Quantity, q: Quantity)
    requires p.Number? && q.Number? && p.den > 0 && q.den > 0 && p.num > 0 && AtMost(p, q)
    ensures q.num * p.den > 0
  {
    Multiply(1, q.den, p.num);
  }

  /** More units for at least as long never cost less. */
  lemma RatingMonotone(rates: map<string, Rate>, f: Fact, g: Fact)
    requires WellFormed(f) && WellFormed(g) && Trim(f.resourceClass) == Trim(g.resourceClass)
    requires RateUsage(rates, f).Ok? && RateUsage(rates, g).Ok?
    requires rates[Trim(f.resourceClass)].minorPerUnit >= 0
    requires AtMost(f.quantity, g.quantity) && f.end.ns - f.start.ns <= g.end.ns - g.start.ns
    ensures RateUsage(rates, f).value.amount <= RateUsage(rates, g).value.amount
  {
    RatedExactly(rates, f);
    RatedExactly(rates, g);
    var price := rates[Trim(f.resourceClass)].minorPerUnit;
    var d1, d2 := Elapsed(f.start.ns, f.end.ns), Elapsed(g.start.ns, g.end.ns);
    CostMonotone(f.quantity, g.quantity, d1, d2, price);
    CeilingMonotone(
      RateUsage(rates, f).value.amount, CostNum(f.quantity, d1, price), CostDen(f.quantity),
      RateUsage(rates, g).value.amount, CostNum(g.quantity, d2, price), CostDen(g.quantity));
  }

  // ----- splitting an interval -----

  /** The fact for the part of the interval between two cut points. */
  function Part(f: Fact, first: int, last: int): Fact {
    f.(start := Instant(first), end := Instant(last))
  }

  predicate Increasing(cuts: seq<int>) {
    forall i :: 0 < i < |cuts| ==> cuts[i - 1] < cuts[i]
  }

  ghost predicate AllRated(rates: map<string, Rate>, f: Fact, cuts: seq<int>)
    requires WellFormed(f)
  {
    forall i :: 0 < i < |cuts| ==> RateUsage(rates, Part(f, cuts[i - 1], cuts[i])).Ok?
  }

  ghost function TotalOfParts(rates: map<string, Rate>, f: Fact, cuts: seq<int>): int
    requires WellFormed(f) && AllRated(rates, f, cuts)
    decreases |cuts|
  {
    if |cuts| <= 1 then 0
    else
      var n := |cuts|;
      TotalOfParts(rates, f, cuts[..n - 1]) + RateUsage(rates, Part(f, cuts[n - 2], cuts[n - 1])).value.amount
  }

  lemma PartRated(rates: map<string, Rate>, f: Fact, a: int, b: int)
    requires WellFormed(f) && RateUsage(rates, Part(f, a, b)).Ok?
    ensures f.quantity.Number? && f.quantity.num > 0 && Trim(f.resourceClass) in rates && a < b
    ensures IsCeiling(
      RateUsage(rates, Part(f, a, b)).value.amount,
      CostNum(f.quantity, Elapsed(a, b), rates[Trim(f.resourceClass)].minorPerUnit), CostDen(f.quantity))
    ensures rates[Trim(f.resourceClass)].minorPerUnit >= 0
  {
    RatedExactly(rates, Part(f, a, b));
    var price := rates[Trim(f.resourceClass)].minorPerUnit;
    CeilRatExact(CostNum(f.quantity, Elapsed(a, b), price), CostDen(f.quantity));
    Multiply(1, f.quantity.num, Elapsed(a, b));
    if price < 0 { Multiply(price, -1, f.quantity.num * Elapsed(a, b)); }
    hide CeilRatInt64;
  }

  /** The billed durations of the parts, added up. */
  function Spent(cuts: seq<int>): int {
    if |cuts| <= 1 then 0
    else Spent(cuts[..|cuts| - 1]) + Elapsed(cuts[|cuts| - 2], cuts[|cuts| - 1])
  }

  /** Saturation makes the parts last at least as long as the whole, and as long within 64-bit range. */
  lemma {:induction false} SpentAtLeast(cuts: seq<int>)
    requires |cuts| >= 2 && Increasing(cuts)
    ensures var first, last := cuts[0], cuts[|cuts| - 1];
      && Elapsed(first, last) <= Spent(cuts)
      && (last - first <= MAX_INT64 ==> Spent(cuts) == last - first)
    decreases |cuts|
  {
    IncreasingEnds(cuts);
    if |cuts| > 2 { SpentAtLeast(cuts[..|cuts| - 1]); }
  }

  /** Parts are billed for the time of the whole exactly if it is one part or its duration is a 64-bit number. */
  lemma SpentExactIff(cuts: seq<int>)
    requires |cuts| >= 2 && Increasing(cuts)
    ensures Spent(cuts) == Elapsed(cuts[0], cuts[|cuts| - 1]) <==>
      |cuts| == 2 || cuts[|cuts| - 1] - cuts[0] <= MAX_INT64
  {
    SpentAtLeast(cuts);
    IncreasingEnds(cuts);
    if |cuts| > 2 {
      SpentAtLeast(cuts[..|cuts| - 1]);
      IncreasingEnds(cuts[..|cuts| - 1]);
    }
  }

  lemma InitRated(rates: map<string, Rate>, f: Fact, cuts: seq<int>)
    requires WellFormed(f) && |cuts| >= 2 && AllRated(rates, f, cuts)
    ensures AllRated(rates, f, cuts[..|cuts| - 1])
  {
    var init := cuts[..|cuts| - 1];
    forall i | 0 < i < |init| ensures RateUsage(rates, Part(f, init[i - 1], init[i])).Ok? {
      assert init[i - 1] == cuts[i - 1] && init[i] == cuts[i];
    }
    hide RateUsage;
  }

  lemma {:induction false} PartsBound(rates: map<string, Rate>, f: Fact, cuts: seq<int>)
    requires WellFormed(f) && |cuts| >= 2 && Increasing(cuts) && AllRated(rates, f, cuts)
    ensures f.quantity.Number? && f.quantity.num > 0 && Trim(f.resourceClass) in rates
    ensures var num := CostNum(f.quantity, Spent(cuts), rates[Trim(f.resourceClass)].minorPerUnit);
      var den, total := CostDen(f.quantity), TotalOfParts(rates, f, cuts);
      (total - (|cuts| - 1)) * den < num <= total * den
    decreases |cuts|
  {
    var n := |cuts|;
    PartRated(rates, f, cuts[n - 2], cuts[n - 1]);
    hide RateUsage, CostNum, CostDen, IsCeiling, Elapsed;
    var amount := RateUsage(rates, Part(f, cuts[n - 2], cuts[n - 1])).value.amount;
    var price, den := rates[Trim(f.resourceClass)].minorPerUnit, CostDen(f.quantity);
    InitRated(rates, f, cuts);
    var total := TotalOfParts(rates, f, cuts[..n - 1]);
    var a, b := Spent(cuts[..n - 1]), Elapsed(cuts[n - 2], cuts[n - 1]);
    CostAdds(f.quantity, a, b, price);
    if n > 2 { PartsBound(rates, f, cuts[..n - 1]); }
    AddBounds(total, amount, n - 2, den, CostNum(f.quantity, a, price), CostNum(f.quantity, b, price));
  }

  lemma AddBounds(total: int, amount: int, k: int, den: int, num1: int, num2: int)
    requires (total - k) * den < num1 <= total * den || (total == k == num1 == 0)
    requires IsCeiling(amount, num2, den)
    ensures (total + amount - (k + 1)) * den < num1 + num2 <= (total + amount) * den
  {
    assert (total + amount) * den == total * den + amount * den;
    assert (total + amount - (k + 1)) * den == (total - k) * den + (amount - 1) * den;
  }

  lemma {:induction false} IncreasingEnds(cuts: seq<int>)
    requires |cuts| >= 2 && Increasing(cuts)
    ensures cuts[0] <= cuts[|cuts| - 2] < cuts[|cuts| - 1]
    decreases |cuts|
  {
    if |cuts| > 2 { IncreasingEnds(cuts[..|cuts| - 1]); }
  }

  lemma CostAdds(q: Quantity, a: int, b: int, price: int)
    requires q.Number?
    ensures CostNum(q, a + b, price) == CostNum(q, a, price) + CostNum(q, b, price)
    ensures CostNum(q, 0, price) == 0
  {
    assert q.num * (a + b) == q.num * a + q.num * b;
  }

  lemma CostOfLonger(q: Quantity, a: int, b: int, price: int)
    requires q.Number? && q.num > 0 && price >= 0 && a <= b
    ensures CostNum(q, a, price) <= CostNum(q, b, price)
  {
    Multiply(a, b, q.num);
    Multiply(q.num * a, q.num * b, price);
  }

  /**
   Billing an interval in n adjacent parts never costs less than the whole; while the interval's duration
   is a 64-bit number of nanoseconds it costs at most n - 1 minor units more.
   */
  lemma SplittingBound(rates: map<string, Rate>, f: Fact, cuts: seq<int>)
    requires WellFormed(f) && |cuts| >= 2 && Increasing(cuts) && AllRated(rates, f, cuts)
    requires RateUsage(rates, Part(f, cuts[0], cuts[|cuts| - 1])).Ok?
    ensures var whole := RateUsage(rates, Part(f, cuts[0], cuts[|cuts| - 1])).value.amount;
      && whole <= TotalOfParts(rates, f, cuts)
      && (cuts[|cuts| - 1] - cuts[0] <= MAX_INT64 ==> TotalOfParts(rates, f, cuts) <= whole + |cuts| - 2)
  {
    var first, last := cuts[0], cuts[|cuts| - 1];
    PartRated(rates, f, first, last);
    PartsBound(rates, f, cuts);
    SpentAtLeast(cuts);
    hide RateUsage, CostNum, CostDen, Spent, TotalOfParts;
    var whole, total := RateUsage(rates, Part(f, first, last)).value.amount, TotalOfParts(rates, f, cuts);
    var den := CostDen(f.quantity);
    assert den > 0 by { DenPositive(f.quantity); }
    CostOfLonger(f.quantity, Elapsed(first, last), Spent(cuts), rates[Trim(f.resourceClass)].minorPerUnit);
    if total < whole { Multiply(total, whole - 1, den); }
    if last - first <= MAX_INT64 && total > whole + |cuts| - 2 { Multiply(whole, total - (|cuts| - 1), den); }
  }

  lemma DenPositive(q: Quantity)
    requires q.Number? && q.den > 0
    ensures CostDen(q) > 0
  {
  }

  /** A longer interval is billed for 64 bits of nanoseconds only: here two halves cost twice the whole. */
  lemma LongIntervalsSplitFreely()
    ensures var f, cuts := SecondOf(Number(NANOS, 1)), [0, MAX_INT64, 2 * MAX_INT64];
      && WellFormed(f) && Increasing(cuts) && AllRated(ONE_RATE, f, cuts)
      && RateUsage(ONE_RATE, Part(f, 0, 2 * MAX_INT64)).Ok?
      && TotalOfParts(ONE_RATE, f, cuts) == 2 * RateUsage(ONE_RATE, Part(f, 0, 2 * MAX_INT64)).value.amount
      && RateUsage(ONE_RATE, Part(f, 0, 2 * MAX_INT64)).value.amount == MAX_INT64
  {
    var f, cuts := SecondOf(Number(NANOS, 1)), [0, MAX_INT64, 2 * MAX_INT64];
    LongestPart(f, 0, MAX_INT64);
    LongestPart(f, MAX_INT64, 2 * MAX_INT64);
    LongestPart(f, 0, 2 * MAX_INT64);
    hide RateUsage;
    InitRated(ONE_RATE, f, cuts);
    var init := cuts[..2];
    assert init == [0, MAX_INT64];
    InitRated(ONE_RATE, f, init);
    assert TotalOfParts(ONE_RATE, f, init) == TotalOfParts(ONE_RATE, f, init[..1]) + MAX_INT64 == MAX_INT64;
  }

  lemma LongestPart(f: Fact, first: int, last: int)
    requires f == SecondOf(Number(NANOS, 1)) && last - first >= MAX_INT64
    ensures RateUsage(ONE_RATE, Part(f, first, last)).Ok?
    ensures RateUsage(ONE_RATE, Part(f, first, last)).value.amount == MAX_INT64
  {
    OneRateFound();
    var num, den := NANOS * MAX_INT64, NANOS;
    CeilRatExact(num, den);
    hide Trim, CeilRatInt64;
    assert num % den == 0;
    CeilingUnique(CeilRatInt64(num, den).value, MAX_INT64, num, den);
  }
}

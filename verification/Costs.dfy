/**
 What an order costs: the commission and slippage model, the three simulated
 fills, and the sizing of a buy to the cash its sleeve holds.
 */
module Costs {
  import opened Basics
  import opened Market

  type Positive = x: real | x > 0.0 witness 1.0

  datatype CostModel = CostModel(slippageBps: real, perShare: real, minimum: real, byTicker: map<Ticker, real>)

  function SlippageFor(m: CostModel, t: Ticker): real {
    if t in m.byTicker then m.byTicker[t] else m.slippageBps
  }

  function EstimateCommission(q: real, perShare: real, minimum: real): real {
    Max(minimum, Abs(q) * perShare)
  }

  function CommissionFor(m: CostModel, q: real): real {
    EstimateCommission(q, m.perShare, m.minimum)
  }

  // ---- Simulated fills ----

  datatype Fill = Fill(price: real, quantity: real, commission: real, date: int)

  function TryFillLimitEntry(m: CostModel, limit: real, q: real, bar: Bar, t: Ticker): (r: Option<Fill>)
    ensures r.Some? ==> r.value.quantity == q && r.value.date == bar.date
  {
    if bar.open <= limit then
      Some(Fill(bar.open * (1.0 + SlippageFor(m, t) / 10000.0), q, CommissionFor(m, q), bar.date))
    else if bar.low <= limit then
      Some(Fill(limit * (1.0 + SlippageFor(m, t) / 10000.0), q, CommissionFor(m, q), bar.date))
    else
      None
  }

  /**
   When and at what a resting entry fills: just when the bar trades at or below
   the limit, at the limit or the open if that is lower, slippage on top.
   */
  lemma EntryFillsAtOrBelow(m: CostModel, limit: real, q: real, bar: Bar, t: Ticker)
    ensures TryFillLimitEntry(m, limit, q, bar, t).Some? <==> Min(bar.open, bar.low) <= limit
    ensures
      var fill := TryFillLimitEntry(m, limit, q, bar, t);
      fill.Some? ==>
        && fill.value.price == Min(bar.open, limit) * (1.0 + SlippageFor(m, t) / 10000.0)
        && fill.value.quantity == q && fill.value.commission == CommissionFor(m, q) && fill.value.date == bar.date
  {
  }

  function FillTerminalExit(m: CostModel, q: real, price: real, d: int, t: Ticker): Fill {
    Fill(price * (1.0 - SlippageFor(m, t) / 10000.0), q, CommissionFor(m, q), d)
  }

  function FillMarketExit(m: CostModel, q: real, bar: Bar, t: Ticker): Fill {
    Fill(bar.open * (1.0 - SlippageFor(m, t) / 10000.0), q, CommissionFor(m, q), bar.date)
  }

  // ---- Funding a buy from sleeve cash ----

  /** The estimated charges of one buy: commission terms and the slippage buffer on its limit. */
  datatype Terms = Terms(perShare: real, minimum: real, bufferBps: real)

  predicate NonNegative(c: Terms) {
    c.perShare >= 0.0 && c.minimum >= 0.0 && c.bufferBps >= 0.0
  }

  /** What one more unit of quantity adds to the grown notional. */
  function UnitCost(price: real, c: Terms): (u: real)
    requires price > 0.0 && NonNegative(c)
    ensures u > 0.0
  {
    price * (1.0 + c.bufferBps / 10000.0)
  }

  function Clamped(c: Terms): (r: Terms)
    ensures NonNegative(r)
  {
    Terms(Max(0.0, c.perShare), Max(0.0, c.minimum), Max(0.0, c.bufferBps))
  }

  /** Worst-case cash a buy can take: the limit notional grown by the buffer, plus commission. */
  function SleeveBuyCost(q: real, price: real, c: Terms): real {
    Abs(q) * price * (1.0 + c.bufferBps / 10000.0) + EstimateCommission(q, c.perShare, c.minimum)
  }

  datatype SleeveCash =
    | Unusable
    | Insufficient(available: real, required: real)
    | Funded(quantity: real, requested: real, available: real, required: real)
  {
    predicate Approved() {
      Funded?
    }

    predicate Downsized() {
      Funded? && quantity < requested
    }
  }

  function Step(wholeShares: bool): real {
    if wholeShares then 1.0 else 0.0001
  }

  /** The largest quantity, on no grid, whose worst-case cost is available. */
  function LargestAffordable(price: real, available: real, c: Terms): real
    requires price > 0.0 && NonNegative(c)
  {
    var unit := UnitCost(price, c);
    Max(0.0, Min((available - c.minimum) / unit, available / (unit + c.perShare)))
  }

  function Steps(n: int, step: real): real {
    n as real * step
  }

  function WholeSteps(x: real, step: real): int
    requires step > 0.0
  {
    (x / step).Floor
  }

  /** The decision reached in exact arithmetic; SizeToSleeveCash computes it. */
  function Sizing(q: real, price: real, cash: real, committed: real, terms: Terms, wholeShares: bool): (r: SleeveCash)
    ensures r.Funded? ==> price > 0.0 && 0.0 < r.quantity <= q == r.requested
  {
    if price <= 0.0 || q <= 0.0 then
      Unusable
    else
      var c := Clamped(terms);
      var available := cash - Max(0.0, committed);
      var required := SleeveBuyCost(q, price, c);
      if required <= available then
        Funded(q, q, available, required)
      else
        var step := Step(wholeShares);
        var fitted := Min(Steps(WholeSteps(LargestAffordable(price, available, c), step), step), q);
        if fitted < step then Insufficient(available, required) else Funded(fitted, q, available, required)
  }

  lemma ProductNonNegative(x: real, y: real)
    requires x >= 0.0 && y >= 0.0
    ensures x * y >= 0.0
  {
  }

  lemma ProductAtMost(x: real, u: real, a: real)
    requires u > 0.0
    ensures x * u <= a <==> x <= a / u
  {
    var r := a / u;
    assert a == r * u;
    if x <= r {
      ProductNonNegative(r - x, u);
      assert (r - x) * u == r * u - x * u;
    } else {
      assert (x - r) * u > 0.0;
      assert (x - r) * u == x * u - r * u;
    }
  }

  /** The worst-case cost of a positive quantity, per unit and per share. */
  lemma CostByUnit(q: real, price: real, c: Terms)
    requires q > 0.0 && price > 0.0 && NonNegative(c)
    ensures SleeveBuyCost(q, price, c) == q * UnitCost(price, c) + Max(c.minimum, q * c.perShare)
  {
    var g := 1.0 + c.bufferBps / 10000.0;
    assert q * price * g == q * (price * g);
  }

  lemma BothTermsFit(q: real, unit: real, perShare: real, minimum: real, available: real)
    requires q > 0.0 && unit > 0.0 && perShare >= 0.0
    ensures q * unit + Max(minimum, q * perShare) <= available
            <==> q <= (available - minimum) / unit && q <= available / (unit + perShare)
  {
    ProductAtMost(q, unit, available - minimum);
    ProductAtMost(q, unit + perShare, available);
    assert q * (unit + perShare) == q * unit + q * perShare;
  }

  /** A positive quantity is affordable exactly when it is at most LargestAffordable. */
  lemma AffordableIff(q: real, price: real, available: real, c: Terms)
    requires q > 0.0 && price > 0.0 && NonNegative(c)
    ensures SleeveBuyCost(q, price, c) <= available <==> q <= LargestAffordable(price, available, c)
  {
    var unit := UnitCost(price, c);
    CostByUnit(q, price, c);
    BothTermsFit(q, unit, c.perShare, c.minimum, available);
  }

  lemma WholeStepsGreatest(x: real, step: real)
    requires x >= 0.0 && step > 0.0
    ensures WholeSteps(x, step) >= 0
    ensures Steps(WholeSteps(x, step), step) <= x
    ensures forall m: int :: m > WholeSteps(x, step) ==> Steps(m, step) > x
  {
    ProductAtMost(WholeSteps(x, step) as real, step, x);
    ProductAtMost(0.0, step, x);
    forall m: int | m > WholeSteps(x, step)
      ensures Steps(m, step) > x
    {
      ProductAtMost(m as real, step, x);
    }
  }

  lemma OneStepAtMost(n: int, step: real)
    requires n >= 1 && step > 0.0
    ensures Steps(n, step) >= step
  {
    ProductNonNegative(n as real - 1.0, step);
  }

  /**
   A buy is placed whole when it fits; otherwise it is cut to the largest
   multiple of the step that fits, and refused exactly when not even one step
   fits.
   */
  lemma SizingIsGreatestFit(q: real, price: real, cash: real, committed: real, terms: Terms, whole: bool)
    requires q > 0.0 && price > 0.0
    ensures
      var r := Sizing(q, price, cash, committed, terms, whole);
      var c := Clamped(terms);
      var available := cash - Max(0.0, committed);
      var step := Step(whole);
      && (r.Insufficient? <==> SleeveBuyCost(q, price, c) > available && SleeveBuyCost(step, price, c) > available)
      && !r.Unusable? && r.available == available && r.required == SleeveBuyCost(q, price, c)
      && (r.Funded? ==> r.requested == q && 0.0 < r.quantity <= q && SleeveBuyCost(r.quantity, price, c) <= available)
      && (r.Funded? && !r.Downsized() <==> SleeveBuyCost(q, price, c) <= available)
      && (r.Funded? && r.Downsized() ==>
            exists n: int :: n >= 1 && r.quantity == Steps(n, step)
                             && forall m: int :: m > n ==> SleeveBuyCost(Steps(m, step), price, c) > available)
  {
    var c := Clamped(terms);
    var available := cash - Max(0.0, committed);
    var step := Step(whole);
    AffordableIff(q, price, available, c);
    AffordableIff(step, price, available, c);
    var r := Sizing(q, price, cash, committed, terms, whole);
    var n := WholeSteps(LargestAffordable(price, available, c), step);
    WholeStepsGreatest(LargestAffordable(price, available, c), step);
    forall m: int | m > n
      ensures m >= 1 ==> SleeveBuyCost(Steps(m, step), price, c) > available
    {
      if m >= 1 {
        OneStepAtMost(m, step);
        AffordableIff(Steps(m, step), price, available, c);
      }
    }
    if n >= 1 {
      OneStepAtMost(n, step);
      AffordableIff(Steps(n, step), price, available, c);
    }
  }

  /**
   The sizing as it runs: clamp, compute the largest affordable quantity, floor
   it to the step, and shave steps while the result still costs too much. In
   exact arithmetic the shaving loop has nothing to do, so the outcome is Sizing.
   */
  method SizeToSleeveCash(q: real, price: real, cash: real, committed: real, terms: Terms, wholeShares: bool)
    returns (r: SleeveCash)
    ensures r == Sizing(q, price, cash, committed, terms, wholeShares)
  {
    if price <= 0.0 || q <= 0.0 {
      return Unusable;
    }
    var c := Clamped(terms);
    var available := cash - Max(0.0, committed);
    var required := SleeveBuyCost(q, price, c);
    if required <= available {
      return Funded(q, q, available, required);
    }
    var step := Step(wholeShares);
    var floored := Min(Steps(WholeSteps(LargestAffordable(price, available, c), step), step), q);
    var fitted := floored;
    while fitted > 0.0 && SleeveBuyCost(fitted, price, c) > available
      invariant fitted == floored || (floored > 0.0 && SleeveBuyCost(floored, price, c) > available)
      decreases (fitted * 10000.0).Floor
    {
      fitted := fitted - step;
    }
    if floored > 0.0 {
      WholeStepsGreatest(LargestAffordable(price, available, c), step);
      AffordableIff(floored, price, available, c);
    }
    if fitted < step {
      return Insufficient(available, required);
    }
    return Funded(fitted, q, available, required);
  }

  // ---- What the replay relies on ----

  /**
   An approved buy is never charged more than the reservation made for it: a
   fill of the approved quantity costs at most its worst-case cost, as long as
   the buffer covers the slippage and slippage cannot make a price negative.
   */
  lemma FillWithinReservation(m: CostModel, limit: real, q: real, bar: Bar, t: Ticker, bufferBps: real)
    requires q > 0.0 && limit > 0.0
    requires -10000.0 <= SlippageFor(m, t) <= bufferBps
    requires TryFillLimitEntry(m, limit, q, bar, t).Some?
    ensures
      var f := TryFillLimitEntry(m, limit, q, bar, t).value;
      f.price * f.quantity + f.commission <= SleeveBuyCost(q, limit, Terms(m.perShare, m.minimum, bufferBps))
  {
    var f := TryFillLimitEntry(m, limit, q, bar, t).value;
    var grow, cover := 1.0 + SlippageFor(m, t) / 10000.0, 1.0 + bufferBps / 10000.0;
    var base := if bar.open <= limit then bar.open else limit;
    assert f.price == base * grow;
    ProductNonNegative(limit - base, grow);
    ProductNonNegative(limit, cover - grow);
    assert f.price <= limit * cover;
    ProductNonNegative(q, limit * cover - f.price);
    assert q * limit * cover == q * (limit * cover);
  }

  /** Clamping the terms never makes a buy look cheaper than it will be reserved for. */
  lemma ClampedCostsMore(q: real, price: real, c: Terms)
    requires q > 0.0 && price > 0.0
    ensures SleeveBuyCost(q, price, c) <= SleeveBuyCost(q, price, Clamped(c))
  {
    var n := Abs(q) * price;
    ProductNonNegative(q, price);
    ProductNonNegative(n, Clamped(c).bufferBps / 10000.0 - c.bufferBps / 10000.0);
    ProductNonNegative(Abs(q), Clamped(c).perShare - c.perShare);
  }

  /** With a non-negative commission minimum a reservation is never below zero. */
  lemma ReservationNonNegative(q: real, price: real, c: Terms)
    requires q > 0.0 && price > 0.0 && c.minimum >= 0.0 && c.bufferBps >= -10000.0
    ensures SleeveBuyCost(q, price, c) >= 0.0
  {
    ProductNonNegative(q, price);
    ProductNonNegative(Abs(q) * price, 1.0 + c.bufferBps / 10000.0);
  }
}

/**
  Net present value of holding a domain and the drop verdict on top of it, over the reals.  The
  days until renewal and the days held are parameters: nothing here reads a clock.
 */
module DropVerdict {
  import opened Wrappers

  // ---- Rounding ------------------------------------------------------------------------------

  /** Math.round: the nearest integer, halves upwards. */
  function MathRound(x: real): real {
    (x + 0.5).Floor as real
  }

  function Cents(x: real): real {
    MathRound(x * 100.0) / 100.0
  }

  lemma CentsClose(x: real)
    ensures x - 0.005 < Cents(x) <= x + 0.005
  {
  }

  lemma MathRoundMonotone(x: real, y: real)
    requires x <= y
    ensures MathRound(x) <= MathRound(y)
  {
    assert (x + 0.5).Floor <= (y + 0.5).Floor;
  }

  lemma CentsMonotone(x: real, y: real)
    requires x <= y
    ensures Cents(x) <= Cents(y)
  {
    hide MathRound;
    MathRoundMonotone(x * 100.0, y * 100.0);
  }

  /** A rounded value is negative only below half a cent. */
  lemma CentsNegativeIff(x: real)
    ensures Cents(x) < 0.0 <==> x < -0.005
  {
  }

  // ---- Net present value ---------------------------------------------------------------------

  datatype NpvInput = NpvInput(expectedValue: real, confidence: real, acquisitionCost: real, renewalCost: real)

  // `projectedAnnualReturn` is None where the code divides by a horizon of 0.
  datatype NpvResult = NpvResult(
    npv: real, projectedAnnualReturn: Option<real>, breakEvenYears: real, annualRenewalCost: real)

  function Power(x: real, n: nat): real {
    if n == 0 then 1.0 else Power(x, n - 1) * x
  }

  lemma PowerPositive(x: real, n: nat)
    requires x > 0.0
    ensures Power(x, n) > 0.0
  {
  }

  /** The value today of 1 a year for `n` years. */
  function Annuity(r: real, n: nat): (a: real)
    requires r > -1.0
    ensures a >= 0.0 && (n > 0 ==> a > 0.0)
  {
    if n == 0 then 0.0
    else
      PowerPositive(1.0 + r, n);
      Annuity(r, n - 1) + 1.0 / Power(1.0 + r, n)
  }

  /** The net present value before rounding. */
  function Worth(input: NpvInput, r: real, n: nat): real
    requires r > -1.0
  {
    -input.acquisitionCost + (input.expectedValue * input.confidence - input.renewalCost) * Annuity(r, n)
  }

  /** The discounted gains averaged over the horizon, less one renewal. */
  function AnnualReturn(input: NpvInput, r: real, n: nat): real
    requires r > -1.0 && n > 0
  {
    var gain := input.expectedValue * input.confidence;
    gain * Annuity(r, n) / n as real - input.renewalCost
  }

  function BreakEvenYears(input: NpvInput, n: nat): real {
    var gain := input.expectedValue * input.confidence;
    if gain > 0.0 && input.renewalCost > 0.0 && gain - input.renewalCost > 0.0
    then input.acquisitionCost / (gain - input.renewalCost)
    else n as real + 1.0
  }

  lemma AddYear(r: real, t: nat, gain: real, cost: real)
    requires r > -1.0 && t > 0
    ensures Power(1.0 + r, t) == Power(1.0 + r, t - 1) * (1.0 + r) > 0.0
    ensures var d := 1.0 / Power(1.0 + r, t);
      && (gain - cost) * Annuity(r, t) == (gain - cost) * Annuity(r, t - 1) + (gain * d - cost * d)
      && gain * Annuity(r, t) == gain * Annuity(r, t - 1) + gain * d
  {
    PowerPositive(1.0 + r, t);
  }

  lemma NoYears(r: real)
    requires r > -1.0
    ensures Power(1.0 + r, 0) == 1.0 && Annuity(r, 0) == 0.0
  {
  }

  method ComputeNpv(input: NpvInput, discountRate: real, horizonYears: nat) returns (result: NpvResult)
    requires discountRate > -1.0
    ensures result.npv == Cents(Worth(input, discountRate, horizonYears))
    ensures result.projectedAnnualReturn ==
      if horizonYears == 0 then None else Some(Cents(AnnualReturn(input, discountRate, horizonYears)))
    ensures result.breakEvenYears == MathRound(BreakEvenYears(input, horizonYears) * 10.0) / 10.0
    ensures result.annualRenewalCost == input.renewalCost
  {
    hide Power, Annuity, MathRound, Cents;
    NoYears(discountRate);
    var gain := input.expectedValue * input.confidence;
    var npv := -input.acquisitionCost;
    var projected := 0.0;
    var power := 1.0;
    var t := 1;
    while t <= horizonYears
      invariant 1 <= t <= horizonYears + 1 && power == Power(1.0 + discountRate, t - 1)
      invariant npv == -input.acquisitionCost + (gain - input.renewalCost) * Annuity(discountRate, t - 1)
      invariant projected == gain * Annuity(discountRate, t - 1)
    {
      power := power * (1.0 + discountRate);
      AddYear(discountRate, t, gain, input.renewalCost);
      var discountFactor := 1.0 / power;
      npv := npv + (gain * discountFactor - input.renewalCost * discountFactor);
      projected := projected + gain * discountFactor;
      t := t + 1;
    }
    assert t - 1 == horizonYears;
    assert npv == Worth(input, discountRate, horizonYears);
    assert projected == gain * Annuity(discountRate, horizonYears);
    assert horizonYears > 0 ==>
      projected / horizonYears as real - input.renewalCost == AnnualReturn(input, discountRate, horizonYears);
    var breakEven := if gain > 0.0 && input.renewalCost > 0.0 && gain - input.renewalCost > 0.0
      then input.acquisitionCost / (gain - input.renewalCost) else horizonYears as real + 1.0;
    assert breakEven == BreakEvenYears(input, horizonYears);
    result := NpvResult(Cents(npv),
                        if horizonYears == 0 then None
                        else Some(Cents(projected / horizonYears as real - input.renewalCost)),
                        MathRound(breakEven * 10.0) / 10.0, input.renewalCost);
  }

  /** Over the horizon the annual return adds up to the domain's worth, its cost and the renewals aside. */
  lemma ReturnsAddUp(input: NpvInput, r: real, n: nat)
    requires r > -1.0 && n > 0
    ensures n as real * (AnnualReturn(input, r, n) + input.renewalCost) ==
      Worth(input, r, n) + input.acquisitionCost + input.renewalCost * Annuity(r, n)
  {
    hide Annuity;
    var gain, a := input.expectedValue * input.confidence, Annuity(r, n);
    assert n as real * (gain * a / n as real) == gain * a;
    assert (gain - input.renewalCost) * a == gain * a - input.renewalCost * a;
  }

  /** After that many years the surplus has paid for the domain; without one the answer lies past the horizon. */
  lemma BreakEvenPays(input: NpvInput, n: nat)
    ensures var gain, years := input.expectedValue * input.confidence, BreakEvenYears(input, n);
      if gain > input.renewalCost > 0.0 then years * (gain - input.renewalCost) == input.acquisitionCost
      else years == n as real + 1.0
  {
  }

  /** The geometric sum. */
  lemma {:induction false} AnnuityClosedForm(r: real, n: nat)
    requires r > -1.0
    ensures Power(1.0 + r, n) > 0.0 && r * Annuity(r, n) == 1.0 - 1.0 / Power(1.0 + r, n)
  {
    PowerPositive(1.0 + r, n);
    if n > 0 {
      AnnuityClosedForm(r, n - 1);
      PowerPositive(1.0 + r, n - 1);
      NextTerm(r, Power(1.0 + r, n - 1));
    }
  }

  lemma NextTerm(r: real, p: real)
    requires p > 0.0 && r > -1.0
    ensures p * (1.0 + r) > 0.0
    ensures 1.0 / p - r * (1.0 / (p * (1.0 + r))) == 1.0 / (p * (1.0 + r))
  {
  }

  // ---- The verdict ---------------------------------------------------------------------------

  datatype Verdict = Keep | Drop | Reprice
  datatype DropMethod = Threshold | Npv
  datatype Config = Config(scoreThreshold: real, renewalHorizonDays: int, method_: DropMethod, rate: real, years: nat)

  // `daysHeld` is None without an acquisition date.
  datatype Entry = Entry(
    score: Option<real>, listPrice: Option<real>, acquisitionCost: real, renewalCost: real,
    daysUntilRenewal: int, daysHeld: Option<int>)

  function Ceil(x: real): int {
    -(-x).Floor
  }

  function BreakEvenRenewals(e: Entry): real {
    if e.acquisitionCost > 0.0 then
      if e.renewalCost == 0.0 then e.acquisitionCost else e.acquisitionCost / e.renewalCost
    else 0.0
  }

  function RenewalsPaid(e: Entry): int {
    var days :=
      if e.daysUntilRenewal < 365 then 365 - e.daysUntilRenewal
      else if e.daysHeld.Some? then e.daysHeld.value else 0;
    var paid := Ceil(days as real / 365.0);
    if paid > 1 then paid else 1
  }

  function ThresholdVerdict(e: Entry, c: Config, score: real): Verdict {
    var recouped := RenewalsPaid(e) as real >= BreakEvenRenewals(e);
    if score < c.scoreThreshold && e.daysUntilRenewal <= c.renewalHorizonDays then
      if !recouped && e.acquisitionCost > 0.0 then Reprice else Drop
    else if e.listPrice.Some? && e.daysUntilRenewal <= c.renewalHorizonDays * 3 && score >= c.scoreThreshold then
      Reprice
    else Keep
  }

  function Clamp(x: real): real {
    var atLeastZero := if x > 0.0 then x else 0.0;
    if atLeastZero < 1.0 then atLeastZero else 1.0
  }

  function InputOf(e: Entry, score: real): NpvInput {
    NpvInput(if e.listPrice.Some? then e.listPrice.value else score * 5.0, Clamp(score / 100.0),
             e.acquisitionCost, e.renewalCost)
  }

  function NpvVerdict(e: Entry, c: Config, score: real, npv: real): Verdict {
    var approaching := e.daysUntilRenewal <= c.renewalHorizonDays;
    if npv < 0.0 && approaching then
      if e.acquisitionCost > 0.0 && score >= c.scoreThreshold then Reprice else Drop
    else if npv < 0.0 then Reprice
    else if approaching && score < c.scoreThreshold then Reprice
    else Keep
  }

  function VerdictOf(e: Entry, c: Config): Verdict
    requires c.rate > -1.0
  {
    if e.score.None? then Reprice
    else if c.method_ == Npv then
      NpvVerdict(e, c, e.score.value, Cents(Worth(InputOf(e, e.score.value), c.rate, c.years)))
    else ThresholdVerdict(e, c, e.score.value)
  }

  method ComputeDropVerdict(e: Entry, c: Config) returns (verdict: Verdict, npv: Option<real>)
    requires c.rate > -1.0
    ensures verdict == VerdictOf(e, c) && (e.score.None? ==> verdict == Reprice)
    ensures npv.Some? <==> e.score.Some? && c.method_ == Npv
    ensures npv.Some? ==> npv.value == Cents(Worth(InputOf(e, e.score.value), c.rate, c.years))
  {
    if e.score.None? {
      return Reprice, None;
    }
    if c.method_ == Npv {
      var result := ComputeNpv(InputOf(e, e.score.value), c.rate, c.years);
      return NpvVerdict(e, c, e.score.value, result.npv), Some(result.npv);
    }
    return ThresholdVerdict(e, c, e.score.value), None;
  }

  // ---- A lower score never saves a domain ----------------------------------------------------

  lemma ScaleUp(x: real, y: real, k: real)
    requires x <= y && k >= 0.0
    ensures x * k <= y * k
  {
  }

  lemma ClampMonotone(x: real, y: real)
    requires x <= y
    ensures 0.0 <= Clamp(x) <= Clamp(y) && (x < 0.0 ==> Clamp(x) == 0.0)
  {
  }

  lemma ProductMonotone(p1: real, p2: real, c1: real, c2: real)
    requires p1 <= p2 && 0.0 <= c1 <= c2 && (p2 < 0.0 ==> c1 == c2 == 0.0)
    ensures p1 * c1 <= p2 * c2
  {
    if p2 >= 0.0 {
      ScaleUp(c1, c2, p2);
      ScaleUp(p1, p2, c1);
      calc <= {
        p1 * c1;
        p2 * c1;
        { assert p2 * c1 == c1 * p2 && c2 * p2 == p2 * c2; }
        p2 * c2;
      }
    } else {
      assert p1 * 0.0 == 0.0 && p2 * 0.0 == 0.0;
    }
  }

  lemma ExpectedGainMonotone(e: Entry, s1: real, s2: real)
    requires s1 <= s2 && (e.listPrice.Some? ==> e.listPrice.value >= 0.0)
    ensures var i1, i2 := InputOf(e, s1), InputOf(e, s2);
      i1.expectedValue * i1.confidence <= i2.expectedValue * i2.confidence
  {
    hide Clamp;
    var i1, i2 := InputOf(e, s1), InputOf(e, s2);
    ClampMonotone(s1 / 100.0, s2 / 100.0);
    ClampMonotone(s2 / 100.0, s2 / 100.0);
    ProductMonotone(i1.expectedValue, i2.expectedValue, i1.confidence, i2.confidence);
  }

  lemma WorthMonotone(e: Entry, s1: real, s2: real, r: real, n: nat)
    requires r > -1.0 && s1 <= s2 && (e.listPrice.Some? ==> e.listPrice.value >= 0.0)
    ensures Worth(InputOf(e, s1), r, n) <= Worth(InputOf(e, s2), r, n)
  {
    hide Annuity, Clamp;
    ExpectedGainMonotone(e, s1, s2);
    var i1, i2 := InputOf(e, s1), InputOf(e, s2);
    ScaleUp(i1.expectedValue * i1.confidence - e.renewalCost, i2.expectedValue * i2.confidence - e.renewalCost,
            Annuity(r, n));
  }

  /** If a score condemns the domain, so does every lower score. */
  ghost predicate DropsBelow(e: Entry, c: Config)
    requires c.rate > -1.0
  {
    forall s1: real, s2: real | s1 <= s2 ::
      VerdictOf(e.(score := Some(s2)), c).Drop? ==> VerdictOf(e.(score := Some(s1)), c).Drop?
  }

  lemma NonNegativePriceDropsBelow(e: Entry, c: Config)
    requires c.rate > -1.0 && (e.listPrice.Some? ==> e.listPrice.value >= 0.0)
    ensures DropsBelow(e, c)
  {
    hide Worth, Cents, RenewalsPaid, BreakEvenRenewals;
    forall s1: real, s2: real | s1 <= s2
      ensures VerdictOf(e.(score := Some(s2)), c).Drop? ==> VerdictOf(e.(score := Some(s1)), c).Drop?
    {
      WorthMonotone(e, s1, s2, c.rate, c.years);
      CentsMonotone(Worth(InputOf(e, s1), c.rate, c.years), Worth(InputOf(e, s2), c.rate, c.years));
      var e1, e2 := e.(score := Some(s1)), e.(score := Some(s2));
      assert InputOf(e1, s1) == InputOf(e, s1) && InputOf(e2, s2) == InputOf(e, s2);
      SameFacts(e, s1);
      SameFacts(e, s2);
    }
  }

  lemma SameFacts(e: Entry, s: real)
    ensures RenewalsPaid(e.(score := Some(s))) == RenewalsPaid(e)
    ensures BreakEvenRenewals(e.(score := Some(s))) == BreakEvenRenewals(e)
  {
  }

  // A domain whose cost sits on the rounding boundary, and a year to look ahead.
  function Cheap(price: real): Entry {
    Entry(None, Some(price), 0.005, 0.0, 30, None)
  }

  const ONE_YEAR: Config := Config(100.0, 60, Npv, 0.0, 1)

  lemma NegativePriceDropsAbove(price: real)
    requires price < 0.0
    ensures !DropsBelow(Cheap(price), ONE_YEAR)
  {
    var e := Cheap(price);
    assert Power(1.0, 1) == 1.0 && Annuity(0.0, 1) == 1.0 by {
      assert Power(1.0, 0) == 1.0;
      assert Annuity(0.0, 0) == 0.0;
    }
    var i1, i2 := InputOf(e, 0.0), InputOf(e, 50.0);
    assert Worth(i1, 0.0, 1) == -0.005;
    assert Worth(i2, 0.0, 1) == -0.005 + price * 0.5;
    CentsNegativeIff(Worth(i1, 0.0, 1));
    CentsNegativeIff(Worth(i2, 0.0, 1));
    assert !VerdictOf(e.(score := Some(0.0)), ONE_YEAR).Drop?;
    assert VerdictOf(e.(score := Some(50.0)), ONE_YEAR).Drop?;
  }

  /**
    For a fixed list price the verdict is monotone in the score, whatever the costs, dates,
    method, rate and horizon, exactly when there is no list price or it is not negative.
   */
  lemma DropMonotoneIff(price: Option<real>)
    ensures (forall e: Entry, c: Config | e.listPrice == price && c.rate > -1.0 :: DropsBelow(e, c))
       <==> price.None? || price.value >= 0.0
  {
    hide DropsBelow;
    if price.None? || price.value >= 0.0 {
      forall e: Entry, c: Config | e.listPrice == price && c.rate > -1.0 ensures DropsBelow(e, c) {
        NonNegativePriceDropsBelow(e, c);
      }
    } else {
      NegativePriceDropsAbove(price.value);
      assert Cheap(price.value).listPrice == price;
    }
  }

  // ---- When each method drops ----------------------------------------------------------------

  /** What a surplus of 1 a year is worth: the geometric sum, or plainly the years where nothing is discounted. */
  function YearsValued(rate: real, years: nat): real
    requires rate > -1.0
  {
    PowerPositive(1.0 + rate, years);
    if rate == 0.0 then years as real else (1.0 - 1.0 / Power(1.0 + rate, years)) / rate
  }

  lemma {:induction false} Undiscounted(n: nat)
    ensures Annuity(0.0, n) == n as real && Power(1.0, n) == 1.0
  {
    if n > 0 {
      Undiscounted(n - 1);
    }
  }

  lemma YearsValuedIsAnnuity(rate: real, years: nat)
    requires rate > -1.0
    ensures YearsValued(rate, years) == Annuity(rate, years)
  {
    AnnuityClosedForm(rate, years);
    Undiscounted(years);
    hide Annuity, Power;
    if rate != 0.0 {
      Divide(rate, Annuity(rate, years), 1.0 - 1.0 / Power(1.0 + rate, years));
    }
  }

  /** Over the horizon the domain loses more than half a cent, the annual surplus valued in closed form. */
  predicate Loses(e: Entry, c: Config, s: real)
    requires c.rate > -1.0
  {
    var i := InputOf(e, s);
    (i.expectedValue * i.confidence - e.renewalCost) * YearsValued(c.rate, c.years) < e.acquisitionCost - 0.005
  }

  /**
    The net-present-value method at every rate.  Near its renewal a losing domain is dropped unless it
    was paid for and scores well; one that does not lose is kept if its renewal is far off or it scores
    well; all others are repriced.
   */
  lemma NpvDropsIff(e: Entry, c: Config, s: real)
    requires c.rate > -1.0 && c.method_ == Npv && e.score == Some(s)
    ensures VerdictOf(e, c).Drop? <==>
      Loses(e, c, s) && e.daysUntilRenewal <= c.renewalHorizonDays && (e.acquisitionCost <= 0.0 || s < c.scoreThreshold)
    ensures VerdictOf(e, c).Keep? <==>
      !Loses(e, c, s) && (e.daysUntilRenewal > c.renewalHorizonDays || s >= c.scoreThreshold)
  {
    hide Annuity, Power, Clamp, Cents, YearsValued;
    YearsValuedIsAnnuity(c.rate, c.years);
    CentsNegativeIff(Worth(InputOf(e, s), c.rate, c.years));
  }

  /** What a domain is taken to be worth: its list price or five per point of score, times the score in per cent. */
  lemma GainScales(e: Entry, s: real)
    ensures var i := InputOf(e, s);
      && i.expectedValue == (if e.listPrice.Some? then e.listPrice.value else s + s + s + s + s)
      && 0.0 <= i.confidence <= 1.0 && (0.0 <= s <= 100.0 ==> i.confidence * 100.0 == s)
      && i.acquisitionCost == e.acquisitionCost && i.renewalCost == e.renewalCost
  {
  }

  lemma Divide(r: real, a: real, b: real)
    requires r != 0.0 && r * a == b
    ensures b / r == a
  {
  }

  /** Renewals that count as paid, in whole numbers: one before the renewal date, one more per year begun after it. */
  function RenewalsCounted(e: Entry): int {
    if 0 <= e.daysUntilRenewal < 365 then 1
    else if e.daysUntilRenewal < 0 then 1 + (364 - e.daysUntilRenewal) / 365
    else
      var held := if e.daysHeld.Some? then e.daysHeld.value else 0;
      if held > 365 then (held + 364) / 365 else 1
  }

  lemma CeilDivides(n: int)
    ensures Ceil(n as real / 365.0) == (n + 364) / 365
  {
    var q := (n + 364) / 365;
    assert 365 * q - 364 <= n <= 365 * q;
    assert (365 * q - 364) as real / 365.0 > q as real - 1.0;
    assert q as real - 1.0 < n as real / 365.0 <= q as real;
  }

  lemma RenewalsPaidCounted(e: Entry)
    ensures RenewalsPaid(e) == RenewalsCounted(e)
  {
    var held := if e.daysHeld.Some? then e.daysHeld.value else 0;
    CeilDivides(365 - e.daysUntilRenewal);
    CeilDivides(held);
    hide Ceil;
  }

  /** Renewals cover the price when they cost as much, or if they are free, when they are as many as the euros paid. */
  lemma CoversIff(e: Entry, paid: int)
    ensures e.acquisitionCost <= 0.0 ==> BreakEvenRenewals(e) == 0.0
    ensures e.acquisitionCost > 0.0 && e.renewalCost > 0.0 ==>
      (BreakEvenRenewals(e) <= paid as real <==> e.acquisitionCost <= paid as real * e.renewalCost)
    ensures e.acquisitionCost > 0.0 && e.renewalCost == 0.0 ==>
      (BreakEvenRenewals(e) <= paid as real <==> e.acquisitionCost <= paid as real)
    ensures e.acquisitionCost > 0.0 && e.renewalCost < 0.0 ==> BreakEvenRenewals(e) < 0.0
  {
    if e.acquisitionCost > 0.0 && e.renewalCost > 0.0 {
      var q := e.acquisitionCost / e.renewalCost;
      ScaledBelow(q, e.renewalCost, paid as real);
      assert q * e.renewalCost == e.acquisitionCost;
    }
  }

  lemma ScaledBelow(q: real, b: real, c: real)
    requires b > 0.0
    ensures q <= c <==> q * b <= c * b
  {
  }

  /**
    The threshold method drops a domain near its renewal whose score is too low and whose price is
    covered by the renewals counted: one for any domain not yet expired, however long it was held.  It
    keeps one with a low score whose renewal is far off, and one with a good score that is not listed or
    whose renewal is three times as far; all others are repriced.
   */
  lemma ThresholdDropsIff(e: Entry, c: Config, s: real)
    requires c.method_ == Threshold && c.rate > -1.0 && e.score == Some(s)
    ensures VerdictOf(e, c).Drop? <==>
      && s < c.scoreThreshold && e.daysUntilRenewal <= c.renewalHorizonDays
      && (e.acquisitionCost <= 0.0 || BreakEvenRenewals(e) <= RenewalsCounted(e) as real)
    ensures VerdictOf(e, c).Keep? <==>
      if s < c.scoreThreshold then e.daysUntilRenewal > c.renewalHorizonDays
      else e.listPrice.None? || e.daysUntilRenewal > 3 * c.renewalHorizonDays
  {
    hide RenewalsPaid;
    RenewalsPaidCounted(e);
  }

  /**
    With the threshold method the time a domain was held matters to no verdict exactly when the horizon
    is under a year.
   */
  lemma HoldingTimeIgnoredIff(c: Config)
    requires c.method_ == Threshold && c.rate > -1.0
    ensures (forall e: Entry, h: Option<int> :: VerdictOf(e.(daysHeld := h), c) == VerdictOf(e, c))
       <==> c.renewalHorizonDays < 365
  {
    hide RenewalsPaid;
    if c.renewalHorizonDays < 365 {
      forall e: Entry, h: Option<int> ensures VerdictOf(e.(daysHeld := h), c) == VerdictOf(e, c) {
        RenewalsPaidCounted(e);
        RenewalsPaidCounted(e.(daysHeld := h));
      }
    } else {
      var e := Entry(Some(c.scoreThreshold - 1.0), None, 2.0, 1.0, 365, None);
      RenewalsPaidCounted(e);
      RenewalsPaidCounted(e.(daysHeld := Some(730)));
      assert VerdictOf(e, c) == Reprice && VerdictOf(e.(daysHeld := Some(730)), c) == Drop;
    }
  }
}

/** Safety sizing of internal/bots/funding/domain/safety.go. */
module Safety {
  import opened Wrappers
  import opened DecMath
  import opened TradeCalc
  import opened Candidates

  datatype Limits = Limits(maxImpactRatio: real, minVol24USD: real)

  datatype Reason =
    | LowVolume24h
    | NoReferencePrice
    | MinimumExceedsSafeNotional
    | InsufficientBudget
    | BelowMinimumVolume

  datatype Outcome = Outcome(
    passed: bool, reason: Option<Reason>,
    desiredNotional: real, actualNotional: real, maxSafeNotional: real, avgMinuteVolume: real,
    impactRatio: real, estSlippage: real, expectedProfit: real, sizedDown: bool)

  const MINUTES_PER_DAY := 1440.0

  function Rejected(r: Outcome, reason: Reason): Outcome {
    r.(passed := false, reason := Some(reason))
  }

  /** evaluateTradeSafety. */
  function TradeChecked(c: Data, r: Outcome): Outcome {
    var required := NotionalOf(c, c.volume, RefPrice(c));
    var budget := BudgetOf(c);
    if budget > 0.0 && required > budget * 1.01 then Rejected(r, InsufficientBudget)
    else if c.volume < c.minVol as real then Rejected(r, BelowMinimumVolume)
    else
      var slippage := if c.slippage > 0.0 then c.slippage else c.maxPriceDiffPercent;
      r.(estSlippage := slippage,
         expectedProfit := Abs(c.fundingRate * 100.0) - slippage - c.takerFeeRate * 100.0 * 2.0)
  }

  function WithVolume24h(c: Data): Data {
    if c.vol24USDT == 0.0 && c.volume24 > 0.0 && c.lastPrice > 0.0 then c.(vol24USDT := c.volume24 * c.lastPrice) else c
  }

  /** The desired notional, capped to the liquidity-safe one. */
  function Measured(c: Data, limits: Limits): Outcome {
    var desired := BudgetOf(c);
    var r := Outcome(true, None, desired, desired, 0.0, 0.0, 0.0, 0.0, 0.0, false);
    if c.vol24USDT <= 0.0 then r
    else
      var perMinute := Div(c.vol24USDT, MINUTES_PER_DAY);
      var safe := Mul(perMinute, limits.maxImpactRatio);
      var down := safe > 0.0 && desired > safe;
      var actual := if down then safe else desired;
      r.(avgMinuteVolume := perMinute, maxSafeNotional := safe, sizedDown := down, actualNotional := actual,
         impactRatio := if perMinute > 0.0 then Div(actual, perMinute) else 0.0)
  }

  function Evaluated(c: Data, limits: Limits): (Data, Outcome) {
    var d := WithVolume24h(c);
    if limits.minVol24USD > 0.0 && d.vol24USDT < limits.minVol24USD
    then (d, Rejected(Outcome(true, None, BudgetOf(d), BudgetOf(d), 0.0, 0.0, 0.0, 0.0, 0.0, false), LowVolume24h))
    else (d, TradeChecked(d, Measured(d, limits)))
  }

  function Resized(c: Data, r: Outcome): Data {
    if r.sizedDown then c.(volume := VolumeForNotional(c, r.actualNotional, RefPrice(c))) else c
  }

  function Applied(c: Data, limits: Limits): (Data, Outcome) {
    var (d, r) := Evaluated(c, limits);
    if !r.passed then (d, r)
    else if RefPrice(d) <= 0.0 then (d, Rejected(r, NoReferencePrice))
    else
      var e := Resized(d, r);
      var notional := NotionalOf(e, e.volume, RefPrice(e));
      var s := r.(actualNotional := notional);
      if s.maxSafeNotional > 0.0 && notional > s.maxSafeNotional then (e, Rejected(s, MinimumExceedsSafeNotional))
      else
        (e, TradeChecked(e, if s.avgMinuteVolume > 0.0 then s.(impactRatio := Div(notional, s.avgMinuteVolume)) else s))
  }

  class Candidate {
    var d: Data

    constructor (d: Data)
      ensures this.d == d
    {
      this.d := d;
    }

    method EvaluateTradeSafety(was: Outcome) returns (result: Outcome)
      ensures result == TradeChecked(d, was)
    {
      result := was;
      var refPrice := RefPrice(d);
      var requiredNotional := NotionalOf(d, d.volume, refPrice);
      var budgetNotional := BudgetOf(d);
      if budgetNotional > 0.0 && requiredNotional > budgetNotional * 1.01 {
        result := result.(passed := false);
        result := result.(reason := Some(InsufficientBudget));
        return;
      }
      if d.volume < d.minVol as real {
        result := result.(passed := false);
        result := result.(reason := Some(BelowMinimumVolume));
        return;
      }
      result := result.(estSlippage := d.maxPriceDiffPercent);
      if d.slippage > 0.0 { result := result.(estSlippage := d.slippage); }
      var feePct := d.takerFeeRate * 100.0 * 2.0;
      var grossProfitPct := Abs(d.fundingRate * 100.0);
      result := result.(expectedProfit := grossProfitPct - result.estSlippage - feePct);
    }

    method EvaluateSafety(limits: Limits) returns (result: Outcome)
      modifies this
      ensures (d, result) == Evaluated(old(d), limits)
    {
      hide Div, Mul, TradeChecked, BudgetOf;
      if d.vol24USDT == 0.0 && d.volume24 > 0.0 && d.lastPrice > 0.0 {
        d := d.(vol24USDT := d.volume24 * d.lastPrice);
      }
      assert d == WithVolume24h(old(d));
      hide WithVolume24h;
      var desiredNotional := BudgetOf(d);
      result := Outcome(true, None, desiredNotional, desiredNotional, 0.0, 0.0, 0.0, 0.0, 0.0, false);
      if limits.minVol24USD > 0.0 && d.vol24USDT < limits.minVol24USD {
        result := result.(passed := false);
        result := result.(reason := Some(LowVolume24h));
        return;
      }
      if d.vol24USDT > 0.0 {
        result := result.(avgMinuteVolume := Div(d.vol24USDT, MINUTES_PER_DAY));
        result := result.(maxSafeNotional := Mul(result.avgMinuteVolume, limits.maxImpactRatio));
        if result.maxSafeNotional > 0.0 && desiredNotional > result.maxSafeNotional {
          result := result.(actualNotional := result.maxSafeNotional);
          result := result.(sizedDown := true);
        }
        if result.avgMinuteVolume > 0.0 {
          result := result.(impactRatio := Div(result.actualNotional, result.avgMinuteVolume));
        }
      }
      assert result == Measured(d, limits);
      hide Measured;
      result := EvaluateTradeSafety(result);
    }

    method ApplySafetySizing(limits: Limits) returns (result: Outcome)
      modifies this
      ensures (d, result) == Applied(old(d), limits)
    {
      hide Div, Evaluated, TradeChecked, NotionalForVolume, CalculateVolumeForNotional;
      result := EvaluateSafety(limits);
      if !result.passed { return; }
      var refPrice := RefPrice(d);
      if refPrice <= 0.0 {
        result := result.(passed := false);
        result := result.(reason := Some(NoReferencePrice));
        return;
      }
      if result.sizedDown {
        d := d.(volume := VolumeForNotional(d, result.actualNotional, refPrice));
      }
      result := result.(actualNotional := NotionalOf(d, d.volume, refPrice));
      if result.maxSafeNotional > 0.0 && result.actualNotional > result.maxSafeNotional {
        result := result.(passed := false);
        result := result.(reason := Some(MinimumExceedsSafeNotional));
        return;
      }
      if result.avgMinuteVolume > 0.0 {
        result := result.(impactRatio := Div(result.actualNotional, result.avgMinuteVolume));
      }
      result := EvaluateTradeSafety(result);
    }
  }

  /** The liquidity-safe notional of a candidate: one minute's average turnover times the impact ratio. */
  function SafeNotional(c: Data, limits: Limits): real {
    var d := WithVolume24h(c);
    if d.vol24USDT > 0.0 then Mul(Div(d.vol24USDT, MINUTES_PER_DAY), limits.maxImpactRatio) else 0.0
  }

  /**
   A candidate that passes trades at most the liquidity-safe notional and at most 1.01 times its
   budget, each when positive, and at least the exchange minimum.
   */
  lemma PassingIsWithinEveryLimit(c: Data, limits: Limits)
    requires Applied(c, limits).1.passed
    ensures
      var (e, r) := Applied(c, limits);
      var notional := NotionalOf(e, e.volume, RefPrice(e));
      && r.actualNotional == notional && r.maxSafeNotional == SafeNotional(c, limits)
      && (SafeNotional(c, limits) > 0.0 ==> notional <= SafeNotional(c, limits))
      && (BudgetOf(c) > 0.0 ==> notional <= BudgetOf(c) * 1.01)
      && e.volume >= c.minVol as real
      && (limits.minVol24USD > 0.0 ==> e.vol24USDT >= limits.minVol24USD)
  {
    hide Div, Mul, NotionalForVolume, CalculateVolumeForNotional, BudgetOf;
    SizingKeepsBudget(c, limits);
  }

  /** Sizing changes only the volume and a missing 24h turnover, so the budget stays what it was. */
  lemma SizingKeepsBudget(c: Data, limits: Limits)
    ensures
      var e := Applied(c, limits).0;
      && e == c.(volume := e.volume, vol24USDT := e.vol24USDT)
      && BudgetOf(e) == BudgetOf(c) && RefPrice(e) == RefPrice(c)
  {
    hide Div, Mul, NotionalForVolume, CalculateVolumeForNotional, TradeChecked, Measured;
  }

  /**
   A sized-down volume strictly between the exchange's bounds is the largest lot multiple whose
   notional fits the liquidity-safe notional.
   */
  lemma SizedDownVolumeIsLargest(c: Data, limits: Limits, k: int)
    ensures
      var (e, r) := Applied(c, limits);
      var inside := 0 <= c.minVol && c.minVol as real < e.volume && (c.maxVol > 0 ==> e.volume < c.maxVol as real);
      r.passed && r.sizedDown && inside ==>
        && HasScale(e.volume, c.volScale)
        && Worth(e.volume, c.contractSize, RefPrice(c)) <= SafeNotional(c, limits)
        && (Worth(Times(k, Unit(c.volScale)), c.contractSize, RefPrice(c)) <= SafeNotional(c, limits)
            ==> Times(k, Unit(c.volScale)) <= e.volume)
  {
    hide Div, Mul, Worth, Contracts, FloorToScale, Times, Unit, HasScale, BudgetOf;
    SizingKeepsBudget(c, limits);
    var (e, r) := Applied(c, limits);
    var inside := 0 <= c.minVol && c.minVol as real < e.volume && (c.maxVol > 0 ==> e.volume < c.maxVol as real);
    if r.passed && r.sizedDown && inside {
      var safe, ref := SafeNotional(c, limits), RefPrice(c);
      assert e.volume == VolumeForNotional(WithVolume24h(c), safe, ref) && safe > 0.0 && ref > 0.0;
      assert c.contractSize > 0.0;
      FlooredVolumeFits(safe, ref, c.contractSize, c.volScale, k);
    }
  }

  /** What a volume is worth at a price; nothing without a size, a volume or a price. */
  function WorthAt(c: Data, volume: real, price: real): real {
    if c.contractSize > 0.0 && volume > 0.0 && price > 0.0 then Worth(volume, c.contractSize, price) else 0.0
  }

  /** A volume may be traded: at least the exchange minimum, and within 1.01 times a positive budget. */
  predicate Affordable(c: Data, volume: real, price: real) {
    && volume >= c.minVol as real
    && (BudgetOf(c) > 0.0 ==> WorthAt(c, volume, price) <= 1.01 * BudgetOf(c))
  }

  /** The volume after sizing: for the liquidity-safe notional when the budget exceeds it, else the candidate's own. */
  function SizedVolume(c: Data, limits: Limits): real {
    var safe := SafeNotional(c, limits);
    if 0.0 < safe < BudgetOf(c) then VolumeForNotional(c, safe, RefPrice(c)) else c.volume
  }

  function Earned(c: Data, r: Outcome): Outcome {
    var slippage := if c.slippage > 0.0 then c.slippage else c.maxPriceDiffPercent;
    var rate := if c.fundingRate < 0.0 then -c.fundingRate else c.fundingRate;
    r.(estSlippage := slippage, expectedProfit := rate * 100.0 - slippage - 2.0 * (100.0 * c.takerFeeRate))
  }

  lemma TradeCheckedIs(c: Data, r: Outcome)
    ensures
      var t := TradeChecked(c, r);
      && (t.passed <==> r.passed && Affordable(c, c.volume, RefPrice(c)))
      && (Affordable(c, c.volume, RefPrice(c)) ==> t == Earned(c, r))
  {
    hide Worth, BudgetOf, RefPrice;
  }

  lemma EvaluatedIs(c: Data, limits: Limits)
    ensures
      var (d, r) := Evaluated(c, limits);
      && d == WithVolume24h(c)
      && (r.passed <==>
            (limits.minVol24USD > 0.0 ==> d.vol24USDT >= limits.minVol24USD) && Affordable(c, c.volume, RefPrice(c)))
      && (r.passed ==>
            && r.maxSafeNotional == SafeNotional(c, limits)
            && (r.sizedDown <==> 0.0 < SafeNotional(c, limits) < BudgetOf(c))
            && (r.sizedDown ==> r.actualNotional == SafeNotional(c, limits)))
  {
    var d := WithVolume24h(c);
    TradeCheckedIs(d, Measured(d, limits));
    SameTrade(c, d, c.volume, RefPrice(c));
    hide TradeChecked, Affordable, Div, Mul, BudgetOf;
  }

  /** Turnover has no part in whether a volume may be traded. */
  lemma SameTrade(c: Data, d: Data, volume: real, price: real)
    requires d == c.(volume := d.volume, vol24USDT := d.vol24USDT)
    ensures Affordable(d, volume, price) <==> Affordable(c, volume, price)
    ensures RefPrice(d) == RefPrice(c) && BudgetOf(d) == BudgetOf(c)
    ensures WorthAt(d, volume, price) == WorthAt(c, volume, price)
    ensures NotionalOf(d, volume, price) == WorthAt(c, volume, price)
    ensures forall n :: VolumeForNotional(d, n, price) == VolumeForNotional(c, n, price)
    ensures forall r :: Earned(d, r) == Earned(c, r)
  {
    hide Worth, Mul;
  }

  /**
   A candidate passes exactly when its 24h turnover is enough, there is a price, its own volume may be traded,
   and the sized volume may be traded and is within the liquidity-safe notional. The outcome then says what it
   is worth and what it earns: the funding rate less slippage and two taker fees, in percent.
   */
  lemma PassesIff(c: Data, limits: Limits)
    ensures
      var (e, r) := Applied(c, limits);
      var ref, safe, volume := RefPrice(c), SafeNotional(c, limits), SizedVolume(c, limits);
      var turnover := if c.vol24USDT == 0.0 && c.volume24 > 0.0 && c.lastPrice > 0.0
                      then c.volume24 * c.lastPrice else c.vol24USDT;
      && (r.passed <==>
            && (limits.minVol24USD > 0.0 ==> turnover >= limits.minVol24USD)
            && Affordable(c, c.volume, ref) && ref > 0.0
            && Affordable(c, volume, ref) && (safe > 0.0 ==> WorthAt(c, volume, ref) <= safe))
      && (r.passed ==>
            && e == c.(volume := volume, vol24USDT := turnover)
            && r.actualNotional == WorthAt(c, volume, ref)
            && (r.sizedDown <==> 0.0 < safe < BudgetOf(c))
            && r.estSlippage == (if c.slippage > 0.0 then c.slippage else c.maxPriceDiffPercent)
            && r.expectedProfit ==
                 (if c.fundingRate < 0.0 then -c.fundingRate else c.fundingRate) * 100.0
                 - r.estSlippage - 2.0 * (100.0 * c.takerFeeRate))
  {
    EvaluatedIs(c, limits);
    var (d, r) := Evaluated(c, limits);
    hide Evaluated;
    SameTrade(c, d, c.volume, RefPrice(c));
    if r.passed && RefPrice(d) > 0.0 { SizedIs(c, d, r, limits); }
    hide Worth, VolumeForNotional, BudgetOf, RefPrice, Affordable, SafeNotional;
  }

  /** What follows the evaluation. */
  lemma SizedIs(c: Data, d: Data, r: Outcome, limits: Limits)
    requires d == c.(vol24USDT := d.vol24USDT) && r.passed && RefPrice(c) > 0.0
    requires r.maxSafeNotional == SafeNotional(c, limits)
    requires r.sizedDown <==> 0.0 < SafeNotional(c, limits) < BudgetOf(c)
    requires r.sizedDown ==> r.actualNotional == SafeNotional(c, limits)
    ensures
      var ref, safe, volume := RefPrice(c), SafeNotional(c, limits), SizedVolume(c, limits);
      var e := Resized(d, r);
      var notional := NotionalOf(e, e.volume, RefPrice(e));
      && e == d.(volume := volume) && RefPrice(e) == ref && notional == WorthAt(c, volume, ref)
      && forall t: Outcome :: t.passed ==>
           && (TradeChecked(e, t).passed <==> Affordable(c, volume, ref))
           && (TradeChecked(e, t).passed ==> TradeChecked(e, t) == Earned(c, t))
  {
    hide Worth, VolumeForNotional, BudgetOf, SafeNotional, Affordable;
    SameTrade(c, d, c.volume, RefPrice(c));
    var e := Resized(d, r);
    SameTrade(c, e, e.volume, RefPrice(c));
    forall t: Outcome | t.passed
      ensures TradeChecked(e, t).passed <==> Affordable(c, e.volume, RefPrice(c))
      ensures TradeChecked(e, t).passed ==> TradeChecked(e, t) == Earned(c, t)
    {
      TradeCheckedIs(e, t);
    }
  }

  /** The liquidity-safe notional is the given share of an average minute's turnover. */
  lemma SafeNotionalIs(c: Data, limits: Limits)
    ensures
      var turnover := if c.vol24USDT == 0.0 && c.volume24 > 0.0 && c.lastPrice > 0.0
                      then c.volume24 * c.lastPrice else c.vol24USDT;
      SafeNotional(c, limits) == if turnover > 0.0 then turnover / 1440.0 * limits.maxImpactRatio else 0.0
  {
  }
}

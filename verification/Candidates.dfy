/**
 A trading candidate of internal/bots/funding/domain: scanner.go, pricing.go and leverage.go.
 Only the fields that sizing and pricing use are kept.
 */
module Candidates {
  import opened Wrappers
  import opened DecMath
  import opened TradeCalc

  datatype DynamicTP = DynamicTP(enabled: bool, multiplier: real, minPct: real, maxPct: real)

  datatype Data = Data(
    symbol: string, side: Side, fundingRate: real,
    marginUSDT: real, leverage: int, maxPriceDiffPercent: real,
    takeProfitPct: real, stopLossPct: real, dynamicTP: DynamicTP,
    priceUnit: real, priceScale: int, volScale: int, minVol: int, maxVol: int,
    contractSize: real, takerFeeRate: real, maxLeverage: int,
    lastPrice: real, bestBid: real, bestAsk: real, volume24: real, vol24USDT: real,
    volume: real, slippage: real)

  function RefPrice(c: Data): real {
    ExecutionRefPrice(c.side, c.lastPrice, c.bestBid, c.bestAsk)
  }

  function CappedVolume(c: Data, vol: real): real {
    if c.maxVol > 0 && vol > c.maxVol as real then c.maxVol as real else vol
  }

  function VolumeOf(c: Data): real {
    CappedVolume(
      c, CalculateVolume(c.marginUSDT, c.leverage as real, c.contractSize, RefPrice(c), c.minVol as real, c.volScale))
  }

  function VolumeForNotional(c: Data, notional: real, refPrice: real): real {
    CappedVolume(c, CalculateVolumeForNotional(notional, refPrice, c.contractSize, c.minVol as real, c.volScale))
  }

  /** ReversionNotionalUSDT. */
  function BudgetOf(c: Data): real {
    Mul(c.marginUSDT, c.leverage as real)
  }

  function NotionalOf(c: Data, volume: real, refPrice: real): real {
    NotionalForVolume(volume, refPrice, c.contractSize)
  }

  function WeightOr(w: real, default: real): real {
    if w <= 0.0 then default else w
  }

  function OpportunityScore(
    fundingRate: real, vol24hUSDT: real, rateWeight: real, volWeight: real, maxVolScore: real): real {
    Abs(fundingRate) / 0.001 * WeightOr(rateWeight, 1.0)
    + Min(vol24hUSDT / 1_000_000.0 * WeightOr(volWeight, 0.5), WeightOr(maxVolScore, 5.0))
  }

  /** Within what the market takes: a volume from a notional stays inside it unless the exchange minimum forces more. */
  lemma VolumeFitsNotional(c: Data, notional: real, refPrice: real)
    requires refPrice > 0.0 && c.minVol >= 0
    ensures
      var floored := FloorToScale(Contracts(notional, c.contractSize, refPrice), c.volScale);
      var v := CappedVolume(c, Max(floored, c.minVol as real));
      c.contractSize > 0.0 && v > c.minVol as real ==> NotionalOf(c, v, refPrice) <= notional
  {
    hide FloorToScale, Contracts, Worth;
    if c.contractSize > 0.0 {
      var floored := FloorToScale(Contracts(notional, c.contractSize, refPrice), c.volScale);
      FlooredVolumeFits(notional, refPrice, c.contractSize, c.volScale, 0);
      var v := CappedVolume(c, Max(floored, c.minVol as real));
      if v > c.minVol as real { WorthIsMonotone(v, floored, c.contractSize, refPrice); }
    }
  }

  // ---------------------------------------------------------------- leverage

  /** What the exchange client can say about leverage; an Err is a failed query. */
  datatype Limits =
    | NoLimits
    | RiskLimit(forValue: (string, real) -> Result<int, ()>)
    | MaxLeverage(forSymbol: string -> Result<int, ()>)

  /** `onOrder`: the leverage is set with each order, so no limit is asked for. */
  datatype Client = NoClient | Client(onOrder: bool, limits: Limits)

  function TargetValue(c: Data, leverage: int): real {
    var price := if c.lastPrice != 0.0 then c.lastPrice else if c.bestBid != 0.0 then c.bestBid else c.bestAsk;
    var value := c.volume * c.contractSize * price;
    if value == 0.0 && c.marginUSDT > 0.0 then c.marginUSDT * leverage as real else value
  }

  function Limited(leverage: int, answer: Result<int, ()>): int {
    if answer.Ok? && answer.value > 0 && leverage > answer.value then answer.value else leverage
  }

  function DetermineLeverage(client: Client, c: Data): int {
    var leverage := if c.maxLeverage > 0 && c.leverage > c.maxLeverage then c.maxLeverage else c.leverage;
    if leverage <= 0 then 1
    else if client.NoClient? || client.onOrder then leverage
    else match client.limits
      case NoLimits => leverage
      case RiskLimit(f) => Limited(leverage, f(c.symbol, TargetValue(c, leverage)))
      case MaxLeverage(f) => Limited(leverage, f(c.symbol))
  }

  /** At least 1, never above the configured leverage, the contract's, or the exchange's answer. */
  lemma LeverageWithinLimits(client: Client, c: Data)
    ensures
      var lev := DetermineLeverage(client, c);
      && lev >= 1
      && (c.leverage >= 1 ==> lev <= c.leverage)
      && (c.maxLeverage > 0 ==> lev <= c.maxLeverage)
      && (client.Client? && !client.onOrder && client.limits.MaxLeverage? ==>
            var answer := client.limits.forSymbol(c.symbol);
            answer.Ok? && answer.value > 0 ==> lev <= answer.value)
      && (client.Client? && !client.onOrder && client.limits.RiskLimit? && c.leverage > 0 ==>
            var asked := if c.maxLeverage > 0 && c.leverage > c.maxLeverage then c.maxLeverage else c.leverage;
            var answer := client.limits.forValue(c.symbol, TargetValue(c, asked));
            answer.Ok? && answer.value > 0 ==> lev <= answer.value)
  {
  }

  /** And no smaller than that: whatever all the limits allow, the leverage is at least it. */
  lemma LeverageIsGreatest(client: Client, c: Data, n: int)
    requires 1 <= n <= c.leverage && (c.maxLeverage > 0 ==> n <= c.maxLeverage)
    requires client.Client? && !client.onOrder && client.limits.MaxLeverage? ==>
               var answer := client.limits.forSymbol(c.symbol);
               answer.Ok? && answer.value > 0 ==> n <= answer.value
    requires client.Client? && !client.onOrder && client.limits.RiskLimit? ==>
               var asked := if 0 < c.maxLeverage < c.leverage then c.maxLeverage else c.leverage;
               var answer := client.limits.forValue(c.symbol, TargetValue(c, asked));
               answer.Ok? && answer.value > 0 ==> n <= answer.value
    ensures n <= DetermineLeverage(client, c)
  {
  }

  /**
   The value a risk limit is asked for: the position at the last price, else the bid, else the ask; the
   margin's if there is none.
   */
  lemma TargetValueIs(c: Data, leverage: int)
    ensures
      var price := if c.lastPrice != 0.0 then c.lastPrice else if c.bestBid != 0.0 then c.bestBid else c.bestAsk;
      var position := c.volume * c.contractSize * price;
      && (position != 0.0 ==> TargetValue(c, leverage) == position)
      && (position == 0.0 && c.marginUSDT > 0.0 ==> TargetValue(c, leverage) == c.marginUSDT * leverage as real)
      && (position == 0.0 && c.marginUSDT <= 0.0 ==> TargetValue(c, leverage) == 0.0)
  {
  }

  /** The price a candidate is sized at: the ask for LONG, the bid for SHORT, and the last price without it. */
  lemma RefPriceIs(c: Data)
    ensures c.side == OpenLong && c.bestAsk > 0.0 ==> RefPrice(c) == c.bestAsk
    ensures c.side == OpenShort && c.bestBid > 0.0 ==> RefPrice(c) == c.bestBid
    ensures !(c.side == OpenLong && c.bestAsk > 0.0) && !(c.side == OpenShort && c.bestBid > 0.0) ==>
              RefPrice(c) == c.lastPrice
  {
  }

  /**
   The score: a point for each tenth of a percent of funding rate, and the turnover in millions, each weighted,
   the latter capped.
   */
  lemma ScoreIs(fundingRate: real, vol24hUSDT: real, rateWeight: real, volWeight: real, maxVolScore: real)
    ensures
      var rate := if fundingRate < 0.0 then -fundingRate else fundingRate;
      var turnover := vol24hUSDT / 1_000_000.0 * (if volWeight > 0.0 then volWeight else 0.5);
      var most := if maxVolScore > 0.0 then maxVolScore else 5.0;
      OpportunityScore(fundingRate, vol24hUSDT, rateWeight, volWeight, maxVolScore) ==
        1000.0 * rate * (if rateWeight > 0.0 then rateWeight else 1.0) + if turnover > most then most else turnover
  {
    var rate := if fundingRate < 0.0 then -fundingRate else fundingRate;
    assert rate / 0.001 == 1000.0 * rate;
  }

  /**
   The volume a margin buys: the largest lot multiple worth at most margin times leverage, unless the exchange's
   bounds say otherwise; nothing without a contract size or a price.
   */
  lemma VolumeIsLargest(c: Data, k: int)
    ensures
      var v, ref, lot := VolumeOf(c), RefPrice(c), Times(k, Unit(c.volScale));
      && (c.contractSize <= 0.0 || ref <= 0.0 ==> v == 0.0)
      && (c.maxVol > 0 ==> v <= c.maxVol as real)
      && (c.contractSize > 0.0 && ref > 0.0 ==>
            && (v >= c.minVol as real || v == c.maxVol as real)
            && (v > c.minVol as real ==> Worth(v, c.contractSize, ref) <= BudgetOf(c))
            && (c.minVol as real < v && (c.maxVol > 0 ==> v < c.maxVol as real) ==> HasScale(v, c.volScale))
            && (Worth(lot, c.contractSize, ref) <= BudgetOf(c) && (c.maxVol > 0 ==> lot <= c.maxVol as real) ==>
                  lot <= v))
  {
    hide Contracts, Worth, FloorToScale, Times, Unit, HasScale, BudgetOf, RefPrice;
    var ref := RefPrice(c);
    if c.contractSize > 0.0 && ref > 0.0 {
      FlooredVolumeFits(BudgetOf(c), ref, c.contractSize, c.volScale, k);
      BudgetIs(c);
      var floored := FloorToScale(Contracts(BudgetOf(c), c.contractSize, ref), c.volScale);
      if VolumeOf(c) <= floored { WorthIsMonotone(VolumeOf(c), floored, c.contractSize, ref); }
    }
  }

  lemma BudgetIs(c: Data)
    ensures BudgetOf(c) == Mul(c.marginUSDT, c.leverage as real) == c.marginUSDT * c.leverage as real
  {
  }
}

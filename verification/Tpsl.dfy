/** Take profit and stop loss of internal/bots/funding/domain/tpsl.go against the IOC price. */
module Tpsl {
  import opened Wrappers
  import opened DecMath
  import opened TradeCalc
  import opened Candidates

  function ResolveTakeProfitPct(c: Data): real {
    var cfg := c.dynamicTP;
    if !cfg.enabled || cfg.multiplier <= 0.0 then c.takeProfitPct
    else
      var dynamic := Abs(c.fundingRate) * cfg.multiplier;
      var raised := if cfg.minPct > 0.0 && dynamic < cfg.minPct then cfg.minPct else dynamic;
      if cfg.maxPct > 0.0 && raised > cfg.maxPct then cfg.maxPct else raised
  }

  function PeakPrice(c: Data): real {
    ReferencePrice(c.side, c.bestBid, c.bestAsk)
  }

  /** A price of 0 means no order. */
  function Validated(side: Side, iocPrice: real, tp: real, sl: real): (real, real) {
    if side == OpenLong then
      (if tp > 0.0 && tp <= iocPrice then 0.0 else tp, if sl > 0.0 && sl >= iocPrice then 0.0 else sl)
    else
      (if tp > 0.0 && tp >= iocPrice then 0.0 else tp, if sl > 0.0 && sl <= iocPrice then 0.0 else sl)
  }

  function TakeProfitOf(c: Data, ties: Ties): real {
    CalculateStaticTakeProfitPrice(c.side, PeakPrice(c), ResolveTakeProfitPct(c), c.priceUnit, c.priceScale, ties)
  }

  function StopLossOf(c: Data, ties: Ties): real {
    CalculateStopLossPrice(c.side, PeakPrice(c), c.stopLossPct, c.priceUnit, c.priceScale, ties)
  }

  function OrderTPSL(c: Data, iocPrice: real, ties: Ties): (real, real) {
    var tp := if ResolveTakeProfitPct(c) > 0.0 then TakeProfitOf(c, ties) else 0.0;
    Validated(c.side, iocPrice, tp, StopLossOf(c, ties))
  }

  function IOCPriceOf(c: Data, ties: Ties): Result<real, CalcError> {
    CalculateIOCPrice(c.side, c.bestBid, c.bestAsk, c.maxPriceDiffPercent, c.priceUnit, c.priceScale, ties)
  }

  /** The slippage that goes into the IOC price. */
  function SlippageOf(c: Data): real {
    Slippage(PeakPrice(c), c.maxPriceDiffPercent, c.priceUnit)
  }

  /**
   The take-profit percentage: the funding rate times the multiplier, clamped; the upper bound wins; the static
   one unless enabled.
   */
  lemma TakeProfitPctIsClamped(c: Data)
    ensures
      var d, pct := c.dynamicTP, ResolveTakeProfitPct(c);
      var raw := (if c.fundingRate < 0.0 then -c.fundingRate else c.fundingRate) * d.multiplier;
      && (!d.enabled || d.multiplier <= 0.0 ==> pct == c.takeProfitPct)
      && (d.enabled && d.multiplier > 0.0 ==>
            && (d.maxPct > 0.0 ==> pct <= d.maxPct)
            && (d.minPct > 0.0 && (d.maxPct <= 0.0 || d.minPct <= d.maxPct) ==> pct >= d.minPct)
            && ((d.minPct <= 0.0 || raw >= d.minPct) && (d.maxPct <= 0.0 || raw <= d.maxPct) ==> pct == raw)
            && (pct == raw || (pct == d.minPct > 0.0 && raw < pct) || (pct == d.maxPct > 0.0)))
  {
  }

  /**
   The stop loss, before validation: a percentage below the ask for LONG, above the bid for SHORT, on the tick
   nearest to the entry; none when the percentage is not positive.
   */
  lemma StopLossIsATick(c: Data, ties: Ties, k: int)
    requires (c.side == OpenLong && c.bestAsk > 0.0) || (c.side == OpenShort && c.bestBid > 0.0)
    requires c.priceUnit > 0.0 && HasScale(c.priceUnit, c.priceScale)
    ensures
      var sl, tick := StopLossOf(c, ties), Times(k, c.priceUnit);
      if c.stopLossPct <= 0.0 then sl == 0.0
      else if c.side == OpenLong then
        var stop := c.bestAsk - c.bestAsk * c.stopLossPct;
        IsMultiple(sl, c.priceUnit) && sl >= stop && (tick >= stop ==> tick >= sl)
      else
        var stop := c.bestBid + c.bestBid * c.stopLossPct;
        IsMultiple(sl, c.priceUnit) && sl <= stop && (tick <= stop ==> tick <= sl)
  {
    hide SnapToTickFloor, SnapToTickCeil, RoundToScale, IsMultiple, Times, CalculateStaticExitPrice;
    ExitTicks(c.side, PeakPrice(c), c.stopLossPct, false, c.priceUnit, c.priceScale, ties, k);
  }

  /** The take profit: the resolved percentage on the other side of the entry. */
  lemma TakeProfitIsATick(c: Data, ties: Ties, k: int)
    requires (c.side == OpenLong && c.bestAsk > 0.0) || (c.side == OpenShort && c.bestBid > 0.0)
    requires c.priceUnit > 0.0 && HasScale(c.priceUnit, c.priceScale)
    ensures
      var tp, pct, tick := TakeProfitOf(c, ties), ResolveTakeProfitPct(c), Times(k, c.priceUnit);
      if pct <= 0.0 then tp == 0.0
      else if c.side == OpenLong then
        var goal := c.bestAsk + c.bestAsk * pct;
        IsMultiple(tp, c.priceUnit) && tp <= goal && (tick <= goal ==> tick <= tp)
      else
        var goal := c.bestBid - c.bestBid * pct;
        IsMultiple(tp, c.priceUnit) && tp >= goal && (tick >= goal ==> tick >= tp)
  {
    hide SnapToTickFloor, SnapToTickCeil, RoundToScale, IsMultiple, Times;
    hide CalculateStaticExitPrice, ResolveTakeProfitPct;
    ExitTicks(c.side, PeakPrice(c), ResolveTakeProfitPct(c), true, c.priceUnit, c.priceScale, ties, k);
  }

  /** What competes with a take profit, written out: the slippage of the IOC price. */
  lemma BeyondSlippageIs(c: Data, k: int)
    ensures
      var entry := if c.side == OpenLong then c.bestAsk else c.bestBid;
      var share := entry * c.maxPriceDiffPercent / 100.0;
      var most := if share > 2.0 * c.priceUnit then share else 2.0 * c.priceUnit;
      var gain, tick := entry * ResolveTakeProfitPct(c), Times(k, c.priceUnit);
      BeyondSlippage(c, k) <==>
        if c.side == OpenLong then entry + most < tick <= entry + gain else entry - gain <= tick < entry - most
  {
    SlippageIs(PeakPrice(c), c.maxPriceDiffPercent, c.priceUnit);
    hide Slippage, Times, ResolveTakeProfitPct;
  }

  lemma ExitTicks(
    side: Side, entry: real, pct: real, favorable: bool, priceUnit: real, priceScale: int, ties: Ties, k: int)
    requires priceUnit > 0.0 && HasScale(priceUnit, priceScale) && (side == OpenLong || side == OpenShort)
    ensures
      var r := CalculateStaticExitPrice(side, entry, pct, favorable, priceUnit, priceScale, ties);
      && IsMultiple(r, priceUnit)
      && if (side == OpenLong) == favorable
         then
           && r <= entry + entry * pct
           && (Times(k, priceUnit) <= entry + entry * pct ==> Times(k, priceUnit) <= r)
         else
           && r >= entry - entry * pct
           && (Times(k, priceUnit) >= entry - entry * pct ==> Times(k, priceUnit) >= r)
  {
    ExitPriceWithinATick(side, entry, pct, favorable, priceUnit, priceScale, ties);
    hide CalculateStaticExitPrice, SnapToTickFloor, SnapToTickCeil, IsMultiple, Times;
    SnapFloorIsGreatest(entry + Distance(entry, pct), priceUnit, k);
    SnapCeilIsLeast(entry - Distance(entry, pct), priceUnit, k);
  }

  /** After the IOC price went through, direction validation never drops a stop loss, on either side. */
  lemma StopLossIsNeverDropped(c: Data, ties: Ties)
    requires HasScale(c.priceUnit, c.priceScale)
    requires IOCPriceOf(c, ties).Ok?
    ensures OrderTPSL(c, IOCPriceOf(c, ties).value, ties).1 == StopLossOf(c, ties)
  {
    hide SnapToTickFloor, SnapToTickCeil, RoundToScale, IsMultiple, Slippage, Distance;
    IOCPriceNearSlippage(c.side, c.bestBid, c.bestAsk, c.maxPriceDiffPercent, c.priceUnit, c.priceScale, ties, 0);
    ExitPriceWithinATick(c.side, PeakPrice(c), c.stopLossPct, false, c.priceUnit, c.priceScale, ties);
  }

  /** The k-th tick lies beyond the slippage and not beyond the take profit's distance. */
  predicate BeyondSlippage(c: Data, k: int) {
    var entry, distance, slippage := PeakPrice(c), Distance(PeakPrice(c), ResolveTakeProfitPct(c)), SlippageOf(c);
    if c.side == OpenLong then entry + slippage < Times(k, c.priceUnit) <= entry + distance
    else entry - distance <= Times(k, c.priceUnit) < entry - slippage
  }

  /**
   A take profit competes with the slippage: it is kept exactly when some tick lies beyond the slippage
   within its distance. So it is dropped when its distance does not exceed the slippage, and kept once it
   exceeds it by a tick.
   */
  lemma TakeProfitNeedsMoreThanSlippage(c: Data, ties: Ties)
    requires HasScale(c.priceUnit, c.priceScale)
    requires IOCPriceOf(c, ties).Ok? && ResolveTakeProfitPct(c) > 0.0
    ensures
      var distance := Distance(PeakPrice(c), ResolveTakeProfitPct(c));
      var tp := OrderTPSL(c, IOCPriceOf(c, ties).value, ties).0;
      && (tp == if exists k :: BeyondSlippage(c, k) then TakeProfitOf(c, ties) else 0.0)
      && (distance <= SlippageOf(c) ==> tp == 0.0)
      && (distance >= SlippageOf(c) + c.priceUnit ==> tp == TakeProfitOf(c, ties))
  {
    hide SnapToTickFloor, SnapToTickCeil, RoundToScale, IsMultiple, ResolveTakeProfitPct, Slippage, Distance,
        BeyondSlippage;
    var entry, distance := PeakPrice(c), Distance(PeakPrice(c), ResolveTakeProfitPct(c));
    ExitPriceWithinATick(c.side, entry, ResolveTakeProfitPct(c), true, c.priceUnit, c.priceScale, ties);
    IOCPriceNearSlippage(c.side, c.bestBid, c.bestAsk, c.maxPriceDiffPercent, c.priceUnit, c.priceScale, ties, 0);
    SnappedIOC(c, ties);
    if c.side == OpenLong {
      LongTickBeyond(c);
      SnapFloorIsGreatest(entry + distance, c.priceUnit, 0);
      assert Times(0, c.priceUnit) == 0.0;
    } else {
      ShortTickBeyond(c);
    }
  }

  lemma LongTickBeyond(c: Data)
    requires c.side == OpenLong && c.priceUnit > 0.0
    ensures
      var entry, distance := PeakPrice(c), Distance(PeakPrice(c), ResolveTakeProfitPct(c));
      var tp, ioc := SnapToTickFloor(entry + distance, c.priceUnit), SnapToTickFloor(entry + SlippageOf(c),
          c.priceUnit);
      && (tp > ioc <==> exists k :: BeyondSlippage(c, k))
      && (distance <= SlippageOf(c) ==> tp <= ioc) && (distance >= SlippageOf(c) + c.priceUnit ==> tp > ioc)
  {
    hide SnapToTickFloor, Times, ResolveTakeProfitPct, Slippage, Distance;
    var up, near := PeakPrice(c) + Distance(PeakPrice(c), ResolveTakeProfitPct(c)), PeakPrice(c) + SlippageOf(c);
    SnapFloorIsGreatest(near, c.priceUnit, 0);
    SnapFloorIsGreatest(up, c.priceUnit, 0);
    var j: int :| SnapToTickFloor(up, c.priceUnit) == Times(j, c.priceUnit);
    SnapFloorIsGreatest(near, c.priceUnit, j);
    if Times(j, c.priceUnit) > near { assert BeyondSlippage(c, j); }
    if k :| BeyondSlippage(c, k) { SnapFloorIsGreatest(up, c.priceUnit, k); }
  }

  lemma ShortTickBeyond(c: Data)
    requires c.side != OpenLong && c.priceUnit > 0.0
    ensures
      var entry, distance := PeakPrice(c), Distance(PeakPrice(c), ResolveTakeProfitPct(c));
      var tp, ioc := SnapToTickCeil(entry - distance, c.priceUnit), SnapToTickCeil(entry - SlippageOf(c), c.priceUnit);
      && (tp < ioc <==> exists k :: BeyondSlippage(c, k))
      && (distance <= SlippageOf(c) ==> tp >= ioc) && (distance >= SlippageOf(c) + c.priceUnit ==> tp < ioc)
  {
    hide SnapToTickCeil, Times, ResolveTakeProfitPct, Slippage, Distance;
    var down, near := PeakPrice(c) - Distance(PeakPrice(c), ResolveTakeProfitPct(c)), PeakPrice(c) - SlippageOf(c);
    SnapCeilIsLeast(near, c.priceUnit, 0);
    SnapCeilIsLeast(down, c.priceUnit, 0);
    var j: int :| SnapToTickCeil(down, c.priceUnit) == Times(j, c.priceUnit);
    SnapCeilIsLeast(near, c.priceUnit, j);
    if Times(j, c.priceUnit) < near { assert BeyondSlippage(c, j); }
    if k :| BeyondSlippage(c, k) { SnapCeilIsLeast(down, c.priceUnit, k); }
  }

  lemma SnappedIOC(c: Data, ties: Ties)
    requires HasScale(c.priceUnit, c.priceScale) && IOCPriceOf(c, ties).Ok?
    ensures IOCPriceOf(c, ties).value ==
      if c.side == OpenLong then SnapToTickFloor(PeakPrice(c) + SlippageOf(c), c.priceUnit)
      else SnapToTickCeil(PeakPrice(c) - SlippageOf(c), c.priceUnit)
  {
    SnappedNeedsNoRounding(PeakPrice(c) + SlippageOf(c), c.priceUnit, c.priceScale, ties);
    SnappedNeedsNoRounding(PeakPrice(c) - SlippageOf(c), c.priceUnit, c.priceScale, ties);
    SnapFloorIsGreatest(PeakPrice(c) + SlippageOf(c), c.priceUnit, 0);
    SnapCeilIsLeast(PeakPrice(c) - SlippageOf(c), c.priceUnit, 0);
  }
}

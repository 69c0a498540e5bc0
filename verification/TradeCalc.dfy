/** Order prices and volumes of pkg/tradecalc/calc.go, on exact reals. */
module TradeCalc {
  import opened Wrappers
  import opened DecMath

  datatype Side = Unknown | OpenLong | CloseShort | OpenShort | CloseLong

  datatype CalcError = InvalidSide | InvalidPriceUnit | ZeroRefPrice | ZeroIOCPrice

  function Slippage(refPrice: real, maxPriceDiffPercent: real, priceUnit: real): real {
    Max(refPrice * (maxPriceDiffPercent / 100.0), priceUnit * 2.0)
  }

  function ReferencePrice(side: Side, bestBid: real, bestAsk: real): real {
    if side == OpenLong then bestAsk else bestBid
  }

  /** The price before the sanity check. */
  function SnappedIOCPrice(
    side: Side, refPrice: real, slippage: real, priceUnit: real, priceScale: int, ties: Ties): real {
    RoundToScale(
      if side == OpenLong then SnapToTickFloor(refPrice + slippage, priceUnit)
      else SnapToTickCeil(refPrice - slippage, priceUnit),
      priceScale, ties)
  }

  function CalculateIOCPrice(
    side: Side, bestBid: real, bestAsk: real, maxPriceDiffPercent: real,
    priceUnit: real, priceScale: int, ties: Ties): Result<real, CalcError>
  {
    var refPrice := ReferencePrice(side, bestBid, bestAsk);
    if priceUnit <= 0.0 then Err(InvalidPriceUnit)
    else if side != OpenLong && side != OpenShort then Err(InvalidSide)
    else if refPrice <= 0.0 then Err(ZeroRefPrice)
    else
      var snapped := SnappedIOCPrice(side, refPrice, Slippage(refPrice, maxPriceDiffPercent, priceUnit),
          priceUnit, priceScale, ties);
      var price :=
        if side == OpenLong && snapped < refPrice then RoundToScale(refPrice + priceUnit, priceScale, ties)
        else if side == OpenShort && snapped > refPrice then RoundToScale(refPrice - priceUnit, priceScale, ties)
        else snapped;
      if price <= 0.0 then Err(ZeroIOCPrice) else Ok(price)
  }

  function CalculateStaticExitPrice(
    side: Side, entryPrice: real, pct: real, favorable: bool, priceUnit: real, priceScale: int, ties: Ties): real
  {
    if (side == OpenLong && favorable) || (side == OpenShort && !favorable)
    then RoundToScale(SnapToTickFloor(entryPrice * (1.0 + pct), priceUnit), priceScale, ties)
    else RoundToScale(SnapToTickCeil(entryPrice * (1.0 - pct), priceUnit), priceScale, ties)
  }

  function CalculateStopLossPrice(
    side: Side, entryPrice: real, slPct: real, priceUnit: real, priceScale: int, ties: Ties): real {
    if slPct <= 0.0 || entryPrice <= 0.0 || priceUnit <= 0.0 then 0.0
    else CalculateStaticExitPrice(side, entryPrice, slPct, false, priceUnit, priceScale, ties)
  }

  function CalculateStaticTakeProfitPrice(
    side: Side, entryPrice: real, tpPct: real, priceUnit: real, priceScale: int, ties: Ties): real {
    if tpPct <= 0.0 || entryPrice <= 0.0 || priceUnit <= 0.0 then 0.0
    else CalculateStaticExitPrice(side, entryPrice, tpPct, true, priceUnit, priceScale, ties)
  }

  function ExecutionRefPrice(side: Side, lastPrice: real, bestBid: real, bestAsk: real): real {
    if side == OpenLong && bestAsk > 0.0 then bestAsk
    else if side == OpenShort && bestBid > 0.0 then bestBid
    else lastPrice
  }

  /** How many contracts a notional buys, before any rounding. */
  function Contracts(notional: real, contractSize: real, refPrice: real): real {
    Div(notional, contractSize * refPrice)
  }

  function CalculateVolume(
    margin: real, leverage: real, contractSize: real, refPrice: real, minVol: real, volScale: int): real {
    if contractSize <= 0.0 || refPrice <= 0.0 then 0.0
    else Max(FloorToScale(Contracts(Mul(margin, leverage), contractSize, refPrice), volScale), minVol)
  }

  function CalculateVolumeForNotional(
    notional: real, refPrice: real, contractSize: real, minVol: real, volScale: int): real {
    if contractSize <= 0.0 || refPrice <= 0.0 || notional <= 0.0 then 0.0
    else Max(FloorToScale(Contracts(notional, contractSize, refPrice), volScale), minVol)
  }

  function Worth(volume: real, contractSize: real, refPrice: real): real {
    volume * contractSize * refPrice
  }

  function NotionalForVolume(volume: real, refPrice: real, contractSize: real): real {
    if contractSize <= 0.0 || volume <= 0.0 || refPrice <= 0.0 then 0.0 else Worth(volume, contractSize, refPrice)
  }

  // ---------------------------------------------------------------- the IOC price

  /** Which inputs are refused, and with what: the tick is looked at first, then the side, then the reference price. */
  lemma RefusedInputs(
    side: Side, bestBid: real, bestAsk: real, maxPriceDiffPercent: real, priceUnit: real, priceScale: int, ties: Ties)
    ensures
      var r := CalculateIOCPrice(side, bestBid, bestAsk, maxPriceDiffPercent, priceUnit, priceScale, ties);
      && (r == Err(InvalidPriceUnit) <==> priceUnit <= 0.0)
      && (r == Err(InvalidSide) <==> priceUnit > 0.0 && side != OpenLong && side != OpenShort)
      && (r == Err(ZeroRefPrice) <==>
            priceUnit > 0.0 && ((side == OpenLong && bestAsk <= 0.0) || (side == OpenShort && bestBid <= 0.0)))
      && (r.Ok? ==> r.value > 0.0)
  {
    hide RoundToScale, SnapToTickFloor, SnapToTickCeil, Slippage;
  }

  /** Snapping to a tick that the scale can express makes the rounding to the scale do nothing. */
  lemma SnappedNeedsNoRounding(price: real, priceUnit: real, priceScale: int, ties: Ties)
    requires priceUnit > 0.0 && HasScale(priceUnit, priceScale)
    ensures RoundToScale(SnapToTickFloor(price, priceUnit), priceScale, ties) == SnapToTickFloor(price, priceUnit)
    ensures RoundToScale(SnapToTickCeil(price, priceUnit), priceScale, ties) == SnapToTickCeil(price, priceUnit)
  {
    var down, up := SnapToTickFloor(price, priceUnit), SnapToTickCeil(price, priceUnit);
    SnapFloorIsGreatest(price, priceUnit, 0);
    SnapCeilIsLeast(price, priceUnit, 0);
    MultipleHasScale(down, priceUnit, priceScale);
    MultipleHasScale(up, priceUnit, priceScale);
    RoundIsNearest(down, priceScale, ties);
    RoundIsNearest(up, priceScale, ties);
  }

  /**
   With a tick the price scale can express: a LONG price is more than one tick above the ask and
   within the slippage, a SHORT price the mirror image or an error when nothing positive is left.
   Both lie on the tick grid, as far from the reference as the slippage allows.
   */
  lemma IOCPriceNearSlippage(
    side: Side, bestBid: real, bestAsk: real, maxPriceDiffPercent: real,
    priceUnit: real, priceScale: int, ties: Ties, k: int)
    requires priceUnit > 0.0 && HasScale(priceUnit, priceScale)
    requires side == OpenLong || side == OpenShort
    requires ReferencePrice(side, bestBid, bestAsk) > 0.0
    ensures
      var r := CalculateIOCPrice(side, bestBid, bestAsk, maxPriceDiffPercent, priceUnit, priceScale, ties);
      var slippage := Slippage(ReferencePrice(side, bestBid, bestAsk), maxPriceDiffPercent, priceUnit);
      if side == OpenLong then
        && r.Ok? && IsMultiple(r.value, priceUnit)
        && bestAsk + priceUnit < r.value <= bestAsk + slippage
        && (Times(k, priceUnit) <= bestAsk + slippage ==> Times(k, priceUnit) <= r.value)
      else if bestBid - slippage <= 0.0 then
        r == Err(ZeroIOCPrice)
      else
        && r.Ok? && IsMultiple(r.value, priceUnit)
        && bestBid - slippage <= r.value < bestBid - priceUnit
        && (Times(k, priceUnit) >= bestBid - slippage ==> Times(k, priceUnit) >= r.value)
  {
    var slippage := Slippage(ReferencePrice(side, bestBid, bestAsk), maxPriceDiffPercent, priceUnit);
    if side == OpenLong {
      SnappedNeedsNoRounding(bestAsk + slippage, priceUnit, priceScale, ties);
      SnapFloorIsGreatest(bestAsk + slippage, priceUnit, k);
    } else {
      SnappedNeedsNoRounding(bestBid - slippage, priceUnit, priceScale, ties);
      SnapCeilIsLeast(bestBid - slippage, priceUnit, k);
      SnapCeilIsLeast(bestBid - slippage, priceUnit, 0);
      assert Times(0, priceUnit) == 0.0;
    }
  }

  /**
   Written out: a LONG price is the greatest tick that is above the ask by at most the given percentage of it,
   or by two ticks if that is more; and it is more than a tick above.
   */
  lemma LongPriceWithinSlippage(
    bestBid: real, bestAsk: real, maxPriceDiffPercent: real, priceUnit: real, priceScale: int, ties: Ties, k: int)
    requires priceUnit > 0.0 && HasScale(priceUnit, priceScale) && bestAsk > 0.0
    ensures
      var r := CalculateIOCPrice(OpenLong, bestBid, bestAsk, maxPriceDiffPercent, priceUnit, priceScale, ties);
      var share := bestAsk * maxPriceDiffPercent / 100.0;
      var most := if share > 2.0 * priceUnit then share else 2.0 * priceUnit;
      && r.Ok? && IsMultiple(r.value, priceUnit)
      && bestAsk + priceUnit < r.value <= bestAsk + most
      && (Times(k, priceUnit) <= bestAsk + most ==> Times(k, priceUnit) <= r.value)
  {
    hide CalculateIOCPrice, Times, IsMultiple;
    SlippageIs(bestAsk, maxPriceDiffPercent, priceUnit);
    hide Slippage;
    IOCPriceNearSlippage(OpenLong, bestBid, bestAsk, maxPriceDiffPercent, priceUnit, priceScale, ties, k);
  }

  /** A SHORT price is the least tick that is as little below the bid, or an error when nothing positive is left. */
  lemma ShortPriceWithinSlippage(
    bestBid: real, bestAsk: real, maxPriceDiffPercent: real, priceUnit: real, priceScale: int, ties: Ties, k: int)
    requires priceUnit > 0.0 && HasScale(priceUnit, priceScale) && bestBid > 0.0
    ensures
      var r := CalculateIOCPrice(OpenShort, bestBid, bestAsk, maxPriceDiffPercent, priceUnit, priceScale, ties);
      var share := bestBid * maxPriceDiffPercent / 100.0;
      var most := if share > 2.0 * priceUnit then share else 2.0 * priceUnit;
      if bestBid - most <= 0.0 then
        r == Err(ZeroIOCPrice)
      else
        && r.Ok? && IsMultiple(r.value, priceUnit)
        && bestBid - most <= r.value < bestBid - priceUnit
        && (Times(k, priceUnit) >= bestBid - most ==> Times(k, priceUnit) >= r.value)
  {
    hide CalculateIOCPrice, Times, IsMultiple;
    SlippageIs(bestBid, maxPriceDiffPercent, priceUnit);
    hide Slippage;
    IOCPriceNearSlippage(OpenShort, bestBid, bestAsk, maxPriceDiffPercent, priceUnit, priceScale, ties, k);
  }

  /** The slippage: a percentage of the reference, or two ticks if that is more. */
  lemma SlippageIs(refPrice: real, maxPriceDiffPercent: real, priceUnit: real)
    ensures
      var share := refPrice * maxPriceDiffPercent / 100.0;
      Slippage(refPrice, maxPriceDiffPercent, priceUnit) == if share > 2.0 * priceUnit then share else 2.0 * priceUnit
  {
    assert refPrice * (maxPriceDiffPercent / 100.0) == refPrice * maxPriceDiffPercent / 100.0;
  }

  /**
   With ticks of at least half a unit of the scale the sanity check never fires, and the price still beats the
   reference.
   */
  lemma SanityCheckIsDead(
    side: Side, refPrice: real, maxPriceDiffPercent: real, priceUnit: real, priceScale: int, ties: Ties)
    requires priceUnit > 0.0 && Unit(priceScale) <= 2.0 * priceUnit
    requires side == OpenLong || side == OpenShort
    ensures
      var p := SnappedIOCPrice(side, refPrice, Slippage(refPrice, maxPriceDiffPercent, priceUnit), priceUnit,
          priceScale, ties);
      if side == OpenLong then p > refPrice else p < refPrice
  {
    var slippage := Slippage(refPrice, maxPriceDiffPercent, priceUnit);
    if side == OpenLong {
      SnapFloorIsGreatest(refPrice + slippage, priceUnit, 0);
      RoundIsNearest(SnapToTickFloor(refPrice + slippage, priceUnit), priceScale, ties);
    } else {
      SnapCeilIsLeast(refPrice - slippage, priceUnit, 0);
      RoundIsNearest(SnapToTickCeil(refPrice - slippage, priceUnit), priceScale, ties);
    }
  }

  /** A scale too coarse for the tick defeats both the price and its fallback: a LONG order below the ask. */
  lemma CoarseScaleUndercutsAsk(bestBid: real, ties: Ties)
    ensures CalculateIOCPrice(OpenLong, bestBid, 1.2, 0.0, 0.05, 0, ties) == Ok(1.0)
  {
    assert Slippage(1.2, 0.0, 0.05) == 0.1;
    assert 1.3 / 0.05 == 26.0;
    assert SnapToTickFloor(1.3, 0.05) == 1.3;
    assert Pow10(0) == 1.0;
    assert Nearest(1.3, ties(1.3)) == 1;
    assert Nearest(1.25, ties(1.25)) == 1;
    assert RoundToScale(1.3, 0, ties) == 1.0;
    assert RoundToScale(1.25, 0, ties) == 1.0;
  }

  /**
   A price that snaps to under half a unit of the scale cannot be ordered LONG: it rounds to nothing, and so
   does the fallback.
   */
  lemma CoarseScaleFailsLowPrices(
    bestBid: real, bestAsk: real, maxPriceDiffPercent: real, priceUnit: real, priceScale: int, ties: Ties)
    requires priceUnit > 0.0 && bestAsk > 0.0
    requires
      2.0 * SnapToTickFloor(bestAsk + Slippage(bestAsk, maxPriceDiffPercent, priceUnit), priceUnit) < Unit(priceScale)
    ensures
      var slippage := Slippage(bestAsk, maxPriceDiffPercent, priceUnit);
      SnappedIOCPrice(OpenLong, bestAsk, slippage, priceUnit, priceScale, ties) == 0.0
    ensures Err(ZeroIOCPrice) ==
      CalculateIOCPrice(OpenLong, bestBid, bestAsk, maxPriceDiffPercent, priceUnit, priceScale, ties)
  {
    var slippage := Slippage(bestAsk, maxPriceDiffPercent, priceUnit);
    SnapFloorIsGreatest(bestAsk + slippage, priceUnit, 0);
    assert slippage >= 2.0 * priceUnit;
    hide RoundToScale, Unit, SnapToTickFloor, Slippage;
    RoundsToZero(SnapToTickFloor(bestAsk + slippage, priceUnit), priceScale, ties);
    RoundsToZero(bestAsk + priceUnit, priceScale, ties);
  }

  lemma RoundsToZero(v: real, scale: int, ties: Ties)
    requires 0.0 <= v && 2.0 * v < Unit(scale)
    ensures RoundToScale(v, scale, ties) == 0.0
  {
    var p := Pow10(scale);
    SmallScaled(v, 1.0 / p, p);
    SmallRoundsToZero(v * p, ties(v));
    ZeroRounds(v, p, ties(v));
  }

  lemma ZeroRounds(v: real, p: real, up: bool)
    requires p > 0.0 && Nearest(v * p, up) == 0
    ensures RoundBy(v, p, up) == 0.0
  {
    assert 0.0 / p == 0.0;
  }

  lemma SmallScaled(v: real, u: real, p: real)
    requires p > 0.0 && u * p == 1.0 && 0.0 <= v && 2.0 * v < u
    ensures 0.0 <= v * p && v * p + v * p < 1.0
  {
    MulMono(0.0, v, p);
    ProductBelow(v + v, u, p);
    SumTimes(v, p);
  }

  lemma ProductBelow(w: real, u: real, p: real)
    requires p > 0.0 && w < u
    ensures Mul(w, p) < Mul(u, p)
  {
  }

  lemma SumTimes(v: real, p: real)
    ensures Mul(v + v, p) == v * p + v * p
  {
  }

  lemma SmallRoundsToZero(x: real, up: bool)
    requires 0.0 <= x && x + x < 1.0
    ensures Nearest(x, up) == 0
  {
  }

  /** How far a percentage is from the entry price. */
  function Distance(entryPrice: real, pct: real): real {
    entryPrice * pct
  }

  /** The exit price moves from the entry by pct of it, less than one tick towards the entry. */
  lemma ExitPriceWithinATick(
    side: Side, entryPrice: real, pct: real, favorable: bool, priceUnit: real, priceScale: int, ties: Ties)
    requires priceUnit > 0.0 && HasScale(priceUnit, priceScale)
    ensures
      var r := CalculateStaticExitPrice(side, entryPrice, pct, favorable, priceUnit, priceScale, ties);
      var up, down := entryPrice + Distance(entryPrice, pct), entryPrice - Distance(entryPrice, pct);
      if (side == OpenLong && favorable) || (side == OpenShort && !favorable)
      then r == SnapToTickFloor(up, priceUnit) && up - priceUnit < r <= up
      else r == SnapToTickCeil(down, priceUnit) && down <= r < down + priceUnit
    ensures entryPrice > 0.0 && pct > 0.0 ==> Distance(entryPrice, pct) > 0.0
  {
    var up, down := entryPrice + Distance(entryPrice, pct), entryPrice - Distance(entryPrice, pct);
    Distributes(entryPrice, pct);
    SnappedNeedsNoRounding(up, priceUnit, priceScale, ties);
    SnappedNeedsNoRounding(down, priceUnit, priceScale, ties);
    SnapFloorIsGreatest(up, priceUnit, 0);
    SnapCeilIsLeast(down, priceUnit, 0);
  }

  lemma Distributes(a: real, b: real)
    ensures a * (1.0 + b) == a + Distance(a, b) && a * (1.0 - b) == a - Distance(a, b)
    ensures a > 0.0 && b > 0.0 ==> Distance(a, b) > 0.0
  {
  }

  // ---------------------------------------------------------------- volumes

  /** A volume is worth at most a notional exactly when the notional buys it. */
  lemma WorthOfContracts(v: real, notional: real, contractSize: real, refPrice: real)
    requires contractSize > 0.0 && refPrice > 0.0
    ensures v <= Contracts(notional, contractSize, refPrice) <==> Worth(v, contractSize, refPrice) <= notional
  {
    var denom := contractSize * refPrice;
    assert denom > 0.0;
    var q := notional / denom;
    assert q * denom == notional;
    MulMono(v, q, denom);
    assert Worth(v, contractSize, refPrice) == v * denom;
  }

  /** A floored volume is the largest lot multiple whose notional fits. */
  lemma FlooredVolumeFits(notional: real, refPrice: real, contractSize: real, volScale: int, k: int)
    requires contractSize > 0.0 && refPrice > 0.0
    ensures
      var v := FloorToScale(Contracts(notional, contractSize, refPrice), volScale);
      && HasScale(v, volScale)
      && Worth(v, contractSize, refPrice) <= notional
      && (Worth(Times(k, Unit(volScale)), contractSize, refPrice) <= notional ==> Times(k, Unit(volScale)) <= v)
  {
    hide Contracts, Worth, FloorToScale, Times, Unit, HasScale;
    var q := Contracts(notional, contractSize, refPrice);
    FloorToScaleIsGreatest(q, volScale, k);
    WorthOfContracts(FloorToScale(q, volScale), notional, contractSize, refPrice);
    WorthOfContracts(Times(k, Unit(volScale)), notional, contractSize, refPrice);
  }

  lemma WorthIsMonotone(v: real, w: real, contractSize: real, refPrice: real)
    requires v <= w && contractSize > 0.0 && refPrice > 0.0
    ensures Worth(v, contractSize, refPrice) <= Worth(w, contractSize, refPrice)
  {
    MulMono(v, w, contractSize);
    MulMono(v * contractSize, w * contractSize, refPrice);
  }
}

/**
 The sanity check of CalculateIOCPrice in pkg/tradecalc/calc.go: when a rounded price falls on the wrong
 side of the reference, and what the fallback then achieves.
 */
module SanityCheck {
  import opened DecMath
  import opened TradeCalc

  predicate IsOpen(side: Side) {
    side == OpenLong || side == OpenShort
  }

  /** The check finds the price less aggressive than the reference. */
  predicate Fires(side: Side, refPrice: real, maxPriceDiffPercent: real, priceUnit: real, priceScale: int, ties: Ties) {
    var slippage := Slippage(refPrice, maxPriceDiffPercent, priceUnit);
    var p := SnappedIOCPrice(side, refPrice, slippage, priceUnit, priceScale, ties);
    if side == OpenLong then p < refPrice else p > refPrice
  }

  // ---------------------------------------------------------------- rounding is monotone

  lemma NearestIsMonotone(x: real, y: real, upX: bool, upY: bool)
    requires x < y
    ensures Nearest(x, upX) <= Nearest(y, upY)
  {
  }

  lemma DivMono(a: int, b: int, p: real)
    requires a <= b && p > 0.0
    ensures a as real / p <= b as real / p
  {
    DivIsTimes(a as real, p);
    DivIsTimes(b as real, p);
    MulMono(a as real, b as real, 1.0 / p);
  }

  lemma RoundByMono(v: real, w: real, p: real, upV: bool, upW: bool)
    requires p > 0.0 && v < w
    ensures RoundBy(v, p, upV) <= RoundBy(w, p, upW)
  {
    MulMono(v, w, p);
    var x, y := v * p, w * p;
    NearestIsMonotone(x, y, upV, upW);
    hide Nearest;
    DivMono(Nearest(x, upV), Nearest(y, upW), p);
  }

  lemma RoundIsMonotone(v: real, w: real, scale: int, ties: Ties)
    requires v <= w
    ensures RoundToScale(v, scale, ties) <= RoundToScale(w, scale, ties)
  {
    hide RoundBy;
    if v < w { RoundByMono(v, w, Pow10(scale), ties(v), ties(w)); }
  }

  lemma RoundOfZero(scale: int, ties: Ties)
    ensures RoundToScale(0.0, scale, ties) == 0.0
  {
    assert 0.0 == Times(0, Unit(scale));
    RoundIsNearest(0.0, scale, ties);
  }

  // ---------------------------------------------------------------- the fallback

  /** The snapped price is more than a tick beyond the reference. */
  lemma SnappedBeyondATick(refPrice: real, maxPriceDiffPercent: real, priceUnit: real)
    requires priceUnit > 0.0
    ensures
      var slippage := Slippage(refPrice, maxPriceDiffPercent, priceUnit);
      && slippage >= 2.0 * priceUnit
      && refPrice + slippage - priceUnit < SnapToTickFloor(refPrice + slippage, priceUnit)
      && SnapToTickCeil(refPrice - slippage, priceUnit) < refPrice - slippage + priceUnit
      && IsMultiple(SnapToTickFloor(refPrice + slippage, priceUnit), priceUnit)
      && IsMultiple(SnapToTickCeil(refPrice - slippage, priceUnit), priceUnit)
  {
    var slippage := Slippage(refPrice, maxPriceDiffPercent, priceUnit);
    SnapFloorIsGreatest(refPrice + slippage, priceUnit, 0);
    SnapCeilIsLeast(refPrice - slippage, priceUnit, 0);
  }

  /**
   The fallback repairs nothing: whenever the check fires, the reference moved by one tick rounds to the
   same wrong side. So a LONG price is at least the ask, and a SHORT price not above the bid, exactly
   when the check does not fire.
   */
  lemma FallbackNeverHelps(
    side: Side, bestBid: real, bestAsk: real, maxPriceDiffPercent: real, priceUnit: real, priceScale: int, ties: Ties)
    requires priceUnit > 0.0 && IsOpen(side) && ReferencePrice(side, bestBid, bestAsk) > 0.0
    ensures
      var r := CalculateIOCPrice(side, bestBid, bestAsk, maxPriceDiffPercent, priceUnit, priceScale, ties);
      var fires := Fires(side, ReferencePrice(side, bestBid, bestAsk), maxPriceDiffPercent, priceUnit,
          priceScale, ties);
      if side == OpenLong then (r.Ok? && r.value >= bestAsk <==> !fires) else (r.Ok? && r.value > bestBid <==> fires)
  {
    hide RoundToScale, SnapToTickFloor, SnapToTickCeil, Slippage, IsMultiple;
    var ref := ReferencePrice(side, bestBid, bestAsk);
    var slippage := Slippage(ref, maxPriceDiffPercent, priceUnit);
    SnappedBeyondATick(ref, maxPriceDiffPercent, priceUnit);
    RoundIsMonotone(ref + priceUnit, SnapToTickFloor(ref + slippage, priceUnit), priceScale, ties);
    RoundIsMonotone(SnapToTickCeil(ref - slippage, priceUnit), ref - priceUnit, priceScale, ties);
  }

  // ---------------------------------------------------------------- when it fires

  lemma TimesMono(j: int, k: int, tick: real)
    requires tick > 0.0
    ensures Times(j, tick) < Times(k, tick) <==> j < k
  {
    MulMono(j as real, k as real, tick);
  }

  lemma NextTick(k: int, tick: real)
    ensures Times(k + 1, tick) == Times(k, tick) + tick
    ensures Times(0, tick) == 0.0 && Times(1, tick) == tick && Times(2, tick) == 2.0 * tick
  {
    assert (k + 1) as real == k as real + 1.0;
  }

  lemma SnapFloorIs(x: real, tick: real, m: int)
    requires tick > 0.0 && Times(m, tick) <= x < Times(m, tick) + tick
    ensures SnapToTickFloor(x, tick) == Times(m, tick)
  {
    hide SnapToTickFloor, Times;
    SnapFloorIsGreatest(x, tick, m);
    var j: int :| SnapToTickFloor(x, tick) == Times(j, tick);
    NextTick(m, tick);
    TimesMono(j, m, tick);
    TimesMono(j, m + 1, tick);
  }

  lemma SnapCeilIs(x: real, tick: real, m: int)
    requires tick > 0.0 && Times(m, tick) - tick < x <= Times(m, tick)
    ensures SnapToTickCeil(x, tick) == Times(m, tick)
  {
    hide SnapToTickCeil, Times;
    SnapCeilIsLeast(x, tick, m);
    var j: int :| SnapToTickCeil(x, tick) == Times(j, tick);
    NextTick(m - 1, tick);
    TimesMono(m, j, tick);
    TimesMono(m - 1, j, tick);
  }

  /** At the n-th tick of the grid. */
  predicate FiresAt(side: Side, n: int, maxPriceDiffPercent: real, priceUnit: real, priceScale: int, ties: Ties) {
    Fires(side, Times(n, priceUnit), maxPriceDiffPercent, priceUnit, priceScale, ties)
  }

  /** Rounding takes the m-th tick down by more than `gap` ticks. */
  predicate RoundsDown(m: int, gap: int, priceUnit: real, priceScale: int, ties: Ties) {
    RoundToScale(Times(m, priceUnit), priceScale, ties) < Times(m - gap, priceUnit)
  }

  predicate RoundsUp(m: int, gap: int, priceUnit: real, priceScale: int, ties: Ties) {
    RoundToScale(Times(m, priceUnit), priceScale, ties) > Times(m + gap, priceUnit)
  }

  /** Without a percentage the slippage is two ticks. */
  lemma TwoTicks(refPrice: real, priceUnit: real)
    requires priceUnit > 0.0
    ensures Slippage(refPrice, 0.0, priceUnit) == 2.0 * priceUnit
  {
    assert refPrice * (0.0 / 100.0) == 0.0;
  }

  /** A price at which a tick that rounds down too far makes the LONG check fire. */
  lemma LongWitness(m: int, ask: real, priceUnit: real, priceScale: int, ties: Ties)
    requires priceUnit > 0.0
    requires Times(m, priceUnit) - 2.0 * priceUnit <= ask < Times(m, priceUnit) - priceUnit
    ensures Fires(OpenLong, ask, 0.0, priceUnit, priceScale, ties) <==>
              RoundToScale(Times(m, priceUnit), priceScale, ties) < ask
  {
    TwoTicks(ask, priceUnit);
    SnapFloorIs(ask + 2.0 * priceUnit, priceUnit, m);
    hide RoundToScale, SnapToTickFloor, Slippage, Times;
  }

  lemma ShortWitness(m: int, bid: real, priceUnit: real, priceScale: int, ties: Ties)
    requires priceUnit > 0.0
    requires Times(m, priceUnit) + priceUnit < bid <= Times(m, priceUnit) + 2.0 * priceUnit
    ensures Fires(OpenShort, bid, 0.0, priceUnit, priceScale, ties) <==>
              RoundToScale(Times(m, priceUnit), priceScale, ties) > bid
  {
    TwoTicks(bid, priceUnit);
    SnapCeilIs(bid - 2.0 * priceUnit, priceUnit, m);
    hide RoundToScale, SnapToTickCeil, Slippage, Times;
  }

  /** The LONG check that fires has a tick that rounds down by more than the distance kept from the ask. */
  lemma LongFiresOnATick(
    ask: real, maxPriceDiffPercent: real, priceUnit: real, priceScale: int, ties: Ties)
    returns (m: int)
    requires priceUnit > 0.0 && Fires(OpenLong, ask, maxPriceDiffPercent, priceUnit, priceScale, ties)
    ensures ask + priceUnit < Times(m, priceUnit)
    ensures RoundToScale(Times(m, priceUnit), priceScale, ties) < ask
  {
    var slippage := Slippage(ask, maxPriceDiffPercent, priceUnit);
    SnappedBeyondATick(ask, maxPriceDiffPercent, priceUnit);
    m :| SnapToTickFloor(ask + slippage, priceUnit) == Times(m, priceUnit);
  }

  lemma ShortFiresOnATick(
    bid: real, maxPriceDiffPercent: real, priceUnit: real, priceScale: int, ties: Ties)
    returns (m: int)
    requires priceUnit > 0.0 && bid > 0.0 && Fires(OpenShort, bid, maxPriceDiffPercent, priceUnit, priceScale, ties)
    ensures m >= 1 && Times(m, priceUnit) < bid - priceUnit
    ensures RoundToScale(Times(m, priceUnit), priceScale, ties) > bid
  {
    var slippage := Slippage(bid, maxPriceDiffPercent, priceUnit);
    SnappedBeyondATick(bid, maxPriceDiffPercent, priceUnit);
    m :| SnapToTickCeil(bid - slippage, priceUnit) == Times(m, priceUnit);
    hide RoundToScale, SnapToTickCeil, Slippage, Times, IsMultiple;
    NextTick(0, priceUnit);
    TimesMono(0, m, priceUnit);
    if Times(m, priceUnit) <= 0.0 {
      RoundIsMonotone(Times(m, priceUnit), 0.0, priceScale, ties);
      RoundOfZero(priceScale, ties);
    }
  }

  /** Some ask makes the LONG check fire exactly when some tick from the second on rounds down by more than one tick. */
  lemma LongFiresIff(priceUnit: real, priceScale: int, ties: Ties)
    requires priceUnit > 0.0
    ensures
      (exists ask, diff :: ask > 0.0 && Fires(OpenLong, ask, diff, priceUnit, priceScale, ties))
      <==> exists m :: m >= 2 && RoundsDown(m, 1, priceUnit, priceScale, ties)
  {
    hide Fires, RoundToScale, Times;
    if ask, diff :| ask > 0.0 && Fires(OpenLong, ask, diff, priceUnit, priceScale, ties) {
      var m := LongFiresOnATick(ask, diff, priceUnit, priceScale, ties);
      NextTick(0, priceUnit);
      NextTick(m - 1, priceUnit);
      TimesMono(1, m, priceUnit);
      assert RoundsDown(m, 1, priceUnit, priceScale, ties);
    }
    if m :| m >= 2 && RoundsDown(m, 1, priceUnit, priceScale, ties) {
      var at, r := Times(m, priceUnit), RoundToScale(Times(m, priceUnit), priceScale, ties);
      NextTick(0, priceUnit);
      NextTick(m - 1, priceUnit);
      TimesMono(1, m, priceUnit);
      var low := Max(Max(r, at - 2.0 * priceUnit), 0.0);
      var ask := (low + (at - priceUnit)) / 2.0;
      LongWitness(m, ask, priceUnit, priceScale, ties);
      assert ask > 0.0 && Fires(OpenLong, ask, 0.0, priceUnit, priceScale, ties);
    }
  }

  /** On the grid, exactly when some tick from the third on rounds down by more than two. */
  lemma LongFiresOnGridIff(priceUnit: real, priceScale: int, ties: Ties)
    requires priceUnit > 0.0
    ensures
      (exists n, diff :: n >= 1 && FiresAt(OpenLong, n, diff, priceUnit, priceScale, ties))
      <==> exists m :: m >= 3 && RoundsDown(m, 2, priceUnit, priceScale, ties)
  {
    hide Fires, RoundToScale, Times;
    if n: int, diff :| n >= 1 && FiresAt(OpenLong, n, diff, priceUnit, priceScale, ties) {
      var m := LongFiresOnATick(Times(n, priceUnit), diff, priceUnit, priceScale, ties);
      NextTick(n, priceUnit);
      TimesMono(n + 1, m, priceUnit);
      TimesMono(n, m - 2, priceUnit);
      assert RoundsDown(m, 2, priceUnit, priceScale, ties);
    }
    if m: int :| m >= 3 && RoundsDown(m, 2, priceUnit, priceScale, ties) {
      NextTick(m - 1, priceUnit);
      NextTick(m - 2, priceUnit);
      LongWitness(m, Times(m - 2, priceUnit), priceUnit, priceScale, ties);
      assert m - 2 >= 1 && FiresAt(OpenLong, m - 2, 0.0, priceUnit, priceScale, ties);
    }
  }

  /**
   The mirror image: some bid makes the SHORT check fire exactly when some positive tick rounds up by more than
   one.
   */
  lemma ShortFiresIff(priceUnit: real, priceScale: int, ties: Ties)
    requires priceUnit > 0.0
    ensures
      (exists bid, diff :: bid > 0.0 && Fires(OpenShort, bid, diff, priceUnit, priceScale, ties))
      <==> exists m :: m >= 1 && RoundsUp(m, 1, priceUnit, priceScale, ties)
  {
    hide Fires, RoundToScale, Times;
    if bid, diff :| bid > 0.0 && Fires(OpenShort, bid, diff, priceUnit, priceScale, ties) {
      var m := ShortFiresOnATick(bid, diff, priceUnit, priceScale, ties);
      NextTick(m, priceUnit);
      assert RoundsUp(m, 1, priceUnit, priceScale, ties);
    }
    if m :| m >= 1 && RoundsUp(m, 1, priceUnit, priceScale, ties) {
      var at, r := Times(m, priceUnit), RoundToScale(Times(m, priceUnit), priceScale, ties);
      NextTick(0, priceUnit);
      NextTick(m, priceUnit);
      TimesMono(0, m, priceUnit);
      var bid := (at + priceUnit + Min(r, at + 2.0 * priceUnit)) / 2.0;
      ShortWitness(m, bid, priceUnit, priceScale, ties);
      assert bid > 0.0 && Fires(OpenShort, bid, 0.0, priceUnit, priceScale, ties);
    }
  }

  lemma ShortFiresOnGridIff(priceUnit: real, priceScale: int, ties: Ties)
    requires priceUnit > 0.0
    ensures
      (exists n, diff :: n >= 1 && FiresAt(OpenShort, n, diff, priceUnit, priceScale, ties))
      <==> exists m :: m >= 1 && RoundsUp(m, 2, priceUnit, priceScale, ties)
  {
    hide Fires, RoundToScale, Times;
    if n: int, diff :| n >= 1 && FiresAt(OpenShort, n, diff, priceUnit, priceScale, ties) {
      NextTick(0, priceUnit);
      TimesMono(0, n, priceUnit);
      var m := ShortFiresOnATick(Times(n, priceUnit), diff, priceUnit, priceScale, ties);
      NextTick(n - 1, priceUnit);
      TimesMono(m, n - 1, priceUnit);
      TimesMono(m + 2, n, priceUnit);
      assert RoundsUp(m, 2, priceUnit, priceScale, ties);
    }
    if m: int :| m >= 1 && RoundsUp(m, 2, priceUnit, priceScale, ties) {
      NextTick(m, priceUnit);
      NextTick(m + 1, priceUnit);
      ShortWitness(m, Times(m + 2, priceUnit), priceUnit, priceScale, ties);
      assert m + 2 >= 1 && FiresAt(OpenShort, m + 2, 0.0, priceUnit, priceScale, ties);
    }
  }

  /**
   A unit of the scale of at most two ticks rounds no tick that far, a unit over six ticks rounds the third one
   away.
   */
  lemma CoarseScales(priceUnit: real, priceScale: int, ties: Ties, m: int)
    requires priceUnit > 0.0
    ensures Unit(priceScale) <= 2.0 * priceUnit ==>
              !RoundsDown(m, 1, priceUnit, priceScale, ties) && !RoundsUp(m, 1, priceUnit, priceScale, ties)
    ensures 4.0 * priceUnit < Unit(priceScale) ==> RoundsDown(2, 1, priceUnit, priceScale, ties)
    ensures 6.0 * priceUnit < Unit(priceScale) ==> RoundsDown(3, 2, priceUnit, priceScale, ties)
  {
    RoundIsNearest(Times(m, priceUnit), priceScale, ties);
    NextTick(m, priceUnit);
    NextTick(m - 1, priceUnit);
    NextTick(2, priceUnit);
    hide RoundToScale, Times, Unit;
    if 4.0 * priceUnit < Unit(priceScale) { RoundsToZero(2.0 * priceUnit, priceScale, ties); }
    if 6.0 * priceUnit < Unit(priceScale) { RoundsToZero(3.0 * priceUnit, priceScale, ties); }
  }
}

/** calculateFrontRunPrice of internal/bots/penny_jumper/application/runner.go. */
module FrontRun {
  import opened DecMath

  function TickOf(tickSize: real): (t: real)
    ensures t > 0.0
  {
    if tickSize <= 0.0 then 0.01 else tickSize
  }

  function FrontRunPrice(long: bool, wallPrice: real, bestBid: real, bestAsk: real, tickSize: real): real {
    var tick := TickOf(tickSize);
    if long then
      var target := SnapToTickFloor(wallPrice + tick, tick);
      if bestAsk > 0.0 && target >= bestAsk then Max(bestBid, SnapToTickFloor(bestAsk - tick, tick)) else target
    else
      var target := SnapToTickCeil(wallPrice - tick, tick);
      if bestBid > 0.0 && target <= bestBid then Min(bestAsk, SnapToTickCeil(bestBid + tick, tick)) else target
  }

  /**
   For a wall on or behind its own best price the target neither gives up the place in front of
   the wall nor crosses the spread, whatever the tick and whether or not prices are on the grid.
   */
  lemma NeverCrossesTheSpread(long: bool, wallPrice: real, bestBid: real, bestAsk: real, tickSize: real)
    requires 0.0 < bestBid < bestAsk
    requires if long then wallPrice <= bestBid else bestAsk <= wallPrice
    ensures
      var target := FrontRunPrice(long, wallPrice, bestBid, bestAsk, tickSize);
      if long then wallPrice <= target < bestAsk else bestBid < target <= wallPrice
  {
    var tick := TickOf(tickSize);
    if long {
      SnapFloorIsGreatest(wallPrice + tick, tick, 0);
      SnapFloorIsGreatest(bestAsk - tick, tick, 0);
    } else {
      SnapCeilIsLeast(wallPrice - tick, tick, 0);
      SnapCeilIsLeast(bestBid + tick, tick, 0);
    }
  }

  /** Without a tick size a tick is a hundredth. */
  lemma DefaultTick(long: bool, wallPrice: real, bestBid: real, bestAsk: real, tickSize: real)
    requires tickSize <= 0.0
    ensures FrontRunPrice(long, wallPrice, bestBid, bestAsk, tickSize) ==
      FrontRunPrice(long, wallPrice, bestBid, bestAsk, 0.01)
  {
  }

  lemma SnapOfMultiple(k: int, tick: real)
    requires tick > 0.0
    ensures SnapToTickFloor(Times(k, tick), tick) == Times(k, tick)
    ensures SnapToTickCeil(Times(k, tick), tick) == Times(k, tick)
  {
    SnapFloorIsGreatest(Times(k, tick), tick, k);
    SnapCeilIsLeast(Times(k, tick), tick, k);
  }

  lemma NextTick(k: int, tick: real)
    ensures Times(k, tick) + tick == Times(k + 1, tick)
    ensures Times(k, tick) - tick == Times(k - 1, tick)
  {
    assert (k + 1) as real == k as real + 1.0;
    assert (k - 1) as real == k as real - 1.0;
  }

  /**
   On the tick grid the target is strictly in front of the wall, except exactly when the wall is at
   the best price and the spread is a single tick; then it is the wall's own price. When it is
   in front, it is there by one tick.
   */
  lemma StrictlyInFrontUnlessSpreadIsOneTick(long: bool, wall: int, bid: int, ask: int, tickSize: real)
    requires tickSize > 0.0 && 0 < bid < ask
    requires if long then wall <= bid else ask <= wall
    ensures
      var w, b, a := Times(wall, tickSize), Times(bid, tickSize), Times(ask, tickSize);
      var target := FrontRunPrice(long, w, b, a, tickSize);
      var stuck := (if long then wall == bid else wall == ask) && ask == bid + 1;
      && (stuck ==> target == w)
      && (!stuck ==> target == (if long then w + tickSize else w - tickSize))
  {
    if long { LongOnGrid(wall, bid, ask, tickSize); } else { ShortOnGrid(wall, bid, ask, tickSize); }
  }

  lemma TimesOrder(j: int, k: int, tick: real)
    requires tick > 0.0
    ensures j <= k <==> Times(j, tick) <= Times(k, tick)
  {
    MulMono(j as real, k as real, tick);
  }

  lemma LongOnGrid(wall: int, bid: int, ask: int, tick: real)
    requires tick > 0.0 && 0 < bid < ask && wall <= bid
    ensures
      var w := Times(wall, tick);
      FrontRunPrice(true, w, Times(bid, tick), Times(ask, tick), tick) ==
        if wall == bid && ask == bid + 1 then w else w + tick
  {
    NextTick(wall, tick);
    NextTick(ask, tick);
    SnapOfMultiple(wall + 1, tick);
    SnapOfMultiple(ask - 1, tick);
    TimesOrder(ask, wall + 1, tick);
    TimesOrder(ask, 0, tick);
    assert Times(0, tick) == 0.0;
  }

  lemma ShortOnGrid(wall: int, bid: int, ask: int, tick: real)
    requires tick > 0.0 && 0 < bid < ask && ask <= wall
    ensures
      var w := Times(wall, tick);
      FrontRunPrice(false, w, Times(bid, tick), Times(ask, tick), tick) ==
        if wall == ask && ask == bid + 1 then w else w - tick
  {
    NextTick(wall, tick);
    NextTick(bid, tick);
    SnapOfMultiple(wall - 1, tick);
    SnapOfMultiple(bid + 1, tick);
    TimesOrder(wall - 1, bid, tick);
    TimesOrder(bid, 0, tick);
    assert Times(0, tick) == 0.0;
  }
}

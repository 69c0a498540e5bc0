/** Sequential margin allocation of internal/bots/funding/domain/allocator.go. */
module Allocator {
  import opened DecMath
  import opened TradeCalc
  import opened Candidates

  /** A limit of 0 or less does not apply. */
  datatype Params = Params(maxCandidateMargin: real, maxImpactRatio: real, client: Client)

  // ---------------------------------------------------------------- the order of candidates

  function ScoreOf(c: Data): real {
    OpportunityScore(c.fundingRate, c.vol24USDT, 1.0, 1.0, 100.0)
  }

  predicate Better(a: Data, b: Data) {
    ScoreOf(a) > ScoreOf(b) || (ScoreOf(a) == ScoreOf(b) && Abs(a.fundingRate) > Abs(b.fundingRate))
  }

  function Insert(c: Data, cs: seq<Data>): seq<Data> {
    if cs != [] && Better(cs[0], c) then [cs[0]] + Insert(c, cs[1..]) else [c] + cs
  }

  /** What a stable sort by Better gives. */
  function Sorted(cs: seq<Data>): seq<Data> {
    if cs == [] then [] else Insert(cs[0], Sorted(cs[1..]))
  }

  ghost predicate ScoreOrdered(cs: seq<Data>) {
    forall i, j :: 0 <= i < j < |cs| ==> !Better(cs[j], cs[i])
  }

  /** The elements of cs that tie with c, in order. */
  function Ties(cs: seq<Data>, c: Data): seq<Data> {
    if cs == [] then []
    else (if !Better(cs[0], c) && !Better(c, cs[0]) then [cs[0]] else []) + Ties(cs[1..], c)
  }

  /**
   Better is a higher score: 1 per tenth of a percent of funding rate, and per million of turnover up to 100;
   ties go by rate.
   */
  lemma BetterIs(a: Data, b: Data)
    ensures
      var rateA, rateB := if a.fundingRate < 0.0 then -a.fundingRate else a.fundingRate,
                          if b.fundingRate < 0.0 then -b.fundingRate else b.fundingRate;
      var a1 := 1000.0 * rateA + if a.vol24USDT > 100_000_000.0 then 100.0 else a.vol24USDT / 1_000_000.0;
      var b1 := 1000.0 * rateB + if b.vol24USDT > 100_000_000.0 then 100.0 else b.vol24USDT / 1_000_000.0;
      Better(a, b) <==> a1 > b1 || (a1 == b1 && rateA > rateB)
  {
    ScoreIs(a.fundingRate, a.vol24USDT, 1.0, 1.0, 100.0);
    ScoreIs(b.fundingRate, b.vol24USDT, 1.0, 1.0, 100.0);
    hide OpportunityScore;
  }

  lemma {:induction false} InsertKeepsOrder(c: Data, cs: seq<Data>)
    requires ScoreOrdered(cs)
    ensures ScoreOrdered(Insert(c, cs))
    ensures multiset(Insert(c, cs)) == multiset(cs) + multiset{c}
    decreases |cs|
  {
    hide ScoreOf, Abs;
    if cs != [] { assert cs == [cs[0]] + cs[1..]; }
    if cs != [] && Better(cs[0], c) {
      InsertKeepsOrder(c, cs[1..]);
      var r := Insert(c, cs[1..]);
      forall x | x in r ensures !Better(x, cs[0]) {
        assert x in multiset(r);
        if x != c {
          assert x in multiset(cs[1..]);
          var k :| 0 <= k < |cs[1..]| && cs[1..][k] == x;
          assert x == cs[k + 1];
        }
      }
    }
  }

  lemma {:induction false} InsertKeepsTies(c: Data, cs: seq<Data>, t: Data)
    ensures Ties(Insert(c, cs), t) == Ties([c] + cs, t)
    decreases |cs|
  {
    hide ScoreOf, Abs;
    if cs != [] && Better(cs[0], c) {
      InsertKeepsTies(c, cs[1..], t);
      assert Insert(c, cs)[1..] == Insert(c, cs[1..]);
      assert ([c] + cs)[1..] == cs;
      assert ([c] + cs[1..])[1..] == cs[1..];
    }
  }

  /** Sorting orders by score and is a permutation; candidates that tie keep their order. */
  lemma {:induction false} SortIsStable(cs: seq<Data>, t: Data)
    ensures ScoreOrdered(Sorted(cs)) && multiset(Sorted(cs)) == multiset(cs)
    ensures Ties(Sorted(cs), t) == Ties(cs, t)
    decreases |cs|
  {
    hide ScoreOf, Abs;
    if cs != [] {
      SortIsStable(cs[1..], t);
      InsertKeepsOrder(cs[0], Sorted(cs[1..]));
      InsertKeepsTies(cs[0], Sorted(cs[1..]), t);
      assert cs == [cs[0]] + cs[1..];
      assert ([cs[0]] + Sorted(cs[1..]))[1..] == Sorted(cs[1..]);
    }
  }

  // ---------------------------------------------------------------- one candidate

  function MarginLimit(remaining: real, p: Params): real {
    if p.maxCandidateMargin > 0.0 && remaining > p.maxCandidateMargin then p.maxCandidateMargin else remaining
  }

  /** The largest position the market's average minute takes; 0 means no cap. */
  function ImpactCap(c: Data, p: Params): real {
    var perMinute := c.vol24USDT / 1440.0;
    if p.maxImpactRatio > 0.0 && perMinute > 0.0 then Mul(p.maxImpactRatio, perMinute) else 0.0
  }

  function TargetVolume(c: Data, limit: real, p: Params): real {
    var target := Mul(limit, c.leverage as real);
    if ImpactCap(c, p) > 0.0 && target > ImpactCap(c, p) then ImpactCap(c, p) else target
  }

  function LeverageOf(c: Data, limit: real, p: Params): int {
    DetermineLeverage(p.client, c.(marginUSDT := limit))
  }

  /** The margin allocateSingleCandidateMargin assigns. */
  function NeedOf(c: Data, limit: real, p: Params): real {
    Min(Div(TargetVolume(c, limit, p), LeverageOf(c, limit, p) as real), limit)
  }

  function Funded(c: Data, remaining: real, p: Params): Data {
    var limit := MarginLimit(remaining, p);
    var f := c.(marginUSDT := NeedOf(c, limit, p), leverage := LeverageOf(c, limit, p));
    f.(volume := VolumeOf(f))
  }

  function Unfunded(c: Data): Data {
    c.(marginUSDT := 0.0, leverage := 1, volume := 0.0)
  }

  lemma DivThenMul(a: real, n: int)
    requires n >= 1
    ensures Mul(Div(a, n as real), n as real) == a
    ensures Div(a, n as real) < 0.0 <==> a < 0.0
  {
    MulMono(Div(a, n as real), 0.0, n as real);
  }

  lemma ProductSign(a: real, n: int)
    requires a > 0.0
    ensures Mul(a, n as real) < 0.0 <==> n < 0
  {
    MulMono(n as real, 0.0, a);
  }

  lemma MulIsMonotone(a: real, b: real, n: int)
    requires n >= 1 && a <= b
    ensures Mul(a, n as real) <= Mul(b, n as real)
  {
    MulMono(a, b, n as real);
  }

  /**
   The margin stays within its limit, and with the final leverage within the impact cap; it is negative exactly
   for a negative leverage.
   */
  lemma NeedWithinLimits(c: Data, limit: real, p: Params)
    requires limit > 0.0
    ensures
      var need, lev := NeedOf(c, limit, p), LeverageOf(c, limit, p);
      && need <= limit && lev >= 1
      && Mul(need, lev as real) <= TargetVolume(c, limit, p)
      && (ImpactCap(c, p) > 0.0 ==> Mul(need, lev as real) <= ImpactCap(c, p))
      && (need < 0.0 <==> c.leverage < 0)
  {
    hide Mul, Div, DetermineLeverage;
    var lev, target := LeverageOf(c, limit, p), TargetVolume(c, limit, p);
    LeverageWithinLimits(p.client, c.(marginUSDT := limit));
    DivThenMul(target, lev);
    ProductSign(limit, c.leverage);
    MulIsMonotone(NeedOf(c, limit, p), Div(target, lev as real), lev);
  }

  /** What one candidate gets out of a positive remaining margin. */
  lemma FundedWithinLimits(c: Data, remaining: real, p: Params)
    requires remaining > 0.0
    ensures
      var f := Funded(c, remaining, p);
      && f == c.(marginUSDT := f.marginUSDT, leverage := f.leverage, volume := f.volume)
      && f.volume == VolumeOf(f)
      && f.marginUSDT <= remaining
      && (p.maxCandidateMargin > 0.0 ==> f.marginUSDT <= p.maxCandidateMargin)
      && (ImpactCap(c, p) > 0.0 ==> Mul(f.marginUSDT, f.leverage as real) <= ImpactCap(c, p))
      && f.leverage >= 1
      && (c.leverage >= 1 ==> f.leverage <= c.leverage)
      && (c.maxLeverage > 0 ==> f.leverage <= c.maxLeverage)
      && (f.marginUSDT < 0.0 <==> c.leverage < 0)
  {
    hide Mul, Div, DetermineLeverage, ImpactCap, TargetVolume, CalculateVolume, NeedOf;
    var limit := MarginLimit(remaining, p);
    NeedWithinLimits(c, limit, p);
    LeverageWithinLimits(p.client, c.(marginUSDT := limit));
  }

  lemma CapIs(c: Data, p: Params)
    ensures ImpactCap(c, p) ==
      if p.maxImpactRatio > 0.0 && c.vol24USDT > 0.0 then p.maxImpactRatio * (c.vol24USDT / 1440.0) else 0.0
    ensures ImpactCap(c, p) >= 0.0
    ensures p.maxImpactRatio > 0.0 && c.vol24USDT > 0.0 ==> ImpactCap(c, p) > 0.0
  {
  }

  /**
   A funded candidate gets as large a position as it may: with its final leverage, all of its margin limit, or
   exactly the share of an average minute's turnover that caps it, if that is less.
   */
  lemma FundedIsLargest(c: Data, remaining: real, p: Params)
    requires remaining > 0.0 && c.leverage >= 1
    ensures
      var f := Funded(c, remaining, p);
      var limit := if 0.0 < p.maxCandidateMargin < remaining then p.maxCandidateMargin else remaining;
      var capped := p.maxImpactRatio > 0.0 && c.vol24USDT > 0.0;
      var cap, full := p.maxImpactRatio * (c.vol24USDT / 1440.0), Mul(limit, f.leverage as real);
      && f.leverage == DetermineLeverage(p.client, c.(marginUSDT := limit))
      && f.volume == VolumeOf(f)
      && Mul(f.marginUSDT, f.leverage as real) == if capped && cap < full then cap else full
  {
    CapIs(c, p);
    hide Mul, Div, DetermineLeverage, ImpactCap, CalculateVolume;
    var limit := MarginLimit(remaining, p);
    LeverageWithinLimits(p.client, c.(marginUSDT := limit));
    NeedIsLargest(c, limit, p);
  }

  lemma NeedIsLargest(c: Data, limit: real, p: Params)
    requires limit > 0.0 && 1 <= LeverageOf(c, limit, p) <= c.leverage
    ensures
      var lev, cap := LeverageOf(c, limit, p), ImpactCap(c, p);
      var full := Mul(limit, lev as real);
      Mul(NeedOf(c, limit, p), lev as real) == if cap > 0.0 && cap < full then cap else full
  {
    hide Mul, Div, LeverageOf, ImpactCap;
    var lev, target := LeverageOf(c, limit, p), TargetVolume(c, limit, p);
    DivThenMul(target, lev);
    GreaterLeverage(limit, lev, c.leverage);
    OrderOfProducts(Div(target, lev as real), limit, lev);
  }

  lemma GreaterLeverage(limit: real, m: int, n: int)
    requires limit > 0.0 && m <= n
    ensures Mul(limit, m as real) <= Mul(limit, n as real)
  {
    MulMono(m as real, n as real, limit);
  }

  lemma OrderOfProducts(a: real, b: real, n: int)
    requires n >= 1
    ensures Mul(a, n as real) < Mul(b, n as real) <==> a < b
  {
    MulMono(a, b, n as real);
  }

  // ---------------------------------------------------------------- the pool

  /** The sorted candidates after the allocation loop, and the margin left. */
  function Allocated(cs: seq<Data>, total: real, p: Params): (seq<Data>, real) {
    if cs == [] then ([], total)
    else
      var (out, remaining) := Allocated(cs[..|cs| - 1], total, p);
      var c := cs[|cs| - 1];
      if remaining <= 0.0 then (out + [Unfunded(c)], remaining)
      else
        var f := Funded(c, remaining, p);
        (out + [f], remaining - f.marginUSDT)
  }

  predicate Tradeable(c: Data) {
    c.volume > 0.0 && c.marginUSDT > 0.0
  }

  function Kept(cs: seq<Data>): seq<Data> {
    if cs == [] then []
    else Kept(cs[..|cs| - 1]) + if Tradeable(cs[|cs| - 1]) then [cs[|cs| - 1]] else []
  }

  function SumMargins(cs: seq<Data>): real {
    if cs == [] then 0.0 else SumMargins(cs[..|cs| - 1]) + cs[|cs| - 1].marginUSDT
  }

  /** Assigns the candidate its margin, leverage and volume; returns the margin used. */
  method AllocateSingleCandidateMargin(
    was: Data, remainingMargin: real, p: Params)
    returns (c: Data, needMarginUSDT: real)
    ensures c == Funded(was, remainingMargin, p) && needMarginUSDT == c.marginUSDT
  {
    hide Mul, Div, DetermineLeverage, VolumeOf;
    c := was;
    var candidateMarginLimit := remainingMargin;
    if p.maxCandidateMargin > 0.0 && candidateMarginLimit > p.maxCandidateMargin {
      candidateMarginLimit := p.maxCandidateMargin;
    }
    var volMinuteUSDT := c.vol24USDT / 1440.0;
    var maxTradeVolUSDT := 0.0;
    if p.maxImpactRatio > 0.0 && volMinuteUSDT > 0.0 { maxTradeVolUSDT := Mul(p.maxImpactRatio, volMinuteUSDT); }
    var actualTradeVolUSDT := Mul(candidateMarginLimit, c.leverage as real);
    if maxTradeVolUSDT > 0.0 && actualTradeVolUSDT > maxTradeVolUSDT { actualTradeVolUSDT := maxTradeVolUSDT; }

    c := c.(marginUSDT := candidateMarginLimit);
    var actualLeverage := DetermineLeverage(p.client, c);
    LeverageWithinLimits(p.client, c);
    if actualLeverage <= 0 { assert false; }

    needMarginUSDT := Div(actualTradeVolUSDT, actualLeverage as real);
    if needMarginUSDT > candidateMarginLimit { needMarginUSDT := candidateMarginLimit; }
    c := c.(marginUSDT := needMarginUSDT);
    c := c.(leverage := actualLeverage);
    c := c.(volume := VolumeOf(c));
  }

  /** AllocateMargins; an empty result is the nil the source returns. */
  method AllocateMargins(candidates: seq<Data>, totalMarginUSD: real, p: Params) returns (valid: seq<Data>)
    ensures valid ==
      if candidates == [] || totalMarginUSD <= 0.0 then []
      else Kept(Allocated(Sorted(candidates), totalMarginUSD, p).0)
  {
    hide Sorted, Funded;
    if |candidates| == 0 || totalMarginUSD <= 0.0 { return []; }
    var sorted := Sorted(candidates);
    var result := sorted;
    var remaining := totalMarginUSD;
    for i := 0 to |result|
      invariant |result| == |sorted|
      invariant (result[..i], remaining) == Allocated(sorted[..i], totalMarginUSD, p)
      invariant result[i..] == sorted[i..]
    {
      assert sorted[..i + 1][..i] == sorted[..i];
      assert result[i] == result[i..][0] == sorted[i..][0] == sorted[i];
      if remaining <= 0.0 {
        result := result[i := result[i].(marginUSDT := 0.0, leverage := 1, volume := 0.0)];
      } else {
        var c, needMarginUSDT := AllocateSingleCandidateMargin(result[i], remaining, p);
        result := result[i := c];
        remaining := remaining - needMarginUSDT;
      }
      assert result[..i + 1] == result[..i] + [result[i]];
    }
    assert sorted[..|sorted|] == sorted && result[..|result|] == result;
    valid := [];
    for i := 0 to |result|
      invariant valid == Kept(result[..i])
    {
      assert result[..i + 1][..i] == result[..i];
      if result[i].volume > 0.0 && result[i].marginUSDT > 0.0 { valid := valid + [result[i]]; }
    }
    assert result[..|result|] == result;
  }

  /** What the loop guarantees about the candidate it made of c. */
  ghost predicate WithinLimits(c: Data, f: Data, p: Params) {
    && f == c.(marginUSDT := f.marginUSDT, leverage := f.leverage, volume := f.volume)
    && (p.maxCandidateMargin > 0.0 ==> f.marginUSDT <= p.maxCandidateMargin)
    && (ImpactCap(c, p) > 0.0 ==> Mul(f.marginUSDT, f.leverage as real) <= ImpactCap(c, p))
    && f.leverage >= 1
    && (c.leverage >= 1 ==> f.leverage <= c.leverage)
    && (c.maxLeverage > 0 ==> f.leverage <= c.maxLeverage)
    && (f.volume > 0.0 ==> f.volume == VolumeOf(f))
  }

  lemma SumMarginsSnoc(cs: seq<Data>, c: Data)
    ensures SumMargins(cs + [c]) == SumMargins(cs) + c.marginUSDT
  {
    assert (cs + [c])[..|cs|] == cs;
  }

  /** The last candidate, after the pool has dealt with the others. */
  lemma LastAllocated(cs: seq<Data>, total: real, p: Params)
    requires cs != []
    ensures
      var (before, left) := Allocated(cs[..|cs| - 1], total, p);
      var (out, remaining) := Allocated(cs, total, p);
      && out != [] && out == before + [out[|out| - 1]]
      && remaining == left - out[|out| - 1].marginUSDT
      && WithinLimits(cs[|cs| - 1], out[|out| - 1], p)
  {
    hide Mul, ImpactCap, CalculateVolume, Funded;
    var c := cs[|cs| - 1];
    var left := Allocated(cs[..|cs| - 1], total, p).1;
    if left > 0.0 { FundedWithinLimits(c, left, p); } else { ZeroWithinCap(c, p); }
  }

  /** Every input: margins and remainder add up to the pool, and each candidate is within its limits. */
  lemma {:induction false} MarginIsConserved(cs: seq<Data>, total: real, p: Params)
    ensures
      var (out, remaining) := Allocated(cs, total, p);
      && |out| == |cs|
      && SumMargins(out) + remaining == total
      && (forall i :: 0 <= i < |cs| ==> WithinLimits(cs[i], out[i], p))
    decreases |cs|
  {
    hide Funded, WithinLimits;
    if cs != [] {
      var n := |cs| - 1;
      MarginIsConserved(cs[..n], total, p);
      LastAllocated(cs, total, p);
      var before, out := Allocated(cs[..n], total, p).0, Allocated(cs, total, p).0;
      SumMarginsSnoc(before, out[n]);
      forall i | 0 <= i < |cs| ensures WithinLimits(cs[i], out[i], p) {
        if i < n { assert WithinLimits(cs[..n][i], before[i], p); }
      }
    }
  }

  lemma ZeroWithinCap(c: Data, p: Params)
    ensures WithinLimits(c, Unfunded(c), p)
  {
    hide ImpactCap, VolumeOf;
    assert Mul(0.0, 1.0) == 0.0;
  }

  /** The remainder never goes negative, whatever the leverages; with none negative it stays within the pool too. */
  lemma {:induction false} RemainderStaysInPool(cs: seq<Data>, total: real, p: Params)
    requires total >= 0.0
    ensures
      var (out, remaining) := Allocated(cs, total, p);
      && 0.0 <= remaining
      && ((forall i :: 0 <= i < |cs| ==> cs[i].leverage >= 0) ==>
            remaining <= total && forall i :: 0 <= i < |out| ==> out[i].marginUSDT >= 0.0)
    decreases |cs|
  {
    hide Mul, ImpactCap, CalculateVolume, Funded;
    if cs != [] {
      var n := |cs| - 1;
      RemainderStaysInPool(cs[..n], total, p);
      var (out, remaining) := Allocated(cs[..n], total, p);
      if remaining > 0.0 { FundedWithinLimits(cs[n], remaining, p); }
    }
  }

  /** A candidate hands margin back exactly when its leverage is negative and the pool is not yet empty on its turn. */
  lemma {:induction false} MarginIsHandedBackIff(cs: seq<Data>, total: real, p: Params, i: nat)
    requires i < |cs|
    ensures
      var out := Allocated(cs, total, p).0;
      && |out| == |cs|
      && (out[i].marginUSDT < 0.0 <==> cs[i].leverage < 0 && Allocated(cs[..i], total, p).1 > 0.0)
    decreases |cs|
  {
    hide Funded, WithinLimits;
    var n := |cs| - 1;
    LastAllocated(cs, total, p);
    MarginIsConserved(cs[..n], total, p);
    if i < n {
      MarginIsHandedBackIff(cs[..n], total, p, i);
      assert cs[..n][..i] == cs[..i];
    } else {
      LastIsHandedBackIff(cs, total, p);
    }
  }

  lemma LastIsHandedBackIff(cs: seq<Data>, total: real, p: Params)
    requires cs != []
    ensures
      var out := Allocated(cs, total, p).0;
      && out != []
      && (out[|out| - 1].marginUSDT < 0.0 <==>
            cs[|cs| - 1].leverage < 0 && Allocated(cs[..|cs| - 1], total, p).1 > 0.0)
  {
    hide Funded, WithinLimits, ImpactCap, Mul;
    var remaining := Allocated(cs[..|cs| - 1], total, p).1;
    if remaining > 0.0 { FundedWithinLimits(cs[|cs| - 1], remaining, p); }
  }

  /** A filter keeps what it keeps in order: position k of the result is position at[k] of the input. */
  ghost predicate SubsequenceAt(small: seq<Data>, large: seq<Data>, at: seq<nat>) {
    && |at| == |small|
    && (forall k :: 0 <= k < |at| ==> at[k] < |large| && small[k] == large[at[k]])
    && (forall j, k :: 0 <= j < k < |at| ==> at[j] < at[k])
  }

  lemma SubsequenceSnoc(small: seq<Data>, large: seq<Data>, at: seq<nat>, c: Data)
    requires SubsequenceAt(small, large, at)
    ensures SubsequenceAt(small, large + [c], at)
    ensures SubsequenceAt(small + [c], large + [c], at + [|large|])
  {
  }

  lemma {:induction false} KeptIsSubsequence(cs: seq<Data>) returns (at: seq<nat>)
    ensures SubsequenceAt(Kept(cs), cs, at)
    ensures forall i: nat :: i < |cs| && cs[i].volume > 0.0 && cs[i].marginUSDT > 0.0 ==> i in at
    decreases |cs|
  {
    at := [];
    if cs != [] {
      hide SubsequenceAt;
      var n := |cs| - 1;
      at := KeptIsSubsequence(cs[..n]);
      ghost var was := at;
      SubsequenceSnoc(Kept(cs[..n]), cs[..n], at, cs[n]);
      assert cs == cs[..n] + [cs[n]];
      if Tradeable(cs[n]) { at := at + [n]; } else { assert Kept(cs) == Kept(cs[..n]); }
      forall i: nat | i < |cs| && cs[i].volume > 0.0 && cs[i].marginUSDT > 0.0 ensures i in at {
        if i < n { assert cs[..n][i] == cs[i] && i in was; } else { assert i == n && at[|at| - 1] == n; }
      }
    }
  }

  lemma {:induction false} KeptIsTradeable(cs: seq<Data>)
    ensures forall k :: 0 <= k < |Kept(cs)| ==> Tradeable(Kept(cs)[k])
    decreases |cs|
  {
    if cs != [] { KeptIsTradeable(cs[..|cs| - 1]); }
  }

  lemma {:induction false} KeptSums(cs: seq<Data>)
    requires forall i :: 0 <= i < |cs| ==> cs[i].marginUSDT >= 0.0
    ensures 0.0 <= SumMargins(Kept(cs)) <= SumMargins(cs)
    decreases |cs|
  {
    if cs != [] {
      var n := |cs| - 1;
      KeptSums(cs[..n]);
      if Tradeable(cs[n]) { SumMarginsSnoc(Kept(cs[..n]), cs[n]); } else { assert Kept(cs) == Kept(cs[..n]); }
    }
  }

  /**
   What an allocation is to be: the kept candidates are a score-ordered subsequence of the sorted input,
   changed only in margin, leverage and volume; together they use at most the pool, and each is within
   the per-candidate cap, the impact cap and the leverage limits. `at` says where each comes from, and
   misses no candidate that got a volume and a margin.
   */
  ghost predicate Sound(candidates: seq<Data>, total: real, p: Params, at: seq<nat>) {
    var sorted := Sorted(candidates);
    var out := Allocated(sorted, total, p).0;
    var kept := Kept(out);
    && |out| == |sorted| && SubsequenceAt(kept, out, at)
    && multiset(sorted) == multiset(candidates) && ScoreOrdered(sorted) && ScoreOrdered(kept)
    && (forall k :: 0 <= k < |kept| ==> Tradeable(kept[k]) && WithinLimits(sorted[at[k]], kept[k], p))
    && (forall i: nat :: i < |out| && out[i].volume > 0.0 && out[i].marginUSDT > 0.0 ==> i in at)
    && 0.0 <= SumMargins(kept) <= total
  }

  /** The whole allocation, for leverages that are not negative. */
  lemma AllocationIsSound(candidates: seq<Data>, total: real, p: Params) returns (at: seq<nat>)
    requires total > 0.0 && forall i :: 0 <= i < |candidates| ==> candidates[i].leverage >= 0
    ensures Sound(candidates, total, p, at)
  {
    hide ScoreOf, Sorted, Allocated, Kept, SumMargins, WithinLimits, SubsequenceAt, ScoreOrdered, Tradeable;
    var sorted := Sorted(candidates);
    if candidates != [] { SortIsStable(candidates, candidates[0]); } else { SortIsStable(candidates, BLANK); }
    forall i | 0 <= i < |sorted| ensures sorted[i].leverage >= 0 {
      assert sorted[i] in multiset(sorted);
      assert sorted[i] in candidates;
    }
    MarginIsConserved(sorted, total, p);
    RemainderStaysInPool(sorted, total, p);
    var out := Allocated(sorted, total, p).0;
    at := KeptIsSubsequence(out);
    KeptSums(out);
    KeptIsTradeable(out);
    KeptKeepsOrder(sorted, out, at, p);
  }

  const BLANK := Data("", Unknown, 0.0, 0.0, 1, 0.0, 0.0, 0.0, DynamicTP(false, 0.0, 0.0, 0.0),
                      0.0, 0, 0, 0, 0, 0.0, 0.0, 0, 0.0, 0.0, 0.0, 0.0, 0.0, 0.0, 0.0)

  lemma KeptKeepsOrder(sorted: seq<Data>, out: seq<Data>, at: seq<nat>, p: Params)
    requires ScoreOrdered(sorted) && |out| == |sorted| && SubsequenceAt(Kept(out), out, at)
    requires forall i :: 0 <= i < |sorted| ==> WithinLimits(sorted[i], out[i], p)
    ensures ScoreOrdered(Kept(out))
    ensures forall k :: 0 <= k < |Kept(out)| ==> WithinLimits(sorted[at[k]], Kept(out)[k], p)
  {
    hide Mul, ImpactCap, CalculateVolume;
    var kept := Kept(out);
    forall j, k | 0 <= j < k < |kept| ensures !Better(kept[k], kept[j]) {
      assert WithinLimits(sorted[at[j]], out[at[j]], p) && WithinLimits(sorted[at[k]], out[at[k]], p);
      assert !Better(sorted[at[k]], sorted[at[j]]);
    }
  }

  /**
   A kept position not forced up to the exchange minimum is worth no more than margin times leverage, hence
   than the impact cap.
   */
  lemma KeptNotionalWithinImpactCap(c: Data, f: Data, p: Params)
    requires WithinLimits(c, f, p) && f.minVol >= 0 && f.volume > f.minVol as real
    requires RefPrice(f) > 0.0 && f.contractSize > 0.0
    ensures NotionalOf(f, f.volume, RefPrice(f)) <= Mul(f.marginUSDT, f.leverage as real)
    ensures ImpactCap(c, p) > 0.0 ==> NotionalOf(f, f.volume, RefPrice(f)) <= ImpactCap(c, p)
  {
    hide ImpactCap, Mul, FloorToScale, Contracts, Worth;
    VolumeFitsNotional(f, Mul(f.marginUSDT, f.leverage as real), RefPrice(f));
  }

  /** The candidates as the scanner hands them over: each with the leverage determined for it. */
  function Scanned(raw: seq<Data>, client: Client): (cs: seq<Data>)
    ensures |cs| == |raw|
    ensures forall i :: 0 <= i < |cs| ==> cs[i] == raw[i].(leverage := DetermineLeverage(client, raw[i]))
  {
    seq(|raw|, i requires 0 <= i < |raw| => raw[i].(leverage := DetermineLeverage(client, raw[i])))
  }

  /** So the bot's own allocations are sound, whatever leverage was configured and whatever the exchange answers. */
  lemma ScannedAllocationIsSound(raw: seq<Data>, client: Client, total: real, p: Params) returns (at: seq<nat>)
    requires total > 0.0
    ensures Sound(Scanned(raw, client), total, p, at)
  {
    hide Sound, DetermineLeverage;
    forall i | 0 <= i < |raw| ensures Scanned(raw, client)[i].leverage >= 0 { LeverageWithinLimits(client, raw[i]); }
    at := AllocationIsSound(Scanned(raw, client), total, p);
  }

  /**
   What the scanner rules out: a negative leverage would hand margin back, and the next candidate get more than
   the whole pool.
   */
  lemma NegativeLeverageOverdrawsPool(c: Data, d: Data, p: Params)
    requires c.leverage < 0 && d.leverage == 1 && c.maxLeverage <= 0 && d.maxLeverage <= 0 && Better(c, d)
    requires p.maxCandidateMargin <= 0.0 && p.maxImpactRatio <= 0.0 && p.client.NoClient?
    ensures
      var (out, _) := Allocated(Sorted([d, c]), 100.0, p);
      |out| == 2 && out[1].marginUSDT > 100.0
  {
    SortedPair(c, d);
    hide CalculateVolume, Mul, Div, TargetVolume, NeedOf, Better, Sorted;
    var rest := [c, d][..1];
    assert rest == [c] && rest[..0] == [];
    FundedWithinLimits(c, 100.0, p);
    var first := Funded(c, 100.0, p);
    assert Allocated(rest, 100.0, p) == ([] + [first], 100.0 - first.marginUSDT);
    var remaining := 100.0 - first.marginUSDT;
    FundedAtUnitLeverage(d, remaining, p);
    assert Allocated([c, d], 100.0, p).0[1] == Funded(d, remaining, p);
  }

  lemma SortedPair(c: Data, d: Data)
    requires Better(c, d)
    ensures Sorted([d, c]) == [c, d]
  {
    hide ScoreOf, Abs;
    assert [d, c][1..] == [c] && [c][1..] == [];
    assert Sorted([c]) == Insert(c, []) == [c];
    assert Insert(d, []) == [d];
    assert Insert(d, [c]) == [c] + Insert(d, [c][1..]);
  }

  lemma FundedAtUnitLeverage(d: Data, remaining: real, p: Params)
    requires d.leverage == 1 && d.maxLeverage <= 0 && remaining > 0.0
    requires p.maxCandidateMargin <= 0.0 && p.maxImpactRatio <= 0.0 && p.client.NoClient?
    ensures Funded(d, remaining, p).marginUSDT == remaining
  {
    hide CalculateVolume;
    assert TargetVolume(d, remaining, p) == remaining;
  }
}

/**
 Clock offset and round-trip estimation of internal/infrastructure/timesync/sync.go.

 Instants and durations are whole nanoseconds, offsets and round-trip times whole milliseconds,
 as in the source; the smoothing factor 3/10 is exact.
 */
module TimeSync {
  import opened Wrappers

  const MILLISECOND := 1_000_000
  const RETENTION := 60_000 * MILLISECOND

  datatype Sample = Sample(rtt: int, at: int)

  /** One round: the query failed, or the server answered between two readings of the local clock. */
  datatype Round =
    | Failed
    | Answered(serverTime: int, before: int, after: int, now: int)

  datatype State = State(
    offset: int, latency: int, minRTT: int, medianRTT: int,
    samples: seq<Sample>, lastSync: Option<int>, healthy: bool)

  /** Integer division that truncates toward zero. */
  function Trunc(a: int, b: int): int
    requires b > 0
  {
    if a >= 0 then a / b else -((-a) / b)
  }

  function RawOffset(serverTime: int, before: int, after: int): int {
    serverTime - (before + Trunc(after - before, 2)) / MILLISECOND
  }

  function Smoothed(offset: int, sample: int): int {
    Trunc(7 * offset + 3 * sample, 10)
  }

  function NextOffset(s: State, sample: int): int {
    if s.lastSync.None? then sample else Smoothed(s.offset, sample)
  }

  function DropStale(samples: seq<Sample>, cutoff: int): seq<Sample> {
    if samples != [] && samples[0].at < cutoff then DropStale(samples[1..], cutoff) else samples
  }

  function Rtts(samples: seq<Sample>): (r: seq<int>)
    ensures |r| == |samples| && forall i :: 0 <= i < |r| ==> r[i] == samples[i].rtt
  {
    seq(|samples|, i requires 0 <= i < |samples| => samples[i].rtt)
  }

  function MinWith(first: int, rtts: seq<int>): int {
    if rtts == [] then first
    else
      var m := MinWith(first, rtts[..|rtts| - 1]);
      if rtts[|rtts| - 1] < m then rtts[|rtts| - 1] else m
  }

  function InsertInt(x: int, xs: seq<int>): (r: seq<int>)
    ensures |r| == |xs| + 1
  {
    if xs != [] && xs[0] < x then [xs[0]] + InsertInt(x, xs[1..]) else [x] + xs
  }

  function SortInts(xs: seq<int>): (r: seq<int>)
    ensures |r| == |xs|
  {
    if xs == [] then [] else InsertInt(xs[0], SortInts(xs[1..]))
  }

  /** The middle of a sorted sequence, or the truncated mean of its two middles. */
  function Middle(sorted: seq<int>): int {
    var n := |sorted|;
    if n % 2 == 1 then sorted[n / 2]
    else if n > 0 then Trunc(sorted[n / 2 - 1] + sorted[n / 2], 2)
    else 0
  }

  function Sampled(s: State, rttMs: int, now: int): State {
    var samples := DropStale(s.samples + [Sample(rttMs, now)], now - RETENTION);
    s.(samples := samples, minRTT := MinWith(rttMs, Rtts(samples)), medianRTT := Middle(SortInts(Rtts(samples))))
  }

  function Synced(s: State, r: Round): State {
    match r
    case Failed => s.(healthy := false)
    case Answered(serverTime, before, after, now) =>
      var rttMs := Trunc(after - before, MILLISECOND);
      Sampled(
        s.(offset := NextOffset(s, RawOffset(serverTime, before, after)),
           latency := rttMs, lastSync := Some(now), healthy := rttMs < 100),
        rttMs, now)
  }

  /** The index of the first sample not before the cutoff. */
  method FirstFresh(samples: seq<Sample>, cutoff: int) returns (idx: nat)
    ensures idx <= |samples| && samples[idx..] == DropStale(samples, cutoff)
    ensures forall i :: 0 <= i < idx ==> samples[i].at < cutoff
    ensures idx < |samples| ==> samples[idx].at >= cutoff
  {
    idx := 0;
    while idx < |samples| && samples[idx].at < cutoff
      invariant idx <= |samples|
      invariant DropStale(samples[idx..], cutoff) == DropStale(samples, cutoff)
      invariant forall i :: 0 <= i < idx ==> samples[i].at < cutoff
    {
      assert samples[idx..][1..] == samples[idx + 1..];
      idx := idx + 1;
    }
  }

  /** The least of the first and the samples' round-trip times. */
  method RollingMin(rttMs: int, samples: seq<Sample>) returns (minRTT: int)
    ensures minRTT == MinWith(rttMs, Rtts(samples))
  {
    hide Rtts;
    minRTT := rttMs;
    for i := 0 to |samples|
      invariant minRTT == MinWith(rttMs, Rtts(samples)[..i])
    {
      assert Rtts(samples)[..i + 1][..i] == Rtts(samples)[..i];
      if samples[i].rtt < minRTT { minRTT := samples[i].rtt; }
    }
    assert Rtts(samples)[..|samples|] == Rtts(samples);
  }

  /** The median does not depend on how the round-trip times were sorted. */
  method RollingMedian(samples: seq<Sample>) returns (medianRTT: int)
    ensures forall sorted :: Ascending(sorted) && multiset(sorted) == multiset(Rtts(samples)) ==>
              medianRTT == Middle(sorted)
  {
    hide SortInts, Trunc;
    var rtts := SortInts(Rtts(samples));
    var n := |rtts|;
    medianRTT := 0;
    if n % 2 == 1 {
      medianRTT := rtts[n / 2];
    } else if n > 0 {
      medianRTT := Trunc(rtts[n / 2 - 1] + rtts[n / 2], 2);
    }
    SortIsPermutation(Rtts(samples));
    hide Ascending, Middle;
    forall sorted | Ascending(sorted) && multiset(sorted) == multiset(Rtts(samples))
      ensures sorted == rtts
    {
      AscendingIsUnique(sorted, rtts);
    }
  }

  class TimeSync {
    var offset: int
    var httpLatency: int
    var httpMinRTT: int
    var httpMedianRTT: int
    var httpSamples: seq<Sample>
    var lastSync: Option<int>
    var healthy: bool

    constructor ()
      ensures View() == START
    {
      offset, httpLatency, httpMinRTT, httpMedianRTT := 0, 0, 0, 0;
      httpSamples, lastSync, healthy := [], None, false;
    }

    function View(): State
      reads this
    {
      State(offset, httpLatency, httpMinRTT, httpMedianRTT, httpSamples, lastSync, healthy)
    }

    method SyncOnce(r: Round)
      modifies this
      ensures View() == Synced(old(View()), r)
    {
      match r
      case Failed =>
        healthy := false;
      case Answered(serverTime, before, after, now) =>
        var rttMs := Trunc(after - before, MILLISECOND);
        var newOffset := RawOffset(serverTime, before, after);
        if lastSync.None? {
          offset := newOffset;
        } else {
          offset := Smoothed(offset, newOffset);
        }
        httpLatency := rttMs;
        lastSync := Some(now);
        healthy := rttMs < 100;
        UpdateHTTPSamples(rttMs, now);
    }

    method UpdateHTTPSamples(rttMs: int, now: int)
      modifies this
      ensures View() == Sampled(old(View()), rttMs, now)
    {
      var samples := httpSamples + [Sample(rttMs, now)];
      var cutoff := now - RETENTION;
      var idx := FirstFresh(samples, cutoff);
      hide DropStale, MinWith, Middle, SortInts, Rtts, Ascending;
      if idx > 0 { samples := samples[idx..]; }
      assert samples == DropStale(httpSamples + [Sample(rttMs, now)], cutoff);
      httpSamples := samples;
      httpMinRTT := RollingMin(rttMs, samples);
      SortIsPermutation(Rtts(samples));
      httpMedianRTT := RollingMedian(samples);
    }
  }

  /** What HTTPLatencyMs reports: the median, else the minimum, else the last round trip. */
  function LatencyOf(s: State): int {
    if s.medianRTT > 0 then s.medianRTT else if s.minRTT > 0 then s.minRTT else s.latency
  }

  const START := State(0, 0, 0, 0, [], None, false)

  function Run(rounds: seq<Round>): State {
    if rounds == [] then START else Synced(Run(rounds[..|rounds| - 1]), rounds[|rounds| - 1])
  }

  // ---------------------------------------------------------------- the smoothed offset

  function Gap(a: int, b: int): nat {
    if a < b then b - a else a - b
  }

  /**
   One smoothing step stays between the old offset and the sample, contracts the gap by 7/10 up to
   the truncation, and shrinks it strictly while it exceeds 3 ms.
   */
  lemma SmoothingContracts(offset: int, sample: int)
    ensures
      var next := Smoothed(offset, sample);
      && (if offset <= sample then offset <= next <= sample else sample <= next <= offset)
      && 10 * Gap(next, sample) <= 7 * Gap(offset, sample) + 9
      && (Gap(offset, sample) > 3 ==> Gap(next, sample) < Gap(offset, sample))
  {
  }

  /** Smoothing makes no progress exactly at the sample, or up to 3 ms short of it on the side of zero. */
  lemma SmoothingStallsIff(offset: int, sample: int)
    ensures
      Smoothed(offset, sample) == offset <==>
        || offset == sample
        || (Gap(offset, sample) <= 3 && (0 <= offset < sample || sample < offset <= 0))
  {
  }

  /** The offset after k equal samples. */
  function Settled(offset: int, sample: int, k: nat): int {
    if k == 0 then offset else Smoothed(Settled(offset, sample, k - 1), sample)
  }

  function Power(b: nat, k: nat): (r: nat)
    ensures b > 0 ==> r > 0
  {
    if k == 0 then 1 else b * Power(b, k - 1)
  }

  /** Equal samples close the gap geometrically, down to 3 ms: what is left above it shrinks by 7/10 each round. */
  lemma {:induction false} GapShrinksGeometrically(offset: int, sample: int, k: nat)
    ensures Power(10, k) * (Gap(Settled(offset, sample, k), sample) - 3) <= Power(7, k) * (Gap(offset, sample) - 3)
  {
    hide Smoothed, Gap;
    if k > 0 {
      GapShrinksGeometrically(offset, sample, k - 1);
      var was := Settled(offset, sample, k - 1);
      SmoothingContracts(was, sample);
      ScaledStep(Power(10, k - 1), Power(7, k - 1), Gap(was, sample) - 3, Gap(Smoothed(was, sample), sample) - 3,
          Gap(offset, sample) - 3);
    }
  }

  lemma ScaledStep(p: nat, q: nat, x: int, y: int, d: int)
    requires 10 * y <= 7 * x && p * x <= q * d
    ensures (10 * p) * y <= (7 * q) * d
  {
    assert p * (10 * y) <= p * (7 * x);
    assert (10 * p) * y == p * (10 * y) && p * (7 * x) == 7 * (p * x) && (7 * q) * d == 7 * (q * d);
  }

  /**
   As many equal samples as the gap is wide bring the offset to within 3 ms, whatever the signs, and it stays
   there.
   */
  lemma {:induction false} SettlesWithinThree(offset: int, sample: int, k: nat)
    ensures Gap(Settled(offset, sample, k), sample) <= Gap(offset, sample)
    ensures k >= Gap(offset, sample) - 3 ==> Gap(Settled(offset, sample, k), sample) <= 3
    ensures Gap(Settled(offset, sample, k), sample) <= 3 ||
            Gap(Settled(offset, sample, k), sample) <= Gap(offset, sample) - k
  {
    if k > 0 {
      SettlesWithinThree(offset, sample, k - 1);
      SmoothingContracts(Settled(offset, sample, k - 1), sample);
    }
  }

  /**
   Where it settles: exactly on a sample approached toward zero; 3 ms short of one approached away from zero
   from further off.
   */
  lemma {:induction false} SettlesExactly(offset: int, sample: int, k: nat)
    ensures
      var at := Settled(offset, sample, k);
      && (0 <= sample <= offset ==> sample <= at && (at == sample || at <= offset - k))
      && (offset <= sample <= 0 ==> at <= sample && (at == sample || at >= offset + k))
      && (0 <= offset <= sample - 3 ==> offset <= at <= sample - 3 && (at == sample - 3 || at >= offset + k))
      && (sample + 3 <= offset <= 0 ==> sample + 3 <= at <= offset && (at == sample + 3 || at <= offset - k))
  {
    if k > 0 { SettlesExactly(offset, sample, k - 1); }
  }

  /** The server stamped its time at some instant of the exchange, in whole milliseconds of a clock `skew` ahead. */
  ghost predicate StampedAt(r: Round, skew: int, t: int) {
    && r.Answered?
    && r.before <= t <= r.after
    && r.serverTime == (t + skew) / MILLISECOND
  }

  ghost predicate Honest(r: Round, skew: int, maxRTT: int) {
    r.Answered? ==> r.after - r.before <= maxRTT && exists t :: StampedAt(r, skew, t)
  }

  predicate OffBy(offset: int, skew: int, maxRTT: int) {
    -maxRTT - 2 * MILLISECOND < 2 * (offset * MILLISECOND - skew) < maxRTT + 2 * MILLISECOND
  }

  /** One sample is off by less than half the round trip and a millisecond. */
  lemma RawOffsetError(r: Round, skew: int, maxRTT: int)
    requires Honest(r, skew, maxRTT) && r.Answered?
    ensures OffBy(RawOffset(r.serverTime, r.before, r.after), skew, maxRTT)
  {
    var t :| StampedAt(r, skew, t);
    var mid := r.before + Trunc(r.after - r.before, 2);
    assert 2 * mid <= r.before + r.after <= 2 * mid + 1;
    assert mid - MILLISECOND < mid / MILLISECOND * MILLISECOND <= mid;
    assert t + skew - MILLISECOND < r.serverTime * MILLISECOND <= t + skew;
  }

  /**
   A steady clock and bounded round trips: the offset, however many rounds, failed or not, is as good as one
   sample.
   */
  lemma {:induction false} OffsetErrorIsBounded(rounds: seq<Round>, skew: int, maxRTT: int)
    requires forall i :: 0 <= i < |rounds| ==> Honest(rounds[i], skew, maxRTT)
    ensures Run(rounds).lastSync.Some? <==> exists i :: 0 <= i < |rounds| && rounds[i].Answered?
    ensures Run(rounds).lastSync.Some? ==> OffBy(Run(rounds).offset, skew, maxRTT)
    decreases |rounds|
  {
    if rounds != [] {
      var n := |rounds| - 1;
      var r, s := rounds[n], Run(rounds[..n]);
      OffsetErrorIsBounded(rounds[..n], skew, maxRTT);
      if exists i :: 0 <= i < |rounds[..n]| && rounds[..n][i].Answered? {
        var i :| 0 <= i < |rounds[..n]| && rounds[..n][i].Answered?;
        assert rounds[i].Answered?;
      }
      if r.Answered? {
        var sample := RawOffset(r.serverTime, r.before, r.after);
        assert Honest(rounds[n], skew, maxRTT);
        RawOffsetError(r, skew, maxRTT);
        SmoothingContracts(s.offset, sample);
      } else if s.lastSync.None? {
        forall i | 0 <= i < |rounds| ensures !rounds[i].Answered? {
          if i < n { assert !rounds[..n][i].Answered?; }
        }
      }
    }
  }

  // ---------------------------------------------------------------- sorting and the median

  ghost predicate Ascending(xs: seq<int>) {
    forall i, j :: 0 <= i < j < |xs| ==> xs[i] <= xs[j]
  }

  ghost predicate AtMostAll(x: int, xs: seq<int>) {
    forall i :: 0 <= i < |xs| ==> x <= xs[i]
  }

  lemma ConsAscends(x: int, xs: seq<int>)
    ensures Ascending([x] + xs) <==> AtMostAll(x, xs) && Ascending(xs)
  {
    var all := [x] + xs;
    if Ascending(all) {
      forall i | 0 <= i < |xs| ensures x <= xs[i] { assert all[0] <= all[i + 1]; }
      forall i, j | 0 <= i < j < |xs| ensures xs[i] <= xs[j] { assert all[i + 1] <= all[j + 1]; }
    }
  }

  lemma {:induction false} InsertIntKeepsOrder(x: int, xs: seq<int>)
    requires Ascending(xs)
    ensures Ascending(InsertInt(x, xs)) && multiset(InsertInt(x, xs)) == multiset(xs) + multiset{x}
    ensures forall y :: y <= x && AtMostAll(y, xs) ==> AtMostAll(y, InsertInt(x, xs))
  {
    hide Ascending;
    if xs != [] {
      assert xs == [xs[0]] + xs[1..];
      ConsAscends(xs[0], xs[1..]);
      if xs[0] < x {
        InsertIntKeepsOrder(x, xs[1..]);
        ConsAscends(xs[0], InsertInt(x, xs[1..]));
      }
    }
    ConsAscends(x, xs);
  }

  lemma {:induction false} SortIsPermutation(xs: seq<int>)
    ensures Ascending(SortInts(xs)) && multiset(SortInts(xs)) == multiset(xs)
  {
    if xs != [] {
      SortIsPermutation(xs[1..]);
      InsertIntKeepsOrder(xs[0], SortInts(xs[1..]));
      assert xs == [xs[0]] + xs[1..];
    }
  }

  /** The head of an ascending sequence is the least of its elements, so it is fixed by the multiset. */
  lemma HeadIsLeast(a: seq<int>, b: seq<int>)
    requires a != [] && Ascending(a) && multiset(a) == multiset(b)
    ensures b != [] && a[0] <= b[0]
  {
    assert a[0] in multiset(b);
    assert b[0] in multiset(a);
  }

  lemma TailMultiset(a: seq<int>)
    requires a != []
    ensures multiset(a[1..]) == multiset(a) - multiset{a[0]}
  {
    assert a == [a[0]] + a[1..];
  }

  /** Two ascending sequences of the same elements are the same sequence. */
  lemma {:induction false} AscendingIsUnique(a: seq<int>, b: seq<int>)
    requires Ascending(a) && Ascending(b) && multiset(a) == multiset(b)
    ensures a == b
  {
    hide Ascending;
    if a == [] {
      assert b == [] by { assert |multiset(b)| == 0; }
    } else {
      HeadIsLeast(a, b);
      HeadIsLeast(b, a);
      TailMultiset(a);
      TailMultiset(b);
      ConsAscends(a[0], a[1..]);
      ConsAscends(b[0], b[1..]);
      assert a == [a[0]] + a[1..];
      assert b == [b[0]] + b[1..];
      AscendingIsUnique(a[1..], b[1..]);
    }
  }

  lemma {:induction false} MinWithIsLeast(first: int, xs: seq<int>)
    ensures MinWith(first, xs) == first || MinWith(first, xs) in xs
    ensures MinWith(first, xs) <= first && forall i :: 0 <= i < |xs| ==> MinWith(first, xs) <= xs[i]
    decreases |xs|
  {
    if xs != [] { MinWithIsLeast(first, xs[..|xs| - 1]); }
  }

  // ---------------------------------------------------------------- the rolling window

  /** The samples of every answered round so far. */
  function History(rounds: seq<Round>): seq<Sample> {
    if rounds == [] then []
    else
      var r := rounds[|rounds| - 1];
      History(rounds[..|rounds| - 1])
      + if r.Answered? then [Sample(Trunc(r.after - r.before, MILLISECOND), r.now)] else []
  }

  function Recent(samples: seq<Sample>, cutoff: int): seq<Sample> {
    if samples == [] then []
    else
      var last := samples[|samples| - 1];
      Recent(samples[..|samples| - 1], cutoff) + if last.at >= cutoff then [last] else []
  }

  ghost predicate InTimeOrder(samples: seq<Sample>) {
    forall i, j :: 0 <= i < j < |samples| ==> samples[i].at <= samples[j].at
  }

  lemma {:induction false} RecentOfOld(samples: seq<Sample>, cutoff: int)
    requires forall i :: 0 <= i < |samples| ==> samples[i].at < cutoff
    ensures Recent(samples, cutoff) == []
    decreases |samples|
  {
    if samples != [] { RecentOfOld(samples[..|samples| - 1], cutoff); }
  }

  lemma {:induction false} RecentOfNew(samples: seq<Sample>, cutoff: int)
    requires forall i :: 0 <= i < |samples| ==> samples[i].at >= cutoff
    ensures Recent(samples, cutoff) == samples
    decreases |samples|
  {
    if samples != [] { RecentOfNew(samples[..|samples| - 1], cutoff); }
  }

  lemma {:induction false} RecentConcat(a: seq<Sample>, b: seq<Sample>, cutoff: int)
    ensures Recent(a + b, cutoff) == Recent(a, cutoff) + Recent(b, cutoff)
    decreases |b|
  {
    if b == [] {
      assert a + b == a;
    } else {
      RecentConcat(a, b[..|b| - 1], cutoff);
      assert (a + b)[..|a + b| - 1] == a + b[..|b| - 1];
    }
  }

  lemma {:induction false} RecentTwice(samples: seq<Sample>, early: int, late: int)
    requires early <= late
    ensures Recent(Recent(samples, early), late) == Recent(samples, late)
    decreases |samples|
  {
    if samples != [] {
      var n := |samples| - 1;
      RecentTwice(samples[..n], early, late);
      if samples[n].at >= early { RecentConcat(Recent(samples[..n], early), [samples[n]], late); }
      else { assert Recent(samples, early) == Recent(samples[..n], early); }
    }
  }

  lemma {:induction false} RecentKeepsOrder(samples: seq<Sample>, cutoff: int)
    requires InTimeOrder(samples)
    ensures InTimeOrder(Recent(samples, cutoff))
    ensures forall x :: x in Recent(samples, cutoff) ==> x in samples && x.at >= cutoff
    decreases |samples|
  {
    if samples != [] { RecentKeepsOrder(samples[..|samples| - 1], cutoff); }
  }

  /** Dropping a stale prefix of samples in time order drops every stale sample. */
  lemma {:induction false} DropStaleIsRecent(samples: seq<Sample>, cutoff: int)
    requires InTimeOrder(samples)
    ensures DropStale(samples, cutoff) == Recent(samples, cutoff)
  {
    if samples != [] && samples[0].at < cutoff {
      DropStaleIsRecent(samples[1..], cutoff);
      assert samples == [samples[0]] + samples[1..];
      RecentConcat([samples[0]], samples[1..], cutoff);
      RecentOfOld([samples[0]], cutoff);
    } else {
      RecentOfNew(samples, cutoff);
    }
  }

  /** The local clock of successive answered rounds does not go back. */
  ghost predicate ClockAdvances(rounds: seq<Round>) {
    InTimeOrder(History(rounds))
  }

  lemma {:induction false} LastSyncIsLast(rounds: seq<Round>)
    ensures
      var h, s := History(rounds), Run(rounds);
      if h == [] then s.lastSync.None? && s.samples == []
      else s.lastSync == Some(h[|h| - 1].at) && s.latency == h[|h| - 1].rtt
    decreases |rounds|
  {
    if rounds != [] { LastSyncIsLast(rounds[..|rounds| - 1]); }
  }

  lemma {:induction false} PrefixAdvances(rounds: seq<Round>)
    requires rounds != [] && ClockAdvances(rounds)
    ensures ClockAdvances(rounds[..|rounds| - 1])
  {
    var before, h := History(rounds[..|rounds| - 1]), History(rounds);
    assert before == h[..|before|];
  }

  /** The stored minimum and median are those of the window, whichever way it is sorted. */
  ghost predicate Summarised(s: State) {
    s.lastSync.Some? ==>
      && s.samples != []
      && (exists x :: x in s.samples && x.rtt == s.minRTT)
      && (forall x :: x in s.samples ==> s.minRTT <= x.rtt)
      && (forall sorted :: Ascending(sorted) && multiset(sorted) == multiset(Rtts(s.samples)) ==>
          s.medianRTT == Middle(sorted))
  }

  lemma SampledIsSummarised(s: State, rttMs: int, now: int)
    requires Sample(rttMs, now) in Sampled(s, rttMs, now).samples
    ensures Summarised(Sampled(s, rttMs, now))
  {
    var t := Sampled(s, rttMs, now);
    var rtts := Rtts(t.samples);
    MinWithIsLeast(rttMs, rtts);
    forall x | x in t.samples ensures t.minRTT <= x.rtt {
      var i :| 0 <= i < |t.samples| && t.samples[i] == x;
      assert rtts[i] == x.rtt;
    }
    if t.minRTT in rtts {
      var i :| 0 <= i < |rtts| && rtts[i] == t.minRTT;
      assert t.samples[i] in t.samples;
    }
    SortIsPermutation(rtts);
    forall sorted | Ascending(sorted) && multiset(sorted) == multiset(rtts) ensures t.medianRTT == Middle(sorted) {
      AscendingIsUnique(sorted, SortInts(rtts));
    }
  }

  /** The state after a history of answered rounds, as far as the window goes. */
  ghost predicate Windowed(h: seq<Sample>, s: State) {
    if h == [] then s.lastSync.None? && s.samples == []
    else s.lastSync == Some(h[|h| - 1].at) && s.samples == Recent(h, h[|h| - 1].at - RETENTION)
  }

  lemma WindowedStep(h: seq<Sample>, s: State, r: Round)
    requires r.Answered? && Windowed(h, s)
    requires InTimeOrder(h + [Sample(Trunc(r.after - r.before, MILLISECOND), r.now)])
    ensures Windowed(h + [Sample(Trunc(r.after - r.before, MILLISECOND), r.now)], Synced(s, r))
  {
    hide Middle, SortInts, MinWith, Rtts, NextOffset, RawOffset, Trunc, DropStale, InTimeOrder, Recent;
    WindowStep(h, s, Trunc(r.after - r.before, MILLISECOND), r.now);
  }

  lemma FailureKeepsWindow(h: seq<Sample>, s: State)
    requires Windowed(h, s)
    ensures Windowed(h, Synced(s, Failed))
  {
  }

  lemma {:induction false} RunIsWindowed(rounds: seq<Round>)
    requires ClockAdvances(rounds)
    ensures Windowed(History(rounds), Run(rounds)) && Summarised(Run(rounds))
    decreases |rounds|
  {
    if rounds == [] {
      StartIsSummarised();
    } else {
      var before, r := rounds[..|rounds| - 1], rounds[|rounds| - 1];
      PrefixAdvances(rounds);
      RunIsWindowed(before);
      hide Windowed, Summarised, InTimeOrder, Synced;
      if r.Answered? {
        WindowedStep(History(before), Run(before), r);
        SummarisedAfter(Run(before), r);
      } else {
        assert History(rounds) == History(before);
        FailureKeepsWindow(History(before), Run(before));
        FailureKeepsSummary(Run(before));
      }
    }
  }

  /** Every run: the window is the whole history not older than 60 s, with its exact minimum and median. */
  lemma WindowIsExact(rounds: seq<Round>)
    requires ClockAdvances(rounds)
    ensures
      var s := Run(rounds);
      && (s.lastSync.Some? ==> s.samples == Recent(History(rounds), s.lastSync.value - 60_000_000_000))
      && Summarised(s)
  {
    RunIsWindowed(rounds);
    hide Summarised, InTimeOrder;
  }

  lemma StartIsSummarised()
    ensures Summarised(START)
  {
  }

  lemma FailureKeepsSummary(s: State)
    requires Summarised(s)
    ensures Summarised(Synced(s, Failed))
  {
  }

  lemma WindowStep(h: seq<Sample>, s: State, rttMs: int, now: int)
    requires InTimeOrder(h + [Sample(rttMs, now)])
    requires if h == [] then s.samples == [] else s.samples == Recent(h, h[|h| - 1].at - RETENTION)
    ensures DropStale(s.samples + [Sample(rttMs, now)], now - RETENTION) ==
      Recent(h + [Sample(rttMs, now)], now - RETENTION)
  {
    hide DropStale, Recent, InTimeOrder;
    var x, cutoff := Sample(rttMs, now), now - RETENTION;
    if h == [] {
      DropStaleIsRecent(h + [x], cutoff);
    } else {
      var early := h[|h| - 1].at - RETENTION;
      SnocInOrder(h, x);
      RecentKeepsOrder(h, early);
      SnocKeepsOrder(s.samples, x);
      DropStaleIsRecent(s.samples + [x], cutoff);
      RecentConcat(s.samples, [x], cutoff);
      RecentTwice(h, early, cutoff);
      RecentConcat(h, [x], cutoff);
    }
  }

  lemma SnocInOrder(h: seq<Sample>, x: Sample)
    requires InTimeOrder(h + [x])
    ensures InTimeOrder(h) && forall y :: y in h ==> y.at <= x.at
    ensures h != [] ==> h[|h| - 1].at <= x.at
  {
    var all := h + [x];
    forall i, j | 0 <= i < j < |h| ensures h[i].at <= h[j].at { assert all[i].at <= all[j].at; }
    forall i | 0 <= i < |h| ensures h[i].at <= x.at { assert all[i].at <= all[|h|].at; }
  }

  lemma SnocKeepsOrder(h: seq<Sample>, x: Sample)
    requires InTimeOrder(h) && forall y :: y in h ==> y.at <= x.at
    ensures InTimeOrder(h + [x])
  {
  }

  lemma {:induction false} NewestIsKept(samples: seq<Sample>, x: Sample)
    ensures x in DropStale(samples + [x], x.at - RETENTION)
    decreases |samples|
  {
    if samples != [] {
      assert (samples + [x])[1..] == samples[1..] + [x];
      NewestIsKept(samples[1..], x);
    }
  }

  lemma SummarisedAfter(s: State, r: Round)
    requires r.Answered?
    ensures Summarised(Synced(s, r))
  {
    hide Summarised, DropStale, MinWith, Middle, SortInts, Rtts;
    var rttMs := Trunc(r.after - r.before, MILLISECOND);
    var t := s.(offset := NextOffset(s, RawOffset(r.serverTime, r.before, r.after)),
                latency := rttMs, lastSync := Some(r.now), healthy := rttMs < 100);
    NewestIsKept(t.samples, Sample(rttMs, r.now));
    SampledIsSummarised(t, rttMs, r.now);
  }

  /** The clock is healthy exactly when the last round was answered, in less than 100 ms. */
  lemma HealthyIff(rounds: seq<Round>)
    ensures Run(rounds).healthy <==>
      rounds != [] && var r := rounds[|rounds| - 1]; r.Answered? && r.after - r.before < 100_000_000
  {
    hide Sampled, NextOffset, RawOffset;
    if rounds != [] { SampledKeepsHealth(Run(rounds[..|rounds| - 1]), rounds[|rounds| - 1]); }
  }

  lemma SampledKeepsHealth(s: State, r: Round)
    ensures Synced(s, r).healthy <==> r.Answered? && r.after - r.before < 100_000_000
  {
    hide MinWith, Middle, SortInts, DropStale;
  }

  /** The median lies between the least and the greatest round trip of the window. */
  lemma MedianIsBetween(s: State, max: int)
    requires Summarised(s) && s.lastSync.Some?
    requires forall x :: x in s.samples ==> x.rtt <= max
    ensures s.minRTT <= s.medianRTT <= max
  {
    var sorted := SortInts(Rtts(s.samples));
    SortIsPermutation(Rtts(s.samples));
    assert s.medianRTT == Middle(sorted);
    forall i | 0 <= i < |sorted| ensures s.minRTT <= sorted[i] <= max {
      assert sorted[i] in multiset(Rtts(s.samples));
      var k :| 0 <= k < |s.samples| && Rtts(s.samples)[k] == sorted[i];
      assert s.samples[k] in s.samples;
    }
  }

  /**
   The latency a run reports is the median, or the last round trip when the median is 0: the fallback to the
   minimum is dead.
   */
  lemma MinimumFallbackIsDead(rounds: seq<Round>)
    requires ClockAdvances(rounds)
    ensures
      var s := Run(rounds);
      LatencyOf(s) == if s.medianRTT > 0 then s.medianRTT else s.latency
  {
    var s := Run(rounds);
    WindowIsExact(rounds);
    LastSyncIsLast(rounds);
    if s.lastSync.Some? {
      var max := MaxRTT(s.samples);
      MedianIsBetween(s, max);
    } else {
      NeverAnswered(rounds);
    }
  }

  lemma {:induction false} NeverAnswered(rounds: seq<Round>)
    ensures Run(rounds).lastSync.None? ==> Run(rounds).minRTT == 0
    decreases |rounds|
  {
    if rounds != [] { NeverAnswered(rounds[..|rounds| - 1]); }
  }

  lemma {:induction false} MaxRTT(samples: seq<Sample>) returns (max: int)
    ensures forall x :: x in samples ==> x.rtt <= max
  {
    max := 0;
    if samples != [] {
      max := MaxRTT(samples[1..]);
      if samples[0].rtt > max { max := samples[0].rtt; }
    }
  }
}

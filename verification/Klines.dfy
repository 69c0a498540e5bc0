/**
 Candlestick buffers of internal/infrastructure/store/klines.go and kline_store.go.

 A negative capacity is a panic in the source; here capacities are `nat`.
 */
module Klines {
  import opened Wrappers

  datatype Kline = Kline(timestamp: int, open: real, high: real, low: real, close: real, volume: real)

  datatype Buffered = Buffered(klines: seq<Kline>, maxLen: nat)

  function Added(b: Buffered, k: Kline): Buffered {
    var n := |b.klines|;
    if n > 0 && k.timestamp == b.klines[n - 1].timestamp then b.(klines := b.klines[n - 1 := k])
    else if n > 0 && k.timestamp < b.klines[n - 1].timestamp then b
    else
      var grown := b.klines + [k];
      b.(klines := if |grown| > b.maxLen then grown[1..] else grown)
  }

  function AddedAll(b: Buffered, ks: seq<Kline>): Buffered {
    if ks == [] then b else Added(AddedAll(b, ks[..|ks| - 1]), ks[|ks| - 1])
  }

  const DEFAULT_LEN := 50

  function InitIn(m: map<string, Buffered>, symbol: string, maxLen: nat, initial: seq<Kline>): map<string, Buffered> {
    m[symbol := AddedAll(Buffered([], maxLen), initial)]
  }

  function AddIn(m: map<string, Buffered>, symbol: string, k: Kline): map<string, Buffered> {
    m[symbol := Added(if symbol in m then m[symbol] else Buffered([], DEFAULT_LEN), k)]
  }

  class KlineBuffer {
    var klines: seq<Kline>
    const maxLen: nat

    constructor (maxLen: nat)
      ensures View() == Buffered([], maxLen)
    {
      this.klines, this.maxLen := [], maxLen;
    }

    function View(): Buffered
      reads this
    {
      Buffered(klines, maxLen)
    }

    method Add(k: Kline)
      modifies this
      ensures View() == Added(old(View()), k)
    {
      var n := |klines|;
      if n > 0 {
        if k.timestamp == klines[n - 1].timestamp {
          klines := klines[n - 1 := k];
          return;
        }
        if k.timestamp < klines[n - 1].timestamp { return; }
      }
      klines := klines + [k];
      if |klines| > maxLen { klines := klines[1..]; }
    }
  }

  class KlineStore {
    var klines: map<string, KlineBuffer>

    constructor ()
      ensures Valid() && View() == map[]
    {
      klines := map[];
    }

    /** No two symbols share a buffer. */
    ghost predicate Valid()
      reads this
    {
      forall s, t :: s in klines && t in klines && s != t ==> klines[s] != klines[t]
    }

    function View(): map<string, Buffered>
      reads this, klines.Values
    {
      map s | s in klines :: klines[s].View()
    }

    method InitKlines(symbol: string, maxLen: nat, initial: seq<Kline>)
      requires Valid()
      modifies this
      ensures Valid() && View() == InitIn(old(View()), symbol, maxLen, initial)
    {
      var buf := new KlineBuffer(maxLen);
      for i := 0 to |initial|
        invariant fresh(buf) && klines == old(klines) && View() == old(View())
        invariant buf.View() == AddedAll(Buffered([], maxLen), initial[..i])
      {
        assert initial[..i + 1][..i] == initial[..i];
        buf.Add(initial[i]);
      }
      assert initial[..|initial|] == initial;
      klines := klines[symbol := buf];
    }

    method AddKline(symbol: string, k: Kline)
      requires Valid()
      modifies this, klines.Values
      ensures Valid() && View() == AddIn(old(View()), symbol, k)
      ensures forall s :: s in old(klines) ==> s in klines && klines[s] == old(klines)[s]
    {
      var buf: KlineBuffer;
      if symbol in klines {
        buf := klines[symbol];
      } else {
        buf := new KlineBuffer(DEFAULT_LEN);
        klines := klines[symbol := buf];
      }
      buf.Add(k);
    }

    method GetKlines(symbol: string) returns (res: seq<Kline>)
      requires Valid()
      ensures res == if symbol in View() then View()[symbol].klines else []
    {
      if symbol !in klines { return []; }
      res := klines[symbol].klines;
    }
  }

  // ---------------------------------------------------------------- the unbounded log

  /** The log without a bound: an equal timestamp replaces the newest kline, an older one is ignored. */
  function Logged(log: seq<Kline>, k: Kline): seq<Kline> {
    if log != [] && k.timestamp == log[|log| - 1].timestamp then log[|log| - 1 := k]
    else if log != [] && k.timestamp < log[|log| - 1].timestamp then log
    else log + [k]
  }

  function Log(ks: seq<Kline>): seq<Kline> {
    if ks == [] then [] else Logged(Log(ks[..|ks| - 1]), ks[|ks| - 1])
  }

  function LastOf(log: seq<Kline>, n: nat): seq<Kline> {
    if |log| > n then log[|log| - n..] else log
  }

  ghost predicate StrictlyIncreasing(ks: seq<Kline>) {
    forall i, j :: 0 <= i < j < |ks| ==> ks[i].timestamp < ks[j].timestamp
  }

  /** The log ends with the newest kline given. */
  ghost predicate EndsNewest(log: seq<Kline>, ks: seq<Kline>) {
    ks != [] ==>
      && log != [] && log[|log| - 1] in ks
      && forall i :: 0 <= i < |ks| ==> ks[i].timestamp <= log[|log| - 1].timestamp
  }

  lemma LoggedIncreases(log: seq<Kline>, k: Kline)
    requires StrictlyIncreasing(log)
    ensures StrictlyIncreasing(Logged(log, k))
  {
  }

  lemma LoggedEndsNewest(log: seq<Kline>, ks: seq<Kline>, k: Kline)
    requires EndsNewest(log, ks) && (ks == [] ==> log == [])
    ensures EndsNewest(Logged(log, k), ks + [k])
  {
    var t := Logged(log, k);
    assert t[|t| - 1] == k || (log != [] && t[|t| - 1] == log[|log| - 1]);
  }

  lemma {:induction false} LogIncreases(ks: seq<Kline>)
    ensures StrictlyIncreasing(Log(ks)) && EndsNewest(Log(ks), ks)
    decreases |ks|
  {
    if ks != [] {
      hide StrictlyIncreasing, EndsNewest, Logged;
      var n := |ks| - 1;
      LogIncreases(ks[..n]);
      LoggedIncreases(Log(ks[..n]), ks[n]);
      LoggedEndsNewest(Log(ks[..n]), ks[..n], ks[n]);
      assert ks == ks[..n] + [ks[n]];
    }
  }

  /** Nothing given before position i is newer. */
  ghost predicate Newest(ks: seq<Kline>, i: nat) {
    i < |ks| && forall j :: 0 <= j < i ==> ks[j].timestamp <= ks[i].timestamp
  }

  /** Position i was the newest when given, and was not replaced by another such with its timestamp. */
  ghost predicate Survives(ks: seq<Kline>, i: nat) {
    Newest(ks, i) && forall j: nat :: j > i && Newest(ks, j) ==> ks[j].timestamp != ks[i].timestamp
  }

  lemma LastIsNewest(ks: seq<Kline>)
    requires ks != []
    ensures
      var n, log := |ks| - 1, Log(ks[..|ks| - 1]);
      Newest(ks, n) <==> log == [] || ks[n].timestamp >= log[|log| - 1].timestamp
  {
    var n, log := |ks| - 1, Log(ks[..|ks| - 1]);
    LogIncreases(ks[..n]);
    if log != [] {
      var i :| 0 <= i < n && ks[i] == log[|log| - 1];
    }
  }

  lemma SurvivesLonger(ks: seq<Kline>, i: nat)
    requires ks != [] && i < |ks| - 1
    ensures
      var n := |ks| - 1;
      Survives(ks, i) <==> Survives(ks[..n], i) && !(Newest(ks, n) && ks[n].timestamp == ks[i].timestamp)
  {
    var n := |ks| - 1;
    forall j: nat | j < n ensures Newest(ks, j) <==> Newest(ks[..n], j) {
      if Newest(ks[..n], j) {
        forall m | 0 <= m < j ensures ks[m].timestamp <= ks[j].timestamp {
          assert ks[..n][m].timestamp <= ks[..n][j].timestamp;
        }
      }
    }
  }

  lemma LoggedMembers(log: seq<Kline>, k: Kline, x: Kline)
    requires StrictlyIncreasing(log)
    ensures
      var newest := log == [] || k.timestamp >= log[|log| - 1].timestamp;
      x in Logged(log, k) <==> (newest && x == k) || (x in log && !(newest && x.timestamp == k.timestamp))
  {
    if log != [] {
      var m := |log| - 1;
      assert log == log[..m] + [log[m]];
      assert x in log[..m] ==> x.timestamp < log[m].timestamp;
      if k.timestamp == log[m].timestamp { assert Logged(log, k) == log[..m] + [k]; }
    }
  }

  /** The log holds exactly the survivors. */
  lemma {:induction false} LogHoldsSurvivors(ks: seq<Kline>, x: Kline)
    ensures x in Log(ks) <==> exists i: nat :: i < |ks| && Survives(ks, i) && ks[i] == x
    decreases |ks|
  {
    hide Logged, Survives, Newest;
    if ks != [] {
      var n := |ks| - 1;
      LogHoldsSurvivors(ks[..n], x);
      LogIncreases(ks[..n]);
      LastIsNewest(ks);
      LoggedMembers(Log(ks[..n]), ks[n], x);
      LastSurvivesIff(ks);
      if x in Log(ks) && !(Survives(ks, n) && ks[n] == x) {
        var i: nat :| i < n && Survives(ks[..n], i) && ks[..n][i] == x;
        SurvivesLonger(ks, i);
      }
      if i: nat :| i < |ks| && Survives(ks, i) && ks[i] == x {
        SurvivorIsNewest(ks, i);
        if i < n { SurvivesLonger(ks, i); assert ks[..n][i] == x; }
      }
    }
  }

  lemma SurvivorIsNewest(ks: seq<Kline>, i: nat)
    requires Survives(ks, i)
    ensures i < |ks| && Newest(ks, i)
  {
  }

  lemma LastSurvivesIff(ks: seq<Kline>)
    requires ks != []
    ensures Survives(ks, |ks| - 1) <==> Newest(ks, |ks| - 1)
  {
  }

  lemma TailStep(log: seq<Kline>, k: Kline, maxLen: nat)
    ensures Added(Buffered(LastOf(log, maxLen), maxLen), k) == Buffered(LastOf(Logged(log, k), maxLen), maxLen)
  {
    if maxLen == 0 {
    } else if log != [] && k.timestamp <= log[|log| - 1].timestamp {
    } else if |log| < maxLen {
    } else {
      assert (LastOf(log, maxLen) + [k])[1..] == LastOf(log + [k], maxLen);
    }
  }

  /** The buffer refines the log: whatever was added, and whatever the capacity, it is the tail of the log. */
  lemma {:induction false} BufferIsTailOfLog(maxLen: nat, ks: seq<Kline>)
    ensures AddedAll(Buffered([], maxLen), ks) == Buffered(LastOf(Log(ks), maxLen), maxLen)
    decreases |ks|
  {
    hide Added, Logged, LastOf;
    if ks != [] {
      BufferIsTailOfLog(maxLen, ks[..|ks| - 1]);
      TailStep(Log(ks[..|ks| - 1]), ks[|ks| - 1], maxLen);
    } else {
      assert LastOf([], maxLen) == [] by { LastOfEmpty(maxLen); }
    }
  }

  lemma LastOfEmpty(n: nat)
    ensures LastOf([], n) == []
  {
  }

  // ---------------------------------------------------------------- runs of the store

  datatype Event =
    | Init(symbol: string, maxLen: nat, initial: seq<Kline>)
    | Add(symbol: string, k: Kline)

  function Next(m: map<string, Buffered>, e: Event): map<string, Buffered> {
    match e
    case Init(symbol, maxLen, initial) => InitIn(m, symbol, maxLen, initial)
    case Add(symbol, k) => AddIn(m, symbol, k)
  }

  function Run(events: seq<Event>): map<string, Buffered> {
    if events == [] then map[] else Next(Run(events[..|events| - 1]), events[|events| - 1])
  }

  /** What a symbol has been given since it was last initialised, and its capacity. */
  function Given(events: seq<Event>, symbol: string): Option<(seq<Kline>, nat)> {
    if events == [] then None
    else
      var e, before := events[|events| - 1], Given(events[..|events| - 1], symbol);
      if e.symbol != symbol then before
      else match e
        case Init(_, maxLen, initial) => Some((initial, maxLen))
        case Add(_, k) =>
          if before.Some? then Some((before.value.0 + [k], before.value.1)) else Some(([k], 50))
  }

  lemma AddedAllSnoc(b: Buffered, ks: seq<Kline>, k: Kline)
    ensures AddedAll(b, ks + [k]) == Added(AddedAll(b, ks), k)
  {
    assert (ks + [k])[..|ks|] == ks;
  }

  lemma {:induction false} StoreHoldsGiven(events: seq<Event>, symbol: string)
    ensures
      match Given(events, symbol)
      case None => symbol !in Run(events)
      case Some((ks, maxLen)) => symbol in Run(events) && Run(events)[symbol] == AddedAll(Buffered([], maxLen), ks)
    decreases |events|
  {
    hide Added;
    if events != [] {
      var before, e := events[..|events| - 1], events[|events| - 1];
      StoreHoldsGiven(before, symbol);
      if e.Add? && e.symbol == symbol {
        match Given(before, symbol)
        case None =>
          AddedAllSnoc(Buffered([], DEFAULT_LEN), [], e.k);
          assert [] + [e.k] == [e.k];
        case Some((ks, maxLen)) =>
          AddedAllSnoc(Buffered([], maxLen), ks, e.k);
      }
    }
  }

  /**
   Every run, every symbol: the stored klines are the newest `maxLen` survivors of what it was given, oldest
   first.
   */
  lemma StoreRefinesLog(events: seq<Event>, symbol: string)
    ensures symbol in Run(events) <==> exists i :: 0 <= i < |events| && events[i].symbol == symbol
    ensures symbol in Run(events) <==> Given(events, symbol).Some?
    ensures symbol in Run(events) ==>
              var (ks, maxLen) := Given(events, symbol).value;
              var stored := Run(events)[symbol].klines;
              && stored == LastOf(Log(ks), maxLen)
              && |stored| <= maxLen && StrictlyIncreasing(stored)
  {
    StoreHoldsGiven(events, symbol);
    KnownIffMentioned(events, symbol);
    match Given(events, symbol)
    case None =>
    case Some((ks, maxLen)) =>
      BufferIsTailOfLog(maxLen, ks);
      LogIncreases(ks);
  }

  lemma {:induction false} KnownIffMentioned(events: seq<Event>, symbol: string)
    ensures symbol in Run(events) <==> exists i :: 0 <= i < |events| && events[i].symbol == symbol
    decreases |events|
  {
    hide Added, AddedAll;
    if events != [] {
      var n := |events| - 1;
      KnownIffMentioned(events[..n], symbol);
      if symbol in Run(events[..n]) {
        var i :| 0 <= i < |events[..n]| && events[..n][i].symbol == symbol;
        assert events[i].symbol == symbol;
      } else if events[n].symbol != symbol {
        forall i | 0 <= i < |events| ensures events[i].symbol != symbol {
          if i < n { assert events[..n][i].symbol != symbol; }
        }
      }
    }
  }
}

/**
 The universe of internal/bots/penny_jumper/application/subscribe_manager.go:
 which symbols the bot follows on each exchange, and what its flow therefore
 holds in that exchange's reference-counting adapter.

 Go iterates maps in any order, so the order of removals is a parameter.
 */
module SubscribeManager {
  import opened Wrappers
  import A = Adapter

  const FLOW := "penny_jumper"

  datatype Gainer = Gainer(symbol: string, volume24h: real, lastPrice: real)

  datatype Config = Config(blacklist: set<string>, minVolume24h: real, maxCoinPrice: real, topGainerLimit: int)

  predicate Qualifies(cfg: Config, g: Gainer) {
    && g.symbol !in cfg.blacklist
    && !(cfg.minVolume24h > 0.0 && g.volume24h < cfg.minVolume24h)
    && !(cfg.maxCoinPrice > 0.0 && (g.lastPrice > cfg.maxCoinPrice || g.lastPrice <= 0.0))
  }

  function Filtered(cfg: Config, gainers: seq<Gainer>): seq<string> {
    if gainers == [] then []
    else
      var g := gainers[|gainers| - 1];
      Filtered(cfg, gainers[..|gainers| - 1]) + if Qualifies(cfg, g) then [g.symbol] else []
  }

  function Qualified(cfg: Config, gainers: seq<Gainer>): seq<string> {
    var all := Filtered(cfg, gainers);
    if cfg.topGainerLimit > 0 && |all| > cfg.topGainerLimit then all[..cfg.topGainerLimit] else all
  }

  /**
   Gainer by gainer: its symbol is kept unless blacklisted, too little traded, too dear, or without a price where
   a greatest price is set; a limit that is not positive does not apply.
   */
  lemma FilterDecidesEach(cfg: Config, gainers: seq<Gainer>, g: Gainer)
    ensures
      var kept :=
        && g.symbol !in cfg.blacklist
        && (cfg.minVolume24h <= 0.0 || g.volume24h >= cfg.minVolume24h)
        && (cfg.maxCoinPrice <= 0.0 || 0.0 < g.lastPrice <= cfg.maxCoinPrice);
      Filtered(cfg, gainers + [g]) == Filtered(cfg, gainers) + if kept then [g.symbol] else []
    ensures Filtered(cfg, []) == []
  {
    assert (gainers + [g])[..|gainers|] == gainers;
  }

  /** The list is cut to its first topGainerLimit symbols, if that limit is positive. */
  lemma LimitCuts(cfg: Config, gainers: seq<Gainer>)
    ensures
      var all, q := Filtered(cfg, gainers), Qualified(cfg, gainers);
      && |q| <= |all| && q == all[..|q|]
      && |q| == if 0 < cfg.topGainerLimit < |all| then cfg.topGainerLimit else |all|
  {
    assert Filtered(cfg, gainers)[..|Filtered(cfg, gainers)|] == Filtered(cfg, gainers);
  }

  /** The symbols of q that are not in u, each at its first occurrence. */
  function NewSymbols(u: set<string>, q: seq<string>): (r: seq<string>) {
    if q == [] then []
    else
      var sym := q[|q| - 1];
      var init := NewSymbols(u, q[..|q| - 1]);
      if sym in u || sym in q[..|q| - 1] then init else init + [sym]
  }

  function Elements(q: seq<string>): set<string> {
    set x | x in q
  }

  ghost predicate NoDuplicates(q: seq<string>) {
    forall i, j :: 0 <= i < j < |q| ==> q[i] != q[j]
  }

  /** r lists the elements of s, once each. */
  ghost predicate Lists(r: seq<string>, s: set<string>) {
    NoDuplicates(r) && Elements(r) == s
  }

  lemma NonEmpty(q: seq<string>)
    ensures q != [] ==> Elements(q) != {}
  {
    if q != [] { assert q[0] in Elements(q); }
  }

  lemma Snoc(q: seq<string>, x: string)
    ensures Elements(q + [x]) == Elements(q) + {x}
    ensures NoDuplicates(q) && x !in q ==> NoDuplicates(q + [x])
  {
    assert forall y :: y in q + [x] <==> y in q || y == x;
  }

  lemma {:induction false} NewSymbolsLists(u: set<string>, q: seq<string>)
    ensures Lists(NewSymbols(u, q), Elements(q) - u)
    decreases |q|
  {
    if q != [] {
      var init := q[..|q| - 1];
      NewSymbolsLists(u, init);
      var x := q[|q| - 1];
      assert q == init + [x];
      Snoc(init, x);
      Snoc(NewSymbols(u, init), x);
      assert x in NewSymbols(u, init) <==> x in Elements(init) - u;
    }
  }

  // ---------------------------------------------------------------- what one client's adapter is told

  function SubscribePair(st: A.State, c: Client, sym: string, fails: set<A.Feed>): A.State
    requires A.Valid(st)
  {
    A.ApplyKeepsValid(st, c.attached, A.CallSubscribe(FLOW, A.Depth(sym), A.Depth(sym) !in fails));
    var t := A.Subscribe(st, c.attached, FLOW, A.Depth(sym), A.Depth(sym) !in fails);
    if c.hasTrade then A.Subscribe(t, c.attached, FLOW, A.Trade(sym), A.Trade(sym) !in fails) else t
  }

  function UnsubscribePair(st: A.State, c: Client, sym: string): A.State
    requires A.Valid(st)
  {
    A.ApplyKeepsValid(st, c.attached, A.CallUnsubscribe(FLOW, A.Depth(sym)));
    var t := A.Unsubscribe(st, c.attached, FLOW, A.Depth(sym));
    if c.hasTrade then A.Unsubscribe(t, c.attached, FLOW, A.Trade(sym)) else t
  }

  /** `fails` are the feeds whose physical subscribe would fail during this refresh. */
  function SubscribePairs(st: A.State, c: Client, syms: seq<string>, fails: set<A.Feed>): (r: A.State)
    requires A.Valid(st)
    ensures A.Valid(r)
  {
    if syms == [] then st
    else
      var t := SubscribePairs(st, c, syms[..|syms| - 1], fails);
      PairKeepsValid(t, c, syms[|syms| - 1], fails);
      SubscribePair(t, c, syms[|syms| - 1], fails)
  }

  function UnsubscribePairs(st: A.State, c: Client, syms: seq<string>): (r: A.State)
    requires A.Valid(st)
    ensures A.Valid(r)
  {
    if syms == [] then st
    else
      var t := UnsubscribePairs(st, c, syms[..|syms| - 1]);
      PairKeepsValid(t, c, syms[|syms| - 1], {});
      UnsubscribePair(t, c, syms[|syms| - 1])
  }

  lemma PairKeepsValid(st: A.State, c: Client, sym: string, fails: set<A.Feed>)
    requires A.Valid(st)
    ensures A.Valid(SubscribePair(st, c, sym, fails)) && A.Valid(UnsubscribePair(st, c, sym))
  {
    var d := A.CallSubscribe(FLOW, A.Depth(sym), A.Depth(sym) !in fails);
    A.ApplyKeepsValid(st, c.attached, d);
    A.ApplyKeepsValid(A.Apply(st, c.attached, d), c.attached, A.CallSubscribe(FLOW, A.Trade(sym),
        A.Trade(sym) !in fails));
    var e := A.CallUnsubscribe(FLOW, A.Depth(sym));
    A.ApplyKeepsValid(st, c.attached, e);
    A.ApplyKeepsValid(A.Apply(st, c.attached, e), c.attached, A.CallUnsubscribe(FLOW, A.Trade(sym)));
  }

  /** An exchange, whether its adapter can be called at all, and whether it takes trade subscriptions. */
  datatype Client = Client(exchange: string, attached: bool, hasTrade: bool)

  class Manager {
    const cfg: Config
    var currentUniverse: map<string, set<string>>

    constructor (cfg: Config)
      ensures currentUniverse == map[] && this.cfg == cfg
    {
      this.cfg := cfg;
      currentUniverse := map[];
    }

    method FilterGainers(gainers: seq<Gainer>) returns (qualified: seq<string>)
      ensures qualified == Filtered(cfg, gainers)
    {
      qualified := [];
      for i := 0 to |gainers|
        invariant qualified == Filtered(cfg, gainers[..i])
      {
        var g := gainers[i];
        assert gainers[..i + 1][..i] == gainers[..i];
        if g.symbol in cfg.blacklist { continue; }
        if cfg.minVolume24h > 0.0 && g.volume24h < cfg.minVolume24h { continue; }
        if cfg.maxCoinPrice > 0.0 && (g.lastPrice > cfg.maxCoinPrice || g.lastPrice <= 0.0) { continue; }
        qualified := qualified + [g.symbol];
      }
      assert gainers[..|gainers|] == gainers;
    }

    method UpdateUniverseForExchange(
      exch: string, qualified: seq<string>)
      returns (toAdd: seq<string>, toRemove: seq<string>)
      modifies this
      ensures currentUniverse == old(currentUniverse)[exch := Elements(qualified)]
      ensures toAdd == NewSymbols(UniverseOf(old(currentUniverse), exch), qualified)
      ensures Lists(toAdd, Elements(qualified) - UniverseOf(old(currentUniverse), exch))
      ensures Lists(toRemove, UniverseOf(old(currentUniverse), exch) - Elements(qualified))
      ensures Elements(toAdd) !! Elements(toRemove)
    {
      ghost var u := UniverseOf(currentUniverse, exch);
      var exchUniverse := if exch in currentUniverse then currentUniverse[exch] else {};
      toAdd, toRemove := [], [];
      for i := 0 to |qualified|
        invariant currentUniverse == old(currentUniverse)
        invariant exchUniverse == u + Elements(qualified[..i])
        invariant toAdd == NewSymbols(u, qualified[..i])
      {
        assert qualified[..i + 1] == qualified[..i] + [qualified[i]];
        assert qualified[..i + 1][..i] == qualified[..i];
        if qualified[i] !in exchUniverse {
          exchUniverse := exchUniverse + {qualified[i]};
          toAdd := toAdd + [qualified[i]];
        }
      }
      assert qualified[..|qualified|] == qualified;
      NewSymbolsLists(u, qualified);
      var rest := exchUniverse;
      while rest != {}
        invariant currentUniverse == old(currentUniverse)
        invariant rest <= u + Elements(qualified)
        invariant exchUniverse == (set x | x in u + Elements(qualified) && (x in rest || x in qualified))
        invariant NoDuplicates(toRemove)
        invariant Elements(toRemove) == (set x | x in u && x !in rest && x !in qualified)
        decreases rest
      {
        var sym :| sym in rest;
        rest := rest - {sym};
        if sym !in qualified {
          exchUniverse := exchUniverse - {sym};
          assert sym !in Elements(toRemove);
          Snoc(toRemove, sym);
          toRemove := toRemove + [sym];
        }
      }
      assert exchUniverse == Elements(qualified);
      currentUniverse := currentUniverse[exch := exchUniverse];
    }

    /** The loop body of RefreshUniverse for one client; `gainers` is None when the fetch failed. */
    method RefreshClient(c: Client, subscriber: A.ManagerAdapter, gainers: Option<seq<Gainer>>, fails: set<A.Feed>)
      returns (qualified: seq<string>, toRemove: seq<string>)
      requires A.Valid(subscriber.View()) && subscriber.attached == c.attached
      modifies this, subscriber
      ensures gainers.None? ==> currentUniverse == old(currentUniverse) && subscriber.View() == old(subscriber.View())
      ensures gainers.Some? ==>
        var u := UniverseOf(old(currentUniverse), c.exchange);
        && qualified == Qualified(cfg, gainers.value)
        && Lists(toRemove, u - Elements(qualified))
        && currentUniverse == old(currentUniverse)[c.exchange := Elements(qualified)]
        && subscriber.View() == Refreshed(old(subscriber.View()), c, u, qualified, fails, toRemove)
    {
      qualified, toRemove := [], [];
      if gainers.None? { return; }
      qualified := FilterGainers(gainers.value);
      if cfg.topGainerLimit > 0 && |qualified| > cfg.topGainerLimit { qualified := qualified[..cfg.topGainerLimit]; }
      var toAdd;
      toAdd, toRemove := UpdateUniverseForExchange(c.exchange, qualified);
      SubscribePairsForClient(c, subscriber, toAdd, fails);
      UnsubscribePairsForClient(c, subscriber, toRemove);
    }

    /** UnsubscribeAll for one client. */
    method ShutDownClient(c: Client, subscriber: A.ManagerAdapter) returns (order: seq<string>)
      requires A.Valid(subscriber.View()) && subscriber.attached == c.attached
      modifies this, subscriber
      ensures Lists(order, UniverseOf(old(currentUniverse), c.exchange))
      ensures currentUniverse == old(currentUniverse) - {c.exchange}
      ensures subscriber.View() == UnsubscribePairs(old(subscriber.View()), c, order)
    {
      order := [];
      if c.exchange !in currentUniverse { return; }
      var rest := currentUniverse[c.exchange];
      while rest != {}
        invariant currentUniverse == old(currentUniverse) && subscriber.View() == old(subscriber.View())
        invariant rest <= currentUniverse[c.exchange]
        invariant NoDuplicates(order) && Elements(order) == currentUniverse[c.exchange] - rest
        decreases rest
      {
        var sym :| sym in rest;
        assert sym !in Elements(order);
        Snoc(order, sym);
        order := order + [sym];
        rest := rest - {sym};
      }
      UnsubscribePairsForClient(c, subscriber, order);
      currentUniverse := currentUniverse - {c.exchange};
    }
  }

  function UniverseOf(m: map<string, set<string>>, exch: string): set<string> {
    if exch in m then m[exch] else {}
  }

  method SubscribePairsForClient(c: Client, subscriber: A.ManagerAdapter, toAdd: seq<string>, fails: set<A.Feed>)
    requires A.Valid(subscriber.View()) && subscriber.attached == c.attached
    modifies subscriber
    ensures subscriber.View() == SubscribePairs(old(subscriber.View()), c, toAdd, fails)
  {
    for i := 0 to |toAdd|
      invariant subscriber.View() == SubscribePairs(old(subscriber.View()), c, toAdd[..i], fails)
    {
      assert toAdd[..i + 1][..i] == toAdd[..i];
      PairKeepsValid(subscriber.View(), c, toAdd[i], fails);
      A.ApplyKeepsValid(subscriber.View(), c.attached, A.CallSubscribe(FLOW, A.Depth(toAdd[i]),
          A.Depth(toAdd[i]) !in fails));
      var _ := subscriber.SubscribeInternal(FLOW, A.Depth(toAdd[i]), A.Depth(toAdd[i]) !in fails);
      if c.hasTrade {
        var _ := subscriber.SubscribeInternal(FLOW, A.Trade(toAdd[i]), A.Trade(toAdd[i]) !in fails);
      }
    }
    assert toAdd[..|toAdd|] == toAdd;
  }

  method UnsubscribePairsForClient(c: Client, subscriber: A.ManagerAdapter, toRemove: seq<string>)
    requires A.Valid(subscriber.View()) && subscriber.attached == c.attached
    modifies subscriber
    ensures subscriber.View() == UnsubscribePairs(old(subscriber.View()), c, toRemove)
  {
    for i := 0 to |toRemove|
      invariant subscriber.View() == UnsubscribePairs(old(subscriber.View()), c, toRemove[..i])
    {
      assert toRemove[..i + 1][..i] == toRemove[..i];
      A.ApplyKeepsValid(subscriber.View(), c.attached, A.CallUnsubscribe(FLOW, A.Depth(toRemove[i])));
      subscriber.UnsubscribeInternal(FLOW, A.Depth(toRemove[i]));
      if c.hasTrade { subscriber.UnsubscribeInternal(FLOW, A.Trade(toRemove[i])); }
    }
    assert toRemove[..|toRemove|] == toRemove;
  }

  /** The adapter after an uninterrupted refresh that found `qualified`. */
  function Refreshed(
    st: A.State, c: Client, u: set<string>, qualified: seq<string>, fails: set<A.Feed>, toRemove: seq<string>): A.State
    requires A.Valid(st)
  {
    UnsubscribePairs(SubscribePairs(st, c, NewSymbols(u, qualified), fails), c, toRemove)
  }
}

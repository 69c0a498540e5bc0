/** What the adapter calls of the subscribe manager do to the keys the bot holds, exactly. */
module Holdings {
  import A = Adapter
  import opened SubscribeManager

  predicate Holds(st: A.State, key: string) {
    FLOW in A.Holders(st, key)
  }

  /** The feeds the bot takes for a set of symbols. */
  function FeedsOf(c: Client, u: set<string>): set<A.Feed> {
    (set s | s in u :: A.Depth(s)) + (if c.hasTrade then set s | s in u :: A.Trade(s) else {})
  }

  ghost predicate Among(key: string, feeds: set<A.Feed>) {
    key != "" && exists f :: f in feeds && A.Key(f) == key
  }

  /** A subscribe to this feed succeeds: it need not go to the exchange, or the exchange takes it. */
  predicate Granted(st: A.State, c: Client, fails: set<A.Feed>, f: A.Feed) {
    f !in fails || !c.attached || A.Holders(st, A.Key(f)) != {}
  }

  function GrantedOf(st: A.State, c: Client, fails: set<A.Feed>, feeds: set<A.Feed>): set<A.Feed> {
    set f | f in feeds && Granted(st, c, fails, f)
  }

  lemma SubscribeCallIff(st: A.State, c: Client, f: A.Feed, fails: set<A.Feed>, key: string)
    requires A.Valid(st)
    ensures
      var t := A.Subscribe(st, c.attached, FLOW, f, f !in fails);
      && A.Valid(t)
      && (Holds(t, key) <==> Holds(st, key) || (key != "" && A.Key(f) == key && Granted(st, c, fails, f)))
      && A.Holders(t, key) - {FLOW} == A.Holders(st, key) - {FLOW}
  {
    hide A.Subscribe, A.Holders, A.Valid;
    A.ApplyHolders(st, c.attached, A.CallSubscribe(FLOW, f, f !in fails), key);
    var was := A.Holders(st, key);
    assert was + {FLOW} - {FLOW} == was - {FLOW};
  }

  lemma UnsubscribeCallIff(st: A.State, c: Client, f: A.Feed, key: string)
    requires A.Valid(st)
    ensures
      var t := A.Unsubscribe(st, c.attached, FLOW, f);
      && A.Valid(t)
      && (Holds(t, key) <==> Holds(st, key) && !(key != "" && A.Key(f) == key))
      && A.Holders(t, key) - {FLOW} == A.Holders(st, key) - {FLOW}
  {
    hide A.Unsubscribe, A.Holders, A.Valid;
    A.ApplyHolders(st, c.attached, A.CallUnsubscribe(FLOW, f), key);
  }

  lemma FeedsOfOne(c: Client, sym: string)
    ensures FeedsOf(c, {sym}) == if c.hasTrade then {A.Depth(sym), A.Trade(sym)} else {A.Depth(sym)}
  {
  }

  lemma FeedsOfUnion(c: Client, u: set<string>, v: set<string>)
    ensures FeedsOf(c, u + v) == FeedsOf(c, u) + FeedsOf(c, v)
    ensures FeedsOf(c, u - v) == FeedsOf(c, u) - FeedsOf(c, v)
  {
  }

  lemma AmongUnion(key: string, x: set<A.Feed>, y: set<A.Feed>)
    ensures Among(key, x + y) <==> Among(key, x) || Among(key, y)
  {
  }

  lemma SameHolders(st: A.State, t: A.State, key: string)
    requires A.Holders(t, key) - {FLOW} == A.Holders(st, key) - {FLOW}
    requires !Holds(t, key) && !Holds(st, key)
    ensures A.Holders(t, key) == A.Holders(st, key)
  {
    assert A.Holders(t, key) == A.Holders(t, key) - {FLOW};
    assert A.Holders(st, key) == A.Holders(st, key) - {FLOW};
  }

  lemma SubscribePairIff(st: A.State, c: Client, sym: string, fails: set<A.Feed>, key: string)
    requires A.Valid(st)
    ensures
      var t := SubscribePair(st, c, sym, fails);
      && A.Valid(t)
      && (Holds(t, key) <==> Holds(st, key) || Among(key, GrantedOf(st, c, fails, FeedsOf(c, {sym}))))
      && A.Holders(t, key) - {FLOW} == A.Holders(st, key) - {FLOW}
  {
    hide A.Subscribe, A.Valid, A.Holders;
    FeedsOfOne(c, sym);
    var d, e := A.Depth(sym), A.Trade(sym);
    SubscribeCallIff(st, c, d, fails, key);
    SubscribeCallIff(st, c, d, fails, A.Key(e));
    A.SharedKeys(d, e);
    var t := A.Subscribe(st, c.attached, FLOW, d, d !in fails);
    SubscribeCallIff(t, c, e, fails, key);
    if A.Key(e) == key && !Holds(st, key) { SameHolders(st, t, key); }
  }

  lemma UnsubscribePairIff(st: A.State, c: Client, sym: string, key: string)
    requires A.Valid(st)
    ensures
      var t := UnsubscribePair(st, c, sym);
      && A.Valid(t)
      && (Holds(t, key) <==> Holds(st, key) && !Among(key, FeedsOf(c, {sym})))
      && A.Holders(t, key) - {FLOW} == A.Holders(st, key) - {FLOW}
  {
    hide A.Unsubscribe, A.Valid, A.Holders;
    FeedsOfOne(c, sym);
    UnsubscribeCallIff(st, c, A.Depth(sym), key);
    UnsubscribeCallIff(A.Unsubscribe(st, c.attached, FLOW, A.Depth(sym)), c, A.Trade(sym), key);
  }

  /** Subscribing a list adds exactly the keys of the feeds that are granted. */
  lemma {:induction false} SubscribePairsIff(st: A.State, c: Client, syms: seq<string>, fails: set<A.Feed>, key: string)
    requires A.Valid(st)
    ensures
      var t := SubscribePairs(st, c, syms, fails);
      && (Holds(t, key) <==> Holds(st, key) || Among(key, GrantedOf(st, c, fails, FeedsOf(c, Elements(syms)))))
      && A.Holders(t, key) - {FLOW} == A.Holders(st, key) - {FLOW}
    decreases |syms|
  {
    hide A.Valid, A.Holders, SubscribePair;
    if syms != [] {
      var init, sym := syms[..|syms| - 1], syms[|syms| - 1];
      assert syms == init + [sym];
      Snoc(init, sym);
      FeedsOfUnion(c, Elements(init), {sym});
      SubscribePairsIff(st, c, init, fails, key);
      var t := SubscribePairs(st, c, init, fails);
      SubscribePairIff(t, c, sym, fails, key);
      var x, y := FeedsOf(c, Elements(init)), FeedsOf(c, {sym});
      assert GrantedOf(st, c, fails, x + y) == GrantedOf(st, c, fails, x) + GrantedOf(st, c, fails, y);
      AmongUnion(key, GrantedOf(st, c, fails, x), GrantedOf(st, c, fails, y));
      if !Holds(t, key) && !Holds(st, key) { SameGrants(st, t, c, fails, y, key); }
    }
  }

  /** Whether a feed of a key the bot does not hold is granted depends on the other flows alone. */
  lemma SameGrants(st: A.State, t: A.State, c: Client, fails: set<A.Feed>, feeds: set<A.Feed>, key: string)
    requires A.Holders(t, key) - {FLOW} == A.Holders(st, key) - {FLOW}
    requires !Holds(t, key) && !Holds(st, key)
    ensures Among(key, GrantedOf(t, c, fails, feeds)) <==> Among(key, GrantedOf(st, c, fails, feeds))
  {
    SameHolders(st, t, key);
    if f :| f in GrantedOf(t, c, fails, feeds) && A.Key(f) == key { assert f in GrantedOf(st, c, fails, feeds); }
    if f :| f in GrantedOf(st, c, fails, feeds) && A.Key(f) == key { assert f in GrantedOf(t, c, fails, feeds); }
  }

  /** Unsubscribing a list removes exactly the keys of its feeds. */
  lemma {:induction false} UnsubscribePairsIff(st: A.State, c: Client, syms: seq<string>, key: string)
    requires A.Valid(st)
    ensures
      var t := UnsubscribePairs(st, c, syms);
      && (Holds(t, key) <==> Holds(st, key) && !Among(key, FeedsOf(c, Elements(syms))))
      && A.Holders(t, key) - {FLOW} == A.Holders(st, key) - {FLOW}
    decreases |syms|
  {
    hide A.Valid, A.Holders, UnsubscribePair;
    if syms != [] {
      var init, sym := syms[..|syms| - 1], syms[|syms| - 1];
      assert syms == init + [sym];
      Snoc(init, sym);
      FeedsOfUnion(c, Elements(init), {sym});
      UnsubscribePairsIff(st, c, init, key);
      UnsubscribePairIff(UnsubscribePairs(st, c, init), c, sym, key);
      AmongUnion(key, FeedsOf(c, Elements(init)), FeedsOf(c, {sym}));
    }
  }
}

/**
 Whole refreshes and shutdowns as runs: what a refresh leaves behind when a shutdown overtakes it, and
 what becomes of a symbol whose subscribe failed.
 */
module RefreshRuns {
  import A = Adapter
  import opened SubscribeManager
  import opened Holdings
  import opened UniverseRuns

  lemma {:induction false} RunsCompose(c: Client, h: Share, xs: seq<Step>, mid: Share, ys: seq<Step>, end: Share)
    requires A.Valid(h.st) && A.Valid(mid.st) && IsRun(c, h, xs, mid) && IsRun(c, mid, ys, end)
    ensures IsRun(c, h, xs + ys, end)
    decreases |xs|
  {
    hide Next, Enabled;
    if xs == [] {
      assert xs + ys == ys;
    } else {
      assert (xs + ys)[0] == xs[0] && (xs + ys)[1..] == xs[1..] + ys;
      NextKeepsValid(c, h, xs[0]);
      RunsCompose(c, Next(c, h, xs[0]), xs[1..], mid, ys, end);
    }
  }

  lemma OneStep(c: Client, h: Share, e: Step)
    requires A.Valid(h.st) && Enabled(h, e)
    ensures IsRun(c, h, [e], Next(c, h, e)) && A.Valid(Next(c, h, e).st)
  {
    NextKeepsValid(c, h, e);
    assert [e][1..] == [];
  }

  lemma {:induction false} SubscribePairsCons(st: A.State, c: Client, syms: seq<string>, fails: set<A.Feed>)
    requires A.Valid(st) && syms != []
    ensures A.Valid(SubscribePair(st, c, syms[0], fails))
    ensures SubscribePairs(st, c, syms, fails) ==
      SubscribePairs(SubscribePair(st, c, syms[0], fails), c, syms[1..], fails)
    decreases |syms|
  {
    hide A.Valid, SubscribePair;
    PairKeepsValid(st, c, syms[0], fails);
    var n := |syms| - 1;
    if n > 0 {
      SubscribePairsCons(st, c, syms[..n], fails);
      assert syms[..n][1..] == syms[1..][..n - 1];
    } else {
      assert syms[..0] == [] == syms[1..];
    }
  }

  lemma {:induction false} UnsubscribePairsCons(st: A.State, c: Client, syms: seq<string>)
    requires A.Valid(st) && syms != []
    ensures A.Valid(UnsubscribePair(st, c, syms[0]))
    ensures UnsubscribePairs(st, c, syms) == UnsubscribePairs(UnsubscribePair(st, c, syms[0]), c, syms[1..])
    decreases |syms|
  {
    hide A.Valid, UnsubscribePair;
    PairKeepsValid(st, c, syms[0], {});
    var n := |syms| - 1;
    if n > 0 {
      UnsubscribePairsCons(st, c, syms[..n]);
      assert syms[..n][1..] == syms[1..][..n - 1];
    } else {
      assert syms[..0] == [] == syms[1..];
    }
  }

  /** The subscribe loop of a refresh. */
  lemma {:induction false} SubscribeLoop(c: Client, h: Share, fails: set<A.Feed>) returns (steps: seq<Step>, end: Share)
    requires Shape(h)
    ensures IsRun(c, h, steps, end) && Shape(end)
    ensures end == h.(st := SubscribePairs(h.st, c, h.adds, fails), adds := [], late := end.late,
        missing := end.missing)
    ensures end.late == h.late + (Elements(h.adds) - h.universe)
    decreases |h.adds|
  {
    steps, end := [], h;
    if h.adds != [] {
      hide SubscribePair, A.Valid, NoDuplicates;
      ShapeIsValid(h);
      Popped(h.adds);
      StepKeepsShape(c, h, SubscribeNext(fails));
      OneStep(c, h, SubscribeNext(fails));
      SubscribePairsCons(h.st, c, h.adds, fails);
      var next := Next(c, h, SubscribeNext(fails));
      steps, end := SubscribeLoop(c, next, fails);
      RunsCompose(c, h, [SubscribeNext(fails)], next, steps, end);
      steps := [SubscribeNext(fails)] + steps;
    }
  }

  /** Its unsubscribe loop. */
  lemma {:induction false} UnsubscribeLoop(c: Client, h: Share) returns (steps: seq<Step>, end: Share)
    requires Shape(h) && h.adds == []
    ensures IsRun(c, h, steps, end) && Shape(end)
    ensures end == h.(st := UnsubscribePairs(h.st, c, h.removes), removes := [], late := end.late,
        missing := end.missing)
    ensures end.late == h.late - Elements(h.removes)
    decreases |h.removes|
  {
    steps, end := [], h;
    if h.removes != [] {
      Popped(h.removes);
      hide UnsubscribePair, A.Valid, NoDuplicates;
      ShapeIsValid(h);
      StepKeepsShape(c, h, UnsubscribeNext);
      OneStep(c, h, UnsubscribeNext);
      UnsubscribePairsCons(h.st, c, h.removes);
      var next := Next(c, h, UnsubscribeNext);
      steps, end := UnsubscribeLoop(c, next);
      RunsCompose(c, h, [UnsubscribeNext], next, steps, end);
      steps := [UnsubscribeNext] + steps;
    }
  }

  /** The loop of a shutdown, in any order. */
  lemma {:induction false} ShutDownLoop(c: Client, h: Share, order: seq<string>) returns (steps: seq<Step>, end: Share)
    requires Shape(h) && h.closing && Lists(order, h.universe)
    ensures IsRun(c, h, steps, end) && Shape(end)
    ensures end == h.(st := UnsubscribePairs(h.st, c, order), universe := {}, late := end.late, missing := end.missing)
    ensures end.late == h.late - Elements(order)
    decreases |order|
  {
    steps, end := [], h;
    if order == [] {
      NoneLeft(order);
    } else {
      Popped(order);
      hide UnsubscribePair, A.Valid, NoDuplicates;
      ShapeIsValid(h);
      var e := ShutDownNext(order[0]);
      StepKeepsShape(c, h, e);
      OneStep(c, h, e);
      UnsubscribePairsCons(h.st, c, order);
      var next := Next(c, h, e);
      steps, end := ShutDownLoop(c, next, order[1..]);
      RunsCompose(c, h, [e], next, steps, end);
      steps := [e] + steps;
    }
  }

  /** A refresh nobody interrupts is a run, and ends as RefreshClient says. */
  lemma RefreshIsARun(c: Client, h: Share, q: seq<string>, fails: set<A.Feed>, toRemove: seq<string>)
    returns (steps: seq<Step>, end: Share)
    requires Shape(h) && Enabled(h, Update(q, toRemove))
    ensures IsRun(c, h, steps, end) && Shape(end)
    ensures end == h.(universe := Elements(q), st := Refreshed(h.st, c, h.universe, q, fails, toRemove),
                      late := h.late - Elements(toRemove), missing := end.missing)
  {
    hide NoDuplicates, A.Valid;
    ShapeIsValid(h);
    NewSymbolsLists(h.universe, q);
    StepKeepsShape(c, h, Update(q, toRemove));
    OneStep(c, h, Update(q, toRemove));
    var h1 := Next(c, h, Update(q, toRemove));
    var first, h2 := SubscribeLoop(c, h1, fails);
    var second;
    second, end := UnsubscribeLoop(c, h2);
    RunsCompose(c, h1, first, h2, second, end);
    RunsCompose(c, h, [Update(q, toRemove)], h1, first + second, end);
    steps := [Update(q, toRemove)] + (first + second);
  }

  /** A whole shutdown, from any point of a refresh, is a run, and releases what ShutDownClient says. */
  lemma ShutDownIsARun(c: Client, h: Share, order: seq<string>) returns (steps: seq<Step>, end: Share)
    requires Shape(h) && !h.closing && Lists(order, h.universe)
    ensures IsRun(c, h, steps, end) && Shape(end)
    ensures end == h.(universe := {}, st := UnsubscribePairs(h.st, c, order),
                      late := h.late - Elements(order), missing := end.missing)
  {
    hide NoDuplicates, A.Valid;
    ShapeIsValid(h);
    OneStep(c, h, BeginShutDown);
    StepKeepsShape(c, h, BeginShutDown);
    var h1 := Next(c, h, BeginShutDown);
    var loop, h2 := ShutDownLoop(c, h1, order);
    OneStep(c, h2, EndShutDown);
    StepKeepsShape(c, h2, EndShutDown);
    end := Next(c, h2, EndShutDown);
    RunsCompose(c, h1, loop, h2, [EndShutDown], end);
    RunsCompose(c, h, [BeginShutDown], h1, loop + [EndShutDown], end);
    steps := [BeginShutDown] + (loop + [EndShutDown]);
  }

  /** After a shutdown between refreshes the bot holds nothing, except what was already late. */
  lemma ShutDownReleasesEverything(c: Client, h: Share, order: seq<string>, key: string)
    requires Shape(h) && Bounded(c, h) && h.adds == [] && h.removes == [] && h.late <= h.universe
    requires Lists(order, h.universe)
    ensures !Holds(UnsubscribePairs(h.st, c, order), key)
  {
    UnsubscribePairsIff(h.st, c, order, key);
    assert Owed(h) == Elements(order);
  }

  // ---------------------------------------------------------------- a refresh interrupted by a shutdown

  /** The adapter when a shutdown runs between the universe update of a refresh and its subscribes. */
  function Interrupted(
    st: A.State, c: Client, u: set<string>, q: seq<string>, fails: set<A.Feed>,
    toRemove: seq<string>, order: seq<string>): A.State
    requires A.Valid(st)
  {
    UnsubscribePairs(SubscribePairs(UnsubscribePairs(st, c, order), c, NewSymbols(u, q), fails), c, toRemove)
  }

  /** It is a run, and leaves the universe empty. */
  lemma InterruptedIsARun(
    c: Client, h: Share, q: seq<string>, fails: set<A.Feed>, toRemove: seq<string>, order: seq<string>)
    returns (steps: seq<Step>, end: Share)
    requires Shape(h) && Enabled(h, Update(q, toRemove)) && Lists(order, Elements(q))
    ensures IsRun(c, h, steps, end) && Shape(end)
    ensures end.universe == {} && end.adds == [] && end.removes == [] && !end.closing
    ensures end.st == Interrupted(h.st, c, h.universe, q, fails, toRemove, order)
  {
    hide NoDuplicates, A.Valid;
    ShapeIsValid(h);
    StepKeepsShape(c, h, Update(q, toRemove));
    OneStep(c, h, Update(q, toRemove));
    var h1 := Next(c, h, Update(q, toRemove));
    var first, h2 := ShutDownIsARun(c, h1, order);
    var second, h3 := SubscribeLoop(c, h2, fails);
    var third;
    third, end := UnsubscribeLoop(c, h3);
    RunsCompose(c, h2, second, h3, third, end);
    RunsCompose(c, h1, first, h2, second + third, end);
    RunsCompose(c, h, [Update(q, toRemove)], h1, first + (second + third), end);
    steps := [Update(q, toRemove)] + (first + (second + third));
  }

  lemma GrantsAfterRelease(
    st: A.State, c: Client, syms: seq<string>, fails: set<A.Feed>, feeds: set<A.Feed>, key: string)
    requires A.Valid(st) && !Holds(UnsubscribePairs(st, c, syms), key)
    ensures
      Among(key, GrantedOf(UnsubscribePairs(st, c, syms), c, fails, feeds)) <==>
        key != "" && exists f :: f in feeds && A.Key(f) == key && GrantedByOthers(st, c, fails, f)
  {
    var mid := UnsubscribePairs(st, c, syms);
    UnsubscribePairsIff(st, c, syms, key);
    assert A.Holders(mid, key) == A.Holders(mid, key) - {FLOW};
    if Among(key, GrantedOf(mid, c, fails, feeds)) {
      var f :| f in GrantedOf(mid, c, fails, feeds) && A.Key(f) == key;
      assert GrantedByOthers(st, c, fails, f);
    }
    if f :| f in feeds && A.Key(f) == key && GrantedByOthers(st, c, fails, f) {
      assert f in GrantedOf(mid, c, fails, feeds);
    }
  }

  /** As Granted, for a bot that holds nothing. */
  predicate GrantedByOthers(st: A.State, c: Client, fails: set<A.Feed>, f: A.Feed) {
    f !in fails || !c.attached || A.Holders(st, A.Key(f)) - {FLOW} != {}
  }

  /**
   A shutdown between the universe update of a refresh and its subscribes: the bot ends up holding exactly
   the keys of the new symbols whose feeds are granted, although its universe is empty. If every subscribe
   succeeds these are all of them; if every one fails, those some other flow holds.
   */
  lemma ShutDownDuringRefreshLeaks(
    c: Client, h: Share, q: seq<string>, fails: set<A.Feed>, toRemove: seq<string>, order: seq<string>, key: string)
    requires Shape(h) && Bounded(c, h) && Enabled(h, Update(q, toRemove)) && h.late == {} && Lists(order, Elements(q))
    ensures
      var leaked := Holds(Interrupted(h.st, c, h.universe, q, fails, toRemove, order), key);
      var added := FeedsOf(c, Elements(q) - h.universe);
      var kept := !Among(key, FeedsOf(c, h.universe - Elements(q)));
      && (leaked <==>
            key != "" && kept && exists f :: f in added && A.Key(f) == key && GrantedByOthers(h.st, c, fails, f))
      && (fails == {} ==> (leaked <==> kept && Among(key, added)))
      && (c.attached && added <= fails ==>
            (leaked <==> kept && Among(key, added) && A.Holders(h.st, key) - {FLOW} != {}))
  {
    hide A.Valid, A.Holders;
    ShapeIsValid(h);
    NewSymbolsLists(h.universe, q);
    var adds := NewSymbols(h.universe, q);
    var mid := UnsubscribePairs(h.st, c, order);
    UnsubscribePairsIff(h.st, c, order, key);
    SubscribePairsIff(mid, c, adds, fails, key);
    UnsubscribePairsIff(SubscribePairs(mid, c, adds, fails), c, toRemove, key);
    var added := FeedsOf(c, Elements(q) - h.universe);
    if !Holds(mid, key) {
      GrantsAfterRelease(h.st, c, order, fails, added, key);
    } else {
      HeldOutside(c, h, Elements(q), key);
    }
    EveryFeedFails(h.st, c, fails, added, key);
  }

  /** What is held but not of a symbol in q is of a symbol to be removed. */
  lemma HeldOutside(c: Client, h: Share, q: set<string>, key: string)
    requires Bounded(c, h) && h.adds == [] && h.removes == [] && h.late == {}
    requires Holds(h.st, key) && !Among(key, FeedsOf(c, q))
    ensures Among(key, FeedsOf(c, h.universe - q))
  {
    assert Owed(h) == h.universe;
    FeedsOfUnion(c, h.universe, q);
    var f :| f in FeedsOf(c, h.universe) && A.Key(f) == key;
    assert f !in FeedsOf(c, q);
  }

  lemma EveryFeedFails(st: A.State, c: Client, fails: set<A.Feed>, feeds: set<A.Feed>, key: string)
    requires A.Valid(st)
    ensures
      var granted := key != "" && exists f :: f in feeds && A.Key(f) == key && GrantedByOthers(st, c, fails, f);
      && (fails == {} ==> (granted <==> Among(key, feeds)))
      && (c.attached && feeds <= fails ==> (granted <==> Among(key, feeds) && A.Holders(st, key) - {FLOW} != {}))
  {
    hide A.Holders, A.Valid;
    if Among(key, feeds) {
      var f :| f in feeds && A.Key(f) == key;
      if fails == {} || A.Holders(st, key) - {FLOW} != {} { assert GrantedByOthers(st, c, fails, f); }
    }
  }

  // ---------------------------------------------------------------- a symbol whose subscribe failed

  /** After a refresh a new symbol's key is not held exactly when its feed fails and no other flow holds the key. */
  lemma FailedFeedIsUnheldIff(
    c: Client, h: Share, q: seq<string>, fails: set<A.Feed>, toRemove: seq<string>, sym: string, f: A.Feed)
    requires Shape(h) && Enabled(h, Update(q, toRemove)) && PlainSymbols(c, h.universe + Elements(q))
    requires sym in Elements(q) - h.universe && f in FeedsOf(c, {sym}) && !Holds(h.st, A.Key(f))
    ensures
      !Holds(Refreshed(h.st, c, h.universe, q, fails, toRemove), A.Key(f)) <==>
        f in fails && c.attached && A.Holders(h.st, A.Key(f)) == {}
  {
    hide A.Valid, A.Holders;
    ShapeIsValid(h);
    var p := h.universe + Elements(q);
    var adds := NewSymbols(h.universe, q);
    NewSymbolsLists(h.universe, q);
    SubscribePairsIff(h.st, c, adds, fails, A.Key(f));
    UnsubscribePairsIff(SubscribePairs(h.st, c, adds, fails), c, toRemove, A.Key(f));
    FeedsOfSubset(c, {sym}, Elements(adds));
    FeedsOfSubset(c, Elements(adds), p);
    FeedsOfSubset(c, Elements(toRemove), p);
    OwnKey(c, p, GrantedOf(h.st, c, fails, FeedsOf(c, Elements(adds))), f);
    OwnKey(c, p, FeedsOf(c, Elements(toRemove)), f);
    assert f !in FeedsOf(c, Elements(toRemove));
  }

  /** A step that keeps the symbol in the universe. */
  predicate Keeps(e: Step, sym: string) {
    (e.Update? ==> sym in e.qualified) && e != ShutDownNext(sym)
  }

  /** The symbol is in the universe with nothing left to do for it, and its feed f was refused. */
  ghost predicate Failed(c: Client, h: Share, sym: string, f: A.Feed) {
    && f in FeedsOf(c, {sym}) && f in h.missing
    && sym in h.universe && sym !in h.adds && sym !in h.removes
  }

  lemma StepKeepsFailed(c: Client, h: Share, e: Step, sym: string, f: A.Feed)
    requires Shape(h) && Enabled(h, e) && Failed(c, h, sym, f) && Keeps(e, sym)
    ensures Failed(c, Next(c, h, e), sym, f)
  {
    FeedsOfOne(c, sym);
    match e
    case Update(q, toRemove) =>
      NewSymbolsLists(h.universe, q);
      assert sym !in Elements(NewSymbols(h.universe, q)) && sym !in Elements(toRemove);
    case SubscribeNext(_) => FeedsOfOne(c, h.adds[0]);
    case UnsubscribeNext => FeedsOfOne(c, h.removes[0]);
    case ShutDownNext(x) => FeedsOfOne(c, x);
    case _ =>
  }

  /**
   Nothing retries it: over every run that keeps the symbol, the failed feed stays unheld although the symbol
   stays in the universe.
   */
  lemma {:induction false} FailedSymbolIsNotRetried(
    c: Client, h: Share, steps: seq<Step>, end: Share, sym: string, f: A.Feed, p: set<string>)
    requires Shape(h) && Exact(c, h, p) && Elements(h.adds) <= p && PlainSymbols(c, p) && Failed(c, h, sym, f)
    requires IsRun(c, h, steps, end)
    requires forall i :: 0 <= i < |steps| ==> Finds(steps[i], p) && Keeps(steps[i], sym)
    ensures sym in end.universe && !Holds(end.st, A.Key(f)) && Failed(c, end, sym, f)
    decreases |steps|
  {
    if steps == [] {
      FeedsOfSubset(c, {sym}, p);
      FeedsOfSubset(c, Owed(h), p);
      OwnKey(c, p, FeedsOf(c, Owed(h)) - h.missing, f);
    } else {
      ShapeIsValid(h);
      hide Exact, Shape, Next, PlainSymbols, Failed;
      StepKeepsShape(c, h, steps[0]);
      StepKeepsExact(c, h, steps[0], p);
      StepKeepsFailed(c, h, steps[0], sym, f);
      assert forall i :: 0 <= i < |steps[1..]| ==> steps[1..][i] == steps[i + 1];
      FailedSymbolIsNotRetried(c, Next(c, h, steps[0]), steps[1..], end, sym, f, p);
    }
  }

  /**
   It happens from the start: a refresh finds one new symbol, the exchange refuses its depth feed, and no other
   flow has it.
   */
  lemma FailedSymbolRun(c: Client, st: A.State, sym: string)
    requires A.Valid(st) && (forall key :: !Holds(st, key))
    requires c.attached && A.Holders(st, A.Key(A.Depth(sym))) == {}
    ensures
      var steps := [Update([sym], [])] + [SubscribeNext({A.Depth(sym)})];
      var h := Share({sym}, SubscribePair(st, c, sym, {A.Depth(sym)}), [], [], false, {}, {A.Depth(sym)});
      && IsRun(c, Idle(st), steps, h)
      && Failed(c, h, sym, A.Depth(sym))
  {
    hide A.Valid, A.Holders;
    var fails := {A.Depth(sym)};
    var q := [sym];
    assert NewSymbols({}, q) == [sym] by { assert q[..0] == []; }
    assert Elements(q) == {sym};
    NoneLeft([]);
    OneStep(c, Idle(st), Update(q, []));
    var h1 := Next(c, Idle(st), Update(q, []));
    OneStep(c, h1, SubscribeNext(fails));
    FeedsOfOne(c, sym);
    assert Refused(st, c, fails, FeedsOf(c, {sym})) == fails;
    var h := Next(c, h1, SubscribeNext(fails));
    assert h1.adds[1..] == [] && h1.universe == {sym};
    var none: set<A.Feed> := {};
    assert none - FeedsOf(c, {sym}) + fails == fails;
    assert h == Share({sym}, SubscribePair(st, c, sym, fails), [], [], false, {}, fails);
    RunsCompose(c, Idle(st), [Update(q, [])], h1, [SubscribeNext(fails)], h);
  }
}

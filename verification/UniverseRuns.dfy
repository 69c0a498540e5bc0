/**
 Universe and holdings over runs: one client's refreshes, shutdowns and other flows' calls, with the
 lock of the subscribe manager released between them as in the source.

 A refresh updates the universe under the lock and then subscribes and unsubscribes symbol by symbol
 without it; a shutdown unsubscribes symbol by symbol under the lock.
 */
module UniverseRuns {
  import A = Adapter
  import opened SubscribeManager
  import opened Holdings

  /**
   One client's share of the manager's state: its universe, its adapter, what an interrupted refresh
   has still to subscribe and unsubscribe, and whether a shutdown holds the lock. The last two fields
   are history: symbols subscribed when they were no longer in the universe, and feeds whose subscribe
   failed with nobody else holding the key.
   */
  datatype Share = Share(
    universe: set<string>, st: A.State, adds: seq<string>, removes: seq<string>, closing: bool,
    late: set<string>, missing: set<A.Feed>)

  datatype Step =
    | FetchFailed
    | Update(qualified: seq<string>, toRemove: seq<string>)
    | SubscribeNext(fails: set<A.Feed>)
    | UnsubscribeNext
    | BeginShutDown
    | ShutDownNext(sym: string)
    | EndShutDown
    | OtherFlow(call: A.Call)

  ghost predicate Enabled(h: Share, e: Step) {
    match e
    case FetchFailed => h.adds == [] && h.removes == []
    case Update(q, toRemove) =>
      h.adds == [] && h.removes == [] && !h.closing && Lists(toRemove, h.universe - Elements(q))
    case SubscribeNext(_) => h.adds != []
    case UnsubscribeNext => h.adds == [] && h.removes != []
    case BeginShutDown => !h.closing
    case ShutDownNext(sym) => h.closing && sym in h.universe
    case EndShutDown => h.closing && h.universe == {}
    case OtherFlow(call) => call.flow != FLOW
  }

  function Refused(st: A.State, c: Client, fails: set<A.Feed>, feeds: set<A.Feed>): set<A.Feed> {
    feeds - GrantedOf(st, c, fails, feeds)
  }

  /** A symbol is subscribed. */
  function Taken(c: Client, h: Share, sym: string, fails: set<A.Feed>): Share
    requires A.Valid(h.st)
  {
    h.(st := SubscribePair(h.st, c, sym, fails),
       late := if sym in h.universe then h.late else h.late + {sym},
       missing := h.missing - FeedsOf(c, {sym}) + Refused(h.st, c, fails, FeedsOf(c, {sym})))
  }

  /** A symbol is unsubscribed. */
  function Released(c: Client, h: Share, sym: string): Share
    requires A.Valid(h.st)
  {
    h.(st := UnsubscribePair(h.st, c, sym), late := h.late - {sym}, missing := h.missing - FeedsOf(c, {sym}))
  }

  ghost function Next(c: Client, h: Share, e: Step): Share
    requires A.Valid(h.st) && Enabled(h, e)
  {
    match e
    case FetchFailed => h
    case Update(q, toRemove) =>
      h.(universe := Elements(q), adds := NewSymbols(h.universe, q), removes := toRemove)
    case SubscribeNext(fails) => Taken(c, h, h.adds[0], fails).(adds := h.adds[1..])
    case UnsubscribeNext => Released(c, h, h.removes[0]).(removes := h.removes[1..])
    case BeginShutDown => h.(closing := true)
    case ShutDownNext(sym) => Released(c, h, sym).(universe := h.universe - {sym})
    case EndShutDown => h.(closing := false)
    case OtherFlow(call) => h.(st := A.Apply(h.st, c.attached, call))
  }

  lemma NextKeepsValid(c: Client, h: Share, e: Step)
    requires A.Valid(h.st) && Enabled(h, e)
    ensures A.Valid(Next(c, h, e).st)
  {
    match e
    case SubscribeNext(fails) => PairKeepsValid(h.st, c, h.adds[0], fails);
    case UnsubscribeNext => PairKeepsValid(h.st, c, h.removes[0], {});
    case ShutDownNext(sym) => PairKeepsValid(h.st, c, sym, {});
    case OtherFlow(call) => A.ApplyKeepsValid(h.st, c.attached, call);
    case _ =>
  }

  ghost predicate IsRun(c: Client, h: Share, steps: seq<Step>, end: Share)
    requires A.Valid(h.st)
    decreases |steps|
  {
    if steps == [] then h == end
    else
      && Enabled(h, steps[0])
      && (NextKeepsValid(c, h, steps[0]); IsRun(c, Next(c, h, steps[0]), steps[1..], end))
  }

  /** The symbols whose feeds the bot has asked for and not given back. */
  function Owed(h: Share): set<string> {
    h.universe - Elements(h.adds) + Elements(h.removes) + h.late
  }

  ghost predicate Shape(h: Share) {
    && A.Valid(h.st)
    && NoDuplicates(h.adds) && NoDuplicates(h.removes)
    && Elements(h.removes) !! h.universe && Elements(h.removes) !! Elements(h.adds)
  }

  lemma Popped(q: seq<string>)
    requires q != [] && NoDuplicates(q)
    ensures Elements(q[1..]) == Elements(q) - {q[0]} && NoDuplicates(q[1..]) && q[0] in Elements(q)
  {
    assert q == [q[0]] + q[1..];
    forall x | x in q[1..] ensures x != q[0] {
      var i :| 0 <= i < |q[1..]| && q[1..][i] == x;
      assert q[i + 1] == x;
    }
  }

  lemma NoneLeft(q: seq<string>)
    ensures Elements(q) == {} <==> q == []
  {
    NonEmpty(q);
  }

  lemma StepKeepsShape(c: Client, h: Share, e: Step)
    requires Shape(h) && Enabled(h, e)
    ensures Shape(Next(c, h, e))
    ensures
      match e
      case SubscribeNext(_) => Owed(Next(c, h, e)) == Owed(h) + {h.adds[0]}
      case UnsubscribeNext => Owed(Next(c, h, e)) == Owed(h) - {h.removes[0]}
      case ShutDownNext(sym) => Owed(Next(c, h, e)) == Owed(h) - {sym}
      case _ => Owed(Next(c, h, e)) == Owed(h)
  {
    NextKeepsValid(c, h, e);
    hide A.Valid, NoDuplicates, Taken, Released;
    match e
    case Update(q, toRemove) => NewSymbolsLists(h.universe, q);
    case SubscribeNext(fails) =>
      TakenKeeps(c, h, h.adds[0], fails);
      Popped(h.adds);
    case UnsubscribeNext =>
      ReleasedKeeps(c, h, h.removes[0]);
      Popped(h.removes);
    case ShutDownNext(sym) => ReleasedKeeps(c, h, sym);
    case _ =>
  }

  lemma TakenKeeps(c: Client, h: Share, sym: string, fails: set<A.Feed>)
    requires A.Valid(h.st)
    ensures
      var t := Taken(c, h, sym, fails);
      t == h.(st := t.st, missing := t.missing, late := if sym in h.universe then h.late else h.late + {sym})
  {
  }

  lemma ReleasedKeeps(c: Client, h: Share, sym: string)
    requires A.Valid(h.st)
    ensures var t := Released(c, h, sym); t == h.(st := t.st, missing := t.missing, late := h.late - {sym})
  {
  }

  // ---------------------------------------------------------------- what the bot holds

  /** The bot holds no key but those of the feeds it asked for and was not refused. */
  ghost predicate Bounded(c: Client, h: Share) {
    forall key :: Holds(h.st, key) ==> Among(key, FeedsOf(c, Owed(h)))
  }

  lemma StepKeepsBounded(c: Client, h: Share, e: Step)
    requires Shape(h) && Enabled(h, e) && Bounded(c, h)
    ensures Bounded(c, Next(c, h, e))
  {
    StepKeepsShape(c, h, e);
    var t := Next(c, h, e);
    forall key | Holds(t.st, key) ensures Among(key, FeedsOf(c, Owed(t))) {
      match e
      case SubscribeNext(fails) => TakenBound(c, h, h.adds[0], fails, key);
      case UnsubscribeNext => ReleasedBound(c, h, h.removes[0], key);
      case ShutDownNext(sym) => ReleasedBound(c, h, sym, key);
      case OtherFlow(call) => OtherFlowIff(h.st, c, call, key);
      case _ =>
    }
  }

  lemma TakenBound(c: Client, h: Share, sym: string, fails: set<A.Feed>, key: string)
    requires Shape(h) && Bounded(c, h)
    ensures Holds(Taken(c, h, sym, fails).st, key) ==> Among(key, FeedsOf(c, Owed(h) + {sym}))
  {
    SubscribePairIff(h.st, c, sym, fails, key);
    FeedsOfUnion(c, Owed(h), {sym});
  }

  lemma ReleasedBound(c: Client, h: Share, sym: string, key: string)
    requires Shape(h) && Bounded(c, h)
    ensures Holds(Released(c, h, sym).st, key) ==> Among(key, FeedsOf(c, Owed(h) - {sym}))
  {
    UnsubscribePairIff(h.st, c, sym, key);
    FeedsOfUnion(c, Owed(h), {sym});
    if Holds(Released(c, h, sym).st, key) {
      var f :| f in FeedsOf(c, Owed(h)) && A.Key(f) == key;
      assert f !in FeedsOf(c, {sym});
    }
  }

  lemma OtherFlowIff(st: A.State, c: Client, call: A.Call, key: string)
    requires A.Valid(st) && call.flow != FLOW
    ensures Holds(A.Apply(st, c.attached, call), key) <==> Holds(st, key)
  {
    if A.Key(call.feed) != "" && call.flow != "" {
      A.StoredIffHeld(st, A.Key(call.feed));
      match call
      case CallSubscribe(flow, feed, ok) => A.SubscribeEffect(st, c.attached, flow, feed, ok);
      case CallUnsubscribe(flow, feed) => A.UnsubscribeEffect(st, c.attached, flow, feed);
    }
  }

  /**
   Over every interleaving of refreshes, shutdowns and other flows' calls, whatever physical subscribes
   fail: the bot holds only keys of symbols in its universe, of symbols a refresh has yet to remove, and
   of symbols subscribed too late.
   */
  lemma {:induction false} HoldingsStayWithinUniverse(c: Client, h: Share, steps: seq<Step>, end: Share)
    requires Shape(h) && Bounded(c, h) && IsRun(c, h, steps, end)
    ensures Shape(end) && Bounded(c, end) && Owed(end) <= end.universe + Elements(end.removes) + end.late
    decreases |steps|
  {
    hide Bounded, Shape, Next;
    ShapeIsValid(h);
    if steps != [] {
      StepKeepsShape(c, h, steps[0]);
      StepKeepsBounded(c, h, steps[0]);
      HoldingsStayWithinUniverse(c, Next(c, h, steps[0]), steps[1..], end);
    }
  }

  lemma ShapeIsValid(h: Share)
    requires Shape(h)
    ensures A.Valid(h.st)
  {
  }

  /** Symbols that are neither empty nor, where trades are subscribed, of the form of another's trade key. */
  ghost predicate PlainSymbols(c: Client, u: set<string>) {
    && "" !in u
    && (c.hasTrade ==> forall a, b :: a in u && b in u ==> A.Key(A.Depth(a)) != A.Key(A.Trade(b)))
  }

  /** Different feeds of plain symbols have different keys. */
  lemma PlainKeysDiffer(c: Client, u: set<string>, f: A.Feed, g: A.Feed)
    requires PlainSymbols(c, u) && f in FeedsOf(c, u) && g in FeedsOf(c, u)
    ensures A.Key(f) == A.Key(g) ==> f == g
    ensures A.Key(f) != ""
  {
    A.TradeKeySplits(f);
    A.TradeKeySplits(g);
  }

  /** The bot holds exactly the keys of the feeds it is owed, those it was refused left out. */
  ghost predicate Exact(c: Client, h: Share, p: set<string>) {
    && Owed(h) <= p && h.universe <= p
    && forall key :: Holds(h.st, key) <==> Among(key, FeedsOf(c, Owed(h)) - h.missing)
  }

  /** Every symbol a refresh finds is in p. */
  predicate Finds(e: Step, p: set<string>) {
    e.Update? ==> Elements(e.qualified) <= p
  }

  lemma TakenExact(c: Client, h: Share, sym: string, fails: set<A.Feed>, key: string, p: set<string>)
    requires Shape(h) && Exact(c, h, p)
    ensures
      var t := Taken(c, h, sym, fails);
      Holds(t.st, key) <==> Among(key, FeedsOf(c, Owed(h) + {sym}) - t.missing)
  {
    var t := Taken(c, h, sym, fails);
    var all, one := FeedsOf(c, Owed(h)), FeedsOf(c, {sym});
    SubscribePairIff(h.st, c, sym, fails, key);
    FeedsOfUnion(c, Owed(h), {sym});
    forall f | f in all && f !in h.missing && f in one && A.Key(f) != "" ensures Granted(h.st, c, fails, f) {
      assert Among(A.Key(f), all - h.missing);
    }
    var granted := GrantedOf(h.st, c, fails, one);
    TakenSets(all, one, granted, h.missing, key);
  }

  lemma TakenSets(all: set<A.Feed>, one: set<A.Feed>, granted: set<A.Feed>, missing: set<A.Feed>, key: string)
    requires granted <= one
    requires forall f :: f in all && f !in missing && f in one && A.Key(f) != "" ==> f in granted
    ensures
      Among(key, (all + one) - (missing - one + (one - granted))) <==> Among(key, all - missing) || Among(key, granted)
  {
    var x := (all + one) - (missing - one + (one - granted));
    if Among(key, x) {
      var f :| f in x && A.Key(f) == key;
      assert f in granted || f in all - missing;
    }
    if Among(key, granted) {
      var f :| f in granted && A.Key(f) == key;
      assert f in x;
    }
    if Among(key, all - missing) {
      var f :| f in all - missing && A.Key(f) == key;
      assert f in x;
    }
  }

  lemma ReleasedExact(c: Client, h: Share, sym: string, key: string, p: set<string>)
    requires Shape(h) && Exact(c, h, p) && PlainSymbols(c, p) && sym in p
    ensures
      var t := Released(c, h, sym);
      Holds(t.st, key) <==> Among(key, FeedsOf(c, Owed(h) - {sym}) - t.missing)
  {
    var t := Released(c, h, sym);
    var all, one := FeedsOf(c, Owed(h)), FeedsOf(c, {sym});
    UnsubscribePairIff(h.st, c, sym, key);
    FeedsOfUnion(c, Owed(h), {sym});
    assert (all - one) - (h.missing - one) == (all - h.missing) - one;
    FeedsOfSubset(c, Owed(h), p);
    FeedsOfSubset(c, {sym}, p);
    if Among(key, all - h.missing) && !Among(key, one) {
      var f :| f in all - h.missing && A.Key(f) == key;
      assert f in (all - h.missing) - one;
    }
    if Among(key, (all - h.missing) - one) && Among(key, one) {
      var f :| f in (all - h.missing) - one && A.Key(f) == key;
      var g :| g in one && A.Key(g) == key;
      PlainKeysDiffer(c, p, f, g);
    }
  }

  lemma FeedsOfSubset(c: Client, u: set<string>, p: set<string>)
    requires u <= p
    ensures FeedsOf(c, u) <= FeedsOf(c, p)
  {
  }

  lemma StepKeepsExact(c: Client, h: Share, e: Step, p: set<string>)
    requires Shape(h) && Enabled(h, e) && Exact(c, h, p) && PlainSymbols(c, p) && Finds(e, p)
    requires Elements(h.adds) <= p
    ensures Exact(c, Next(c, h, e), p) && Elements(Next(c, h, e).adds) <= p
  {
    StepKeepsShape(c, h, e);
    var t := Next(c, h, e);
    match e
    case Update(q, _) => NewSymbolsLists(h.universe, q);
    case SubscribeNext(fails) =>
      forall key ensures Holds(t.st, key) <==> Among(key, FeedsOf(c, Owed(t)) - t.missing) {
        TakenExact(c, h, h.adds[0], fails, key, p);
      }
    case UnsubscribeNext =>
      forall key ensures Holds(t.st, key) <==> Among(key, FeedsOf(c, Owed(t)) - t.missing) {
        ReleasedExact(c, h, h.removes[0], key, p);
      }
    case ShutDownNext(sym) =>
      forall key ensures Holds(t.st, key) <==> Among(key, FeedsOf(c, Owed(t)) - t.missing) {
        ReleasedExact(c, h, sym, key, p);
      }
    case OtherFlow(call) =>
      forall key ensures Holds(t.st, key) <==> Holds(h.st, key) { OtherFlowIff(h.st, c, call, key); }
    case _ =>
  }

  /**
   Over every interleaving, whatever fails, for plain symbols: the bot holds exactly the keys of the feeds
   it asked for and has not given back, less those it was refused.
   */
  lemma {:induction false} HoldingsAreExact(c: Client, h: Share, steps: seq<Step>, end: Share, p: set<string>)
    requires Shape(h) && Exact(c, h, p) && Elements(h.adds) <= p && PlainSymbols(c, p)
    requires IsRun(c, h, steps, end) && forall i :: 0 <= i < |steps| ==> Finds(steps[i], p)
    ensures Shape(end) && Exact(c, end, p)
    decreases |steps|
  {
    hide Exact, Shape, Next, PlainSymbols;
    ShapeIsValid(h);
    if steps != [] {
      StepKeepsShape(c, h, steps[0]);
      StepKeepsExact(c, h, steps[0], p);
      assert forall i :: 0 <= i < |steps[1..]| ==> steps[1..][i] == steps[i + 1];
      HoldingsAreExact(c, Next(c, h, steps[0]), steps[1..], end, p);
    }
  }

  /** A client the bot has just started on: an adapter in any state, in which it holds nothing. */
  function Idle(st: A.State): Share {
    Share({}, st, [], [], false, {}, {})
  }

  lemma IdleIsExact(c: Client, st: A.State, p: set<string>)
    requires A.Valid(st) && forall key :: !Holds(st, key)
    ensures Shape(Idle(st)) && Bounded(c, Idle(st)) && Exact(c, Idle(st), p)
  {
  }

  /**
   Between refreshes the bot holds exactly its universe's keys if and only if none of those was refused and
   every late symbol was.
   */
  lemma HoldingsAreTheUniverseIff(c: Client, h: Share, p: set<string>)
    requires Shape(h) && Exact(c, h, p) && PlainSymbols(c, p) && h.adds == [] && h.removes == []
    ensures
      (forall key :: Holds(h.st, key) <==> Among(key, FeedsOf(c, h.universe)))
      <==> FeedsOf(c, h.universe) !! h.missing && FeedsOf(c, h.late - h.universe) <= h.missing
  {
    var u, more := FeedsOf(c, h.universe), FeedsOf(c, h.late - h.universe);
    assert Owed(h) == h.universe + (h.late - h.universe);
    FeedsOfUnion(c, h.universe, h.late - h.universe);
    FeedsOfUnion(c, h.late, h.universe);
    FeedsOfSubset(c, h.universe, p);
    FeedsOfSubset(c, h.late - h.universe, p);
    if u !! h.missing && more <= h.missing {
      assert u + more - h.missing == u;
    } else if f :| f in u && f in h.missing {
      OwnKey(c, p, u + more - h.missing, f);
      OwnKey(c, p, u, f);
    } else {
      var f :| f in more && f !in h.missing;
      OwnKey(c, p, u + more - h.missing, f);
      OwnKey(c, p, u, f);
    }
  }

  /** Among feeds of plain symbols a key stands for its own feed. */
  lemma OwnKey(c: Client, p: set<string>, feeds: set<A.Feed>, f: A.Feed)
    requires PlainSymbols(c, p) && feeds <= FeedsOf(c, p) && f in FeedsOf(c, p)
    ensures Among(A.Key(f), feeds) <==> f in feeds
  {
    PlainKeysDiffer(c, p, f, f);
    if Among(A.Key(f), feeds) {
      var g :| g in feeds && A.Key(g) == A.Key(f);
      PlainKeysDiffer(c, p, f, g);
    }
  }

  /** No shutdown takes a symbol the refresh has yet to subscribe, and no feed is refused. */
  ghost predicate Smooth(c: Client, h: Share, e: Step)
    requires Enabled(h, e)
  {
    match e
    case ShutDownNext(sym) => sym !in h.adds
    case SubscribeNext(fails) => Refused(h.st, c, fails, FeedsOf(c, {h.adds[0]})) == {}
    case _ => true
  }

  ghost predicate SmoothRun(c: Client, h: Share, steps: seq<Step>)
    requires A.Valid(h.st)
    decreases |steps|
  {
    if steps == [] then true
    else
      && Enabled(h, steps[0]) && Smooth(c, h, steps[0])
      && (NextKeepsValid(c, h, steps[0]); SmoothRun(c, Next(c, h, steps[0]), steps[1..]))
  }

  /** Nothing late, nothing refused, and whatever is still to be subscribed is in the universe. */
  ghost predicate Clean(h: Share) {
    h.late == {} && h.missing == {} && Elements(h.adds) <= h.universe
  }

  lemma StepKeepsClean(c: Client, h: Share, e: Step)
    requires Shape(h) && Clean(h) && Enabled(h, e) && Smooth(c, h, e)
    ensures Clean(Next(c, h, e))
  {
    match e
    case Update(q, _) => NewSymbolsLists(h.universe, q);
    case SubscribeNext(_) => Popped(h.adds);
    case _ =>
  }

  lemma {:induction false} SmoothRunIsClean(c: Client, h: Share, steps: seq<Step>, end: Share)
    requires Shape(h) && Clean(h) && IsRun(c, h, steps, end) && SmoothRun(c, h, steps)
    ensures Clean(end)
    decreases |steps|
  {
    hide Clean, Shape, Next, Smooth;
    ShapeIsValid(h);
    if steps != [] {
      StepKeepsShape(c, h, steps[0]);
      StepKeepsClean(c, h, steps[0]);
      SmoothRunIsClean(c, Next(c, h, steps[0]), steps[1..], end);
    }
  }

  /**
   From the start, when nothing is refused and no shutdown overtakes a refresh: between refreshes, exactly the
   universe's keys.
   */
  lemma HoldingsAreTheUniverse(c: Client, st: A.State, steps: seq<Step>, end: Share, p: set<string>, key: string)
    requires A.Valid(st) && (forall k :: !Holds(st, k)) && PlainSymbols(c, p)
    requires IsRun(c, Idle(st), steps, end) && forall i :: 0 <= i < |steps| ==> Finds(steps[i], p)
    requires SmoothRun(c, Idle(st), steps) && end.adds == [] && end.removes == []
    ensures Holds(end.st, key) <==> Among(key, FeedsOf(c, end.universe))
  {
    IdleIsExact(c, st, p);
    HoldingsAreExact(c, Idle(st), steps, end, p);
    SmoothRunIsClean(c, Idle(st), steps, end);
    HoldingsAreTheUniverseIff(c, end, p);
  }
}

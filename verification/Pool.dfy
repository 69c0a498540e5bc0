/**
 The connection pool of pkg/ws/pool.go: its lock-protected bookkeeping.

 A Book is what the pool's mutex protects. The functions are the lock sections;
 the class performs them in place. PoolRuns interleaves them with the sends, the
 Connect loops and the replays.
 */
module Pool {
  import opened Wrappers

  datatype Subscription = Subscription(subscribeMsg: string, clientIdx: nat)

  /** `counts` and `targets` are indexed by public client. */
  datatype Book = Book(
    routing: map<string, nat>,
    subs: map<string, Subscription>,
    counts: seq<int>,
    targets: seq<string>)

  const EMPTY_BOOK := Book(map[], map[], [], [])

  datatype Config = Config(publicURL: string, maxPairs: int)

  function TargetOf(cfg: Config, url: string): string {
    if url == "" then cfg.publicURL else url
  }

  predicate HasRoom(cfg: Config, b: Book, url: string, i: nat) {
    i < |b.counts| && i < |b.targets| && b.counts[i] < cfg.maxPairs && b.targets[i] == url
  }

  /** The first client from i on with room for url, or the index of a client yet to be made. */
  function FirstFit(cfg: Config, b: Book, url: string, i: nat): (r: nat)
    requires i <= |b.counts|
    ensures i <= r <= |b.counts|
    ensures r < |b.counts| ==> HasRoom(cfg, b, url, r)
    ensures forall j: nat :: i <= j < r ==> !HasRoom(cfg, b, url, j)
    decreases |b.counts| - i
  {
    if i == |b.counts| || HasRoom(cfg, b, url, i) then i else FirstFit(cfg, b, url, i + 1)
  }

  /** The book once client idx exists. */
  function WithClient(b: Book, url: string, idx: nat): Book {
    if idx < |b.counts| then b else b.(counts := b.counts + [0], targets := b.targets + [url])
  }

  /** What the lock section of a Subscribe decides. */
  datatype Placement = Placement(idx: nat, existed: bool, spawned: bool)

  function Subscribed(cfg: Config, b: Book, url: string, topic: string, msg: string): (Book, Placement)
    requires Consistent(b)
  {
    if topic in b.routing then
      (b.(subs := b.subs[topic := b.subs[topic].(subscribeMsg := msg)]), Placement(b.routing[topic], true, false))
    else
      var target := TargetOf(cfg, url);
      var idx := FirstFit(cfg, b, target, 0);
      var c := WithClient(b, target, idx);
      (c.(routing := c.routing[topic := idx],
          counts := c.counts[idx := c.counts[idx] + 1],
          subs := c.subs[topic := Subscription(msg, idx)]),
       Placement(idx, false, idx == |b.counts|))
  }

  /** The rollback after a cancelled context: the count comes down only for a route this call made. */
  function RolledBack(b: Book, topic: string, idx: nat, existed: bool): Book
    requires idx < |b.counts|
  {
    b.(counts := if existed then b.counts else b.counts[idx := b.counts[idx] - 1],
       routing := b.routing - {topic},
       subs := b.subs - {topic})
  }

  function Unsubscribed(b: Book, topic: string): Book
    requires Consistent(b)
  {
    if topic in b.routing then RolledBack(b, topic, b.routing[topic], false) else b
  }

  /** The topics replayPublicSubscriptions copies for client idx. */
  function TopicsOf(b: Book, idx: nat): set<string> {
    set t | t in b.subs && b.subs[t].clientIdx == idx
  }

  /** Routes and subscriptions agree on topics and clients, and every client they name exists. */
  ghost predicate Consistent(b: Book) {
    && b.routing.Keys == b.subs.Keys
    && |b.counts| == |b.targets|
    && (forall t :: t in b.routing ==> b.routing[t] == b.subs[t].clientIdx && b.routing[t] < |b.counts|)
  }

  class Pool {
    const cfg: Config
    var topicRouting: map<string, nat>
    var subscriptions: map<string, Subscription>
    var clientSubCount: seq<int>
    var publicClientTargets: seq<string>

    ghost function View(): Book
      reads this
    {
      Book(topicRouting, subscriptions, clientSubCount, publicClientTargets)
    }

    constructor (publicURL: string, maxPairs: int)
      ensures View() == EMPTY_BOOK && cfg == Config(publicURL, maxPairs)
    {
      cfg := Config(publicURL, maxPairs);
      topicRouting, subscriptions, clientSubCount, publicClientTargets := map[], map[], [], [];
    }

    method GetOrCreatePublicClientIdx(targetURL: string) returns (idx: nat, isNew: bool)
      requires Consistent(View())
      modifies this
      ensures
        var url := TargetOf(cfg, targetURL);
        && idx == FirstFit(cfg, old(View()), url, 0)
        && isNew == (idx == |old(clientSubCount)|)
        && View() == WithClient(old(View()), url, idx)
    {
      var url := if targetURL == "" then cfg.publicURL else targetURL;
      idx := 0;
      while idx < |clientSubCount|
        invariant idx <= |clientSubCount|
        invariant View() == old(View())
        invariant FirstFit(cfg, View(), url, 0) == FirstFit(cfg, View(), url, idx)
      {
        if clientSubCount[idx] < cfg.maxPairs && idx < |publicClientTargets| && publicClientTargets[idx] == url {
          return idx, false;
        }
        idx := idx + 1;
      }
      clientSubCount := clientSubCount + [0];
      publicClientTargets := publicClientTargets + [url];
      isNew := true;
    }

    method SubscribeSection(targetURL: string, topic: string, msg: string) returns (p: Placement)
      requires Consistent(View())
      modifies this
      ensures (View(), p) == Subscribed(cfg, old(View()), targetURL, topic, msg)
    {
      if topic in topicRouting {
        subscriptions := subscriptions[topic := subscriptions[topic].(subscribeMsg := msg)];
        return Placement(topicRouting[topic], true, false);
      }
      var url := if targetURL == "" then cfg.publicURL else targetURL;
      var idx, isNew := GetOrCreatePublicClientIdx(url);
      topicRouting := topicRouting[topic := idx];
      clientSubCount := clientSubCount[idx := clientSubCount[idx] + 1];
      subscriptions := subscriptions[topic := Subscription(msg, idx)];
      p := Placement(idx, false, isNew);
    }

    method RollbackSection(topic: string, idx: nat, existed: bool)
      requires idx < |clientSubCount|
      modifies this
      ensures View() == RolledBack(old(View()), topic, idx, existed)
    {
      if !existed {
        clientSubCount := clientSubCount[idx := clientSubCount[idx] - 1];
      }
      topicRouting := topicRouting - {topic};
      subscriptions := subscriptions - {topic};
    }

    /** Returns the client that must still be told, if the topic was tracked. */
    method UnsubscribeSection(topic: string) returns (client: Option<nat>)
      requires Consistent(View())
      modifies this
      ensures View() == Unsubscribed(old(View()), topic)
      ensures client == if topic in old(topicRouting) then Some(old(topicRouting)[topic]) else None
    {
      if topic !in topicRouting { return None; }
      var idx := topicRouting[topic];
      clientSubCount := clientSubCount[idx := clientSubCount[idx] - 1];
      topicRouting := topicRouting - {topic};
      subscriptions := subscriptions - {topic};
      client := Some(idx);
    }

    /** The copy that replayPublicSubscriptions makes under the read lock. */
    method ReplaySnapshot(idx: nat) returns (topics: set<string>)
      ensures topics == TopicsOf(View(), idx)
    {
      topics := {};
      var rest := subscriptions.Keys;
      while rest != {}
        invariant rest <= subscriptions.Keys
        invariant topics == set t | t in subscriptions && t !in rest && subscriptions[t].clientIdx == idx
        decreases rest
      {
        var t :| t in rest;
        if subscriptions[t].clientIdx == idx { topics := topics + {t}; }
        rest := rest - {t};
      }
    }
  }

  // ---------------------------------------------------------------- accounting

  ghost function Routed(b: Book, i: nat): set<string> {
    set t | t in b.routing && b.routing[t] == i
  }

  lemma RouteAdded(b: Book, c: Book, topic: string, idx: nat)
    requires topic !in b.routing && c.routing == b.routing[topic := idx]
    ensures |Routed(c, idx)| == |Routed(b, idx)| + 1
    ensures forall i: nat :: i != idx ==> Routed(c, i) == Routed(b, i)
  {
    assert Routed(c, idx) == Routed(b, idx) + {topic};
  }

  lemma RouteRemoved(b: Book, c: Book, topic: string, idx: nat)
    requires topic in b.routing && b.routing[topic] == idx && c.routing == b.routing - {topic}
    ensures |Routed(c, idx)| == |Routed(b, idx)| - 1
    ensures forall i: nat :: i != idx ==> Routed(c, i) == Routed(b, i)
  {
    assert Routed(b, idx) == Routed(c, idx) + {topic};
  }

  /** No client is ever counted above the limit (or above one, when the limit is lower still). */
  function Ceiling(cfg: Config): int {
    if cfg.maxPairs < 1 then 1 else cfg.maxPairs
  }

  /** Each count is the number of routed topics plus the places leaked on that client, and within the limit. */
  ghost predicate Accounted(cfg: Config, b: Book, leaks: seq<nat>) {
    && Consistent(b)
    && |leaks| == |b.counts|
    && (forall i :: 0 <= i < |b.counts| ==> b.counts[i] == |Routed(b, i)| + leaks[i] <= Ceiling(cfg))
  }

  /** Every client of that URL before index n is at the limit. */
  ghost predicate FullBefore(cfg: Config, b: Book, url: string, n: nat)
    requires n <= |b.counts| == |b.targets|
  {
    forall i :: 0 <= i < n && b.targets[i] == url ==> b.counts[i] >= cfg.maxPairs
  }

  /**
   Subscribe: the route goes to a client of the URL asked for, the public one by default; the first with room,
   and a new one only when every client of that URL is full. The message is recorded, the books stay balanced,
   and nothing else changes.
   */
  lemma SubscribeIsAccounted(cfg: Config, b: Book, leaks: seq<nat>, url: string, topic: string, msg: string)
    requires Accounted(cfg, b, leaks)
    ensures
      var (c, p) := Subscribed(cfg, b, url, topic, msg);
      var target := if url == "" then cfg.publicURL else url;
      && Accounted(cfg, c, if p.spawned then leaks + [0] else leaks)
      && topic in c.routing && c.routing[topic] == p.idx
      && c.routing == b.routing[topic := p.idx]
      && c.subs == b.subs[topic := Subscription(msg, p.idx)]
      && c.targets == (if p.spawned then b.targets + [target] else b.targets)
      && (forall t :: t in b.routing && t != topic ==> t in c.routing && c.routing[t] == b.routing[t])
      && (p.existed <==> topic in b.routing)
      && (p.existed ==> p.idx == b.routing[topic] && c.counts == b.counts)
      && (!p.existed ==> p.idx < |c.targets| && c.targets[p.idx] == target)
      && (!p.existed ==> p.idx <= |b.counts| && FullBefore(cfg, b, target, p.idx))
      && (p.spawned <==> !p.existed && p.idx == |b.counts|)
      && (!p.existed && !p.spawned ==> b.targets[p.idx] == target && b.counts[p.idx] < cfg.maxPairs)
  {
    SubscribePlaces(cfg, b, url, topic, msg);
    var (c, p) := Subscribed(cfg, b, url, topic, msg);
    hide FirstFit, HasRoom, FullBefore, TargetOf;
    if p.existed {
      assert forall i: nat :: Routed(c, i) == Routed(b, i);
    } else {
      RouteAdded(b, c, topic, p.idx);
      if p.spawned { assert Routed(b, p.idx) == {}; }
    }
  }

  lemma SubscribePlaces(cfg: Config, b: Book, url: string, topic: string, msg: string)
    requires Consistent(b)
    ensures
      var (c, p) := Subscribed(cfg, b, url, topic, msg);
      var target := if url == "" then cfg.publicURL else url;
      && c.targets == (if p.spawned then b.targets + [target] else b.targets)
      && (p.spawned <==> !p.existed && p.idx == |b.counts|)
      && (!p.existed ==> p.idx <= |b.counts| && p.idx < |c.targets| && c.targets[p.idx] == target)
      && (!p.existed ==> FullBefore(cfg, b, target, p.idx))
      && (!p.existed && !p.spawned ==> b.targets[p.idx] == target && b.counts[p.idx] < cfg.maxPairs)
  {
    var p := Subscribed(cfg, b, url, topic, msg).1;
    if !p.existed {
      forall i: nat | i < p.idx && b.targets[i] == TargetOf(cfg, url) ensures b.counts[i] >= cfg.maxPairs {
        assert !HasRoom(cfg, b, TargetOf(cfg, url), i);
      }
    }
  }

  /** Rolling back a route this call made restores its place; rolling back an older route leaks it for good. */
  lemma RollbackIsAccounted(cfg: Config, b: Book, leaks: seq<nat>, topic: string, existed: bool)
    requires Accounted(cfg, b, leaks) && topic in b.routing
    ensures
      var idx := b.routing[topic];
      var c := RolledBack(b, topic, idx, existed);
      && Accounted(cfg, c, if existed then leaks[idx := leaks[idx] + 1] else leaks)
      && c.routing == b.routing - {topic} && c.subs == b.subs - {topic} && c.targets == b.targets
      && topic !in c.routing
      && (forall t :: t in b.routing && t != topic ==> t in c.routing && c.routing[t] == b.routing[t])
  {
    var idx := b.routing[topic];
    RouteRemoved(b, RolledBack(b, topic, idx, existed), topic, idx);
  }
}

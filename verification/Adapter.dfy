/**
 The reference-counting adapter of internal/infrastructure/ws/ws.go.

 A flow set is a Go map, so a call keeps a reference to it across its unlocked
 part: sets live in `sets` and are named by their index. The functions are the
 lock sections, the class runs them, and the second half interleaves them.
 */
module Adapter {
  /** What a caller subscribes to, and the key the adapter counts it under. */
  datatype Feed =
    | Topic(name: string)
    | Ticker(symbol: string)
    | Depth(symbol: string)
    | Trade(symbol: string)
    | Personal

  function Key(f: Feed): string {
    match f
    case Topic(n) => n
    case Ticker(s) => s
    case Depth(s) => s
    case Trade(s) => "trade:" + s
    case Personal => "personal"
  }

  /** A call on the exchange adapter below. */
  datatype Physical = PhysSubscribe(feed: Feed, ok: bool) | PhysUnsubscribe(feed: Feed)

  datatype State = State(subscribers: map<string, nat>, sets: seq<set<string>>, log: seq<Physical>)

  const NEW_STATE := State(map[], [], [])

  /** The flows holding a key. */
  function Holders(s: State, key: string): set<string> {
    if key in s.subscribers && s.subscribers[key] < |s.sets| then s.sets[s.subscribers[key]] else {}
  }

  /** No stored set is empty, and no two keys share one. */
  ghost predicate Valid(s: State) {
    && (forall k :: k in s.subscribers ==> s.subscribers[k] < |s.sets| && s.sets[s.subscribers[k]] != {})
    && (forall j, k :: j in s.subscribers && k in s.subscribers && s.subscribers[j] == s.subscribers[k] ==> j == k)
  }

  /** The lock section of subscribeInternal: the set used, and whether this flow is the first in it. */
  function Joined(s: State, flow: string, key: string): (State, nat, bool)
    requires key in s.subscribers ==> s.subscribers[key] < |s.sets|
  {
    var t := if key in s.subscribers then s
             else s.(subscribers := s.subscribers[key := |s.sets|], sets := s.sets + [{}]);
    var h := t.subscribers[key];
    (t.(sets := t.sets[h := t.sets[h] + {flow}]), h, t.sets[h] == {})
  }

  /** The lock section after a failed physical subscribe, on the set the call still refers to. */
  function Undone(s: State, flow: string, key: string, h: nat): State
    requires h < |s.sets|
  {
    var t := s.(sets := s.sets[h := s.sets[h] - {flow}]);
    if t.sets[h] == {} then t.(subscribers := t.subscribers - {key}) else t
  }

  /** The lock section of unsubscribeInternal: whether the key lost its last flow. */
  function Left(s: State, flow: string, key: string): (State, bool)
    requires key in s.subscribers ==> s.subscribers[key] < |s.sets|
  {
    if key !in s.subscribers then (s, false) else
    var h := s.subscribers[key];
    var t := s.(sets := s.sets[h := s.sets[h] - {flow}]);
    if t.sets[h] == {} then (t.(subscribers := t.subscribers - {key}), true) else (t, false)
  }

  function Logged(s: State, p: Physical): State {
    s.(log := s.log + [p])
  }

  /** A whole Subscribe with nothing in between; `ok` is the outcome of the physical call, if one is made. */
  function Subscribe(s: State, attached: bool, flow: string, feed: Feed, ok: bool): State
    requires Valid(s)
  {
    if Key(feed) == "" || flow == "" then s else
    var (t, h, first) := Joined(s, flow, Key(feed));
    if !first || !attached then t
    else if ok then Logged(t, PhysSubscribe(feed, true))
    else Undone(Logged(t, PhysSubscribe(feed, false)), flow, Key(feed), h)
  }

  function Unsubscribe(s: State, attached: bool, flow: string, feed: Feed): State
    requires Valid(s)
  {
    if Key(feed) == "" || flow == "" then s else
    var (t, last) := Left(s, flow, Key(feed));
    if last && attached then Logged(t, PhysUnsubscribe(feed)) else t
  }

  /** `attached` says whether there is an exchange adapter to call. */
  class ManagerAdapter {
    const attached: bool
    var subscribers: map<string, nat>
    var sets: seq<set<string>>
    var log: seq<Physical>

    ghost function View(): State
      reads this
    {
      State(subscribers, sets, log)
    }

    constructor (attached: bool)
      ensures View() == NEW_STATE && this.attached == attached
    {
      this.attached := attached;
      subscribers, sets, log := map[], [], [];
    }

    method SubscribeInternal(flow: string, feed: Feed, ok: bool) returns (err: bool)
      requires Valid(View())
      modifies this
      ensures View() == Subscribe(old(View()), attached, flow, feed, ok)
      ensures err == (|log| > |old(log)| && !ok)
    {
      var key := Key(feed);
      if key == "" || flow == "" { return false; }
      if key !in subscribers {
        subscribers := subscribers[key := |sets|];
        sets := sets + [{}];
      }
      var flows := subscribers[key];
      var isFirstSubscriber := sets[flows] == {};
      sets := sets[flows := sets[flows] + {flow}];
      if !isFirstSubscriber || !attached { return false; }
      log := log + [PhysSubscribe(feed, ok)];
      if !ok {
        sets := sets[flows := sets[flows] - {flow}];
        if sets[flows] == {} { subscribers := subscribers - {key}; }
        return true;
      }
      err := false;
    }

    method UnsubscribeInternal(flow: string, feed: Feed)
      requires Valid(View())
      modifies this
      ensures View() == Unsubscribe(old(View()), attached, flow, feed)
    {
      var key := Key(feed);
      if key == "" || flow == "" { return; }
      if key !in subscribers { return; }
      var flows := subscribers[key];
      sets := sets[flows := sets[flows] - {flow}];
      var isLastSubscriber := sets[flows] == {};
      if isLastSubscriber { subscribers := subscribers - {key}; }
      if !isLastSubscriber || !attached { return; }
      log := log + [PhysUnsubscribe(feed)];
    }
  }

  // ---------------------------------------------------------------- calls that do not overlap

  datatype Call = CallSubscribe(flow: string, feed: Feed, ok: bool) | CallUnsubscribe(flow: string, feed: Feed)

  function Apply(s: State, attached: bool, c: Call): State
    requires Valid(s)
  {
    match c
    case CallSubscribe(flow, feed, ok) => Subscribe(s, attached, flow, feed, ok)
    case CallUnsubscribe(flow, feed) => Unsubscribe(s, attached, flow, feed)
  }

  /** The first flow of a key gets a set of its own. */
  lemma JoinedFresh(s: State, flow: string, key: string)
    requires key !in s.subscribers
    ensures Joined(s, flow, key) ==
      (State(s.subscribers[key := |s.sets|], s.sets + [{flow}], s.log), |s.sets|, true)
  {
    var none: set<string> := {};
    assert none + {flow} == {flow};
    assert (s.sets + [none])[|s.sets| := none + {flow}] == s.sets + [{flow}];
  }

  lemma JoinedValid(s: State, flow: string, key: string)
    requires Valid(s)
    ensures
      var (t, h, first) := Joined(s, flow, key);
      && Valid(t) && t.log == s.log
      && key in t.subscribers && h == t.subscribers[key]
      && (first <==> key !in s.subscribers)
      && Holders(t, key) == Holders(s, key) + {flow}
      && (forall k :: k != key ==> Holders(t, k) == Holders(s, k) && (k in t.subscribers <==> k in s.subscribers))
  {
    if key !in s.subscribers { JoinedFresh(s, flow, key); }
  }

  /** A failure right after a first Joined takes the key out again. */
  lemma UndoneFresh(s: State, flow: string, key: string)
    requires Valid(s) && key in s.subscribers && Holders(s, key) == {flow}
    ensures
      var t := Undone(s, flow, key, s.subscribers[key]);
      && Valid(t) && t.log == s.log
      && Holders(t, key) == {}
      && (forall k :: k != key ==> Holders(t, k) == Holders(s, k) && (k in t.subscribers <==> k in s.subscribers))
  {
  }

  lemma LoggedSame(s: State, p: Physical)
    requires Valid(s)
    ensures Valid(Logged(s, p)) && forall k :: Holders(Logged(s, p), k) == Holders(s, k)
  {
  }

  /** Adds a flow to a key, a failing first subscribe excepted. */
  lemma SubscribeEffect(s: State, attached: bool, flow: string, feed: Feed, ok: bool)
    requires Valid(s) && flow != "" && Key(feed) != ""
    ensures
      var t := Subscribe(s, attached, flow, feed, ok);
      var key := Key(feed);
      var first := attached && key !in s.subscribers;
      && Valid(t)
      && Holders(t, key) == (if first && !ok then {} else Holders(s, key) + {flow})
      && (forall k :: k != key ==> Holders(t, k) == Holders(s, k) && (k in t.subscribers <==> k in s.subscribers))
      && t.log == (if first then s.log + [PhysSubscribe(feed, ok)] else s.log)
  {
    var key := Key(feed);
    JoinedValid(s, flow, key);
    JoinedMap(s, flow, key);
    StoredIffHeld(s, key);
    var (t, h, first) := Joined(s, flow, key);
    LoggedSame(t, PhysSubscribe(feed, ok));
    if first && attached && !ok { UndoneFresh(Logged(t, PhysSubscribe(feed, false)), flow, key); }
    hide Joined, Undone, Valid, Holders;
  }

  /** Removes a flow from a key; the last one to go is told to the exchange. */
  lemma UnsubscribeEffect(s: State, attached: bool, flow: string, feed: Feed)
    requires Valid(s) && flow != "" && Key(feed) != ""
    ensures
      var t := Unsubscribe(s, attached, flow, feed);
      var key := Key(feed);
      var last := attached && key in s.subscribers && Holders(s, key) <= {flow};
      && Valid(t)
      && Holders(t, key) == Holders(s, key) - {flow}
      && (forall k :: k != key ==> Holders(t, k) == Holders(s, k) && (k in t.subscribers <==> k in s.subscribers))
      && t.log == (if last then s.log + [PhysUnsubscribe(feed)] else s.log)
  {
  }

  lemma StoredIffHeld(s: State, key: string)
    requires Valid(s)
    ensures key in s.subscribers <==> Holders(s, key) != {}
  {
  }

  lemma ApplyKeepsValid(s: State, attached: bool, c: Call)
    requires Valid(s)
    ensures Valid(Apply(s, attached, c))
  {
    if c.flow != "" && Key(c.feed) != "" {
      match c
      case CallSubscribe(flow, feed, ok) => SubscribeEffect(s, attached, flow, feed, ok);
      case CallUnsubscribe(flow, feed) => UnsubscribeEffect(s, attached, flow, feed);
    }
  }

  ghost predicate Reaches(s: State, attached: bool, calls: seq<Call>, end: State)
    requires Valid(s)
    decreases |calls|
  {
    if calls == [] then s == end
    else
      ApplyKeepsValid(s, attached, calls[0]);
      Reaches(Apply(s, attached, calls[0]), attached, calls[1..], end)
  }

  /** The log's calls on one key, failed subscribes left out: true for a subscribe, false for an unsubscribe. */
  function OnKey(log: seq<Physical>, key: string): seq<bool> {
    if log == [] then []
    else
      var p := log[|log| - 1];
      var init := OnKey(log[..|log| - 1], key);
      if Key(p.feed) != key || p == PhysSubscribe(p.feed, false) then init
      else init + [p.PhysSubscribe?]
  }

  /** Subscribe, unsubscribe, subscribe, ... */
  predicate Alternates(xs: seq<bool>) {
    forall i :: 0 <= i < |xs| ==> xs[i] == (i % 2 == 0)
  }

  /** Subscribes and unsubscribes of every key alternate, and a key is stored exactly while the last was a subscribe. */
  ghost predicate Counted(s: State) {
    Valid(s) && forall k :: CountedOn(s, k)
  }

  lemma OnKeyLogged(s: State, p: Physical, key: string)
    ensures
      var xs := OnKey(s.log, key);
      OnKey(Logged(s, p).log, key) ==
        if Key(p.feed) != key || p == PhysSubscribe(p.feed, false) then xs else xs + [p.PhysSubscribe?]
  {
    assert Logged(s, p).log[..|s.log|] == s.log;
  }

  /** A key whose calls alternate, and which is stored exactly after a subscribe. */
  ghost predicate CountedOn(s: State, key: string) {
    && Alternates(OnKey(s.log, key))
    && (key in s.subscribers <==> |OnKey(s.log, key)| % 2 == 1)
  }

  /** Extending the log by one call on its key, in turn. */
  lemma CountedStep(s: State, t: State, p: Physical)
    requires Counted(s) && Valid(t) && t.log == s.log + [p]
    requires forall k :: k != Key(p.feed) ==> (k in t.subscribers <==> k in s.subscribers)
    requires Key(p.feed) in s.subscribers <==> p.PhysUnsubscribe?
    requires Key(p.feed) in t.subscribers <==> p == PhysSubscribe(p.feed, true)
    ensures Counted(t)
  {
    forall k ensures CountedOn(t, k) {
      assert CountedOn(s, k);
      OnKeyLogged(s, p, k);
      assert t.log == Logged(s, p).log;
    }
  }

  lemma ApplyKeepsCounted(s: State, c: Call)
    requires Counted(s)
    ensures Counted(Apply(s, true, c))
  {
    if c.flow != "" && Key(c.feed) != "" {
      var t := Apply(s, true, c);
      var key := Key(c.feed);
      match c
      case CallSubscribe(flow, feed, ok) =>
        SubscribeEffect(s, true, flow, feed, ok);
        if key !in s.subscribers { CountedStep(s, t, PhysSubscribe(feed, ok)); }
        else { SameKeys(s, t, key); }
      case CallUnsubscribe(flow, feed) =>
        UnsubscribeEffect(s, true, flow, feed);
        if key in s.subscribers && Holders(s, key) <= {flow} { CountedStep(s, t, PhysUnsubscribe(feed)); }
        else { SameKeys(s, t, key); }
    }
  }

  lemma SameKeys(s: State, t: State, key: string)
    requires Counted(s) && Valid(t) && t.log == s.log
    requires forall k :: k in t.subscribers <==> k in s.subscribers
    ensures Counted(t)
  {
    forall k ensures CountedOn(t, k) { assert CountedOn(s, k); }
  }

  lemma {:induction false} ReachesKeepsCounted(s: State, calls: seq<Call>, end: State)
    requires Counted(s) && Reaches(s, true, calls, end)
    ensures Counted(end)
    decreases |calls|
  {
    if calls != [] {
      ApplyKeepsCounted(s, calls[0]);
      ReachesKeepsCounted(Apply(s, true, calls[0]), calls[1..], end);
    }
  }

  /**
   Reference counting over every sequence of calls: on each key, successful physical subscribes and
   physical unsubscribes alternate starting with a subscribe, and the exchange is subscribed exactly
   while the key is stored, which is exactly while some flow holds it.
   */
  lemma PhysicalCallsAlternate(calls: seq<Call>, s: State, key: string)
    requires Reaches(NEW_STATE, true, calls, s)
    ensures Alternates(OnKey(s.log, key))
    ensures key in s.subscribers <==> Holders(s, key) != {}
    ensures key in s.subscribers <==> |OnKey(s.log, key)| % 2 == 1
  {
    ReachesKeepsCounted(NEW_STATE, calls, s);
    assert CountedOn(s, key);
  }

  /** The log's calls on one feed, failed subscribes left out. */
  function OnFeed(log: seq<Physical>, f: Feed): seq<bool> {
    if log == [] then []
    else
      var p := log[|log| - 1];
      var init := OnFeed(log[..|log| - 1], f);
      if p.feed != f || p == PhysSubscribe(p.feed, false) then init else init + [p.PhysSubscribe?]
  }

  /** Nothing in the log shares the key of f without being f. */
  ghost predicate OwnsKey(log: seq<Physical>, f: Feed) {
    forall i :: 0 <= i < |log| && Key(log[i].feed) == Key(f) ==> log[i].feed == f
  }

  lemma {:induction false} OnOwnKey(log: seq<Physical>, f: Feed)
    requires OwnsKey(log, f)
    ensures OnFeed(log, f) == OnKey(log, Key(f))
    decreases |log|
  {
    if log != [] { OnOwnKey(log[..|log| - 1], f); }
  }

  /** The feed of some call. */
  predicate Called(calls: seq<Call>, f: Feed) {
    exists i :: 0 <= i < |calls| && calls[i].feed == f
  }

  lemma ApplyLogs(s: State, attached: bool, c: Call)
    requires Valid(s)
    ensures
      var t := Apply(s, attached, c);
      || t.log == s.log
      || (|t.log| == |s.log| + 1 && t.log[..|s.log|] == s.log && t.log[|s.log|].feed == c.feed && Key(c.feed) != "")
  {
    if c.flow != "" && Key(c.feed) != "" {
      match c
      case CallSubscribe(flow, feed, ok) => SubscribeEffect(s, attached, flow, feed, ok);
      case CallUnsubscribe(flow, feed) => UnsubscribeEffect(s, attached, flow, feed);
    }
  }

  lemma {:induction false} LogIsOfCalls(s: State, attached: bool, calls: seq<Call>, end: State, i: nat)
    requires Valid(s) && Reaches(s, attached, calls, end) && i < |end.log|
    ensures
      || (i < |s.log| && end.log[i] == s.log[i])
      || (Called(calls, end.log[i].feed) && Key(end.log[i].feed) != "")
    decreases |calls|
  {
    if calls != [] {
      var next, c := Apply(s, attached, calls[0]), calls[0];
      ApplyKeepsValid(s, attached, c);
      ApplyLogs(s, attached, c);
      LogIsOfCalls(next, attached, calls[1..], end, i);
      if Called(calls[1..], end.log[i].feed) {
        var j :| 0 <= j < |calls[1..]| && calls[1..][j].feed == end.log[i].feed;
        assert calls[j + 1].feed == end.log[i].feed;
      }
    }
  }

  lemma {:induction false} OnFeedOfOthers(log: seq<Physical>, f: Feed)
    requires forall i :: 0 <= i < |log| ==> log[i].feed != f
    ensures OnFeed(log, f) == []
    decreases |log|
  {
    if log != [] { OnFeedOfOthers(log[..|log| - 1], f); }
  }

  /** No two feeds of the calls share a key; feeds without a key make no calls. */
  ghost predicate DistinctKeys(calls: seq<Call>) {
    forall i, j :: 0 <= i < |calls| && 0 <= j < |calls| && Key(calls[i].feed) == Key(calls[j].feed) != ""
      ==> calls[i].feed == calls[j].feed
  }

  /** When no two feeds share a key, the physical calls of every single feed alternate. */
  lemma FeedCallsAlternate(calls: seq<Call>, s: State, f: Feed)
    requires Reaches(NEW_STATE, true, calls, s) && DistinctKeys(calls)
    ensures Alternates(OnFeed(s.log, f))
    ensures Called(calls, f) ==> (|OnFeed(s.log, f)| % 2 == 1 <==> Holders(s, Key(f)) != {})
  {
    forall i: nat | i < |s.log| ensures Called(calls, s.log[i].feed) && Key(s.log[i].feed) != "" {
      LogIsOfCalls(NEW_STATE, true, calls, s, i);
    }
    if Called(calls, f) {
      OnOwnKey(s.log, f);
      PhysicalCallsAlternate(calls, s, Key(f));
    } else {
      OnFeedOfOthers(s.log, f);
    }
  }

  /** Flow "a" takes and leaves feed f while flow "b" takes, and then leaves, feed g. */
  function Mixed(f: Feed, g: Feed): seq<Call> {
    [CallSubscribe("a", f, true), CallSubscribe("b", g, true), CallUnsubscribe("a", f), CallUnsubscribe("b", g)]
  }

  /** Any two feeds that share a key get mixed up: one is subscribed and the other unsubscribed. */
  lemma SharedKeyMixesFeeds(f: Feed, g: Feed) returns (end: State)
    requires Key(f) == Key(g) != ""
    ensures Reaches(NEW_STATE, true, Mixed(f, g), end)
    ensures end.log == [PhysSubscribe(f, true), PhysUnsubscribe(g)]
    ensures f != g ==> !Alternates(OnFeed(end.log, g))
  {
    var key, calls := Key(f), Mixed(f, g);
    FreshStart();
    hide Holders, Valid, Apply;
    var t1 := Apply(NEW_STATE, true, calls[0]);
    AfterApply(NEW_STATE, calls[0], {});
    var t2 := Apply(t1, true, calls[1]);
    AfterApply(t1, calls[1], {"a"});
    var t3 := Apply(t2, true, calls[2]);
    AfterApply(t2, calls[2], {"a", "b"});
    assert {"a", "b"} - {"a"} == {"b"};
    end := Apply(t3, true, calls[3]);
    AfterApply(t3, calls[3], {"b"});
    assert calls[1..][1..] == calls[2..] && calls[2..][1..] == [calls[3]] && [calls[3]][1..] == [];
    assert Reaches(t3, true, [calls[3]], end);
    assert Reaches(t2, true, calls[2..], end);
    assert Reaches(t1, true, calls[1..], end);
    if f != g { MixedDoesNotAlternate(f, g, end.log); }
  }

  lemma AfterApply(s: State, c: Call, was: set<string>)
    requires Valid(s) && c.flow != "" && Key(c.feed) != "" && Holders(s, Key(c.feed)) == was
    ensures
      var t := Apply(s, true, c);
      && Valid(t)
      && (c.CallUnsubscribe? ==> Holders(t, Key(c.feed)) == was - {c.flow})
      && (c.CallUnsubscribe? ==> t.log == if was == {c.flow} then s.log + [PhysUnsubscribe(c.feed)] else s.log)
      && (c.CallSubscribe? && c.ok ==> Holders(t, Key(c.feed)) == was + {c.flow})
      && (c.CallSubscribe? ==> t.log == if was == {} then s.log + [PhysSubscribe(c.feed, c.ok)] else s.log)
  {
    StoredIffHeld(s, Key(c.feed));
    hide Holders, Valid;
    assert was <= {c.flow} && was != {} ==> was == {c.flow};
    match c
    case CallSubscribe(flow, feed, ok) => SubscribeEffect(s, true, flow, feed, ok);
    case CallUnsubscribe(flow, feed) => UnsubscribeEffect(s, true, flow, feed);
  }

  lemma MixedDoesNotAlternate(f: Feed, g: Feed, log: seq<Physical>)
    requires f != g && log == [PhysSubscribe(f, true), PhysUnsubscribe(g)]
    ensures !Alternates(OnFeed(log, g))
  {
    assert log[..1] == [log[0]] && log[..1][..0] == [];
    assert OnFeed(log[..1], g) == [];
    assert OnFeed(log, g) == [] + [false];
    assert OnFeed(log, g)[0] == false;
  }

  /** Calls on these feeds only. */
  ghost predicate Over(calls: seq<Call>, feeds: set<Feed>) {
    forall i :: 0 <= i < |calls| ==> calls[i].feed in feeds
  }

  /** The physical calls of every single feed alternate over every run on these feeds. */
  ghost predicate EachAlternates(feeds: set<Feed>) {
    forall calls, s, f ::
      Over(calls, feeds) && Reaches(NEW_STATE, true, calls, s) ==> Alternates(OnFeed(s.log, f))
  }

  /** They do exactly when no two of the feeds share a key. */
  lemma EachAlternatesIffKeysDiffer(feeds: set<Feed>)
    ensures EachAlternates(feeds) <==>
      forall f, g :: f in feeds && g in feeds && Key(f) == Key(g) != "" ==> f == g
  {
    if forall f, g :: f in feeds && g in feeds && Key(f) == Key(g) != "" ==> f == g {
      forall calls, s, f | Over(calls, feeds) && Reaches(NEW_STATE, true, calls, s)
        ensures Alternates(OnFeed(s.log, f))
      {
        FeedCallsAlternate(calls, s, f);
      }
    } else {
      var f, g :| f in feeds && g in feeds && Key(f) == Key(g) != "" && f != g;
      var end := SharedKeyMixesFeeds(f, g);
      assert Over(Mixed(f, g), feeds);
    }
  }

  lemma FreshStart()
    ensures Valid(NEW_STATE) && forall key :: Holders(NEW_STATE, key) == {}
  {
  }

  /** The flows that hold a key are those whose last call on it was a subscribe that did not fail. */
  function HeldBy(calls: seq<Call>, attached: bool, key: string): set<string> {
    if calls == [] then {}
    else
      var was := HeldBy(calls[..|calls| - 1], attached, key);
      var c := calls[|calls| - 1];
      if Key(c.feed) != key || c.flow == "" || key == "" then was
      else match c
        case CallSubscribe(flow, _, ok) => if was == {} && attached && !ok then {} else was + {flow}
        case CallUnsubscribe(flow, _) => was - {flow}
  }

  /** The adapter's sets are the flows' own account of what they hold. */
  lemma {:induction false} HoldersAreTheCallers(calls: seq<Call>, attached: bool, s: State, key: string)
    requires Reaches(NEW_STATE, attached, calls, s)
    ensures Valid(s) && Holders(s, key) == HeldBy(calls, attached, key)
    decreases |calls|
  {
    if calls != [] {
      var n := |calls| - 1;
      var mid := LastStep(NEW_STATE, attached, calls, s);
      HoldersAreTheCallers(calls[..n], attached, mid, key);
      ApplyHolders(mid, attached, calls[n], key);
    }
  }

  lemma ApplyHolders(s: State, attached: bool, c: Call, key: string)
    requires Valid(s)
    ensures
      var was, t := Holders(s, key), Apply(s, attached, c);
      && Valid(t)
      && Holders(t, key) ==
           if Key(c.feed) != key || c.flow == "" || key == "" then was
           else if c.CallUnsubscribe? then was - {c.flow}
           else if was == {} && attached && !c.ok then {} else was + {c.flow}
  {
    StoredIffHeld(s, key);
    hide Holders, Valid;
    if c.flow != "" && Key(c.feed) != "" {
      match c
      case CallSubscribe(flow, feed, ok) => SubscribeEffect(s, attached, flow, feed, ok);
      case CallUnsubscribe(flow, feed) => UnsubscribeEffect(s, attached, flow, feed);
    }
  }

  lemma {:induction false} LastStep(s: State, attached: bool, calls: seq<Call>, end: State) returns (mid: State)
    requires Valid(s) && calls != [] && Reaches(s, attached, calls, end)
    ensures Valid(mid) && Reaches(s, attached, calls[..|calls| - 1], mid)
    ensures end == Apply(mid, attached, calls[|calls| - 1])
    decreases |calls|
  {
    hide Valid, Apply;
    ApplyKeepsValid(s, attached, calls[0]);
    var next := Apply(s, attached, calls[0]);
    if |calls| == 1 {
      mid := s;
      assert calls[1..] == [];
    } else {
      mid := LastStep(next, attached, calls[1..], end);
      assert calls[1..][..|calls| - 2] == calls[..|calls| - 1][1..];
    }
  }

  /** A feed counted under its own name. */
  predicate IsPlain(f: Feed) {
    f.Topic? || f.Ticker? || f.Depth?
  }

  function NameOf(f: Feed): string {
    match f
    case Topic(n) => n
    case Ticker(s) => s
    case Depth(s) => s
    case Trade(s) => s
    case Personal => ""
  }

  /** Feed f and a plain feed share a key because of the plain one's name. */
  predicate NamedAfter(f: Feed, plain: Feed) {
    && IsPlain(plain)
    && (IsPlain(f) ==> NameOf(plain) == NameOf(f))
    && (f.Trade? ==> NameOf(plain) == "trade:" + NameOf(f))
    && (f.Personal? ==> NameOf(plain) == "personal")
  }

  /**
   Which feeds are counted together: topics, tickers and depths of one name; a trade feed with a name
   that spells its key out, and the personal feed likewise; and nothing else.
   */
  lemma SharedKeys(f: Feed, g: Feed)
    ensures Key(f) == Key(g) <==> f == g || NamedAfter(f, g) || NamedAfter(g, f)
    ensures (f.Trade? && g == Depth(f.symbol)) || (g.Trade? && f == Depth(g.symbol)) ==> Key(f) != Key(g)
  {
    TradeKeySplits(f);
    TradeKeySplits(g);
  }

  lemma TradeKeySplits(f: Feed)
    ensures f.Trade? ==> |Key(f)| == 6 + |f.symbol| && Key(f)[..6] == "trade:" && Key(f)[6..] == f.symbol
    ensures f.Trade? ==> Key(f)[0] == 't'
    ensures f.Personal? ==> Key(f)[0] == 'p'
  {
  }

  /** So a depth subscriber that joins a ticker subscriber never reaches the exchange, although its call succeeds. */
  lemma DepthBehindTickerIsSilent(s: State, ticker: string, depth: string, symbol: string, ok: bool)
    requires Valid(s) && symbol != "" && ticker != "" && depth != ""
    requires symbol !in s.subscribers
    ensures
      var t := Subscribe(s, true, ticker, Ticker(symbol), true);
      && Valid(t) && t.log == s.log + [PhysSubscribe(Ticker(symbol), true)]
      && Subscribe(t, true, depth, Depth(symbol), ok).log == t.log
  {
    SubscribeEffect(s, true, ticker, Ticker(symbol), true);
    SubscribeEffect(Subscribe(s, true, ticker, Ticker(symbol), true), true, depth, Depth(symbol), ok);
  }

  // ---------------------------------------------------------------- calls that overlap

  /** A Subscribe whose physical call is under way, with its reference to the flow set. */
  datatype Pending = Pending(flow: string, feed: Feed, set_: nat)

  datatype Sys = Sys(s: State, pending: seq<Pending>)

  datatype Action =
    | BeginSubscribe(flow: string, feed: Feed)
    | EndSubscribe(k: nat, ok: bool)
    | RunUnsubscribe(flow: string, feed: Feed)

  ghost function Next(y: Sys, a: Action): Sys
    requires Valid(y.s) && forall k :: 0 <= k < |y.pending| ==> y.pending[k].set_ < |y.s.sets|
  {
    match a
    case BeginSubscribe(flow, feed) =>
      if Key(feed) == "" || flow == "" then y else
      var (t, h, first) := Joined(y.s, flow, Key(feed));
      Sys(t, if first then y.pending + [Pending(flow, feed, h)] else y.pending)
    case EndSubscribe(k, ok) =>
      if k >= |y.pending| then y else
      var p := y.pending[k];
      var t := Logged(y.s, PhysSubscribe(p.feed, ok));
      Sys(if ok then t else Undone(t, p.flow, Key(p.feed), p.set_), y.pending[..k] + y.pending[k + 1..])
    case RunUnsubscribe(flow, feed) => y.(s := Unsubscribe(y.s, true, flow, feed))
  }

  ghost predicate Inv(y: Sys) {
    && Valid(y.s)
    && (forall k :: 0 <= k < |y.pending| ==> y.pending[k].set_ < |y.s.sets|)
    && (forall k, j :: 0 <= k < |y.pending| && j in y.s.subscribers && y.s.subscribers[j] == y.pending[k].set_
          ==> j == Key(y.pending[k].feed))
  }

  /** A failed subscribe may remove its key from the map, but it never leaves an empty set there. */
  lemma UndoneKeepsValid(s: State, flow: string, key: string, h: nat)
    requires Valid(s) && h < |s.sets|
    requires forall j :: j in s.subscribers && s.subscribers[j] == h ==> j == key
    ensures Valid(Undone(s, flow, key, h))
  {
  }

  lemma BeginKeepsInv(y: Sys, flow: string, feed: Feed)
    requires Inv(y) && flow != "" && Key(feed) != ""
    ensures Inv(Next(y, BeginSubscribe(flow, feed)))
  {
    JoinedValid(y.s, flow, Key(feed));
    JoinedMap(y.s, flow, Key(feed));
    hide Valid, Joined, Holders;
  }

  lemma JoinedMap(s: State, flow: string, key: string)
    requires Valid(s)
    ensures
      var (t, h, _) := Joined(s, flow, key);
      && |s.sets| <= |t.sets| && h < |t.sets|
      && t.subscribers == s.subscribers[key := h] && (key !in s.subscribers ==> h == |s.sets|)
  {
  }

  lemma EndKeepsInv(y: Sys, k: nat, ok: bool)
    requires Inv(y) && k < |y.pending|
    ensures Inv(Next(y, EndSubscribe(k, ok)))
  {
    var p := y.pending[k];
    UndoneKeepsValid(Logged(y.s, PhysSubscribe(p.feed, ok)), p.flow, Key(p.feed), p.set_);
    var z := Next(y, EndSubscribe(k, ok));
    assert forall i :: 0 <= i < |z.pending| ==> z.pending[i] == y.pending[if i < k then i else i + 1];
  }

  lemma StepKeepsInv(y: Sys, a: Action)
    requires Inv(y)
    ensures Inv(Next(y, a))
  {
    match a
    case BeginSubscribe(flow, feed) => if flow != "" && Key(feed) != "" { BeginKeepsInv(y, flow, feed); }
    case EndSubscribe(k, ok) => if k < |y.pending| { EndKeepsInv(y, k, ok); }
    case RunUnsubscribe(flow, feed) =>
      if flow != "" && Key(feed) != "" { UnsubscribeEffect(y.s, true, flow, feed); }
  }

  ghost predicate IsRun(y: Sys, acts: seq<Action>, end: Sys)
    requires Inv(y)
    decreases |acts|
  {
    if acts == [] then y == end
    else
      StepKeepsInv(y, acts[0]);
      IsRun(Next(y, acts[0]), acts[1..], end)
  }

  /** Even when calls overlap, no stored flow set is ever empty. */
  lemma {:induction false} NoEmptySetIsStored(y: Sys, acts: seq<Action>, end: Sys)
    requires Inv(y) && IsRun(y, acts, end)
    ensures forall key :: key in end.s.subscribers ==> Holders(end.s, key) != {}
    decreases |acts|
  {
    if acts != [] {
      StepKeepsInv(y, acts[0]);
      NoEmptySetIsStored(Next(y, acts[0]), acts[1..], end);
    }
  }

  /**
   A failing subscribe drops a set that is not its own exactly when its own has emptied and the key was stored
   anew.
   */
  lemma FailureDropsForeignSet(y: Sys, k: nat)
    requires Inv(y) && k < |y.pending| && Key(y.pending[k].feed) in y.s.subscribers
    requires y.s.subscribers[Key(y.pending[k].feed)] != y.pending[k].set_
    ensures
      var p := y.pending[k];
      Key(p.feed) !in Next(y, EndSubscribe(k, false)).s.subscribers <==> y.s.sets[p.set_] <= {p.flow}
  {
  }

  /**
   A flow that joins while the first subscribe is under way got no error. When that subscribe then fails the
   key stays stored exactly when there is such a flow, which now holds a key the exchange was never told.
   */
  lemma FailureStrandsJoiners(y: Sys, k: nat)
    requires Inv(y) && k < |y.pending| && Key(y.pending[k].feed) in y.s.subscribers
    requires y.s.subscribers[Key(y.pending[k].feed)] == y.pending[k].set_
    ensures
      var p, z := y.pending[k], Next(y, EndSubscribe(k, false));
      && (Key(p.feed) in z.s.subscribers <==> exists g :: g in Holders(y.s, Key(p.feed)) && g != p.flow)
      && Holders(z.s, Key(p.feed)) == Holders(y.s, Key(p.feed)) - {p.flow}
      && z.s.log == y.s.log + [PhysSubscribe(p.feed, false)]
  {
    var p := y.pending[k];
    var rest := Holders(y.s, Key(p.feed)) - {p.flow};
    if rest != {} {
      var g :| g in rest;
      assert g in Holders(y.s, Key(p.feed)) && g != p.flow;
    }
    if g :| g in Holders(y.s, Key(p.feed)) && g != p.flow { assert g in rest; }
  }

  /** It happens from the start: flow "b" joins flow "a", whose subscribe fails. */
  lemma JoinerIsStranded()
    ensures
      var y := Sys(State(map["x" := 0], [{"a", "b"}], []), [Pending("a", Topic("x"), 0)]);
      && IsRun(Sys(NEW_STATE, []), [BeginSubscribe("a", Topic("x")), BeginSubscribe("b", Topic("x"))], y)
      && Inv(y)
      && Holders(Next(y, EndSubscribe(0, false)).s, "x") == {"b"}
      && Next(y, EndSubscribe(0, false)).s.log == [PhysSubscribe(Topic("x"), false)]
  {
    var acts := [BeginSubscribe("a", Topic("x")), BeginSubscribe("b", Topic("x"))];
    var y0 := Sys(NEW_STATE, []);
    StepKeepsInv(y0, acts[0]);
    var y1 := Next(y0, acts[0]);
    JoinedFresh(NEW_STATE, "a", "x");
    assert y1 == Sys(State(map["x" := 0], [{"a"}], []), [Pending("a", Topic("x"), 0)]);
    StepKeepsInv(y1, acts[1]);
    var y2 := Next(y1, acts[1]);
    assert {"a"} + {"b"} == {"a", "b"};
    assert y2.s.sets == [{"a", "b"}];
    assert acts[1..] == [acts[1]] && acts[1..][1..] == [];
    assert IsRun(y1, acts[1..], y2);
    FailureStrandsJoiners(y2, 0);
    assert {"a", "b"} - {"a"} == {"b"};
  }

  /** Flow "a" begins a subscribe, unsubscribes, and flow "b" subscribes successfully; "a" still awaits its outcome. */
  const OVERLAP := [BeginSubscribe("a", Topic("x")), RunUnsubscribe("a", Topic("x"))]
  const OVERLAP_MORE := [BeginSubscribe("b", Topic("x")), EndSubscribe(1, true)]

  const HALF_WAY := Sys(State(map[], [{}], [PhysUnsubscribe(Topic("x"))]), [Pending("a", Topic("x"), 0)])
  const OVERLAPPED := Sys(
    State(map["x" := 1], [{}, {"b"}], [PhysUnsubscribe(Topic("x")), PhysSubscribe(Topic("x"), true)]),
    [Pending("a", Topic("x"), 0)])

  lemma OverlapRun()
    ensures IsRun(Sys(NEW_STATE, []), OVERLAP, HALF_WAY)
  {
    var y0 := Sys(NEW_STATE, []);
    StepKeepsInv(y0, OVERLAP[0]);
    var y1 := Next(y0, OVERLAP[0]);
    JoinedFresh(NEW_STATE, "a", "x");
    assert y1 == Sys(State(map["x" := 0], [{"a"}], []), [Pending("a", Topic("x"), 0)]);
    StepKeepsInv(y1, OVERLAP[1]);
    var y2 := Next(y1, OVERLAP[1]);
    assert y2.s.sets == [{}] && y2.s.subscribers == map[];
    assert y2 == HALF_WAY;
    assert OVERLAP[1..] == [OVERLAP[1]];
    assert IsRun(y1, OVERLAP[1..], y2);
  }

  lemma OverlapMoreRun()
    ensures Inv(HALF_WAY) && IsRun(HALF_WAY, OVERLAP_MORE, OVERLAPPED) && Inv(OVERLAPPED)
  {
    var y2 := HALF_WAY;
    StepKeepsInv(y2, OVERLAP_MORE[0]);
    var y3 := Next(y2, OVERLAP_MORE[0]);
    JoinedFresh(y2.s, "b", "x");
    assert y2.s.sets + [{"b"}] == [{}, {"b"}];
    assert y3 == Sys(State(map["x" := 1], [{}, {"b"}], y2.s.log),
                     [Pending("a", Topic("x"), 0), Pending("b", Topic("x"), 1)]);
    StepKeepsInv(y3, OVERLAP_MORE[1]);
    var y4 := Next(y3, OVERLAP_MORE[1]);
    assert y4 == OVERLAPPED;
    assert OVERLAP_MORE[1..] == [OVERLAP_MORE[1]];
    assert IsRun(y3, OVERLAP_MORE[1..], y4);
  }

  /** It happens: flow "b" subscribed successfully, yet the late failure of flow "a" makes the adapter forget it. */
  lemma LateFailureForgetsFlow()
    ensures IsRun(Sys(NEW_STATE, []), OVERLAP, HALF_WAY)
    ensures Inv(HALF_WAY) && IsRun(HALF_WAY, OVERLAP_MORE, OVERLAPPED)
    ensures Inv(OVERLAPPED) && Holders(OVERLAPPED.s, "x") == {"b"}
    ensures
      var z := Next(OVERLAPPED, EndSubscribe(0, false));
      Holders(z.s, "x") == {} && z.s.log == OVERLAPPED.s.log + [PhysSubscribe(Topic("x"), false)]
  {
    OverlapRun();
    OverlapMoreRun();
  }
}

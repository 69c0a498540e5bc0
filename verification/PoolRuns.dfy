/**
 Interleavings of the pool's calls with its connections.

 Calls on one topic do not overlap; calls on different topics, the Connect loop of
 each client (dial, replay, read, drop), the end of contexts and failing writes
 interleave freely. A write that fails leaves the connection broken until the read
 loop drops it.
 */
module PoolRuns {
  import opened Pool

  /** Where the Connect loop of one client is; Down is before a dial, Dialling during one. */
  datatype Link = Down | Dialling | Dialled | Replaying(todo: set<string>) | Up

  /**
   `server` is what the peer of the current connection has been asked for and not asked to stop.
   `stopped` says that the context of the call that spawned the client, which is also the context
   of its Connect loop, is done.
   */
  datatype Conn = Conn(link: Link, broken: bool, started: bool, stopped: bool, ready: bool, server: set<string>)

  const NEW_CONN := Conn(Down, false, false, false, false, {})

  predicate Live(c: Conn) {
    c.link != Down && c.link != Dialling && !c.broken
  }

  /** The Connect loop is at its top and will dial: it runs, and its context is not done. */
  predicate MayDial(c: Conn) {
    c.link == Down && c.started && !c.stopped
  }

  /** A SendJSON of a subscribe: silently skipped while disconnected, lost on a broken connection. */
  function AskFor(c: Conn, topic: string): (r: Conn)
    ensures r == c.(server := r.server)
  {
    if Live(c) then c.(server := c.server + {topic}) else c
  }

  function AskToStop(c: Conn, topic: string): (r: Conn)
    ensures r == c.(server := r.server)
  {
    if Live(c) then c.(server := c.server - {topic}) else c
  }

  /** A call in flight, after its lock section. */
  datatype Op = Subscribing(p: Placement) | AwaitingReady(idx: nat) | Unsubscribing(idx: nat)

  /** What the callers of a topic gave: the URL with which its latest route was made, and the latest message. */
  datatype Wish = Wish(url: string, msg: string)

  /** `leaks[i]` counts the re-subscribes routed to client i that were cancelled; `wishes` is history. */
  datatype Sys = Sys(book: Book, conns: seq<Conn>, ops: map<string, Op>, leaks: seq<nat>, wishes: map<string, Wish>)

  datatype Action =
    | Subscribe(topic: string, url: string, msg: string)
    | CancelSubscribe(topic: string)
    | SendSubscribe(topic: string)
    | StartClient(topic: string)
    | SeeReady(topic: string)
    | Unsubscribe(topic: string)
    | CancelUnsubscribe(topic: string)
    | SendUnsubscribe(topic: string)
    | BeginDial(idx: nat)
    | Dial(idx: nat)
    | DialFailed(idx: nat)
    | Snapshot(idx: nat)
    | ReplayOne(idx: nat, topic: string)
    | ReplayDone(idx: nat)
    | Drop(idx: nat)
    | Break(idx: nat)
    | Stop(idx: nat)

  const START := Sys(EMPTY_BOOK, [], map[], [], map[])

  function WithConn(s: Sys, i: nat, c: Conn): Sys
    requires i < |s.conns|
  {
    s.(conns := s.conns[i := c])
  }

  function Done(s: Sys, topic: string): Sys {
    s.(ops := s.ops - {topic})
  }

  /**
   A call that spawned a client and has not returned: cancelling it ends the context of that client's Connect
   loop.
   */
  predicate IsSpawner(op: Op) {
    Spawning(op) || op.AwaitingReady?
  }

  /** Before it starts the Connect loop. */
  predicate Spawning(op: Op) {
    op.Subscribing? && op.p.spawned
  }

  ghost predicate WellShaped(s: Sys) {
    && Consistent(s.book)
    && |s.conns| == |s.leaks| == |s.book.counts|
    && (forall t :: t in s.ops ==> OpClient(s.ops[t]) < |s.conns|)
  }

  /** The rollback of a cancelled subscribe. */
  function Cancelled(s: Sys, topic: string): Sys
    requires topic in s.ops && OpClient(s.ops[topic]) < |s.book.counts| && OpClient(s.ops[topic]) < |s.leaks|
  {
    var i := OpClient(s.ops[topic]);
    var existed := s.ops[topic].Subscribing? && s.ops[topic].p.existed;
    Done(s, topic).(book := RolledBack(s.book, topic, i, existed),
                    leaks := if existed then s.leaks[i := s.leaks[i] + 1] else s.leaks)
  }

  function OpClient(op: Op): nat {
    match op
    case Subscribing(p) => p.idx
    case AwaitingReady(i) => i
    case Unsubscribing(i) => i
  }

  ghost function NextCall(cfg: Config, s: Sys, a: Action): Sys
    requires WellShaped(s)
  {
    match a
    case Subscribe(t, url, msg) =>
      if t in s.ops then s else
      var (b, p) := Subscribed(cfg, s.book, url, t, msg);
      Sys(b, if p.spawned then s.conns + [NEW_CONN] else s.conns, s.ops[t := Subscribing(p)],
          if p.spawned then s.leaks + [0] else s.leaks,
          s.wishes[t := Wish(if p.existed && t in s.wishes then s.wishes[t].url else url, msg)])
    case CancelSubscribe(t) =>
      if t !in s.ops || s.ops[t].Unsubscribing? then s
      else
        var i := OpClient(s.ops[t]);
        var u := Cancelled(s, t);
        if IsSpawner(s.ops[t]) then WithConn(u, i, u.conns[i].(stopped := true)) else u
    case SendSubscribe(t) =>
      if t !in s.ops || !s.ops[t].Subscribing? || s.ops[t].p.spawned then s
      else WithConn(Done(s, t), s.ops[t].p.idx, AskFor(s.conns[s.ops[t].p.idx], t))
    case StartClient(t) =>
      if t !in s.ops || !s.ops[t].Subscribing? || !s.ops[t].p.spawned then s
      else WithConn(s.(ops := s.ops[t := AwaitingReady(s.ops[t].p.idx)]), s.ops[t].p.idx,
                    s.conns[s.ops[t].p.idx].(started := true))
    case SeeReady(t) =>
      if t in s.ops && s.ops[t].AwaitingReady? && s.conns[s.ops[t].idx].ready then Done(s, t) else s
    case Unsubscribe(t) =>
      if t in s.ops || t !in s.book.routing then s
      else s.(book := Unsubscribed(s.book, t), ops := s.ops[t := Unsubscribing(s.book.routing[t])])
    case CancelUnsubscribe(t) => if t in s.ops && s.ops[t].Unsubscribing? then Done(s, t) else s
    case SendUnsubscribe(t) =>
      if t !in s.ops || !s.ops[t].Unsubscribing? then s
      else WithConn(Done(s, t), s.ops[t].idx, AskToStop(s.conns[s.ops[t].idx], t))
    case _ => s
  }

  /** What the Connect loop, the replay and the network do to one connection. */
  function NextConn(b: Book, i: nat, c: Conn, a: Action): Conn {
    match a
    case BeginDial(_) => if MayDial(c) then c.(link := Dialling) else c
    case Dial(_) => if c.link == Dialling then c.(link := Dialled, broken := false, server := {}) else c
    case DialFailed(_) => if c.link == Dialling then c.(link := Down) else c
    case Snapshot(_) => if c.link == Dialled then c.(link := Replaying(TopicsOf(b, i))) else c
    case ReplayOne(_, t) =>
      if c.link.Replaying? && t in c.link.todo then AskFor(c, t).(link := Replaying(c.link.todo - {t})) else c
    case ReplayDone(_) => if c.link == Replaying({}) then c.(link := Up, ready := true) else c
    case Drop(_) => if c.link == Up then c.(link := Down, server := {}) else c
    case Break(_) => c.(broken := true)
    case Stop(_) => c.(stopped := true)
    case _ => c
  }

  predicate OfConnection(a: Action) {
    || a.BeginDial? || a.Dial? || a.DialFailed? || a.Snapshot? || a.ReplayOne? || a.ReplayDone?
    || a.Drop? || a.Break? || a.Stop?
  }

  ghost function Next(cfg: Config, s: Sys, a: Action): Sys
    requires WellShaped(s)
  {
    if OfConnection(a)
    then if a.idx < |s.conns| then WithConn(s, a.idx, NextConn(s.book, a.idx, s.conns[a.idx], a)) else s
    else NextCall(cfg, s, a)
  }

  /** A subscriber of t is past its lock section and has not yet sent. */
  predicate AboutToSend(s: Sys, t: string) {
    t in s.ops && s.ops[t].Subscribing?
  }

  /** Nothing is lost: a routed topic of a live connection was asked for, or somebody will still ask. */
  ghost predicate NothingLost(s: Sys) {
    forall t :: t in s.book.routing && s.book.routing[t] < |s.conns| ==> Covered(s, t, s.conns[s.book.routing[t]])
  }

  predicate Covered(s: Sys, t: string, c: Conn) {
    Live(c) ==> t in c.server || c.link == Dialled || (c.link.Replaying? && t in c.link.todo) || AboutToSend(s, t)
  }

  ghost predicate OpOk(s: Sys, t: string, op: Op) {
    match op
    case Subscribing(p) =>
      && t in s.book.routing && s.book.routing[t] == p.idx
      && (p.spawned ==> !p.existed && p.idx < |s.conns| && !s.conns[p.idx].started)
    case AwaitingReady(i) => t in s.book.routing && s.book.routing[t] == i
    case Unsubscribing(i) => t !in s.book.routing
  }

  ghost predicate Inv(cfg: Config, s: Sys) {
    && WellShaped(s)
    && Accounted(cfg, s.book, s.leaks)
    && NothingLost(s)
    && (forall t :: t in s.ops ==> OpOk(s, t, s.ops[t]))
    && (forall t, u :: t in s.ops && u in s.ops && t != u && Spawning(s.ops[t]) && Spawning(s.ops[u])
          ==> OpClient(s.ops[t]) != OpClient(s.ops[u]))
    && (forall i :: 0 <= i < |s.conns| && !s.conns[i].started ==> s.conns[i].link == Down)
  }

  /** No more calls than before, on the same books. */
  lemma FewerCallsKeepInv(cfg: Config, s: Sys, t: Sys)
    requires Inv(cfg, s) && NothingLost(t) && t.book == s.book && t.leaks == s.leaks
    requires |t.conns| == |s.conns|
    requires forall i :: 0 <= i < |s.conns| ==> t.conns[i].started == s.conns[i].started
    requires forall i :: 0 <= i < |s.conns| && !s.conns[i].started ==> t.conns[i].link == Down
    requires forall u :: u in t.ops ==> u in s.ops && t.ops[u] == s.ops[u]
    ensures Inv(cfg, t)
  {
    hide Accounted, NothingLost;
    assert forall u :: u in t.ops ==> OpOk(s, u, s.ops[u]);
  }

  lemma ConnStepKeepsCover(cfg: Config, s: Sys, i: nat, a: Action)
    requires Inv(cfg, s) && i < |s.conns|
    ensures NothingLost(WithConn(s, i, NextConn(s.book, i, s.conns[i], a)))
  {
    hide Accounted;
    var t := WithConn(s, i, NextConn(s.book, i, s.conns[i], a));
    forall u | u in t.book.routing && t.book.routing[u] < |t.conns|
      ensures Covered(t, u, t.conns[t.book.routing[u]])
    {
      assert Covered(s, u, s.conns[s.book.routing[u]]);
    }
  }

  lemma ConnStepKeepsInv(cfg: Config, s: Sys, i: nat, a: Action)
    requires Inv(cfg, s) && i < |s.conns|
    ensures Inv(cfg, WithConn(s, i, NextConn(s.book, i, s.conns[i], a)))
  {
    ConnStepKeepsCover(cfg, s, i, a);
    hide Accounted, NothingLost, WellShaped;
    FewerCallsKeepInv(cfg, s, WithConn(s, i, NextConn(s.book, i, s.conns[i], a)));
  }

  lemma SubscribeKeepsOps(cfg: Config, s: Sys, topic: string, url: string, msg: string)
    requires Inv(cfg, s) && topic !in s.ops
    ensures
      var t := NextCall(cfg, s, Subscribe(topic, url, msg));
      && WellShaped(t) && Accounted(cfg, t.book, t.leaks)
      && (forall u :: u in t.ops ==> OpOk(t, u, t.ops[u]))
      && (forall i :: 0 <= i < |t.conns| && !t.conns[i].started ==> t.conns[i].link == Down)
  {
    SubscribeIsAccounted(cfg, s.book, s.leaks, url, topic, msg);
    var t := NextCall(cfg, s, Subscribe(topic, url, msg));
    forall u | u in t.ops ensures OpOk(t, u, t.ops[u]) {
      if u != topic { assert OpOk(s, u, s.ops[u]); }
    }
  }

  lemma SubscribeKeepsCover(cfg: Config, s: Sys, topic: string, url: string, msg: string)
    requires Inv(cfg, s) && topic !in s.ops
    ensures NothingLost(NextCall(cfg, s, Subscribe(topic, url, msg)))
  {
    SubscribeIsAccounted(cfg, s.book, s.leaks, url, topic, msg);
    var t := NextCall(cfg, s, Subscribe(topic, url, msg));
    forall u | u in t.book.routing && t.book.routing[u] < |t.conns|
      ensures Covered(t, u, t.conns[t.book.routing[u]])
    {
      if u != topic {
        assert u in s.book.routing && t.book.routing[u] == s.book.routing[u];
        assert Covered(s, u, s.conns[s.book.routing[u]]);
      }
    }
  }

  lemma SubscribeKeepsInv(cfg: Config, s: Sys, topic: string, url: string, msg: string)
    requires Inv(cfg, s)
    ensures Inv(cfg, NextCall(cfg, s, Subscribe(topic, url, msg)))
  {
    if topic !in s.ops {
      SubscribeKeepsOps(cfg, s, topic, url, msg);
      SubscribeKeepsCover(cfg, s, topic, url, msg);
      SpawnsStayApart(cfg, s, topic, url, msg);
    }
  }

  lemma SpawnsStayApart(cfg: Config, s: Sys, topic: string, url: string, msg: string)
    requires Inv(cfg, s) && topic !in s.ops
    ensures
      var t := NextCall(cfg, s, Subscribe(topic, url, msg));
      forall u, v :: u in t.ops && v in t.ops && u != v && Spawning(t.ops[u]) && Spawning(t.ops[v])
        ==> OpClient(t.ops[u]) != OpClient(t.ops[v])
  {
    SubscribeIsAccounted(cfg, s.book, s.leaks, url, topic, msg);
  }

  lemma CancelledKeepsInv(cfg: Config, s: Sys, topic: string)
    requires Inv(cfg, s) && topic in s.ops && !s.ops[topic].Unsubscribing?
    ensures Inv(cfg, Cancelled(s, topic))
  {
    assert OpOk(s, topic, s.ops[topic]);
    RollbackIsAccounted(cfg, s.book, s.leaks, topic, s.ops[topic].Subscribing? && s.ops[topic].p.existed);
    RoutingShrank(cfg, s, Cancelled(s, topic), topic);
  }

  lemma StopKeepsInv(cfg: Config, s: Sys, i: nat)
    requires Inv(cfg, s) && i < |s.conns|
    ensures Inv(cfg, WithConn(s, i, s.conns[i].(stopped := true)))
  {
    ConnStepKeepsInv(cfg, s, i, Stop(i));
  }

  lemma CancelKeepsInv(cfg: Config, s: Sys, topic: string)
    requires Inv(cfg, s)
    ensures Inv(cfg, NextCall(cfg, s, CancelSubscribe(topic)))
  {
    Shape(cfg, s);
    hide Inv, Consistent, RolledBack;
    if topic in s.ops && !s.ops[topic].Unsubscribing? {
      CancelledKeepsInv(cfg, s, topic);
      if IsSpawner(s.ops[topic]) { StopKeepsInv(cfg, Cancelled(s, topic), OpClient(s.ops[topic])); }
    }
  }

  lemma UnsubscribeKeepsInv(cfg: Config, s: Sys, topic: string)
    requires Inv(cfg, s)
    ensures Inv(cfg, NextCall(cfg, s, Unsubscribe(topic)))
  {
    if topic !in s.ops && topic in s.book.routing {
      RollbackIsAccounted(cfg, s.book, s.leaks, topic, false);
      RoutingShrank(cfg, s, NextCall(cfg, s, Unsubscribe(topic)), topic);
    }
  }

  /** Removing one route, and at most the call on that topic, keeps the rest of the invariant. */
  lemma RoutingShrank(cfg: Config, s: Sys, t: Sys, topic: string)
    requires Inv(cfg, s) && WellShaped(t) && Accounted(cfg, t.book, t.leaks)
    requires t.conns == s.conns
    requires topic !in t.book.routing
    requires forall u :: u != topic ==> (u in t.book.routing <==> u in s.book.routing)
    requires forall u :: u in t.book.routing ==> t.book.routing[u] == s.book.routing[u]
    requires forall u :: u != topic ==> (u in t.ops <==> u in s.ops)
    requires forall u :: u != topic && u in t.ops ==> t.ops[u] == s.ops[u]
    requires topic in t.ops ==> t.ops[topic].Unsubscribing?
    ensures Inv(cfg, t)
  {
    forall u | u in t.book.routing && t.book.routing[u] < |t.conns|
      ensures Covered(t, u, t.conns[t.book.routing[u]])
    {
      assert Covered(s, u, s.conns[s.book.routing[u]]);
    }
    forall u | u in t.ops ensures OpOk(t, u, t.ops[u]) {
      if u != topic { assert OpOk(s, u, s.ops[u]); }
    }
  }

  lemma SendKeepsCover(cfg: Config, s: Sys, topic: string, a: Action)
    requires Inv(cfg, s)
    requires a == SendSubscribe(topic) || a == SendUnsubscribe(topic)
    ensures NothingLost(NextCall(cfg, s, a))
  {
    hide Accounted;
    var t := NextCall(cfg, s, a);
    if topic in s.ops { assert OpOk(s, topic, s.ops[topic]); }
    forall u | u in t.book.routing && t.book.routing[u] < |t.conns|
      ensures Covered(t, u, t.conns[t.book.routing[u]])
    {
      assert Covered(s, u, s.conns[s.book.routing[u]]);
    }
  }

  lemma SendKeepsInv(cfg: Config, s: Sys, topic: string, a: Action)
    requires Inv(cfg, s)
    requires a == SendSubscribe(topic) || a == SendUnsubscribe(topic)
    ensures Inv(cfg, NextCall(cfg, s, a))
  {
    SendKeepsCover(cfg, s, topic, a);
    hide Accounted, NothingLost, OpOk, AskFor, AskToStop;
    FewerCallsKeepInv(cfg, s, NextCall(cfg, s, a));
  }

  lemma StartKeepsInv(cfg: Config, s: Sys, topic: string)
    requires Inv(cfg, s)
    ensures Inv(cfg, NextCall(cfg, s, StartClient(topic)))
  {
    hide Accounted;
    var t := NextCall(cfg, s, StartClient(topic));
    forall u | u in t.book.routing && t.book.routing[u] < |t.conns|
      ensures Covered(t, u, t.conns[t.book.routing[u]])
    {
      assert Covered(s, u, s.conns[s.book.routing[u]]);
      if topic in s.ops { assert OpOk(s, topic, s.ops[topic]); }
    }
    forall u | u in t.ops ensures OpOk(t, u, t.ops[u]) {
      assert OpOk(s, u, s.ops[u]);
    }
  }

  lemma DoneKeepsInv(cfg: Config, s: Sys, topic: string)
    requires Inv(cfg, s) && topic in s.ops && !s.ops[topic].Subscribing?
    ensures Inv(cfg, Done(s, topic))
  {
    hide Accounted;
    var t := Done(s, topic);
    forall u | u in t.book.routing && t.book.routing[u] < |t.conns|
      ensures Covered(t, u, t.conns[t.book.routing[u]])
    {
      assert Covered(s, u, s.conns[s.book.routing[u]]);
    }
    FewerCallsKeepInv(cfg, s, t);
  }

  lemma ReturnKeepsInv(cfg: Config, s: Sys, topic: string)
    requires Inv(cfg, s)
    ensures Inv(cfg, NextCall(cfg, s, SeeReady(topic))) && Inv(cfg, NextCall(cfg, s, CancelUnsubscribe(topic)))
  {
    if topic in s.ops && !s.ops[topic].Subscribing? { DoneKeepsInv(cfg, s, topic); }
  }

  lemma Shape(cfg: Config, s: Sys)
    requires Inv(cfg, s)
    ensures WellShaped(s)
  {
  }

  lemma StepKeepsInv(cfg: Config, s: Sys, a: Action)
    requires Inv(cfg, s)
    ensures Inv(cfg, Next(cfg, s, a))
  {
    Shape(cfg, s);
    hide Inv, WellShaped, NextCall, NextConn;
    match a
    case Subscribe(t, url, msg) => SubscribeKeepsInv(cfg, s, t, url, msg);
    case CancelSubscribe(t) => CancelKeepsInv(cfg, s, t);
    case SendSubscribe(t) => SendKeepsInv(cfg, s, t, a);
    case StartClient(t) => StartKeepsInv(cfg, s, t);
    case SeeReady(t) => ReturnKeepsInv(cfg, s, t);
    case Unsubscribe(t) => UnsubscribeKeepsInv(cfg, s, t);
    case CancelUnsubscribe(t) => ReturnKeepsInv(cfg, s, t);
    case SendUnsubscribe(t) => SendKeepsInv(cfg, s, t, a);
    case _ => if a.idx < |s.conns| { ConnStepKeepsInv(cfg, s, a.idx, a); }
  }

  /** The states along a run, each one step after the other. */
  ghost predicate IsRun(cfg: Config, s: Sys, acts: seq<Action>, end: Sys)
    decreases |acts|
  {
    if acts == [] then s == end else WellShaped(s) && IsRun(cfg, Next(cfg, s, acts[0]), acts[1..], end)
  }

  lemma {:induction false} RunKeepsInv(cfg: Config, s: Sys, acts: seq<Action>, end: Sys)
    requires Inv(cfg, s) && IsRun(cfg, s, acts, end)
    ensures Inv(cfg, end)
    decreases |acts|
  {
    if acts != [] {
      StepKeepsInv(cfg, s, acts[0]);
      RunKeepsInv(cfg, Next(cfg, s, acts[0]), acts[1..], end);
    }
  }

  lemma {:induction false} RunsCompose(cfg: Config, s: Sys, xs: seq<Action>, mid: Sys, ys: seq<Action>, end: Sys)
    requires IsRun(cfg, s, xs, mid) && IsRun(cfg, mid, ys, end)
    ensures IsRun(cfg, s, xs + ys, end)
    decreases |xs|
  {
    hide Next, WellShaped;
    if xs == [] {
      assert xs + ys == ys;
    } else {
      assert (xs + ys)[1..] == xs[1..] + ys;
      RunsCompose(cfg, Next(cfg, s, xs[0]), xs[1..], mid, ys, end);
    }
  }

  lemma RunOfNothing(cfg: Config, s: Sys)
    ensures IsRun(cfg, s, [], s)
  {
  }

  /** A run, and one more step. */
  lemma RunGrows(cfg: Config, s: Sys, acts: seq<Action>, mid: Sys, a: Action)
    requires IsRun(cfg, s, acts, mid) && WellShaped(mid)
    ensures IsRun(cfg, s, acts + [a], Next(cfg, mid, a))
  {
    hide Next, WellShaped;
    assert [a][1..] == [];
    assert IsRun(cfg, mid, [a], Next(cfg, mid, a));
    RunsCompose(cfg, s, acts, mid, [a], Next(cfg, mid, a));
  }

  lemma ConnStep(cfg: Config, s: Sys, i: nat, a: Action)
    requires WellShaped(s) && i < |s.conns| && OfConnection(a) && a.idx == i
    ensures WellShaped(Next(cfg, s, a))
    ensures Next(cfg, s, a) == WithConn(s, i, NextConn(s.book, i, s.conns[i], a))
  {
  }

  lemma ConnGrows(
    cfg: Config, s: Sys, acts: seq<Action>, mid: Sys, i: nat, a: Action)
    returns (more: seq<Action>, end: Sys)
    requires IsRun(cfg, s, acts, mid) && WellShaped(mid) && i < |mid.conns| && OfConnection(a) && a.idx == i
    ensures more == acts + [a] && IsRun(cfg, s, more, end) && WellShaped(end)
    ensures end == WithConn(mid, i, NextConn(mid.book, i, mid.conns[i], a))
  {
    ConnStep(cfg, mid, i, a);
    RunGrows(cfg, s, acts, mid, a);
    more, end := acts + [a], Next(cfg, mid, a);
  }

  /**
   No subscription is lost across reconnects: in every interleaving each topic routed to a
   connected client whose writes work has been asked for on that connection, is on the replay's
   list, will be on it, or has a subscriber about to send. When that client reads and no call is
   in flight, its server was asked for every topic routed to it.
   */
  lemma NoSubscriptionIsLost(cfg: Config, acts: seq<Action>, s: Sys, topic: string)
    requires IsRun(cfg, START, acts, s) && topic in s.book.routing
    ensures
      var i := s.book.routing[topic];
      && i < |s.conns|
      && Covered(s, topic, s.conns[i])
      && (s.conns[i].link == Up && !s.conns[i].broken && topic !in s.ops ==> topic in s.conns[i].server)
  {
    RunKeepsInv(cfg, START, acts, s);
  }

  /** At quiescence the peer of a reading client holds every topic the pool routes to it. */
  lemma QuiescentServerHasEveryTopic(cfg: Config, acts: seq<Action>, s: Sys, i: nat)
    requires IsRun(cfg, START, acts, s) && s.ops == map[]
    requires i < |s.conns| && s.conns[i].link == Up && !s.conns[i].broken
    ensures Routed(s.book, i) <= s.conns[i].server
  {
    forall t | t in Routed(s.book, i) ensures t in s.conns[i].server {
      NoSubscriptionIsLost(cfg, acts, s, t);
    }
  }

  /**
   The books balance in every interleaving: routes and subscriptions name the same topics and
   clients, and a client's count is its routed topics plus its cancelled re-subscribes, within the limit.
   */
  lemma CountsAreExact(cfg: Config, acts: seq<Action>, s: Sys)
    requires IsRun(cfg, START, acts, s)
    ensures Consistent(s.book) && |s.leaks| == |s.book.counts| == |s.conns|
    ensures forall i :: 0 <= i < |s.book.counts| ==>
      |Routed(s.book, i)| <= s.book.counts[i] == |Routed(s.book, i)| + s.leaks[i] <= Ceiling(cfg)
  {
    RunKeepsInv(cfg, START, acts, s);
  }

  /** Every route leads to a client of the URL that was wished for, with the message that was. */
  ghost predicate AsWished(cfg: Config, s: Sys) {
    forall t :: t in s.book.routing && t in s.book.subs && s.book.routing[t] < |s.book.targets| ==>
      && t in s.wishes
      && s.book.targets[s.book.routing[t]] == (if s.wishes[t].url == "" then cfg.publicURL else s.wishes[t].url)
      && s.book.subs[t].subscribeMsg == s.wishes[t].msg
  }

  lemma SubscribeKeepsWishes(cfg: Config, s: Sys, a: Action)
    requires Inv(cfg, s) && AsWished(cfg, s) && a.Subscribe?
    ensures AsWished(cfg, Next(cfg, s, a))
  {
    if a.topic !in s.ops {
      SubscribeIsAccounted(cfg, s.book, s.leaks, a.url, a.topic, a.msg);
      Shape(cfg, s);
      hide Inv, Subscribed, FullBefore, Accounted;
      var t := Next(cfg, s, a);
      RouteKeepsWishes(cfg, s, t, a.topic, t.book.routing[a.topic], t.book.subs[a.topic]);
    }
  }

  /** One topic is routed, to a client of the URL its wish names; the others stay where they are. */
  lemma RouteKeepsWishes(cfg: Config, s: Sys, t: Sys, topic: string, idx: nat, sub: Subscription)
    requires AsWished(cfg, s) && topic in t.wishes
    requires |s.book.targets| <= |t.book.targets| && t.book.targets[..|s.book.targets|] == s.book.targets
    requires forall u :: u in s.book.routing ==> u in s.book.subs && s.book.routing[u] < |s.book.targets|
    requires t.book.routing == s.book.routing[topic := idx]
    requires t.book.subs == s.book.subs[topic := sub]
    requires t.wishes == s.wishes[topic := t.wishes[topic]]
    requires
      topic in t.book.routing && topic in t.book.subs && t.book.routing[topic] < |t.book.targets| ==>
        && t.book.targets[t.book.routing[topic]] ==
             (if t.wishes[topic].url == "" then cfg.publicURL else t.wishes[topic].url)
        && t.book.subs[topic].subscribeMsg == t.wishes[topic].msg
    ensures AsWished(cfg, t)
  {
    forall u | u in t.book.routing && u != topic
      ensures u in s.book.routing && t.book.routing[u] == s.book.routing[u]
      ensures t.book.targets[t.book.routing[u]] == s.book.targets[s.book.routing[u]]
    {
    }
  }

  /** Only a subscribe adds or changes a route. */
  lemma BookShrinks(cfg: Config, s: Sys, a: Action)
    requires WellShaped(s) && !a.Subscribe?
    ensures
      var t := Next(cfg, s, a);
      && t.wishes == s.wishes && t.book.targets == s.book.targets
      && (t.book == s.book || exists topic ::
            t.book.routing == s.book.routing - {topic} && t.book.subs == s.book.subs - {topic})
  {
    hide NextConn, Consistent;
  }

  lemma ShrunkKeepsWishes(cfg: Config, s: Sys, t: Sys, topic: string)
    requires AsWished(cfg, s) && t.wishes == s.wishes && t.book.targets == s.book.targets
    requires t.book.routing == s.book.routing - {topic} && t.book.subs == s.book.subs - {topic}
    ensures AsWished(cfg, t)
  {
  }

  lemma StepKeepsWishes(cfg: Config, s: Sys, a: Action)
    requires Inv(cfg, s) && AsWished(cfg, s)
    ensures AsWished(cfg, Next(cfg, s, a))
  {
    Shape(cfg, s);
    if a.Subscribe? {
      SubscribeKeepsWishes(cfg, s, a);
    } else {
      BookShrinks(cfg, s, a);
      var t := Next(cfg, s, a);
      hide Inv, Next, WellShaped;
      if topic :| t.book.routing == s.book.routing - {topic} && t.book.subs == s.book.subs - {topic} {
        hide AsWished;
        ShrunkKeepsWishes(cfg, s, t, topic);
      }
    }
  }

  lemma {:induction false} RunKeepsWishes(cfg: Config, s: Sys, acts: seq<Action>, end: Sys)
    requires Inv(cfg, s) && AsWished(cfg, s) && IsRun(cfg, s, acts, end)
    ensures AsWished(cfg, end)
    decreases |acts|
  {
    if acts != [] {
      StepKeepsInv(cfg, s, acts[0]);
      StepKeepsWishes(cfg, s, acts[0]);
      hide Inv, AsWished, Next;
      RunKeepsWishes(cfg, Next(cfg, s, acts[0]), acts[1..], end);
    }
  }

  /** The wishes of a run are those of its subscribes. */
  lemma {:induction false} WishIsOfASubscribe(cfg: Config, s: Sys, acts: seq<Action>, end: Sys, topic: string)
    requires IsRun(cfg, s, acts, end) && topic in end.wishes
    ensures
      || (topic in s.wishes && end.wishes[topic].url == s.wishes[topic].url)
      || exists msg :: Subscribe(topic, end.wishes[topic].url, msg) in acts
    decreases |acts|
  {
    if acts != [] {
      var next := Next(cfg, s, acts[0]);
      assert acts == [acts[0]] + acts[1..];
      WishIsOfASubscribe(cfg, next, acts[1..], end, topic);
      if topic in next.wishes { WishStep(cfg, s, acts[0], topic); }
      hide Next, WellShaped;
      if msg :| Subscribe(topic, end.wishes[topic].url, msg) in acts[1..] {
        assert Subscribe(topic, end.wishes[topic].url, msg) in acts;
      } else if topic !in s.wishes || end.wishes[topic].url != s.wishes[topic].url {
        assert acts[0] == Subscribe(topic, end.wishes[topic].url, acts[0].msg);
      }
    }
  }

  lemma WishStep(cfg: Config, s: Sys, a: Action, topic: string)
    requires WellShaped(s) && topic in Next(cfg, s, a).wishes
    ensures
      || (topic in s.wishes && Next(cfg, s, a).wishes[topic].url == s.wishes[topic].url)
      || (a.Subscribe? && a.topic == topic && Next(cfg, s, a).wishes[topic].url == a.url)
  {
  }

  /**
   Over every run, a topic is routed to a client of the URL of the subscribe that made its route, and recorded
   with the message of the latest one.
   */
  lemma RoutesLeadWhereAsked(cfg: Config, acts: seq<Action>, s: Sys, topic: string)
    requires IsRun(cfg, START, acts, s) && topic in s.book.routing
    ensures topic in s.wishes && topic in s.book.subs && s.book.routing[topic] < |s.book.targets|
    ensures exists msg :: Subscribe(topic, s.wishes[topic].url, msg) in acts
    ensures s.book.targets[s.book.routing[topic]] ==
              if s.wishes[topic].url == "" then cfg.publicURL else s.wishes[topic].url
    ensures s.book.subs[topic].subscribeMsg == s.wishes[topic].msg
  {
    RunKeepsInv(cfg, START, acts, s);
    RunKeepsWishes(cfg, START, acts, s);
    WishIsOfASubscribe(cfg, START, acts, s, topic);
  }

  lemma LeaksStep(cfg: Config, s: Sys, a: Action, i: nat)
    requires Inv(cfg, s) && i < |s.leaks|
    ensures WellShaped(s) && i < |Next(cfg, s, a).leaks| && s.leaks[i] <= Next(cfg, s, a).leaks[i]
  {
    hide Accounted, NothingLost, NextConn, Consistent;
  }

  /** A leaked place never comes back: the client's usable capacity only shrinks. */
  lemma {:induction false} LeaksOnlyGrow(cfg: Config, s: Sys, acts: seq<Action>, end: Sys, i: nat)
    requires Inv(cfg, s) && IsRun(cfg, s, acts, end) && i < |s.leaks|
    ensures i < |end.leaks| && s.leaks[i] <= end.leaks[i]
    decreases |acts|
  {
    if acts != [] {
      LeaksStep(cfg, s, acts[0], i);
      hide Next, Inv, WellShaped;
      StepKeepsInv(cfg, s, acts[0]);
      LeaksOnlyGrow(cfg, Next(cfg, s, acts[0]), acts[1..], end, i);
    }
  }

  // ---------------------------------------------------------------- nothing stale

  /** Nothing stale: a live connection was asked only for topics routed to it, or about to be stopped. */
  ghost predicate NothingStale(s: Sys) {
    forall i :: 0 <= i < |s.conns| ==> FreshConn(s, i, s.conns[i])
  }

  ghost predicate FreshConn(s: Sys, i: nat, c: Conn) {
    Live(c) ==>
      && (forall t :: t in c.server ==> RoutedTo(s, t, i) || (t in s.ops && s.ops[t] == Unsubscribing(i)))
      && (c.link.Replaying? ==> forall t :: t in c.link.todo ==> RoutedTo(s, t, i))
  }

  predicate RoutedTo(s: Sys, t: string, i: nat) {
    t in s.book.routing && s.book.routing[t] == i
  }

  predicate InReplay(c: Conn, t: string) {
    c.link.Replaying? && t in c.link.todo
  }

  /** The steps that leave nothing stale: no cancel strands a topic the peer has or is about to get. */
  predicate Gentle(s: Sys, a: Action)
    requires forall t :: t in s.ops ==> OpClient(s.ops[t]) < |s.conns|
    requires forall t :: t in s.book.routing ==> s.book.routing[t] < |s.conns|
  {
    match a
    case CancelSubscribe(t) =>
      t in s.ops && !s.ops[t].Unsubscribing? ==>
        var c := s.conns[OpClient(s.ops[t])];
        Live(c) ==> t !in c.server && !InReplay(c, t)
    case CancelUnsubscribe(t) =>
      t in s.ops && s.ops[t].Unsubscribing? ==>
        var c := s.conns[OpClient(s.ops[t])];
        Live(c) ==> t !in c.server
    case Unsubscribe(t) =>
      t !in s.ops && t in s.book.routing ==>
        var c := s.conns[s.book.routing[t]];
        Live(c) ==> !InReplay(c, t)
    case _ => true
  }

  lemma ConnStepKeepsFresh(cfg: Config, s: Sys, i: nat, a: Action)
    requires Inv(cfg, s) && NothingStale(s) && i < |s.conns|
    ensures NothingStale(WithConn(s, i, NextConn(s.book, i, s.conns[i], a)))
  {
    assert FreshConn(s, i, s.conns[i]);
    var t := WithConn(s, i, NextConn(s.book, i, s.conns[i], a));
    forall j | 0 <= j < |t.conns| ensures FreshConn(t, j, t.conns[j]) {
      assert FreshConn(s, j, s.conns[j]);
    }
  }

  /** More routes and other calls leave nothing stale. */
  lemma GrownIsFresh(s: Sys, t: Sys)
    requires NothingStale(s) && |s.conns| <= |t.conns|
    requires forall i :: 0 <= i < |t.conns| ==> t.conns[i] == if i < |s.conns| then s.conns[i] else NEW_CONN
    requires forall u, i :: RoutedTo(s, u, i) ==> RoutedTo(t, u, i)
    requires forall u :: u in s.ops && s.ops[u].Unsubscribing? ==> u in t.ops && t.ops[u] == s.ops[u]
    ensures NothingStale(t)
  {
    forall i | 0 <= i < |t.conns| ensures FreshConn(t, i, t.conns[i]) {
      if i < |s.conns| { assert FreshConn(s, i, s.conns[i]); }
    }
  }

  lemma SubscribeKeepsFresh(cfg: Config, s: Sys, topic: string, url: string, msg: string)
    requires Inv(cfg, s) && NothingStale(s)
    ensures NothingStale(NextCall(cfg, s, Subscribe(topic, url, msg)))
  {
    if topic !in s.ops {
      SubscribeIsAccounted(cfg, s.book, s.leaks, url, topic, msg);
      hide Accounted, NothingLost, NothingStale;
      GrownIsFresh(s, NextCall(cfg, s, Subscribe(topic, url, msg)));
    }
  }

  lemma StartKeepsFresh(cfg: Config, s: Sys, topic: string)
    requires WellShaped(s) && NothingStale(s)
    ensures NothingStale(NextCall(cfg, s, StartClient(topic))) && NothingStale(NextCall(cfg, s, SeeReady(topic)))
  {
    hide Consistent;
    forall j | 0 <= j < |s.conns|
      ensures
        var t, u := NextCall(cfg, s, StartClient(topic)), NextCall(cfg, s, SeeReady(topic));
        |t.conns| == |u.conns| == |s.conns| && FreshConn(t, j, t.conns[j]) && FreshConn(u, j, u.conns[j])
    {
      assert FreshConn(s, j, s.conns[j]);
    }
  }

  lemma SendKeepsFresh(cfg: Config, s: Sys, topic: string, a: Action)
    requires Inv(cfg, s) && NothingStale(s)
    requires a == SendSubscribe(topic) || a == SendUnsubscribe(topic)
    ensures NothingStale(NextCall(cfg, s, a))
  {
    hide Accounted, NothingLost, Consistent;
    var t := NextCall(cfg, s, a);
    if topic in s.ops { assert OpOk(s, topic, s.ops[topic]); }
    forall j | 0 <= j < |t.conns| ensures FreshConn(t, j, t.conns[j]) {
      assert FreshConn(s, j, s.conns[j]);
    }
  }

  /** t is s without the route of topic and with at most an Unsubscribe of it in flight; client i had the topic. */
  ghost predicate Shrunk(s: Sys, t: Sys, topic: string, i: nat) {
    && t.conns == s.conns && i < |s.conns|
    && (topic in s.book.routing ==> s.book.routing[topic] == i)
    && (forall u, j :: u != topic ==> (RoutedTo(t, u, j) <==> RoutedTo(s, u, j)))
    && topic !in t.book.routing
    && (forall u :: u != topic ==> (u in t.ops <==> u in s.ops))
    && (forall u :: u != topic && u in s.ops ==> t.ops[u] == s.ops[u])
    && (topic in s.ops && s.ops[topic].Unsubscribing? ==> s.ops[topic].idx == i)
    && (topic in t.ops ==> t.ops[topic] == Unsubscribing(i))
  }

  /** The topic is not left with the peer, nor on the replay's list. */
  predicate TakenBack(t: Sys, topic: string, i: nat)
    requires i < |t.conns|
  {
    Live(t.conns[i]) ==> !InReplay(t.conns[i], topic) && (topic in t.conns[i].server ==> topic in t.ops)
  }

  lemma ShrunkIsFreshIffTakenBack(s: Sys, t: Sys, topic: string, i: nat)
    requires NothingStale(s) && Shrunk(s, t, topic, i)
    ensures NothingStale(t) <==> TakenBack(t, topic, i)
  {
    if TakenBack(t, topic, i) {
      forall j | 0 <= j < |t.conns| ensures FreshConn(t, j, t.conns[j]) {
        assert FreshConn(s, j, s.conns[j]);
      }
    } else {
      assert !FreshConn(t, i, t.conns[i]);
    }
  }

  /** The end of a context, by itself, neither leaves nor removes anything stale. */
  lemma StopIsFreshIff(s: Sys, i: nat)
    requires i < |s.conns|
    ensures NothingStale(WithConn(s, i, s.conns[i].(stopped := true))) <==> NothingStale(s)
  {
    var t := WithConn(s, i, s.conns[i].(stopped := true));
    assert forall j :: 0 <= j < |s.conns| ==> (FreshConn(t, j, t.conns[j]) <==> FreshConn(s, j, s.conns[j]));
  }

  lemma CancelledIsFreshIff(cfg: Config, s: Sys, topic: string)
    requires Inv(cfg, s) && NothingStale(s) && topic in s.ops && !s.ops[topic].Unsubscribing?
    ensures NothingStale(Cancelled(s, topic)) <==> Gentle(s, CancelSubscribe(topic))
  {
    hide Accounted, NothingLost;
    assert OpOk(s, topic, s.ops[topic]);
    var i := OpClient(s.ops[topic]);
    assert FreshConn(s, i, s.conns[i]);
    ShrunkIsFreshIffTakenBack(s, Cancelled(s, topic), topic, i);
  }

  lemma UnsubscribeIsFreshIff(cfg: Config, s: Sys, topic: string, a: Action)
    requires Inv(cfg, s) && NothingStale(s)
    requires a == CancelUnsubscribe(topic) || a == Unsubscribe(topic)
    ensures NothingStale(NextCall(cfg, s, a)) <==> Gentle(s, a)
  {
    hide Accounted, NothingLost;
    var t := NextCall(cfg, s, a);
    if topic in s.ops { assert OpOk(s, topic, s.ops[topic]); }
    if t != s {
      var i := if a.Unsubscribe? then s.book.routing[topic] else OpClient(s.ops[topic]);
      assert FreshConn(s, i, s.conns[i]);
      ShrunkIsFreshIffTakenBack(s, t, topic, i);
    }
  }

  /**
   A cancel or an unsubscribe leaves something stale exactly when the peer has, or the replay will give it, the
   topic.
   */
  lemma CancelIsFreshIffGentle(cfg: Config, s: Sys, topic: string, a: Action)
    requires Inv(cfg, s) && NothingStale(s)
    requires a == CancelSubscribe(topic) || a == CancelUnsubscribe(topic) || a == Unsubscribe(topic)
    ensures NothingStale(NextCall(cfg, s, a)) <==> Gentle(s, a)
  {
    if !a.CancelSubscribe? {
      UnsubscribeIsFreshIff(cfg, s, topic, a);
    } else if topic in s.ops && !s.ops[topic].Unsubscribing? {
      CancelledIsFreshIff(cfg, s, topic);
      hide NothingStale, Accounted, NothingLost;
      StopIsFreshIff(Cancelled(s, topic), OpClient(s.ops[topic]));
    }
  }

  lemma StepIsFreshIffGentle(cfg: Config, s: Sys, a: Action)
    requires Inv(cfg, s) && NothingStale(s)
    ensures NothingStale(Next(cfg, s, a)) <==> Gentle(s, a)
  {
    match a
    case Subscribe(t, url, msg) => SubscribeKeepsFresh(cfg, s, t, url, msg);
    case SendSubscribe(t) => SendKeepsFresh(cfg, s, t, a);
    case SendUnsubscribe(t) => SendKeepsFresh(cfg, s, t, a);
    case StartClient(t) => StartKeepsFresh(cfg, s, t);
    case SeeReady(t) => StartKeepsFresh(cfg, s, t);
    case CancelSubscribe(t) => CancelIsFreshIffGentle(cfg, s, t, a);
    case CancelUnsubscribe(t) => CancelIsFreshIffGentle(cfg, s, t, a);
    case Unsubscribe(t) => CancelIsFreshIffGentle(cfg, s, t, a);
    case _ => if a.idx < |s.conns| { ConnStepKeepsFresh(cfg, s, a.idx, a); }
  }

  ghost predicate GentleRun(cfg: Config, s: Sys, acts: seq<Action>)
    decreases |acts|
  {
    acts == [] || (WellShaped(s) && Gentle(s, acts[0]) && GentleRun(cfg, Next(cfg, s, acts[0]), acts[1..]))
  }

  lemma {:induction false} GentleRunKeepsFresh(cfg: Config, s: Sys, acts: seq<Action>, end: Sys)
    requires Inv(cfg, s) && NothingStale(s) && IsRun(cfg, s, acts, end) && GentleRun(cfg, s, acts)
    ensures Inv(cfg, end) && NothingStale(end)
    decreases |acts|
  {
    if acts != [] {
      StepKeepsInv(cfg, s, acts[0]);
      StepIsFreshIffGentle(cfg, s, acts[0]);
      GentleRunKeepsFresh(cfg, Next(cfg, s, acts[0]), acts[1..], end);
    }
  }

  /** After a gentle run the peer of a reading client holds, at quiescence, exactly the topics routed to it. */
  lemma QuiescentServerIsExact(cfg: Config, acts: seq<Action>, s: Sys, i: nat)
    requires IsRun(cfg, START, acts, s) && GentleRun(cfg, START, acts) && s.ops == map[]
    requires i < |s.conns| && s.conns[i].link == Up && !s.conns[i].broken
    ensures s.conns[i].server == Routed(s.book, i)
  {
    GentleRunKeepsFresh(cfg, START, acts, s);
    QuiescentServerHasEveryTopic(cfg, acts, s, i);
    assert FreshConn(s, i, s.conns[i]);
  }

  /**
   The replay race: unsubscribing a topic that is still on the replay's list ends with the peer asked for an
   unrouted topic.
   */
  lemma ReplayResurrectsTopic(cfg: Config, s: Sys, topic: string)
    requires Inv(cfg, s) && topic !in s.ops && topic in s.book.routing
    requires var c := s.conns[s.book.routing[topic]]; Live(c) && InReplay(c, topic)
    ensures
      var i := s.book.routing[topic];
      var t1 := Next(cfg, s, Unsubscribe(topic));
      WellShaped(t1) &&
      var t2 := Next(cfg, t1, SendUnsubscribe(topic));
      WellShaped(t2) &&
      var t3 := Next(cfg, t2, ReplayOne(i, topic));
      i < |t3.conns| && topic !in t3.ops && topic !in t3.book.routing && topic in t3.conns[i].server
  {
    var i := s.book.routing[topic];
    var t1 := Next(cfg, s, Unsubscribe(topic));
    StepKeepsInv(cfg, s, Unsubscribe(topic));
    StepKeepsInv(cfg, t1, SendUnsubscribe(topic));
    Unrouted(cfg, s, topic);
    Shape(cfg, s);
    Shape(cfg, t1);
    SentUnsubscribe(cfg, t1, topic);
    Shape(cfg, Next(cfg, t1, SendUnsubscribe(topic)));
    hide Inv, Next, WellShaped;
    ConnStep(cfg, Next(cfg, t1, SendUnsubscribe(topic)), i, ReplayOne(i, topic));
  }

  lemma Unrouted(cfg: Config, s: Sys, topic: string)
    requires WellShaped(s) && topic !in s.ops && topic in s.book.routing
    ensures
      var t := Next(cfg, s, Unsubscribe(topic));
      && topic !in t.book.routing && t.conns == s.conns
      && topic in t.ops && t.ops[topic] == Unsubscribing(s.book.routing[topic])
  {
  }

  lemma SentUnsubscribe(cfg: Config, s: Sys, topic: string)
    requires WellShaped(s) && topic in s.ops && s.ops[topic].Unsubscribing?
    ensures
      var i := s.ops[topic].idx;
      Next(cfg, s, SendUnsubscribe(topic)) == WithConn(Done(s, topic), i, AskToStop(s.conns[i], topic))
  {
  }

  /** The pool after a Subscribe to topic "a" that spawned a client, which is now in state c. */
  function Spawned(cfg: Config, c: Conn, ops: map<string, Op>): Sys {
    Sys(Book(map["a" := 0], map["a" := Subscription("m", 0)], [1], [cfg.publicURL]), [c], ops, [0],
        map["a" := Wish("", "m")])
  }

  lemma SpawnRun(cfg: Config)
    ensures
      IsRun(cfg, START, [] + [Subscribe("a", "", "m")],
            Spawned(cfg, NEW_CONN, map["a" := Subscribing(Placement(0, false, true))]))
  {
    var s1 := Next(cfg, START, Subscribe("a", "", "m"));
    assert s1 == Spawned(cfg, NEW_CONN, map["a" := Subscribing(Placement(0, false, true))]);
    RunGrows(cfg, START, [], START, Subscribe("a", "", "m"));
  }

  lemma StartRun(cfg: Config)
    ensures
      IsRun(cfg, START, [] + [Subscribe("a", "", "m")] + [StartClient("a")],
            Spawned(cfg, NEW_CONN.(started := true), map["a" := AwaitingReady(0)]))
  {
    SpawnRun(cfg);
    var s1 := Spawned(cfg, NEW_CONN, map["a" := Subscribing(Placement(0, false, true))]);
    assert Next(cfg, s1, StartClient("a")) == Spawned(cfg, NEW_CONN.(started := true), map["a" := AwaitingReady(0)]);
    RunGrows(cfg, START, [] + [Subscribe("a", "", "m")], s1, StartClient("a"));
  }

  /**
   A client reading on its first connection, then dropped and dialled again, up to the snapshot of the one
   routed topic.
   */
  lemma ReplayListIsReached(cfg: Config) returns (acts: seq<Action>, s: Sys)
    ensures IsRun(cfg, START, acts, s) && Inv(cfg, s) && "a" !in s.ops && "a" in s.book.routing
    ensures var c := s.conns[s.book.routing["a"]]; Live(c) && InReplay(c, "a")
  {
    StartRun(cfg);
    acts := [] + [Subscribe("a", "", "m")] + [StartClient("a")];
    s := Spawned(cfg, NEW_CONN.(started := true), map["a" := AwaitingReady(0)]);
    RunKeepsInv(cfg, START, acts, s);
    Shape(cfg, s);
    assert TopicsOf(s.book, 0) == {"a"};
    hide Inv, WellShaped, Next, IsRun, TopicsOf;
    acts, s := FirstConnection(cfg, acts, s);
    acts, s := SecondDial(cfg, acts, s);
    RunKeepsInv(cfg, START, acts, s);
  }

  lemma FirstConnection(cfg: Config, before: seq<Action>, s: Sys) returns (acts: seq<Action>, end: Sys)
    requires IsRun(cfg, START, before, s) && WellShaped(s) && TopicsOf(s.book, 0) == {"a"}
    requires s == Spawned(cfg, NEW_CONN.(started := true), map["a" := AwaitingReady(0)])
    ensures IsRun(cfg, START, acts, end) && WellShaped(end)
    ensures end == Spawned(cfg, NEW_CONN.(started := true, ready := true, link := Up, server := {"a"}), map[])
  {
    hide WellShaped, Next, IsRun, TopicsOf;
    acts, end := before, s;
    acts, end := ConnGrows(cfg, START, acts, end, 0, BeginDial(0));
    acts, end := ConnGrows(cfg, START, acts, end, 0, Dial(0));
    acts, end := ConnGrows(cfg, START, acts, end, 0, Snapshot(0));
    acts, end := ConnGrows(cfg, START, acts, end, 0, ReplayOne(0, "a"));
    var none: set<string> := {};
    assert {"a"} - {"a"} == none && none + {"a"} == {"a"};
    assert end.conns[0] == NEW_CONN.(started := true, link := Replaying({}), server := {"a"});
    acts, end := ConnGrows(cfg, START, acts, end, 0, ReplayDone(0));
    SeeReadyReturns(cfg, end);
    RunGrows(cfg, START, acts, end, SeeReady("a"));
    acts, end := acts + [SeeReady("a")], Next(cfg, end, SeeReady("a"));
  }

  lemma SeeReadyReturns(cfg: Config, s: Sys)
    requires WellShaped(s) && s.ops == map["a" := AwaitingReady(0)] && |s.conns| == 1 && s.conns[0].ready
    ensures Next(cfg, s, SeeReady("a")) == s.(ops := map[]) && WellShaped(s.(ops := map[]))
  {
    hide Consistent;
    assert Done(s, "a").ops == map[];
  }

  lemma SecondDial(cfg: Config, before: seq<Action>, s: Sys) returns (acts: seq<Action>, end: Sys)
    requires IsRun(cfg, START, before, s) && WellShaped(s) && TopicsOf(s.book, 0) == {"a"}
    requires s == Spawned(cfg, NEW_CONN.(started := true, ready := true, link := Up, server := {"a"}), map[])
    ensures IsRun(cfg, START, acts, end)
    ensures end == Spawned(cfg, NEW_CONN.(started := true, ready := true, link := Replaying({"a"})), map[])
  {
    hide WellShaped, Next, IsRun, TopicsOf;
    acts, end := before, s;
    acts, end := ConnGrows(cfg, START, acts, end, 0, Drop(0));
    acts, end := ConnGrows(cfg, START, acts, end, 0, BeginDial(0));
    acts, end := ConnGrows(cfg, START, acts, end, 0, Dial(0));
    acts, end := ConnGrows(cfg, START, acts, end, 0, Snapshot(0));
    assert end.conns[0] == NEW_CONN.(started := true, ready := true, link := Replaying({"a"}));
  }

  // ---------------------------------------------------------------- where the pool falls short

  /**
   Overlapping calls on one topic: a Subscribe that made the route is still in its lock-free part
   when an Unsubscribe runs; if that Subscribe is then cancelled, the count falls one below the truth.
   */
  lemma OverlapDoubleDecrements(cfg: Config, b: Book, leaks: seq<nat>, topic: string)
    requires Accounted(cfg, b, leaks) && topic in b.routing
    ensures
      var i := b.routing[topic];
      var c := RolledBack(Unsubscribed(b, topic), topic, i, false);
      c.counts[i] == |Routed(c, i)| + leaks[i] - 1
  {
    var i := b.routing[topic];
    RouteRemoved(b, Unsubscribed(b, topic), topic, i);
    var c := RolledBack(Unsubscribed(b, topic), topic, i, false);
    assert Routed(c, i) == Routed(Unsubscribed(b, topic), i);
  }

  /** A rollback keeps the books balanced exactly when the topic is still routed to the client it counts down. */
  lemma RollbackBalancesIff(cfg: Config, b: Book, leaks: seq<nat>, topic: string, idx: nat, existed: bool)
    requires Accounted(cfg, b, leaks) && idx < |b.counts|
    ensures
      Accounted(cfg, RolledBack(b, topic, idx, existed), if existed then leaks[idx := leaks[idx] + 1] else leaks)
      <==> topic in b.routing && b.routing[topic] == idx
  {
    var c := RolledBack(b, topic, idx, existed);
    if topic !in b.routing {
      assert Routed(c, idx) == Routed(b, idx);
    } else {
      RouteRemoved(b, c, topic, b.routing[topic]);
    }
  }
}

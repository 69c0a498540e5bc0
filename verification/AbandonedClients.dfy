/**
 Clients the pool keeps although nobody will ever connect them again: those whose spawning call was
 cancelled, and those whose spawning call's context is done.
 */
module AbandonedClients {
  import opened Pool
  import opened PoolRuns

  /** A call is about to start the Connect loop of client i. */
  predicate HasSpawner(s: Sys, i: nat) {
    exists t :: t in s.ops && Spawning(s.ops[t]) && OpClient(s.ops[t]) == i
  }

  /** The Connect loop of client i was never started and nobody will, or its context is done. */
  ghost predicate Abandoned(s: Sys, i: nat) {
    i < |s.conns| && (s.conns[i].stopped || (!s.conns[i].started && !HasSpawner(s, i)))
  }

  /** The steps that end the context of client i's Connect loop. */
  predicate EndsContext(s: Sys, a: Action, i: nat) {
    || a == Stop(i)
    || (a.CancelSubscribe? && a.topic in s.ops && IsSpawner(s.ops[a.topic]) && OpClient(s.ops[a.topic]) == i)
  }

  /**
   Cancelling the subscribe that spawned a client, before or after it started the Connect loop, abandons the
   client.
   */
  lemma CancelledSpawnAbandons(cfg: Config, s: Sys, topic: string)
    requires Inv(cfg, s) && topic in s.ops && IsSpawner(s.ops[topic])
    ensures Abandoned(NextCall(cfg, s, CancelSubscribe(topic)), OpClient(s.ops[topic]))
  {
    assert OpOk(s, topic, s.ops[topic]);
  }

  /** Two states alike but for at most the same calls still about to start a loop. */
  lemma SameSpawners(s: Sys, t: Sys, i: nat)
    requires i < |s.conns| <= |t.conns|
    requires t.conns[i].started == s.conns[i].started && t.conns[i].stopped == s.conns[i].stopped
    requires forall u :: u in s.ops && Spawning(s.ops[u]) && OpClient(s.ops[u]) == i ==>
        u in t.ops && t.ops[u] == s.ops[u]
    requires forall u :: u in t.ops && Spawning(t.ops[u]) && OpClient(t.ops[u]) == i ==>
        u in s.ops && s.ops[u] == t.ops[u]
    ensures Abandoned(t, i) <==> Abandoned(s, i)
  {
    if u :| u in s.ops && Spawning(s.ops[u]) && OpClient(s.ops[u]) == i { assert t.ops[u] == s.ops[u]; }
    if u :| u in t.ops && Spawning(t.ops[u]) && OpClient(t.ops[u]) == i { assert s.ops[u] == t.ops[u]; }
  }

  lemma SubscribeAbandonsNone(cfg: Config, s: Sys, a: Action, i: nat)
    requires Inv(cfg, s) && a.Subscribe? && i < |Next(cfg, s, a).conns|
    ensures Abandoned(Next(cfg, s, a), i) <==> i < |s.conns| && Abandoned(s, i)
  {
    if a.topic !in s.ops {
      SubscribeCalls(cfg, s, a);
      hide Inv, WellShaped, Next, Abandoned;
      var t := Next(cfg, s, a);
      if i < |s.conns| { SameSpawners(s, t, i); } else { NewHasSpawner(t, a.topic, i); }
    }
  }

  lemma SubscribeCalls(cfg: Config, s: Sys, a: Action)
    requires Inv(cfg, s) && a.Subscribe? && a.topic !in s.ops
    ensures
      var t := Next(cfg, s, a);
      && a.topic in t.ops && t.ops == s.ops[a.topic := t.ops[a.topic]] && t.ops[a.topic].Subscribing?
      && t.conns == (if Spawning(t.ops[a.topic]) then s.conns + [NEW_CONN] else s.conns)
      && (Spawning(t.ops[a.topic]) ==> OpClient(t.ops[a.topic]) == |s.conns|)
  {
    SubscribeIsAccounted(cfg, s.book, s.leaks, a.url, a.topic, a.msg);
    hide Accounted, NothingLost;
  }

  lemma NewHasSpawner(s: Sys, topic: string, i: nat)
    requires topic in s.ops && Spawning(s.ops[topic]) && OpClient(s.ops[topic]) == i
    requires i < |s.conns| && s.conns[i] == NEW_CONN
    ensures !Abandoned(s, i)
  {
    assert HasSpawner(s, i);
  }

  lemma StartAbandonsNone(cfg: Config, s: Sys, a: Action, i: nat)
    requires Inv(cfg, s) && a.StartClient? && i < |s.conns|
    ensures Abandoned(Next(cfg, s, a), i) <==> Abandoned(s, i)
  {
    hide Accounted, NothingLost;
    if a.topic in s.ops && Spawning(s.ops[a.topic]) {
      if OpClient(s.ops[a.topic]) != i { SameSpawners(s, Next(cfg, s, a), i); }
    }
  }

  lemma CancelAbandons(cfg: Config, s: Sys, a: Action, i: nat)
    requires Inv(cfg, s) && a.CancelSubscribe? && i < |s.conns|
    ensures Abandoned(Next(cfg, s, a), i) <==> Abandoned(s, i) || EndsContext(s, a, i)
  {
    hide Accounted, NothingLost;
    if !EndsContext(s, a, i) { SameSpawners(s, Next(cfg, s, a), i); }
  }

  lemma OtherCallAbandonsNone(cfg: Config, s: Sys, a: Action, i: nat)
    requires Inv(cfg, s) && i < |s.conns|
    requires a.SendSubscribe? || a.SeeReady? || a.Unsubscribe? || a.CancelUnsubscribe? || a.SendUnsubscribe?
    ensures Abandoned(Next(cfg, s, a), i) <==> Abandoned(s, i)
  {
    hide Accounted, NothingLost;
    SameSpawners(s, Next(cfg, s, a), i);
  }

  lemma ConnAbandons(cfg: Config, s: Sys, a: Action, i: nat)
    requires WellShaped(s) && OfConnection(a) && i < |s.conns|
    ensures Abandoned(Next(cfg, s, a), i) <==> Abandoned(s, i) || EndsContext(s, a, i)
  {
    hide Consistent;
    SameCalls(s, Next(cfg, s, a), i);
  }

  lemma SameCalls(s: Sys, t: Sys, i: nat)
    requires t.ops == s.ops
    ensures HasSpawner(t, i) <==> HasSpawner(s, i)
  {
  }

  /** A client is abandoned by the end of its context, and by nothing else; and nothing brings it back. */
  lemma AbandonedStep(cfg: Config, s: Sys, a: Action, i: nat)
    requires Inv(cfg, s) && WellShaped(s) && i < |Next(cfg, s, a).conns|
    ensures Abandoned(Next(cfg, s, a), i) <==> Abandoned(s, i) || (i < |s.conns| && EndsContext(s, a, i))
  {
    if !a.Subscribe? { SameClients(cfg, s, a); }
    hide Inv, WellShaped, Next, Abandoned;
    match a
    case Subscribe(_, _, _) => SubscribeAbandonsNone(cfg, s, a, i);
    case StartClient(_) => StartAbandonsNone(cfg, s, a, i);
    case CancelSubscribe(_) => CancelAbandons(cfg, s, a, i);
    case SendSubscribe(_) => OtherCallAbandonsNone(cfg, s, a, i);
    case SeeReady(_) => OtherCallAbandonsNone(cfg, s, a, i);
    case Unsubscribe(_) => OtherCallAbandonsNone(cfg, s, a, i);
    case CancelUnsubscribe(_) => OtherCallAbandonsNone(cfg, s, a, i);
    case SendUnsubscribe(_) => OtherCallAbandonsNone(cfg, s, a, i);
    case _ => ConnAbandons(cfg, s, a, i);
  }

  lemma SameClients(cfg: Config, s: Sys, a: Action)
    requires WellShaped(s) && !a.Subscribe?
    ensures |Next(cfg, s, a).conns| == |s.conns|
  {
    hide Consistent;
  }

  lemma ConnsGrow(cfg: Config, s: Sys, a: Action)
    requires WellShaped(s)
    ensures |s.conns| <= |Next(cfg, s, a).conns|
  {
    hide Consistent;
  }

  /** The Connect loop of an abandoned client never dials again, in any continuation. */
  lemma {:induction false} AbandonedForEver(cfg: Config, s: Sys, acts: seq<Action>, end: Sys, i: nat)
    requires Inv(cfg, s) && Abandoned(s, i) && IsRun(cfg, s, acts, end)
    ensures Inv(cfg, end) && Abandoned(end, i) && !MayDial(end.conns[i])
    decreases |acts|
  {
    hide NextCall, NextConn, Accounted, NothingLost;
    if acts != [] {
      StepKeepsInv(cfg, s, acts[0]);
      ConnsGrow(cfg, s, acts[0]);
      AbandonedStep(cfg, s, acts[0], i);
      AbandonedForEver(cfg, Next(cfg, s, acts[0]), acts[1..], end, i);
    }
  }

  /** How far a connection is from the top of the Connect loop. */
  function ToTop(l: Link): nat {
    match l
    case Down => 0
    case Dialling => 1
    case Up => 1
    case Replaying(_) => 2
    case Dialled => 3
  }

  /** A step that takes a running connection closer to the top of its loop. */
  function TowardsTop(c: Conn, i: nat, topic: string): Action {
    match c.link
    case Dialling => DialFailed(i)
    case Up => Drop(i)
    case Replaying(todo) => if todo == {} then ReplayDone(i) else ReplayOne(i, topic)
    case _ => Snapshot(i)
  }

  lemma StartedCanDial(cfg: Config, s: Sys, i: nat) returns (acts: seq<Action>, end: Sys)
    requires Inv(cfg, s) && i < |s.conns| && !Abandoned(s, i) && !s.conns[i].started
    ensures IsRun(cfg, s, acts, end) && Inv(cfg, end) && i < |end.conns| && MayDial(end.conns[i]) && end.book == s.book
  {
    var t :| t in s.ops && Spawning(s.ops[t]) && OpClient(s.ops[t]) == i;
    StepKeepsInv(cfg, s, StartClient(t));
    end := Next(cfg, s, StartClient(t));
    hide Accounted, NothingLost;
    RunGrows(cfg, s, [], s, StartClient(t));
    acts := [] + [StartClient(t)];
  }

  lemma TowardsTopIsNearer(b: Book, i: nat, c: Conn, topic: string)
    requires c.link != Down && (c.link.Replaying? && c.link.todo != {} ==> topic in c.link.todo)
    ensures
      var d := NextConn(b, i, c, TowardsTop(c, i, topic));
      && d.started == c.started && d.stopped == c.stopped && ToTop(d.link) <= ToTop(c.link)
      && (ToTop(d.link) == ToTop(c.link) ==> d.link.Replaying? && c.link.Replaying? && |d.link.todo| < |c.link.todo|)
  {
  }

  /** A client that is not abandoned can come to dial again. */
  lemma {:induction false} CanDial(cfg: Config, s: Sys, i: nat) returns (acts: seq<Action>, end: Sys)
    requires Inv(cfg, s) && i < |s.conns| && !Abandoned(s, i)
    ensures IsRun(cfg, s, acts, end) && Inv(cfg, end) && i < |end.conns| && MayDial(end.conns[i])
    ensures s.conns[i].link.Down? ==> end.book == s.book
    decreases ToTop(s.conns[i].link), if s.conns[i].link.Replaying? then |s.conns[i].link.todo| else 0
  {
    Shape(cfg, s);
    var c := s.conns[i];
    if !c.started {
      acts, end := StartedCanDial(cfg, s, i);
    } else if c.link == Down {
      acts, end := [], s;
    } else {
      hide Inv, WellShaped, NextConn, TowardsTop, ToTop, HasSpawner, Next;
      var topic := "";
      if c.link.Replaying? && c.link.todo != {} { topic :| topic in c.link.todo; }
      var a := TowardsTop(c, i, topic);
      TowardsTopIsNearer(s.book, i, c, topic);
      ConnOfTowardsTop(c, i, topic);
      ConnStep(cfg, s, i, a);
      StepKeepsInv(cfg, s, a);
      var rest;
      rest, end := CanDial(cfg, Next(cfg, s, a), i);
      RunGrows(cfg, s, [], s, a);
      RunsCompose(cfg, s, [] + [a], Next(cfg, s, a), rest, end);
      acts := [] + [a] + rest;
    }
  }

  lemma ConnOfTowardsTop(c: Conn, i: nat, topic: string)
    ensures var a := TowardsTop(c, i, topic); OfConnection(a) && a.idx == i
  {
  }

  /** A client never dials again exactly when it was never started and nobody will start it, or its context is done. */
  lemma NeverDialsAgainIff(cfg: Config, s: Sys, i: nat)
    requires Inv(cfg, s) && i < |s.conns|
    ensures Abandoned(s, i) <==>
      forall acts, end :: IsRun(cfg, s, acts, end) ==> i < |end.conns| && !MayDial(end.conns[i])
  {
    hide Inv, Abandoned, MayDial;
    if Abandoned(s, i) {
      forall acts, end | IsRun(cfg, s, acts, end) ensures i < |end.conns| && !MayDial(end.conns[i]) {
        AbandonedForEver(cfg, s, acts, end, i);
        AbandonedExists(end, i);
      }
    } else {
      var acts, end := CanDial(cfg, s, i);
    }
  }

  lemma AbandonedExists(s: Sys, i: nat)
    requires Abandoned(s, i)
    ensures i < |s.conns|
  {
  }

  /** An abandoned client whose last connection is gone: nothing is ever sent on its behalf again. */
  ghost predicate Deaf(s: Sys, i: nat) {
    Abandoned(s, i) && s.conns[i].link == Down && s.conns[i].server == {}
  }

  lemma StepKeepsDeaf(cfg: Config, s: Sys, a: Action, i: nat)
    requires Inv(cfg, s) && Deaf(s, i)
    ensures Deaf(Next(cfg, s, a), i)
  {
    ConnsGrow(cfg, s, a);
    AbandonedStep(cfg, s, a, i);
    hide Accounted, NothingLost, Abandoned;
    DownStaysDown(cfg, s, a, i);
  }

  /** Of the calls, only a cancel touches a connection that is down, and it leaves it down. */
  lemma CallLeavesDown(cfg: Config, s: Sys, a: Action, i: nat)
    requires WellShaped(s) && i < |s.conns| && !OfConnection(a)
    requires s.conns[i].link == Down && s.conns[i].server == {}
    ensures
      var t := NextCall(cfg, s, a);
      i < |t.conns| && t.conns[i].link == Down && t.conns[i].server == {}
  {
    hide Consistent, RolledBack, Subscribed;
  }

  lemma DownStaysDown(cfg: Config, s: Sys, a: Action, i: nat)
    requires WellShaped(s) && i < |s.conns| && !MayDial(s.conns[i])
    requires s.conns[i].link == Down && s.conns[i].server == {}
    ensures i < |Next(cfg, s, a).conns|
    ensures Next(cfg, s, a).conns[i].link == Down && Next(cfg, s, a).conns[i].server == {}
  {
    if !OfConnection(a) { CallLeavesDown(cfg, s, a, i); }
    hide NextCall, Consistent;
  }

  lemma {:induction false} DeafForEver(cfg: Config, s: Sys, acts: seq<Action>, end: Sys, i: nat)
    requires Inv(cfg, s) && Deaf(s, i) && IsRun(cfg, s, acts, end)
    ensures Inv(cfg, end) && Deaf(end, i)
    decreases |acts|
  {
    hide NextCall, NextConn, Accounted, NothingLost;
    if acts != [] {
      StepKeepsInv(cfg, s, acts[0]);
      StepKeepsDeaf(cfg, s, acts[0], i);
      DeafForEver(cfg, Next(cfg, s, acts[0]), acts[1..], end, i);
    }
  }

  lemma DialServes(b: Book, i: nat, c: Conn, topic: string)
    requires MayDial(c) && topic in TopicsOf(b, i)
    ensures
      var d := NextConn(b, i, NextConn(b, i, NextConn(b, i, c, BeginDial(i)), Dial(i)), Snapshot(i));
      topic in NextConn(b, i, d, ReplayOne(i, topic)).server
  {
    hide TopicsOf;
  }

  /** From the top of the loop: a dial that succeeds, the snapshot, and the replay of one routed topic. */
  lemma ReplayServes(cfg: Config, s: Sys, topic: string) returns (acts: seq<Action>, end: Sys)
    requires Inv(cfg, s) && topic in s.book.routing && MayDial(s.conns[s.book.routing[topic]])
    ensures
      var i := s.book.routing[topic];
      IsRun(cfg, s, acts, end) && i < |end.conns| && topic in end.conns[i].server
  {
    Shape(cfg, s);
    var i := s.book.routing[topic];
    assert topic in TopicsOf(s.book, i);
    DialServes(s.book, i, s.conns[i], topic);
    hide Inv, WellShaped, Next, IsRun, TopicsOf, NextConn;
    acts, end := [], s;
    RunOfNothing(cfg, s);
    acts, end := ConnGrows(cfg, s, acts, end, i, BeginDial(i));
    acts, end := ConnGrows(cfg, s, acts, end, i, Dial(i));
    acts, end := ConnGrows(cfg, s, acts, end, i, Snapshot(i));
    acts, end := ConnGrows(cfg, s, acts, end, i, ReplayOne(i, topic));
  }

  /**
   A topic routed to a client without a connection can still reach that client's server exactly when the client
   is not abandoned.
   */
  lemma ServedIffNotAbandoned(cfg: Config, s: Sys, topic: string)
    requires Inv(cfg, s) && topic in s.book.routing
    requires var c := s.conns[s.book.routing[topic]]; c.link == Down && c.server == {}
    ensures
      var i := s.book.routing[topic];
      (exists acts, end :: IsRun(cfg, s, acts, end) && i < |end.conns| && topic in end.conns[i].server) <==>
          !Abandoned(s, i)
  {
    var i := s.book.routing[topic];
    if Abandoned(s, i) {
      forall acts, end | IsRun(cfg, s, acts, end) ensures i < |end.conns| && topic !in end.conns[i].server {
        DeafForEver(cfg, s, acts, end, i);
      }
    } else {
      var first, mid := CanDial(cfg, s, i);
      var second, end := ReplayServes(cfg, mid, topic);
      RunsCompose(cfg, s, first, mid, second, end);
    }
  }

  /**
   The pool goes on using a deaf client: a Subscribe for which it is the first with room returns
   without an error, and in no continuation does that client's server get the topic.
   */
  lemma DeafClientSwallowsTopic(cfg: Config, s: Sys, i: nat, topic: string, url: string, msg: string)
    requires Inv(cfg, s) && Deaf(s, i) && topic !in s.ops && topic !in s.book.routing
    requires FirstFit(cfg, s.book, if url == "" then cfg.publicURL else url, 0) == i
    ensures
      var t1 := Next(cfg, s, Subscribe(topic, url, msg));
      WellShaped(t1) &&
      var t2 := Next(cfg, t1, SendSubscribe(topic));
      && topic !in t2.ops && RoutedTo(t2, topic, i) && Deaf(t2, i)
      && forall acts, end :: IsRun(cfg, t2, acts, end) ==> i < |end.conns| && topic !in end.conns[i].server
  {
    hide Accounted, NothingLost;
    var t1 := Next(cfg, s, Subscribe(topic, url, msg));
    StepKeepsInv(cfg, s, Subscribe(topic, url, msg));
    StepKeepsDeaf(cfg, s, Subscribe(topic, url, msg), i);
    var t2 := Next(cfg, t1, SendSubscribe(topic));
    StepKeepsInv(cfg, t1, SendSubscribe(topic));
    StepKeepsDeaf(cfg, t1, SendSubscribe(topic), i);
    forall acts, end | IsRun(cfg, t2, acts, end) ensures i < |end.conns| && topic !in end.conns[i].server {
      DeafForEver(cfg, t2, acts, end, i);
    }
  }

  /** The pool after a first Subscribe that was cancelled, before or after it started the Connect loop. */
  function AfterCancelledSpawn(cfg: Config, started: bool): Sys {
    Sys(Book(map[], map[], [0], [cfg.publicURL]), [NEW_CONN.(started := started, stopped := true)], map[], [0],
        map["a" := Wish("", "m")])
  }

  function CancelledSpawn(started: bool): seq<Action> {
    [] + [Subscribe("a", "", "m")] + (if started then [StartClient("a")] else []) + [CancelSubscribe("a")]
  }

  lemma CancelledSpawnRun(cfg: Config, started: bool)
    ensures IsRun(cfg, START, CancelledSpawn(started), AfterCancelledSpawn(cfg, started))
  {
    SpawnRun(cfg);
    StartRun(cfg);
    var acts := [] + [Subscribe("a", "", "m")] + (if started then [StartClient("a")] else []);
    var s := Spawned(cfg, NEW_CONN.(started := started),
                     map["a" := if started then AwaitingReady(0) else Subscribing(Placement(0, false, true))]);
    assert !started ==> acts == [] + [Subscribe("a", "", "m")];
    CancelSpawned(cfg, s, started);
    RunGrows(cfg, START, acts, s, CancelSubscribe("a"));
  }

  lemma CancelSpawned(cfg: Config, s: Sys, started: bool)
    requires
      s == Spawned(cfg, NEW_CONN.(started := started),
                   map["a" := if started then AwaitingReady(0) else Subscribing(Placement(0, false, true))])
    ensures WellShaped(s) && Next(cfg, s, CancelSubscribe("a")) == AfterCancelledSpawn(cfg, started)
  {
    var end := Next(cfg, s, CancelSubscribe("a"));
    assert end.book == AfterCancelledSpawn(cfg, started).book && end.ops == map[];
  }

  /**
   It happens from the start, whenever a place can be had at all: a first Subscribe is cancelled, before or
   after it started its client, and the next one, to any topic, returns without an error and is never served.
   */
  lemma AbandonedClientSwallowsTopic(cfg: Config, started: bool, topic: string, msg: string)
    requires cfg.maxPairs >= 1
    ensures
      var s := AfterCancelledSpawn(cfg, started);
      && IsRun(cfg, START, CancelledSpawn(started), s)
      && Inv(cfg, s) &&
      var t1 := Next(cfg, s, Subscribe(topic, "", msg));
      WellShaped(t1) &&
      var t2 := Next(cfg, t1, SendSubscribe(topic));
      && topic !in t2.ops && RoutedTo(t2, topic, 0)
      && forall acts, end :: IsRun(cfg, t2, acts, end) ==> 0 < |end.conns| && topic !in end.conns[0].server
  {
    var s := AfterCancelledSpawn(cfg, started);
    CancelledSpawnRun(cfg, started);
    RunKeepsInv(cfg, START, CancelledSpawn(started), s);
    assert HasRoom(cfg, s.book, cfg.publicURL, 0);
    assert FirstFit(cfg, s.book, TargetOf(cfg, ""), 0) == 0;
    assert Deaf(s, 0) && topic !in s.ops && topic !in s.book.routing;
    hide Inv, Deaf, FirstFit, IsRun, Next, AfterCancelledSpawn, WellShaped;
    DeafClientSwallowsTopic(cfg, s, 0, topic, "", msg);
  }
}

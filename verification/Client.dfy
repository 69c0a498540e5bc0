/**
 The connection flag and RoundTrip of pkg/ws/client.go, over the request dispatcher.

 One action is one lock-protected section or one channel operation. RoundTrip
 checks the flag, registers, sends, checks the flag again and then waits; the
 Connect loop clears the flag, aborts the dispatcher, and may dial again.
 */
module Client {
  import opened Wrappers
  import D = Dispatcher

  /** Where the Connect loop is: not connected, reading, or between clearing the flag and AbortAll. */
  datatype Loop = Idle | Reading | Lost

  /** `epoch` counts successful dials, `done` is the closed done channel. */
  datatype Link = Link(connected: bool, epoch: nat, loop: Loop, done: bool)

  const NEW_LINK := Link(false, 0, Idle, false)

  function Dialled(l: Link): Link {
    l.(connected := true, epoch := l.epoch + 1, loop := Reading)
  }

  function Disconnected(l: Link): Link {
    l.(connected := false, loop := Lost)
  }

  /** What SendJSON did: put the payload on connection number `epoch`, or skipped it silently while disconnected. */
  datatype Write = Written(epoch: nat) | Skipped(epoch: nat)

  function WriteOn(l: Link): Write {
    if l.connected then Written(l.epoch) else Skipped(l.epoch)
  }

  /** The connection-state fields of the client; `link.epoch` and `link.loop` record what the goroutines have done. */
  class Client {
    var link: Link

    constructor ()
      ensures link == NEW_LINK
    {
      link := NEW_LINK;
    }

    method Dial()
      requires link.loop == Idle
      modifies this
      ensures link == Dialled(old(link))
    {
      link := link.(connected := true);
      link := link.(epoch := link.epoch + 1, loop := Reading);
    }

    method ConnectionLost()
      requires link.loop == Reading
      modifies this
      ensures link == Disconnected(old(link))
    {
      link := link.(connected := false);
      link := link.(loop := Lost);
    }

    /** `writeOk` is the outcome of the socket write, made only when connected. */
    method SendJSON(writeOk: bool) returns (r: Result<Write, ()>)
      ensures r.Err? <==> link.connected && !writeOk
      ensures r.Ok? ==> r.value == WriteOn(link)
    {
      if !link.connected { return Ok(Skipped(link.epoch)); }
      if !writeOk { return Err(()); }
      r := Ok(Written(link.epoch));
    }

    method CloseConn()
      modifies this
      ensures link == old(link).(connected := false)
    {
      link := link.(connected := false);
    }
  }

  // ---------------------------------------------------------------- RoundTrip among disconnects

  /** The bytes of a response. */
  type Data = seq<bv8>

  /** What RoundTrip returns. An empty response reads as a lost connection, as in the source. */
  datatype Outcome = Answer(data: Data) | NotConnected | Refused(error: D.RegisterError) | WriteFailed | Cancelled

  datatype Phase =
    | Checked
    | Registered(ch: nat)
    | Sent(ch: nat, write: Write)
    | Waiting(ch: nat, write: Write)
    | Leaving(ch: nat, outcome: Outcome)
    | Returned(outcome: Outcome)

  datatype Call = Call(id: string, phase: Phase)

  datatype Response = Response(id: string, data: Data)

  /** `heard` are the responses that came in so far. */
  datatype Sys = Sys(link: Link, ds: D.Sys<Data>, calls: seq<Call>, heard: seq<Response>)

  datatype Action =
    | Begin(id: string)
    | Register(k: nat)
    | Send(k: nat, writeOk: bool)
    | Recheck(k: nat)
    | Wake(k: nat)
    | GiveUp(k: nat)
    | SeeDone(k: nat)
    | Cleanup(k: nat)
    | Inbound(id: string, resp: Data)
    | Deliver(claim: nat)
    | Dial
    | Drop
    | Abort
    | CloseDone
    | CloseDispatcher
    | CloseConn

  function Start(): Sys {
    Sys(NEW_LINK, D.Start(), [], [])
  }

  function Goto(s: Sys, k: nat, p: Phase): Sys
    requires k < |s.calls|
  {
    s.(calls := s.calls[k := s.calls[k].(phase := p)])
  }

  ghost function NextCall(s: Sys, k: nat, a: Action): Sys
    requires k < |s.calls|
  {
    var p := s.calls[k].phase;
    match a
    case Register(_) =>
      if !p.Checked? then s else
      var r := D.Registered(s.ds.d, s.calls[k].id).1;
      if r.Err? then Goto(s, k, Returned(Refused(r.error)))
      else Goto(s.(ds := D.Next(s.ds, D.DoRegister(s.calls[k].id))), k, Registered(r.value))
    case Send(_, writeOk) =>
      if !p.Registered? then s
      else if s.link.connected && !writeOk then Goto(s, k, Leaving(p.ch, WriteFailed))
      else Goto(s, k, Sent(p.ch, WriteOn(s.link)))
    case Recheck(_) =>
      if !p.Sent? then s
      else Goto(s, k, if s.link.connected then Waiting(p.ch, p.write) else Leaving(p.ch, NotConnected))
    case Wake(_) =>
      if !p.Waiting? || p.ch >= |s.ds.d.channels| then s
      else
        var c := s.ds.d.channels[p.ch];
        if c.buf != [] then
          Goto(s.(ds := D.Next(s.ds, D.DoReceive(p.ch))), k, Leaving(p.ch, Received(c.buf[0])))
        else if c.closed then Goto(s, k, Leaving(p.ch, NotConnected))
        else s
    case GiveUp(_) => if p.Waiting? then Goto(s, k, Leaving(p.ch, Cancelled)) else s
    case SeeDone(_) => if p.Waiting? && s.link.done then Goto(s, k, Leaving(p.ch, NotConnected)) else s
    case Cleanup(_) =>
      if p.Leaving? then Goto(s.(ds := D.Next(s.ds, D.DoCancel(p.ch))), k, Returned(p.outcome)) else s
    case _ => s
  }

  function Received(data: Data): Outcome {
    if data == [] then NotConnected else Answer(data)
  }

  ghost function Next(s: Sys, a: Action): Sys {
    match a
    case Begin(id) => s.(calls := s.calls + [Call(id, if s.link.connected then Checked else Returned(NotConnected))])
    case Inbound(id, resp) =>
      var t := s.(heard := s.heard + [Response(id, resp)]);
      if id == "" then t else t.(ds := D.Next(s.ds, D.DoClaim(id, resp)))
    case Deliver(j) => s.(ds := D.Next(s.ds, D.DoSend(j)))
    case Dial => if s.link.loop == Idle then s.(link := Dialled(s.link)) else s
    case Drop => if s.link.loop == Reading then s.(link := Disconnected(s.link)) else s
    case Abort => if s.link.loop == Lost then s.(link := s.link.(loop := Idle), ds := D.Next(s.ds, D.DoAbortAll)) else s
    case CloseDone => s.(link := s.link.(done := true))
    case CloseDispatcher => s.(ds := D.Next(s.ds, D.DoClose))
    case CloseConn => s.(link := s.link.(connected := false))
    case _ => if a.k < |s.calls| then NextCall(s, a.k, a) else s
  }

  ghost function Run(s: Sys, acts: seq<Action>): Sys
    decreases |acts|
  {
    if acts == [] then s else Run(Next(s, acts[0]), acts[1..])
  }

  /** No request id is used twice. */
  ghost predicate UniqueIds(calls: seq<Call>) {
    forall i, j :: 0 <= i < j < |calls| ==> calls[i].id != calls[j].id
  }

  /** The call owns a registration it has not yet cleaned up or received from. */
  predicate Active(p: Phase) {
    p.Registered? || p.Sent? || p.Waiting?
  }

  /** Registration ch still leads somewhere: pending, being answered, answered, or closed. */
  predicate Reachable(ds: D.Sys<Data>, ch: nat)
    requires ch < |ds.ids| == |ds.d.channels|
  {
    D.IsPending(ds, ch) || D.IsClaimed(ds, ch) || ds.d.channels[ch].buf != [] || ds.d.channels[ch].closed
  }

  predicate OwnsChannel(ds: D.Sys<Data>, c: Call) {
    (Active(c.phase) || c.phase.Leaving?) ==>
      c.phase.ch < |ds.ids| == |ds.d.channels| && ds.ids[c.phase.ch] == c.id
  }

  /** Where a call's request went, as far as its registration is still pending. */
  predicate WriteOk(link: Link, ds: D.Sys<Data>, p: Phase)
    requires Active(p) ==> p.ch < |ds.ids|
  {
    match p
    case Sent(ch, Written(e)) => 1 <= e <= link.epoch && (D.IsPending(ds, ch) ==> e == link.epoch && link.loop != Idle)
    case Sent(ch, Skipped(e)) => 1 <= e <= link.epoch && (link.connected ==> e < link.epoch)
    case Waiting(ch, Written(e)) =>
      1 <= e <= link.epoch && (D.IsPending(ds, ch) ==> e == link.epoch && link.loop != Idle)
    case Waiting(ch, Skipped(e)) => 1 <= e < link.epoch && (D.IsPending(ds, ch) ==> link.loop != Idle)
    case _ => true
  }

  ghost predicate Inv(s: Sys) {
    && D.Inv(s.ds)
    && (s.link.connected ==> s.link.loop == Reading)
    && (s.link.connected ==> s.link.epoch >= 1)
    && (forall k :: 0 <= k < |s.calls| ==> OwnsChannel(s.ds, s.calls[k]))
    && (forall k :: 0 <= k < |s.calls| && !s.calls[k].phase.Returned? ==> s.link.epoch >= 1)
    && (forall k :: 0 <= k < |s.calls| && Active(s.calls[k].phase) ==> Reachable(s.ds, s.calls[k].phase.ch))
    && (forall k :: 0 <= k < |s.calls| ==> WriteOk(s.link, s.ds, s.calls[k].phase))
  }

  /** Registrations keep their ids, and only registration n can become pending when it is new. */
  lemma DispatcherStep(ds: D.Sys<Data>, a: D.Action<Data>, ch: nat)
    requires D.Inv(ds) && ch < |ds.ids|
    ensures
      var t := D.Next(ds, a);
      && D.Inv(t) && |ds.ids| <= |t.ids| && t.ids[ch] == ds.ids[ch]
      && (D.IsPending(t, ch) ==> D.IsPending(ds, ch))
  {
    D.StepKeepsInv(ds, a);
    if a.DoSend? && a.claim < |ds.claims| { D.SendKeepsInv(ds, a.claim); }
    if a.DoAbortAll? || a.DoClose? { D.InvCanAbort(ds); }
  }

  lemma ClaimKeepsReachable(ds: D.Sys<Data>, id: string, resp: Data, ch: nat)
    requires D.Inv(ds) && ch < |ds.ids| && Reachable(ds, ch)
    ensures var t := D.Next(ds, D.DoClaim(id, resp)); |t.ids| == |t.d.channels| == |ds.ids| && Reachable(t, ch)
  {
    var t := D.Next(ds, D.DoClaim(id, resp));
    if D.IsPending(ds, ch) && id == ds.ids[ch] {
      assert t.claims[|ds.claims|].channel == ch;
    } else if D.IsClaimed(ds, ch) {
      var k :| 0 <= k < |ds.claims| && ds.claims[k].channel == ch;
      assert t.claims[k].channel == ch;
    }
  }

  /** A delivery leaves every other claim in flight. */
  lemma SendKeepsClaimed(ds: D.Sys<Data>, j: nat, ch: nat)
    requires D.Inv(ds) && j < |ds.claims| && ds.claims[j].channel != ch && D.IsClaimed(ds, ch)
    ensures D.IsClaimed(D.Next(ds, D.DoSend(j)), ch)
  {
    D.SendKeepsClaims(ds, j);
    var t := D.Next(ds, D.DoSend(j));
    var k :| 0 <= k < |ds.claims| && ds.claims[k].channel == ch;
    hide D.Inv;
    if k < j { assert t.claims[k].channel == ch; } else { assert t.claims[k - 1].channel == ch; }
  }

  lemma SendKeepsReachable(ds: D.Sys<Data>, j: nat, ch: nat)
    requires D.Inv(ds) && ch < |ds.ids| && j < |ds.claims| && Reachable(ds, ch)
    ensures var t := D.Next(ds, D.DoSend(j)); |t.ids| == |t.d.channels| == |ds.ids| && Reachable(t, ch)
  {
    D.SendKeepsClaims(ds, j);
    if ds.claims[j].channel != ch && D.IsClaimed(ds, ch) { SendKeepsClaimed(ds, j, ch); }
    hide D.Inv, D.IsClaimed;
  }

  lemma AbortKeepsReachable(ds: D.Sys<Data>, a: D.Action<Data>, ch: nat)
    requires D.Inv(ds) && ch < |ds.ids| && Reachable(ds, ch)
    requires a == D.DoAbortAll || a == D.DoClose
    ensures var t := D.Next(ds, a); |t.ids| == |t.d.channels| == |ds.ids| && Reachable(t, ch)
  {
    D.InvCanAbort(ds);
    D.PendingValues(ds, ch);
    hide D.CanAbort;
    var t := D.Next(ds, a);
    assert t.claims == ds.claims;
    if D.IsClaimed(ds, ch) {
      var k :| 0 <= k < |ds.claims| && ds.claims[k].channel == ch;
      assert t.claims[k].channel == ch;
    }
  }

  /** Only a receive or a cleanup under the same id makes a registration lead nowhere. */
  lemma StaysReachable(ds: D.Sys<Data>, a: D.Action<Data>, ch: nat)
    requires D.Inv(ds) && ch < |ds.ids| && Reachable(ds, ch)
    requires a.DoReceive? ==> a.reg != ch
    requires a.DoCancel? && a.reg < |ds.ids| ==> ds.ids[a.reg] != ds.ids[ch]
    ensures D.Inv(D.Next(ds, a)) && ch < |D.Next(ds, a).ids| && Reachable(D.Next(ds, a), ch)
  {
    D.StepKeepsInv(ds, a);
    match a
    case DoClaim(id, resp) => ClaimKeepsReachable(ds, id, resp, ch);
    case DoSend(j) => if j < |ds.claims| { SendKeepsReachable(ds, j, ch); }
    case DoAbortAll => AbortKeepsReachable(ds, a, ch);
    case DoClose => AbortKeepsReachable(ds, a, ch);
    case _ => assert D.IsClaimed(ds, ch) ==> D.IsClaimed(D.Next(ds, a), ch);
  }

  /** Any action of the dispatcher that is no call's own receive or cleanup keeps the invariant. */
  lemma DispatcherKeepsInv(s: Sys, a: D.Action<Data>)
    requires Inv(s)
    requires a.DoClaim? || a.DoSend? || a.DoClose? || a.DoAbortAll?
    ensures Inv(s.(ds := D.Next(s.ds, a)))
  {
    D.StepKeepsInv(s.ds, a);
    forall k | 0 <= k < |s.calls|
      ensures
        var ds := D.Next(s.ds, a);
        && OwnsChannel(ds, s.calls[k])
        && (Active(s.calls[k].phase) ==> Reachable(ds, s.calls[k].phase.ch))
        && WriteOk(s.link, ds, s.calls[k].phase)
    {
      assert OwnsChannel(s.ds, s.calls[k]) && WriteOk(s.link, s.ds, s.calls[k].phase);
      if Active(s.calls[k].phase) || s.calls[k].phase.Leaving? { DispatcherStep(s.ds, a, s.calls[k].phase.ch); }
      if Active(s.calls[k].phase) { StaysReachable(s.ds, a, s.calls[k].phase.ch); }
    }
  }

  lemma AbortKeepsInv(s: Sys)
    requires Inv(s) && s.link.loop == Lost
    ensures Inv(Next(s, Abort))
  {
    var t := s.(ds := D.Next(s.ds, D.DoAbortAll));
    DispatcherKeepsInv(s, D.DoAbortAll);
    D.InvCanAbort(s.ds);
    assert t.ds.d.pending == map[];
    hide D.Inv, D.CanAbort;
    assert forall k :: 0 <= k < |t.calls| ==> OwnsChannel(t.ds, t.calls[k]) && WriteOk(t.link, t.ds, t.calls[k].phase);
  }

  /** A phase change of call k, with the dispatcher moved by `a` on behalf of that call. */
  lemma OwnStepKeepsInv(s: Sys, k: nat, a: D.Action<Data>, p: Phase)
    requires Inv(s) && UniqueIds(s.calls) && k < |s.calls|
    requires a.DoRegister? || a.DoReceive? || a.DoCancel?
    requires !a.DoRegister? ==>
      (Active(s.calls[k].phase) || s.calls[k].phase.Leaving?) && a.reg == s.calls[k].phase.ch
    requires var t := Goto(s.(ds := D.Next(s.ds, a)), k, p);
      D.Inv(t.ds) ==>
        && OwnsChannel(t.ds, t.calls[k])
        && (!p.Returned? ==> s.link.epoch >= 1)
        && (Active(p) ==> Reachable(t.ds, p.ch))
        && WriteOk(t.link, t.ds, p)
    ensures Inv(Goto(s.(ds := D.Next(s.ds, a)), k, p))
  {
    D.StepKeepsInv(s.ds, a);
    var t := Goto(s.(ds := D.Next(s.ds, a)), k, p);
    forall j | 0 <= j < |t.calls|
      ensures
        && OwnsChannel(t.ds, t.calls[j])
        && (Active(t.calls[j].phase) ==> Reachable(t.ds, t.calls[j].phase.ch))
        && WriteOk(t.link, t.ds, t.calls[j].phase)
    {
      if j != k {
        assert OwnsChannel(s.ds, s.calls[j]) && OwnsChannel(s.ds, s.calls[k]);
        assert s.calls[j].id != s.calls[k].id;
        if Active(s.calls[j].phase) || s.calls[j].phase.Leaving? { DispatcherStep(s.ds, a, s.calls[j].phase.ch); }
        if Active(s.calls[j].phase) { StaysReachable(s.ds, a, s.calls[j].phase.ch); }
      }
    }
  }

  /** A phase change of call k alone. */
  lemma GotoKeepsInv(s: Sys, k: nat, p: Phase)
    requires Inv(s) && k < |s.calls|
    requires OwnsChannel(s.ds, s.calls[k].(phase := p))
    requires !p.Returned? ==> s.link.epoch >= 1
    requires Active(p) ==> Reachable(s.ds, p.ch)
    requires WriteOk(s.link, s.ds, p)
    ensures Inv(Goto(s, k, p))
  {
    var t := Goto(s, k, p);
    assert forall j :: 0 <= j < |t.calls| && j != k ==> t.calls[j] == s.calls[j];
  }

  lemma RegisterKeepsInv(s: Sys, k: nat)
    requires Inv(s) && UniqueIds(s.calls) && k < |s.calls|
    ensures Inv(NextCall(s, k, Register(k)))
  {
    if s.calls[k].phase.Checked? {
      var a := D.DoRegister(s.calls[k].id);
      var ds := D.Next(s.ds, a);
      var r := D.Registered(s.ds.d, s.calls[k].id).1;
      if r.Ok? {
        OwnStepKeepsInv(s, k, a, Registered(r.value));
      } else {
        GotoKeepsInv(s, k, Returned(Refused(r.error)));
      }
    }
  }

  lemma WakeKeepsInv(s: Sys, k: nat)
    requires Inv(s) && UniqueIds(s.calls) && k < |s.calls|
    ensures Inv(NextCall(s, k, Wake(k)))
  {
    var p := s.calls[k].phase;
    if p.Waiting? && p.ch < |s.ds.d.channels| {
      if s.ds.d.channels[p.ch].buf != [] {
        OwnStepKeepsInv(s, k, D.DoReceive(p.ch), Leaving(p.ch, Received(s.ds.d.channels[p.ch].buf[0])));
      } else if s.ds.d.channels[p.ch].closed {
        GotoKeepsInv(s, k, Leaving(p.ch, NotConnected));
      }
    }
  }

  lemma CallKeepsInv(s: Sys, k: nat, a: Action)
    requires Inv(s) && UniqueIds(s.calls) && k < |s.calls|
    ensures Inv(NextCall(s, k, a))
  {
    var p := s.calls[k].phase;
    assert OwnsChannel(s.ds, s.calls[k]) && WriteOk(s.link, s.ds, p);
    match a
    case Register(_) =>
      RegisterKeepsInv(s, k);
      assert NextCall(s, k, a) == NextCall(s, k, Register(k));
    case Send(_, writeOk) =>
      if p.Registered? {
        var q := if s.link.connected && !writeOk then Leaving(p.ch, WriteFailed) else Sent(p.ch, WriteOn(s.link));
        GotoKeepsInv(s, k, q);
      }
    case Recheck(_) =>
      if p.Sent? {
        GotoKeepsInv(s, k, if s.link.connected then Waiting(p.ch, p.write) else Leaving(p.ch, NotConnected));
      }
    case Wake(_) =>
      WakeKeepsInv(s, k);
      assert NextCall(s, k, a) == NextCall(s, k, Wake(k));
    case GiveUp(_) => if p.Waiting? { GotoKeepsInv(s, k, Leaving(p.ch, Cancelled)); }
    case SeeDone(_) => if p.Waiting? { GotoKeepsInv(s, k, Leaving(p.ch, NotConnected)); }
    case Cleanup(_) => if p.Leaving? { OwnStepKeepsInv(s, k, D.DoCancel(p.ch), Returned(p.outcome)); }
    case _ =>
  }

  /** The connection alone changes, forwards: no earlier epoch, no connection conjured up, no abort skipped. */
  lemma LinkKeepsInv(s: Sys, l: Link)
    requires Inv(s) && l.epoch >= s.link.epoch
    requires l.connected ==> l.loop == Reading && l.epoch >= 1 && (s.link.connected || l.epoch > s.link.epoch)
    requires l.epoch > s.link.epoch ==> s.link.loop == Idle
    requires l.loop == Idle ==> s.link.loop == Idle
    ensures Inv(s.(link := l))
  {
    hide D.Inv;
    assert forall k :: 0 <= k < |s.calls| ==> OwnsChannel(s.ds, s.calls[k]) && WriteOk(s.link, s.ds, s.calls[k].phase);
  }

  lemma BeginKeepsInv(s: Sys, id: string)
    requires Inv(s)
    ensures Inv(Next(s, Begin(id)))
  {
    hide D.Inv;
    var t := Next(s, Begin(id));
    assert forall k :: 0 <= k < |s.calls| ==> t.calls[k] == s.calls[k];
  }

  lemma InboundKeepsInv(s: Sys, id: string, resp: Data)
    requires Inv(s)
    ensures Inv(Next(s, Inbound(id, resp)))
  {
    var t := s.(heard := s.heard + [Response(id, resp)]);
    assert Inv(t);
    hide Inv;
    DispatcherKeepsInv(t, D.DoClaim(id, resp));
  }

  lemma ConnectedIsReading(s: Sys)
    requires Inv(s)
    ensures s.link.connected ==> s.link.loop == Reading && s.link.epoch >= 1
  {
  }

  lemma StepKeepsInv(s: Sys, a: Action)
    requires Inv(s) && UniqueIds(Next(s, a).calls)
    ensures Inv(Next(s, a)) && UniqueIds(s.calls)
  {
    CallsGrow(s, a);
    ConnectedIsReading(s);
    hide Inv, UniqueIds, NextCall;
    match a
    case Begin(id) => BeginKeepsInv(s, id);
    case Inbound(id, resp) => InboundKeepsInv(s, id, resp);
    case Deliver(j) => DispatcherKeepsInv(s, D.DoSend(j));
    case Abort => if s.link.loop == Lost { AbortKeepsInv(s); }
    case CloseDispatcher => DispatcherKeepsInv(s, D.DoClose);
    case Dial => if s.link.loop == Idle { LinkKeepsInv(s, Dialled(s.link)); }
    case Drop => if s.link.loop == Reading { LinkKeepsInv(s, Disconnected(s.link)); }
    case CloseDone => LinkKeepsInv(s, s.link.(done := true));
    case CloseConn => LinkKeepsInv(s, s.link.(connected := false));
    case _ => if a.k < |s.calls| { CallKeepsInv(s, a.k, a); }
  }

  /** Calls keep their ids and are never forgotten. */
  lemma CallsGrow(s: Sys, a: Action)
    ensures |s.calls| <= |Next(s, a).calls|
    ensures forall k :: 0 <= k < |s.calls| ==> Next(s, a).calls[k].id == s.calls[k].id
    ensures UniqueIds(Next(s, a).calls) ==> UniqueIds(s.calls)
  {
    var t := Next(s, a);
    assert forall k :: 0 <= k < |s.calls| ==> t.calls[k].id == s.calls[k].id;
  }

  lemma {:induction false} RunKeepsInv(s: Sys, acts: seq<Action>)
    requires Inv(s) && UniqueIds(Run(s, acts).calls)
    ensures Inv(Run(s, acts)) && UniqueIds(s.calls)
    decreases |acts|
  {
    if acts != [] {
      UniqueAlongRun(Next(s, acts[0]), acts[1..]);
      StepKeepsInv(s, acts[0]);
      RunKeepsInv(Next(s, acts[0]), acts[1..]);
    }
  }

  lemma {:induction false} UniqueAlongRun(s: Sys, acts: seq<Action>)
    requires UniqueIds(Run(s, acts).calls)
    ensures UniqueIds(s.calls)
    decreases |acts|
  {
    if acts != [] {
      UniqueAlongRun(Next(s, acts[0]), acts[1..]);
      CallsGrow(s, acts[0]);
    }
  }

  /**
   No call is lost by a disconnect, over any number of reconnects: once AbortAll has run and
   until the next dial, no RoundTrip waits on an open, registered channel. Each waiting call
   has been answered, has its channel closed, or is being answered by a Dispatch in flight.
   */
  lemma NoWaiterSurvivesAbort(acts: seq<Action>, k: nat)
    requires UniqueIds(Run(Start(), acts).calls)
    requires k < |Run(Start(), acts).calls|
    requires Run(Start(), acts).link.loop == Idle
    requires Run(Start(), acts).calls[k].phase.Waiting?
    ensures
      var s := Run(Start(), acts);
      var ch := s.calls[k].phase.ch;
      && ch < |s.ds.ids| == |s.ds.d.channels|
      && !D.IsPending(s.ds, ch)
      && (D.IsClaimed(s.ds, ch) || s.ds.d.channels[ch].buf != [] || s.ds.d.channels[ch].closed)
      && (s.ds.claims == [] ==> Next(s, Wake(k)).calls[k].phase.Leaving?)
  {
    RunKeepsInv(Start(), acts);
    var s := Run(Start(), acts);
    assert OwnsChannel(s.ds, s.calls[k]) && WriteOk(s.link, s.ds, s.calls[k].phase);
    assert Reachable(s.ds, s.calls[k].phase.ch);
  }

  /**
   A call that can only wait is waiting for the live connection: its request went out on the
   current connection, or SendJSON skipped it while disconnected and a redial came before the second check.
   */
  lemma WaiterIsOnLiveConnection(acts: seq<Action>, k: nat)
    requires UniqueIds(Run(Start(), acts).calls)
    requires k < |Run(Start(), acts).calls|
    requires Run(Start(), acts).calls[k].phase.Waiting?
    ensures
      var s := Run(Start(), acts);
      var Waiting(ch, write) := s.calls[k].phase;
      && ch < |s.ds.ids| == |s.ds.d.channels|
      && Reachable(s.ds, ch)
      && (D.IsPending(s.ds, ch) ==>
            && s.link.loop != Idle
            && (write == Written(s.link.epoch) || (write.Skipped? && write.epoch < s.link.epoch)))
  {
    RunKeepsInv(Start(), acts);
    var s := Run(Start(), acts);
    assert OwnsChannel(s.ds, s.calls[k]) && WriteOk(s.link, s.ds, s.calls[k].phase);
  }

  /**
   With a single connection and no redial the second check is enough: nobody waits for a request that was never
   written.
   */
  lemma NoRedialNoLostRequest(acts: seq<Action>, k: nat)
    requires UniqueIds(Run(Start(), acts).calls)
    requires Run(Start(), acts).link.epoch <= 1
    requires k < |Run(Start(), acts).calls|
    requires Run(Start(), acts).calls[k].phase.Waiting?
    ensures Run(Start(), acts).calls[k].phase.write == Written(1)
  {
    RunKeepsInv(Start(), acts);
    var s := Run(Start(), acts);
    assert OwnsChannel(s.ds, s.calls[k]) && WriteOk(s.link, s.ds, s.calls[k].phase);
  }

  /**
   The second check lets a skipped request through exactly when the client is connected again, on a later
   connection.
   */
  lemma RecheckOfSkippedRequest(acts: seq<Action>, k: nat)
    requires UniqueIds(Run(Start(), acts).calls)
    requires k < |Run(Start(), acts).calls|
    requires Run(Start(), acts).calls[k].phase.Sent? && Run(Start(), acts).calls[k].phase.write.Skipped?
    ensures
      var s := Run(Start(), acts);
      && (Next(s, Recheck(k)).calls[k].phase.Waiting? <==> s.link.connected)
      && (s.link.connected ==> s.calls[k].phase.write.epoch < s.link.epoch)
  {
    RunKeepsInv(Start(), acts);
    var s := Run(Start(), acts);
    assert OwnsChannel(s.ds, s.calls[k]) && WriteOk(s.link, s.ds, s.calls[k].phase);
  }

  // ---------------------------------------------------------------- what a call gets

  /**
   The second check decides alone: whatever became of the write, the call waits exactly when the client is
   connected.
   */
  lemma RecheckDecides(s: Sys, k: nat)
    requires k < |s.calls| && s.calls[k].phase.Sent?
    ensures
      var p, q := s.calls[k].phase, Next(s, Recheck(k)).calls[k].phase;
      && (q.Waiting? <==> s.link.connected)
      && (q.Waiting? ==> q.ch == p.ch && q.write == p.write)
      && (!q.Waiting? ==> q == Leaving(p.ch, NotConnected))
  {
  }

  /** The response to a call that waits, claimed and delivered while it does, is what the call gets. */
  lemma WaiterGetsItsResponse(acts: seq<Action>, k: nat, data: Data)
    requires UniqueIds(Run(Start(), acts).calls)
    requires k < |Run(Start(), acts).calls| && Run(Start(), acts).calls[k].phase.Waiting?
    requires
      var s := Run(Start(), acts);
      s.calls[k].id != "" && s.calls[k].phase.ch < |s.ds.ids| && D.IsPending(s.ds, s.calls[k].phase.ch)
    ensures
      var s := Run(Start(), acts);
      var t := Next(Next(s, Inbound(s.calls[k].id, data)), Deliver(|s.ds.claims|));
      Next(t, Wake(k)).calls[k].phase ==
        Leaving(s.calls[k].phase.ch, if data == [] then NotConnected else Answer(data))
  {
    RunKeepsInv(Start(), acts);
    var s := Run(Start(), acts);
    var c := s.calls[k];
    assert OwnsChannel(s.ds, c);
    hide Inv, Run, UniqueIds;
    WaiterWakes(s, k, data);
  }

  lemma WaiterWakes(s: Sys, k: nat, data: Data)
    requires D.Inv(s.ds) && k < |s.calls| && s.calls[k].phase.Waiting? && s.calls[k].id != ""
    requires
      var ch := s.calls[k].phase.ch;
      ch < |s.ds.ids| && s.ds.ids[ch] == s.calls[k].id && D.IsPending(s.ds, ch)
    ensures
      var t := Next(Next(s, Inbound(s.calls[k].id, data)), Deliver(|s.ds.claims|));
      Next(t, Wake(k)).calls[k].phase ==
        Leaving(s.calls[k].phase.ch, if data == [] then NotConnected else Answer(data))
  {
    ClaimAndDeliver(s.ds, s.calls[k].phase.ch, data);
    hide D.Next, D.Inv;
  }

  lemma ClaimAndDeliver(ds: D.Sys<Data>, ch: nat, data: Data)
    requires D.Inv(ds) && ch < |ds.ids| && D.IsPending(ds, ch)
    ensures
      var t := D.Next(D.Next(ds, D.DoClaim(ds.ids[ch], data)), D.DoSend(|ds.claims|));
      ch < |t.d.channels| && t.d.channels[ch] == D.Channel([data], false, 1)
  {
    assert D.Untouched(ds, ch);
    var ds1 := D.Next(ds, D.DoClaim(ds.ids[ch], data));
    assert ds1.claims == ds.claims + [D.Claim(ds.ids[ch], ch, data)];
    hide D.Inv;
  }

  lemma OneExchange(id: string, data: Data)
    ensures
      var d0 := D.Start();
      var d1 := D.Next(d0, D.DoRegister(id));
      var d2 := D.Next(d1, D.DoClaim(id, data));
      var d3 := D.Next(d2, D.DoSend(0));
      var d4 := D.Next(d3, D.DoReceive(0));
      && D.Registered(d0.d, id).1 == Ok(0)
      && |d3.d.channels| == 1 && d3.d.channels[0].buf == [data]
      && D.Next(d4, D.DoCancel(0)).d.pending == map[] && !D.Next(d4, D.DoCancel(0)).crashed
  {
    var d1 := D.Next(D.Start(), D.DoRegister(id));
    assert d1.d == D.State(map[id := 0], false, [D.Channel([], false, 0)]);
    var d2 := D.Next(d1, D.DoClaim(id, data));
    assert d2.d == D.State(map[], false, [D.Channel([], false, 0)]) && d2.claims == [D.Claim(id, 0, data)];
    var d3 := D.Next(d2, D.DoSend(0));
    assert [] + [data] == [data];
    assert d3.d.channels[0] == D.Channel([data], false, 1);
    assert d3.d.pending == map[] && d3.ids == [id];
  }

  /** A RoundTrip on a healthy connection: from the start, it returns the response to its request. */
  lemma RoundTripAnswers(id: string, data: Data)
    requires id != "" && data != []
    ensures
      var first := [Dial, Begin(id), Register(0), Send(0, true)];
      var second := [Recheck(0), Inbound(id, data), Deliver(0), Wake(0)];
      var s := Next(Run(Run(Start(), first), second), Cleanup(0));
      s.calls == [Call(id, Returned(Answer(data)))] && s.ds.d.pending == map[]
  {
    OneExchange(id, data);
    hide D.Next, D.Registered;
    RunOfFour(Start(), Dial, Begin(id), Register(0), Send(0, true));
    var s2 := Next(Next(Start(), Dial), Begin(id));
    assert s2.calls == [Call(id, Checked)];
    var s3 := Next(s2, Register(0));
    assert s3.calls == [Call(id, Registered(0))];
    var s4 := Next(s3, Send(0, true));
    assert s4.calls == [Call(id, Sent(0, Written(1)))];
    RunOfFour(s4, Recheck(0), Inbound(id, data), Deliver(0), Wake(0));
    var s5 := Next(s4, Recheck(0));
    assert s5.calls == [Call(id, Waiting(0, Written(1)))];
    var s7 := Next(Next(s5, Inbound(id, data)), Deliver(0));
    assert s7.calls == s5.calls && s7.ds.d.channels[0].buf == [data];
    var s8 := Next(s7, Wake(0));
    assert s8.calls == [Call(id, Leaving(0, Answer(data)))];
    assert Next(s8, Cleanup(0)).calls == [Call(id, Returned(Answer(data)))];
  }

  /**
   The other ways out: a refused registration, a failing write, a closed channel, an ended context, a closed
   client.
   */
  lemma EveryExit(s: Sys, k: nat)
    requires Inv(s) && UniqueIds(s.calls) && k < |s.calls|
    ensures
      var c := s.calls[k];
      var refused := s.ds.d.closed || c.id in s.ds.d.pending;
      && (c.phase.Checked? ==> (Next(s, Register(k)).calls[k].phase.Returned? <==> refused))
      && (c.phase.Registered? ==>
            (Next(s, Send(k, false)).calls[k].phase == Leaving(c.phase.ch, WriteFailed) <==> s.link.connected))
      && (c.phase.Registered? ==> Next(s, Send(k, true)).calls[k].phase.Sent?)
      && (c.phase.Waiting? ==> Next(s, GiveUp(k)).calls[k].phase == Leaving(c.phase.ch, Cancelled))
      && (c.phase.Waiting? && s.link.done ==> Next(s, SeeDone(k)).calls[k].phase == Leaving(c.phase.ch, NotConnected))
      && (c.phase.Waiting? && c.phase.ch < |s.ds.d.channels| && s.ds.d.channels[c.phase.ch].closed ==>
            Next(s, Wake(k)).calls[k].phase == Leaving(c.phase.ch, NotConnected))
      && (c.phase.Leaving? ==>
            var t := Next(s, Cleanup(k));
            t.calls[k].phase == Returned(c.phase.outcome) && c.id !in t.ds.d.pending)
  {
    assert OwnsChannel(s.ds, s.calls[k]);
    if s.calls[k].phase.Waiting? { assert D.WellUsed(s.ds.d.channels[s.calls[k].phase.ch]); }
  }

  /** Everything under way to a call came in under that call's id. */
  ghost predicate Genuine(s: Sys) {
    && (forall j :: 0 <= j < |s.ds.claims| ==> Response(s.ds.claims[j].id, s.ds.claims[j].resp) in s.heard)
    && (forall n :: 0 <= n < |s.ds.ids| && n < |s.ds.d.channels| && s.ds.d.channels[n].buf != [] ==>
          Response(s.ds.ids[n], s.ds.d.channels[n].buf[0]) in s.heard)
    && (forall k :: 0 <= k < |s.calls| ==> GenuineOutcome(s, s.calls[k]))
  }

  predicate GenuineOutcome(s: Sys, c: Call) {
    (c.phase.Leaving? || c.phase.Returned?) && c.phase.outcome.Answer? ==>
      Response(c.id, c.phase.outcome.data) in s.heard && c.phase.outcome.data != []
  }

  lemma DispatcherKeepsGenuine(s: Sys, a: D.Action<Data>)
    requires D.Inv(s.ds) && Genuine(s)
    requires a.DoClaim? ==> Response(a.id, a.resp) in s.heard
    ensures Genuine(s.(ds := D.Next(s.ds, a)))
  {
    if a.DoSend? {
      if a.claim < |s.ds.claims| {
        D.StepKeepsInv(s.ds, a);
        D.SendKeepsClaims(s.ds, a.claim);
        hide Genuine, D.Inv, D.Next;
        DeliveryKeepsGenuine(s, a.claim);
      }
    } else {
      OtherKeepsGenuine(s, a);
    }
  }

  lemma OtherKeepsGenuine(s: Sys, a: D.Action<Data>)
    requires D.Inv(s.ds) && Genuine(s) && !a.DoSend?
    requires a.DoClaim? ==> Response(a.id, a.resp) in s.heard
    ensures Genuine(s.(ds := D.Next(s.ds, a)))
  {
    var t := D.Next(s.ds, a);
    ClaimsGrow(s.ds, a);
    hide D.Inv, D.Next;
    forall n | 0 <= n < |t.ids| && n < |t.d.channels| && t.d.channels[n].buf != []
      ensures Response(t.ids[n], t.d.channels[n].buf[0]) in s.heard
    {
      OnlySendFills(s.ds, a, n);
    }
  }

  lemma ClaimsGrow(ds: D.Sys<Data>, a: D.Action<Data>)
    requires !a.DoSend?
    ensures
      var claims := D.Next(ds, a).claims;
      || claims == ds.claims
      || (a.DoClaim? && exists ch :: claims == ds.claims + [D.Claim(a.id, ch, a.resp)])
  {
    hide D.CanAbort, D.Aborted;
    if a.DoClaim? && !ds.crashed && a.id in ds.d.pending {
      var ch := ds.d.pending[a.id];
      assert D.Next(ds, a).claims == ds.claims + [D.Claim(a.id, ch, a.resp)];
    }
  }

  /** Of the dispatcher's steps only a delivery puts anything into a channel. */
  lemma OnlySendFills(ds: D.Sys<Data>, a: D.Action<Data>, n: nat)
    requires D.Inv(ds) && !a.DoSend?
    requires var t := D.Next(ds, a); n < |t.ids| && n < |t.d.channels| && t.d.channels[n].buf != []
    ensures
      var t := D.Next(ds, a);
      && n < |ds.ids| && n < |ds.d.channels| && t.ids[n] == ds.ids[n]
      && t.d.channels[n].buf[0] in ds.d.channels[n].buf && |ds.d.channels[n].buf| == 1
  {
    if n < |ds.ids| { assert D.WellUsed(ds.d.channels[n]); }
  }

  lemma DeliveryKeepsGenuine(s: Sys, j: nat)
    requires D.Inv(s.ds) && Genuine(s) && j < |s.ds.claims|
    requires D.Inv(D.Next(s.ds, D.DoSend(j))) && D.CanSend(s.ds.d.channels[s.ds.claims[j].channel])
    ensures Genuine(s.(ds := D.Next(s.ds, D.DoSend(j))))
  {
    var t := D.Next(s.ds, D.DoSend(j));
    var claim := s.ds.claims[j];
    assert s.ds.ids[claim.channel] == claim.id && D.Untouched(s.ds, claim.channel);
    assert forall i :: 0 <= i < |t.claims| ==> t.claims[i] == s.ds.claims[if i < j then i else i + 1];
    hide D.Inv;
  }

  lemma CallKeepsGenuine(s: Sys, k: nat, a: Action)
    requires Inv(s) && Genuine(s) && k < |s.calls|
    ensures Genuine(NextCall(s, k, a))
  {
    var p := s.calls[k].phase;
    assert GenuineOutcome(s, s.calls[k]) && OwnsChannel(s.ds, s.calls[k]);
    hide Inv, D.Inv, D.Next;
    match a
    case Register(_) => if p.Checked? { OwnDispatch(s, D.DoRegister(s.calls[k].id)); }
    case Wake(_) => if p.Waiting? { OwnDispatch(s, D.DoReceive(p.ch)); }
    case Cleanup(_) => if p.Leaving? { OwnDispatch(s, D.DoCancel(p.ch)); }
    case _ =>
  }

  lemma OwnDispatch(s: Sys, a: D.Action<Data>)
    requires Inv(s) && Genuine(s) && !a.DoClaim?
    ensures Genuine(s.(ds := D.Next(s.ds, a)))
  {
    hide Genuine, D.Inv, D.Next;
    DispatcherKeepsGenuine(s, a);
  }

  lemma InboundKeepsGenuine(s: Sys, id: string, resp: Data)
    requires Inv(s) && Genuine(s)
    ensures Genuine(Next(s, Inbound(id, resp)))
  {
    var t := s.(heard := s.heard + [Response(id, resp)]);
    assert Genuine(t);
    assert Response(id, resp) in t.heard;
    assert D.Inv(t.ds);
    hide Genuine, D.Next, D.Inv, Inv;
    if id != "" { DispatcherKeepsGenuine(t, D.DoClaim(id, resp)); }
  }

  lemma StepKeepsGenuine(s: Sys, a: Action)
    requires Inv(s) && Genuine(s)
    ensures Genuine(Next(s, a))
  {
    match a
    case Begin(id) => BeginKeepsGenuine(s, id);
    case Inbound(id, resp) => InboundKeepsGenuine(s, id, resp);
    case Deliver(j) => OwnDispatch(s, D.DoSend(j));
    case Abort => if s.link.loop == Lost { OwnDispatch(s, D.DoAbortAll); }
    case CloseDispatcher => OwnDispatch(s, D.DoClose);
    case Dial =>
    case Drop =>
    case CloseDone =>
    case CloseConn =>
    case _ => if a.k < |s.calls| { CallKeepsGenuine(s, a.k, a); }
  }

  lemma BeginKeepsGenuine(s: Sys, id: string)
    requires Genuine(s)
    ensures Genuine(Next(s, Begin(id)))
  {
    var t := Next(s, Begin(id));
    assert forall k :: 0 <= k < |s.calls| ==> t.calls[k] == s.calls[k];
  }

  lemma {:induction false} RunKeepsGenuine(s: Sys, acts: seq<Action>)
    requires Inv(s) && Genuine(s) && UniqueIds(Run(s, acts).calls)
    ensures Genuine(Run(s, acts))
    decreases |acts|
  {
    hide Inv, Genuine, Next;
    if acts != [] {
      UniqueAlongRun(Next(s, acts[0]), acts[1..]);
      StepKeepsInv(s, acts[0]);
      StepKeepsGenuine(s, acts[0]);
      RunKeepsGenuine(Next(s, acts[0]), acts[1..]);
    }
  }

  /** The responses of a run are its inbound actions. */
  lemma {:induction false} HeardIsInbound(s: Sys, acts: seq<Action>, r: Response)
    ensures r in Run(s, acts).heard <==> r in s.heard || Inbound(r.id, r.data) in acts
    decreases |acts|
  {
    if acts != [] {
      HeardIsInbound(Next(s, acts[0]), acts[1..], r);
      assert acts == [acts[0]] + acts[1..];
      HeardGrows(s, acts[0]);
    }
  }

  lemma HeardGrows(s: Sys, a: Action)
    ensures Next(s, a).heard == if a.Inbound? then s.heard + [Response(a.id, a.resp)] else s.heard
  {
  }

  /**
   In every interleaving, whatever a RoundTrip returns as its answer came in as the response to that call's own
   id.
   */
  lemma AnswersAreTheCallsOwn(acts: seq<Action>, k: nat)
    requires UniqueIds(Run(Start(), acts).calls) && k < |Run(Start(), acts).calls|
    requires
      var p := Run(Start(), acts).calls[k].phase;
      p.Returned? && p.outcome.Answer?
    ensures
      var c := Run(Start(), acts).calls[k];
      c.phase.outcome.data != [] && Inbound(c.id, c.phase.outcome.data) in acts
  {
    RunKeepsGenuine(Start(), acts);
    var s := Run(Start(), acts);
    assert GenuineOutcome(s, s.calls[k]);
    HeardIsInbound(Start(), acts, Response(s.calls[k].id, s.calls[k].phase.outcome.data));
  }

  lemma {:induction false} RunAppend(s: Sys, xs: seq<Action>, ys: seq<Action>)
    ensures Run(s, xs + ys) == Run(Run(s, xs), ys)
    decreases |xs|
  {
    if xs == [] {
      assert xs + ys == ys;
    } else {
      assert (xs + ys)[1..] == xs[1..] + ys;
      RunAppend(Next(s, xs[0]), xs[1..], ys);
    }
  }

  /** A call passed its first check, then the connection was lost and the dispatcher aborted. */
  const CHECKED_THEN_LOST: Sys := Sys(Link(false, 1, Idle, false), D.Start(), [Call("a", Checked)], [])

  lemma RunOfFour(s: Sys, a: Action, b: Action, c: Action, d: Action)
    ensures Run(s, [a, b, c, d]) == Next(Next(Next(Next(s, a), b), c), d)
  {
    hide Next;
    var acts := [a, b, c, d];
    var s1 := Next(s, a);
    var s2 := Next(s1, b);
    var s3 := Next(s2, c);
    assert acts[1..][1..][1..] == [d] && [d][1..] == [];
    assert Run(s, acts) == Run(s1, acts[1..]) == Run(s2, acts[1..][1..]) == Run(s3, acts[1..][1..][1..]);
    assert Run(s3, [d]) == Run(Next(s3, d), []);
  }

  lemma AbortOfNothing(ds: D.Sys<Data>)
    requires !ds.crashed && ds.d.pending == map[]
    ensures D.Next(ds, D.DoAbortAll) == ds
  {
    assert ds.d.pending.Values == {};
    assert D.Aborted(ds.d).channels == ds.d.channels && D.Aborted(ds.d) == ds.d;
  }

  lemma CheckedThenLost()
    ensures Run(Start(), [Dial, Begin("a"), Drop, Abort]) == CHECKED_THEN_LOST
  {
    AbortOfNothing(D.Start());
    hide D.Next;
    RunOfFour(Start(), Dial, Begin("a"), Drop, Abort);
    assert Next(Next(Start(), Dial), Begin("a")).calls == [Call("a", Checked)];
  }

  lemma RedialBeforeRecheck()
    ensures
      var s := Run(CHECKED_THEN_LOST, [Register(0), Send(0, true), Dial, Recheck(0)]);
      && s.calls == [Call("a", Waiting(0, Skipped(1)))]
      && s.ds.ids == ["a"] && D.IsPending(s.ds, 0) && s.link.connected
  {
    RunOfFour(CHECKED_THEN_LOST, Register(0), Send(0, true), Dial, Recheck(0));
    var s5 := Next(CHECKED_THEN_LOST, Register(0));
    assert s5.calls == [Call("a", Registered(0))] && s5.link == Link(false, 1, Idle, false);
    assert s5.ds.ids == ["a"] && D.IsPending(s5.ds, 0);
    hide D.Next;
    var s6 := Next(s5, Send(0, true));
    assert s6.calls == [Call("a", Sent(0, Skipped(1)))];
    var s8 := Next(Next(s6, Dial), Recheck(0));
    assert s8.calls == [Call("a", Waiting(0, Skipped(1)))];
  }

  /**
   It does happen: a drop before Register and a redial before the second check leave a call waiting for a
   request nobody sent.
   */
  lemma RedialLosesRequest()
    ensures
      var s := Run(Start(), [Dial, Begin("a"), Drop, Abort] + [Register(0), Send(0, true), Dial, Recheck(0)]);
      && s.calls == [Call("a", Waiting(0, Skipped(1)))]
      && s.ds.ids == ["a"] && D.IsPending(s.ds, 0) && s.link.connected
  {
    RunAppend(Start(), [Dial, Begin("a"), Drop, Abort], [Register(0), Send(0, true), Dial, Recheck(0)]);
    CheckedThenLost();
    RedialBeforeRecheck();
  }
}

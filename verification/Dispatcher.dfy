/**
 The request dispatcher of pkg/ws/dispatcher.go.

 Registrations are numbered: the n-th successful Register allocates channel n.
 The functions below are the lock-protected sections; the class performs the
 same sections in place, and Next interleaves them in any order.
 */
module Dispatcher {
  import opened Wrappers

  /** A Go channel of capacity SLOTS; `sent` counts the values ever put into it. */
  datatype Channel<T> = Channel(buf: seq<T>, closed: bool, sent: nat)

  const SLOTS := 1

  /** A send neither panics (closed channel) nor blocks (full buffer). */
  predicate CanSend<T>(c: Channel<T>) {
    !c.closed && |c.buf| < SLOTS
  }

  datatype State<T> = State(pending: map<string, nat>, closed: bool, channels: seq<Channel<T>>)

  datatype RegisterError = DuplicateRequestID | DispatcherClosed

  function Fresh<T>(): State<T> {
    State(map[], false, [])
  }

  function Registered<T>(s: State<T>, id: string): (State<T>, Result<nat, RegisterError>) {
    if s.closed then (s, Err(DispatcherClosed))
    else if id in s.pending then (s, Err(DuplicateRequestID))
    else (State(s.pending[id := |s.channels|], false, s.channels + [Channel([], false, 0)]), Ok(|s.channels|))
  }

  function Cancelled<T>(s: State<T>, id: string): State<T> {
    s.(pending := s.pending - {id})
  }

  /** The locked half of Dispatch: the entry is claimed, nothing is sent yet. */
  function Claimed<T>(s: State<T>, id: string): (State<T>, Option<nat>) {
    if id in s.pending then (s.(pending := s.pending - {id}), Some(s.pending[id])) else (s, None)
  }

  /** The unlocked half of Dispatch. */
  function Delivered<T>(s: State<T>, c: nat, resp: T): State<T>
    requires c < |s.channels|
  {
    var ch := s.channels[c];
    s.(channels := s.channels[c := Channel(ch.buf + [resp], ch.closed, ch.sent + 1)])
  }

  function CloseAll<T>(chs: seq<Channel<T>>, which: set<nat>): (r: seq<Channel<T>>)
    ensures |r| == |chs|
    ensures forall i :: 0 <= i < |chs| ==> r[i] == if i in which then chs[i].(closed := true) else chs[i]
  {
    seq(|chs|, i requires 0 <= i < |chs| => if i in which then chs[i].(closed := true) else chs[i])
  }

  function Aborted<T>(s: State<T>): State<T> {
    s.(pending := map[], channels := CloseAll(s.channels, s.pending.Values))
  }

  function Closed<T>(s: State<T>): State<T> {
    Aborted(s).(closed := true)
  }

  /** Every pending entry owns its own open channel, so closing them all cannot panic. */
  ghost predicate CanAbort<T>(s: State<T>) {
    && (forall id :: id in s.pending ==> s.pending[id] < |s.channels| && !s.channels[s.pending[id]].closed)
    && (forall a, b :: a in s.pending && b in s.pending && s.pending[a] == s.pending[b] ==> a == b)
  }

  /** What AbortAll has done so far: the channels of the removed entries, and no others, are closed. */
  ghost predicate Closing<T>(was: State<T>, pending: map<string, nat>, channels: seq<Channel<T>>, done: set<nat>) {
    && (forall id :: id in pending ==> id in was.pending && pending[id] == was.pending[id] && pending[id] !in done)
    && (forall id :: id in was.pending && id !in pending ==> was.pending[id] in done)
    && done <= was.pending.Values
    && channels == CloseAll(was.channels, done)
  }

  lemma CloseOneMore<T>(was: State<T>, pending: map<string, nat>, channels: seq<Channel<T>>, done: set<nat>, id: string)
    requires CanAbort(was) && Closing(was, pending, channels, done) && id in pending
    ensures pending[id] < |channels| && !channels[pending[id]].closed
    ensures
      var c := pending[id];
      Closing(was, pending - {id}, channels[c := channels[c].(closed := true)], done + {c})
    ensures |pending - {id}| < |pending|
  {
    var c, rest := pending[id], pending - {id};
    assert was.pending[id] == c;
    assert pending.Keys == rest.Keys + {id};
    assert channels[c := channels[c].(closed := true)] == CloseAll(was.channels, done + {c});
  }

  lemma NoneClosed<T>(was: State<T>)
    ensures Closing(was, was.pending, was.channels, {})
  {
    assert was.channels == CloseAll(was.channels, {});
  }

  lemma AllClosed<T>(was: State<T>, channels: seq<Channel<T>>, done: set<nat>)
    requires Closing(was, map[], channels, done)
    ensures Aborted(was) == State(map[], was.closed, channels)
  {
    assert done == was.pending.Values;
  }

  class RequestDispatcher<T> {
    var pending: map<string, nat>
    var closed: bool
    var channels: seq<Channel<T>>

    ghost function View(): State<T>
      reads this
    {
      State(pending, closed, channels)
    }

    constructor ()
      ensures View() == Fresh()
    {
      pending, closed, channels := map[], false, [];
    }

    method Register(reqID: string) returns (r: Result<nat, RegisterError>)
      modifies this
      ensures (View(), r) == Registered(old(View()), reqID)
      ensures r.Ok? <==> !old(closed) && reqID !in old(pending)
      ensures r == Err(DispatcherClosed) <==> old(closed)
      ensures r.Ok? ==> reqID in pending && pending[reqID] == r.value
      ensures r.Ok? ==> |old(channels)| <= r.value < |channels| && channels[r.value] == Channel([], false, 0)
      ensures r.Ok? && CanAbort(old(View())) ==> r.value !in old(pending).Values
    {
      if closed { return Err(DispatcherClosed); }
      if reqID in pending { return Err(DuplicateRequestID); }
      var ch := |channels|;
      channels := channels + [Channel([], false, 0)];
      pending := pending[reqID := ch];
      r := Ok(ch);
    }

    /** The cleanup function that Register hands out. */
    method Cancel(reqID: string)
      modifies this
      ensures View() == Cancelled(old(View()), reqID)
    {
      pending := pending - {reqID};
    }

    method Claim(reqID: string) returns (r: Option<nat>)
      modifies this
      ensures (View(), r) == Claimed(old(View()), reqID)
    {
      r := None;
      if reqID in pending {
        r := Some(pending[reqID]);
        pending := pending - {reqID};
      }
    }

    method Send(c: nat, resp: T)
      requires c < |channels| && CanSend(channels[c])
      modifies this`channels
      ensures View() == Delivered(old(View()), c, resp)
    {
      var ch := channels[c];
      channels := channels[c := Channel(ch.buf + [resp], ch.closed, ch.sent + 1)];
    }

    /** A whole Dispatch with nothing in between its two halves. */
    method Dispatch(reqID: string, resp: T) returns (found: bool)
      requires reqID in pending ==> pending[reqID] < |channels| && CanSend(channels[pending[reqID]])
      modifies this
      ensures found == (reqID in old(pending))
      ensures !found ==> View() == old(View())
      ensures found ==> View() == Delivered(Claimed(old(View()), reqID).0, old(pending)[reqID], resp)
    {
      var c := Claim(reqID);
      if c.None? { return false; }
      Send(c.value, resp);
      found := true;
    }

    method CloseChannel(c: nat)
      requires c < |channels| && !channels[c].closed
      modifies this`channels
      ensures channels == old(channels)[c := old(channels)[c].(closed := true)]
    {
      channels := channels[c := channels[c].(closed := true)];
    }

    method AbortAll()
      requires CanAbort(View())
      modifies this
      ensures View() == Aborted(old(View()))
    {
      ghost var was, done := View(), {};
      NoneClosed(was);
      hide Closing, CanAbort, Aborted;
      while pending != map[]
        invariant closed == was.closed
        invariant Closing(was, pending, channels, done)
        decreases |pending|
      {
        var id :| id in pending;
        CloseOneMore(was, pending, channels, done, id);
        done := done + {pending[id]};
        CloseChannel(pending[id]);
        pending := pending - {id};
      }
      AllClosed(was, channels, done);
    }

    method Close()
      requires CanAbort(View())
      modifies this
      ensures View() == Closed(old(View()))
    {
      closed := true;
      AbortAll();
    }

    method Len() returns (n: nat)
      ensures n == |pending|
    {
      n := |pending|;
    }
  }

  // ---------------------------------------------------------------- interleavings

  /** A Dispatch between its two halves. */
  datatype Claim<T> = Claim(id: string, channel: nat, resp: T)

  /**
   `ids[n]` is the request id of registration n and `cancels[n]` how often its
   cleanup ran, and `handed[n]` the channel its caller was handed. `crashed` is a
   Go panic or a send that blocks for ever.
   */
  datatype Sys<T> = Sys(
    d: State<T>, ids: seq<string>, cancels: seq<nat>, claims: seq<Claim<T>>, crashed: bool, handed: seq<nat>)

  datatype Action<T> =
    | DoRegister(id: string)
    | DoCancel(reg: nat)
    | DoClaim(id: string, resp: T)
    | DoSend(claim: nat)
    | DoReceive(reg: nat)
    | DoAbortAll
    | DoClose

  function Start<T>(): Sys<T> {
    Sys(Fresh(), [], [], [], false, [])
  }

  ghost function Next<T>(s: Sys<T>, a: Action<T>): Sys<T> {
    if s.crashed then s else
    match a
    case DoRegister(id) =>
      var (d, r) := Registered(s.d, id);
      if r.Ok? then s.(d := d, ids := s.ids + [id], cancels := s.cancels + [0], handed := s.handed + [r.value]) else s
    case DoCancel(n) =>
      if n < |s.ids| && n < |s.cancels|
      then s.(d := Cancelled(s.d, s.ids[n]), cancels := s.cancels[n := s.cancels[n] + 1]) else s
    case DoClaim(id, resp) =>
      var (d, r) := Claimed(s.d, id);
      if r.Some? then s.(d := d, claims := s.claims + [Claim(id, r.value, resp)]) else s
    case DoSend(k) =>
      if k >= |s.claims| then s else
      var c := s.claims[k].channel;
      if c < |s.d.channels| && CanSend(s.d.channels[c])
      then s.(d := Delivered(s.d, c, s.claims[k].resp), claims := s.claims[..k] + s.claims[k + 1..])
      else s.(crashed := true)
    case DoReceive(n) =>
      if n < |s.d.channels| && s.d.channels[n].buf != []
      then s.(d := s.d.(channels := s.d.channels[n := s.d.channels[n].(buf := s.d.channels[n].buf[1..])])) else s
    case DoAbortAll => if CanAbort(s.d) then s.(d := Aborted(s.d)) else s.(crashed := true)
    case DoClose => if CanAbort(s.d) then s.(d := Closed(s.d)) else s.(crashed := true)
  }

  ghost function Run<T>(s: Sys<T>, acts: seq<Action<T>>): Sys<T>
    decreases |acts|
  {
    if acts == [] then s else Run(Next(s, acts[0]), acts[1..])
  }

  predicate IsPending<T>(s: Sys<T>, n: nat)
    requires n < |s.ids|
  {
    s.ids[n] in s.d.pending && s.d.pending[s.ids[n]] == n
  }

  predicate IsClaimed<T>(s: Sys<T>, n: nat) {
    exists k :: 0 <= k < |s.claims| && s.claims[k].channel == n
  }

  /** The channel of registration n is untouched: open, empty, never sent to. */
  predicate Untouched<T>(s: Sys<T>, n: nat)
    requires n < |s.d.channels|
  {
    s.d.channels[n] == Channel([], false, 0)
  }

  ghost predicate Inv<T>(s: Sys<T>) {
    && !s.crashed
    && |s.ids| == |s.cancels| == |s.d.channels| == |s.handed|
    && (forall n :: 0 <= n < |s.handed| ==> s.handed[n] == n)
    && (forall id :: id in s.d.pending ==> s.d.pending[id] < |s.ids| && s.ids[s.d.pending[id]] == id)
    && (forall k :: 0 <= k < |s.claims| ==>
          && s.claims[k].channel < |s.ids|
          && s.ids[s.claims[k].channel] == s.claims[k].id
          && Untouched(s, s.claims[k].channel)
          && !IsPending(s, s.claims[k].channel))
    && (forall j, k :: 0 <= j < k < |s.claims| ==> s.claims[j].channel != s.claims[k].channel)
    && (forall n :: 0 <= n < |s.ids| && IsPending(s, n) ==> Untouched(s, n))
    && (forall n :: 0 <= n < |s.ids| ==> WellUsed(s.d.channels[n]))
    && (forall m, n :: 0 <= m < n < |s.ids| && s.ids[m] == s.ids[n] ==> !IsPending(s, m))
    && (s.d.closed ==> s.d.pending == map[])
  }

  /** At most one value ever, and none at all once closed. */
  predicate WellUsed<T>(c: Channel<T>) {
    && |c.buf| <= c.sent <= 1
    && (c.closed ==> c.sent == 0)
  }

  lemma InvCanAbort<T>(s: Sys<T>)
    requires Inv(s)
    ensures CanAbort(s.d)
  {
    forall id | id in s.d.pending
      ensures s.d.pending[id] < |s.d.channels| && !s.d.channels[s.d.pending[id]].closed
    {
      assert IsPending(s, s.d.pending[id]);
    }
  }

  lemma PendingValues<T>(s: Sys<T>, n: nat)
    requires Inv(s) && n < |s.ids|
    ensures n in s.d.pending.Values <==> IsPending(s, n)
  {
    if n in s.d.pending.Values {
      var id :| id in s.d.pending && s.d.pending[id] == n;
    }
  }

  lemma AbortedKeepsInv<T>(s: Sys<T>)
    requires Inv(s)
    ensures Inv(s.(d := Aborted(s.d)))
  {
    forall n: nat | n < |s.ids| ensures n in s.d.pending.Values <==> IsPending(s, n) { PendingValues(s, n); }
  }

  lemma ShutKeepsInv<T>(s: Sys<T>)
    requires Inv(s) && s.d.pending == map[]
    ensures Inv(s.(d := s.d.(closed := true)))
  {
    var t := s.(d := s.d.(closed := true));
    assert forall n :: 0 <= n < |s.ids| ==> !IsPending(t, n);
  }

  lemma AbortKeepsInv<T>(s: Sys<T>)
    requires Inv(s)
    ensures Inv(s.(d := Aborted(s.d))) && Inv(s.(d := Closed(s.d)))
  {
    AbortedKeepsInv(s);
    hide Inv;
    ShutKeepsInv(s.(d := Aborted(s.d)));
  }

  /** The claims left after one is delivered, each with its channel untouched. */
  lemma SendKeepsClaims<T>(s: Sys<T>, k: nat)
    requires Inv(s) && k < |s.claims|
    ensures CanSend(s.d.channels[s.claims[k].channel])
    ensures
      var t := Next(s, DoSend(k));
      && (forall j :: 0 <= j < |t.claims| ==>
            && t.claims[j] == s.claims[if j < k then j else j + 1]
            && t.claims[j].channel < |t.ids| == |t.d.channels| && Untouched(t, t.claims[j].channel))
      && (forall i, j :: 0 <= i < j < |t.claims| ==> t.claims[i].channel != t.claims[j].channel)
  {
    assert Untouched(s, s.claims[k].channel);
  }

  lemma SendKeepsInv<T>(s: Sys<T>, k: nat)
    requires Inv(s) && k < |s.claims|
    ensures CanSend(s.d.channels[s.claims[k].channel])
    ensures Inv(Next(s, DoSend(k)))
  {
    SendKeepsClaims(s, k);
    assert Untouched(s, s.claims[k].channel);
    var t := Next(s, DoSend(k));
    assert t.d.pending == s.d.pending && t.ids == s.ids;
    assert forall m :: 0 <= m < |t.ids| ==> (IsPending(t, m) <==> IsPending(s, m));
  }

  lemma RegisterKeepsInv<T>(s: Sys<T>, id: string)
    requires Inv(s)
    ensures Inv(Next(s, DoRegister(id)))
  {
    if !s.d.closed && id !in s.d.pending {
      var t := Next(s, DoRegister(id));
      assert IsPending(t, |s.ids|);
      forall n | 0 <= n < |s.ids|
        ensures IsPending(t, n) <==> IsPending(s, n)
        ensures t.ids[n] == s.ids[n] && t.d.channels[n] == s.d.channels[n]
      {
      }
    }
  }

  lemma ClaimKeepsInv<T>(s: Sys<T>, id: string, resp: T)
    requires Inv(s)
    ensures Inv(Next(s, DoClaim(id, resp)))
  {
    var t := Next(s, DoClaim(id, resp));
    if id in s.d.pending { assert IsPending(s, s.d.pending[id]); }
    assert forall m :: 0 <= m < |t.ids| && IsPending(t, m) ==> IsPending(s, m);
  }

  lemma CancelKeepsInv<T>(s: Sys<T>, n: nat)
    requires Inv(s)
    ensures Inv(Next(s, DoCancel(n)))
  {
    var t := Next(s, DoCancel(n));
    assert forall m :: 0 <= m < |t.ids| && IsPending(t, m) ==> IsPending(s, m);
  }

  lemma ReceiveKeepsInv<T>(s: Sys<T>, n: nat)
    requires Inv(s)
    ensures Inv(Next(s, DoReceive(n)))
  {
    var t := Next(s, DoReceive(n));
    assert forall m :: 0 <= m < |t.ids| && IsPending(t, m) ==> IsPending(s, m);
  }

  lemma StepKeepsInv<T>(s: Sys<T>, a: Action<T>)
    requires Inv(s)
    ensures Inv(Next(s, a))
  {
    match a
    case DoRegister(id) => RegisterKeepsInv(s, id);
    case DoCancel(n) => CancelKeepsInv(s, n);
    case DoClaim(id, resp) => ClaimKeepsInv(s, id, resp);
    case DoSend(k) => if k < |s.claims| { SendKeepsInv(s, k); }
    case DoReceive(n) => ReceiveKeepsInv(s, n);
    case DoAbortAll => InvCanAbort(s); AbortKeepsInv(s);
    case DoClose => InvCanAbort(s); AbortKeepsInv(s);
  }

  lemma {:induction false} RunKeepsInv<T>(s: Sys<T>, acts: seq<Action<T>>)
    requires Inv(s)
    ensures Inv(Run(s, acts))
    decreases |acts|
  {
    if acts != [] {
      StepKeepsInv(s, acts[0]);
      RunKeepsInv(Next(s, acts[0]), acts[1..]);
    }
  }

  lemma {:induction false} InjectiveValues(m: map<string, nat>)
    requires forall a, b :: a in m && b in m && m[a] == m[b] ==> a == b
    ensures |m.Values| == |m|
    decreases |m|
  {
    if m != map[] {
      var id :| id in m;
      var rest := m - {id};
      assert m.Keys == rest.Keys + {id};
      assert m.Values == rest.Values + {m[id]};
      InjectiveValues(rest);
    }
  }

  /**
   In every interleaving: Register succeeds exactly when the dispatcher is open and the id is not pending, and
   then hands its caller the channel it stored under the id, open and empty, which nobody was handed before.
   */
  lemma RegisterHandsOverItsChannel<T>(acts: seq<Action<T>>, id: string)
    ensures
      var s := Run(Start(), acts);
      var t, r := Next(s, DoRegister(id)), Registered(s.d, id).1;
      && (r.Ok? <==> !s.d.closed && id !in s.d.pending)
      && (r.Err? ==> t == s)
      && (r.Ok? ==>
            && t.ids == s.ids + [id] && t.handed == s.handed + [r.value]
            && id in t.d.pending && t.d.pending[id] == r.value
            && r.value < |t.d.channels| && Untouched(t, r.value)
            && r.value !in s.handed && r.value !in s.d.pending.Values)
  {
    RunKeepsInv(Start(), acts);
    var s := Run(Start(), acts);
    assert forall a :: a in s.d.pending ==> s.d.pending[a] < |s.ids|;
  }

  /**
   Close leaves nothing pending and the dispatcher closed, which ClosedForEver says is final; AbortAll leaves
   it as it was.
   */
  lemma CloseCloses<T>(acts: seq<Action<T>>)
    ensures
      var s := Run(Start(), acts);
      var t, u := Next(s, DoClose), Next(s, DoAbortAll);
      && t.d.closed && t.d.pending == map[] && u.d.closed == s.d.closed && u.d.pending == map[]
      && |t.d.channels| == |u.d.channels| == |s.ids|
      && forall n: nat :: n < |s.ids| && IsPending(s, n) ==> t.d.channels[n].closed && u.d.channels[n].closed
  {
    RunKeepsInv(Start(), acts);
    var s := Run(Start(), acts);
    InvCanAbort(s);
    forall n: nat | n < |s.ids| && IsPending(s, n) ensures n in s.d.pending.Values { PendingValues(s, n); }
  }

  /** In every interleaving, what Len returns is the number of registrations still pending. */
  lemma LenCountsPending<T>(acts: seq<Action<T>>)
    ensures
      var s := Run(Start(), acts);
      |s.d.pending| == |set n: nat | n < |s.ids| && IsPending(s, n)|
  {
    RunKeepsInv(Start(), acts);
    var s := Run(Start(), acts);
    InvCanAbort(s);
    InjectiveValues(s.d.pending);
    forall n: nat ensures n in s.d.pending.Values <==> n < |s.ids| && IsPending(s, n) {
      if n < |s.ids| { PendingValues(s, n); }
    }
    assert s.d.pending.Values == set n: nat | n < |s.ids| && IsPending(s, n);
  }

  /**
   Safety in every interleaving, with ids reused and cleanups repeated at will:
   no send or close ever panics or blocks, every claim in flight can still be
   delivered, a registration gets at most one value, and a closed channel none.
   */
  lemma NeverPanicsOrBlocks<T>(acts: seq<Action<T>>)
    ensures
      var s := Run(Start(), acts);
      && !s.crashed
      && CanAbort(s.d)
      && (forall k :: 0 <= k < |s.claims| ==>
            s.claims[k].channel < |s.d.channels| && CanSend(s.d.channels[s.claims[k].channel]))
      && (forall n :: 0 <= n < |s.d.channels| ==> WellUsed(s.d.channels[n]))
  {
    RunKeepsInv(Start(), acts);
    InvCanAbort(Run(Start(), acts));
  }

  /** Some cleanup of the id of registration n has run. */
  predicate WasCancelled<T>(s: Sys<T>, n: nat)
    requires n < |s.ids|
  {
    exists m :: 0 <= m < |s.ids| && m < |s.cancels| && s.ids[m] == s.ids[n] && s.cancels[m] > 0
  }

  predicate HasFate<T>(s: Sys<T>, n: nat)
    requires n < |s.ids| && n < |s.d.channels|
  {
    || IsPending(s, n) || IsClaimed(s, n)
    || s.d.channels[n].sent > 0 || s.d.channels[n].closed
    || WasCancelled(s, n)
  }

  ghost predicate Fated<T>(s: Sys<T>) {
    && |s.ids| == |s.d.channels|
    && forall n: nat :: n < |s.ids| ==> HasFate(s, n)
  }

  /** A step that leaves registrations, cleanups and claims at least as they were. */
  lemma SameFates<T>(s: Sys<T>, t: Sys<T>, n: nat)
    requires n < |s.ids| <= |t.ids| && n < |s.d.channels| && n < |t.d.channels| && |s.cancels| <= |t.cancels|
    requires forall i :: 0 <= i < |s.ids| ==> t.ids[i] == s.ids[i]
    requires forall i :: 0 <= i < |s.cancels| ==> t.cancels[i] >= s.cancels[i]
    requires t.d.channels[n].sent >= s.d.channels[n].sent && (s.d.channels[n].closed ==> t.d.channels[n].closed)
    requires IsPending(s, n) ==> HasFate(t, n)
    requires IsClaimed(s, n) ==> HasFate(t, n)
    requires HasFate(s, n)
    ensures HasFate(t, n)
  {
    if WasCancelled(s, n) {
      var m :| 0 <= m < |s.ids| && m < |s.cancels| && s.ids[m] == s.ids[n] && s.cancels[m] > 0;
      assert t.ids[m] == t.ids[n] && t.cancels[m] > 0;
    }
  }

  lemma ClaimKeepsFate<T>(s: Sys<T>, id: string, resp: T, n: nat)
    requires Inv(s) && n < |s.ids| && HasFate(s, n)
    ensures var t := Next(s, DoClaim(id, resp)); n < |t.ids| == |t.d.channels| && HasFate(t, n)
  {
    var t := Next(s, DoClaim(id, resp));
    if IsPending(s, n) && id == s.ids[n] { assert t.claims[|s.claims|].channel == n; }
    if IsClaimed(s, n) {
      var k :| 0 <= k < |s.claims| && s.claims[k].channel == n;
      assert t.claims[k].channel == n;
    }
    hide Inv;
    SameFates(s, t, n);
  }

  lemma SendKeepsFate<T>(s: Sys<T>, k: nat, n: nat)
    requires Inv(s) && n < |s.ids| && HasFate(s, n)
    ensures var t := Next(s, DoSend(k)); n < |t.ids| == |t.d.channels| && HasFate(t, n)
  {
    if k < |s.claims| {
      SendKeepsInv(s, k);
      var t := Next(s, DoSend(k));
      if IsClaimed(s, n) {
        var j :| 0 <= j < |s.claims| && s.claims[j].channel == n;
        if j < k { assert t.claims[j].channel == n; }
        else if j > k { assert t.claims[j - 1].channel == n; }
      }
      hide Inv;
      SameFates(s, t, n);
    }
  }

  lemma AbortKeepsFate<T>(s: Sys<T>, a: Action<T>, n: nat)
    requires Inv(s) && n < |s.ids| && HasFate(s, n) && (a.DoAbortAll? || a.DoClose?)
    ensures var t := Next(s, a); n < |t.ids| == |t.d.channels| && HasFate(t, n)
  {
    InvCanAbort(s);
    PendingValues(s, n);
    var t := Next(s, a);
    assert t.claims == s.claims;
    hide Inv, CanAbort;
    SameFates(s, t, n);
  }

  lemma OtherKeepsFate<T>(s: Sys<T>, a: Action<T>, n: nat)
    requires Inv(s) && n < |s.ids| && HasFate(s, n) && (a.DoRegister? || a.DoCancel? || a.DoReceive?)
    ensures var t := Next(s, a); n < |t.ids| && n < |t.d.channels| && HasFate(t, n)
  {
    var t := Next(s, a);
    assert t.claims == s.claims;
    if a.DoCancel? && a.reg < |s.ids| && s.ids[a.reg] == s.ids[n] { assert t.cancels[a.reg] > 0; }
    hide Inv;
    SameFates(s, t, n);
  }

  lemma StepKeepsFated<T>(s: Sys<T>, a: Action<T>)
    requires Inv(s) && Fated(s)
    ensures Fated(Next(s, a))
  {
    StepKeepsInv(s, a);
    var t := Next(s, a);
    forall n: nat | n < |t.ids| ensures n < |t.d.channels| && HasFate(t, n) {
      if n < |s.ids| {
        match a
        case DoClaim(id, resp) => ClaimKeepsFate(s, id, resp, n);
        case DoSend(k) => SendKeepsFate(s, k, n);
        case DoAbortAll => AbortKeepsFate(s, a, n);
        case DoClose => AbortKeepsFate(s, a, n);
        case _ => OtherKeepsFate(s, a, n);
      } else {
        assert IsPending(t, n);
      }
    }
  }

  lemma {:induction false} RunKeepsFated<T>(s: Sys<T>, acts: seq<Action<T>>)
    requires Inv(s) && Fated(s)
    ensures Fated(Run(s, acts))
    decreases |acts|
  {
    hide Inv, Fated, Next;
    if acts != [] {
      StepKeepsInv(s, acts[0]);
      StepKeepsFated(s, acts[0]);
      RunKeepsFated(Next(s, acts[0]), acts[1..]);
    }
  }

  /**
   A registration is still pending, claimed by a Dispatch, answered, or closed by AbortAll or Close, never
   two of these; and if it is none of them a cleanup of its id has run.
   */
  lemma FatesAreExclusive<T>(acts: seq<Action<T>>, n: nat)
    requires n < |Run(Start(), acts).ids|
    ensures
      var s := Run(Start(), acts);
      && n < |s.d.channels|
      && (IsPending(s, n) ==> !IsClaimed(s, n) && s.d.channels[n].sent == 0 && !s.d.channels[n].closed)
      && (IsClaimed(s, n) ==> s.d.channels[n].sent == 0 && !s.d.channels[n].closed)
      && !(s.d.channels[n].sent > 0 && s.d.channels[n].closed)
      && HasFate(s, n)
  {
    RunKeepsInv(Start(), acts);
    RunKeepsFated(Start(), acts);
  }

  /** Closing is final: nothing is pending and nothing can be registered afterwards, whatever runs. */
  lemma {:induction false} ClosedForEver<T>(s: Sys<T>, acts: seq<Action<T>>)
    requires Inv(s) && s.d.closed
    ensures
      var t := Run(s, acts);
      t.d.closed && t.d.pending == map[] && t.ids == s.ids
    decreases |acts|
  {
    if acts != [] {
      StepKeepsInv(s, acts[0]);
      ClosedForEver(Next(s, acts[0]), acts[1..]);
    }
  }

  /** A cleanup removes an entry it does not own exactly when its id now belongs to a later registration. */
  lemma CancelRemovesForeignEntry<T>(s: Sys<T>, n: nat, m: nat)
    requires Inv(s) && n < |s.ids| && m < |s.ids| && m != n && IsPending(s, m)
    ensures !IsPending(Next(s, DoCancel(n)), m) <==> s.ids[n] == s.ids[m]
  {
  }

  /** The discipline of a caller that runs each cleanup once, before using the id again. */
  ghost predicate Disciplined<T>(s: Sys<T>, a: Action<T>) {
    match a
    case DoRegister(id) => forall n :: 0 <= n < |s.ids| && s.ids[n] == id ==> n < |s.cancels| && s.cancels[n] > 0
    case DoCancel(n) => n < |s.cancels| ==> s.cancels[n] == 0
    case _ => true
  }

  ghost predicate DisciplinedRun<T>(s: Sys<T>, acts: seq<Action<T>>)
    decreases |acts|
  {
    acts == [] || (Disciplined(s, acts[0]) && DisciplinedRun(Next(s, acts[0]), acts[1..]))
  }

  /** Of the registrations of one id at most one has a cleanup still to run, and it is the latest. */
  ghost predicate OneOwner<T>(s: Sys<T>) {
    && Inv(s)
    && (forall m, n :: 0 <= m < n < |s.ids| && s.ids[m] == s.ids[n] ==> s.cancels[m] > 0)
  }

  lemma {:induction false} DisciplineKeepsOneOwner<T>(s: Sys<T>, acts: seq<Action<T>>)
    requires OneOwner(s) && DisciplinedRun(s, acts)
    ensures OneOwner(Run(s, acts))
    decreases |acts|
  {
    if acts != [] {
      StepKeepsInv(s, acts[0]);
      DisciplineKeepsOneOwner(Next(s, acts[0]), acts[1..]);
    }
  }

  /** Under the discipline a cleanup never removes another caller's pending entry. */
  lemma CancelRemovesOnlyItsOwn<T>(acts: seq<Action<T>>, n: nat, m: nat)
    requires DisciplinedRun(Start(), acts)
    requires
      var s := Run(Start(), acts);
      && n < |s.ids| && m < |s.ids| && m != n && IsPending(s, m)
      && Disciplined(s, DoCancel(n))
    ensures |Run(Start(), acts).ids| == |Next(Run(Start(), acts), DoCancel(n)).ids|
    ensures IsPending(Next(Run(Start(), acts), DoCancel(n)), m)
  {
    DisciplineKeepsOneOwner(Start(), acts);
  }

  /** Without the discipline it does: a late cleanup removes the entry of a second caller with the same id. */
  lemma ReusedIdLosesEntry(resp: int)
    ensures
      var s := Run(Start(), [DoRegister("a"), DoClaim("a", resp), DoRegister("a")]);
      |s.ids| == 2 && IsPending(s, 1) && !IsPending(Next(s, DoCancel(0)), 1)
  {
    var s0 := Start<int>();
    var s1 := Next(s0, DoRegister("a"));
    var s2 := Next(s1, DoClaim("a", resp));
    var s3 := Next(s2, DoRegister("a"));
    var acts := [DoRegister("a"), DoClaim("a", resp), DoRegister("a")];
    assert acts[1..] == [DoClaim("a", resp), DoRegister("a")];
    assert acts[1..][1..] == [DoRegister("a")];
    assert Run(s0, acts) == Run(s1, acts[1..]) == Run(s2, acts[1..][1..]) == Run(s3, []);
  }
}

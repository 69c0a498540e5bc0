/**
 Runs of the wall detector: replay against live state, conservation of volume and
 the lifecycle of every stream, over any sequence of books and of the deletions
 that the subscribe manager makes behind the detector's back.
 */
module WallRuns {
  import opened Wrappers
  import opened Wall
  import opened WallDetector

  /** Streams are in order, named by the id they carry, and those that ended booked everything out. */
  ghost predicate StreamsOk(s: Store) {
    forall id :: id in s.streams ==> StreamOk(id, s.streams[id])
  }

  ghost predicate StreamOk(id: string, es: seq<Event>) {
    && id != "" && WellFormed(es) && es[0].wallId == id
    && (!IsOpen(es) ==> Completed(es))
  }

  /** The wall in a slot is the one its stream tells of, volume included. */
  ghost predicate SlotOk(s: Store, slot: Slot) {
    slot in s.active ==>
      var w := s.active[slot];
      SlotOf(w) == slot && w.id in s.streams && Tracks(CoreOf(w), s.streams[w.id], w.volume)
  }

  ghost predicate Inv(s: Store) {
    && StreamsOk(s)
    && (forall slot :: SlotOk(s, slot))
    && (forall a, b :: a in s.active && b in s.active && a != b ==> s.active[a].id != s.active[b].id)
  }

  /** In the middle of a step: wall w is being handled, and its stream has booked volume `booked`. */
  ghost predicate Handling(s: Store, w: Data, booked: real) {
    && StreamsOk(s)
    && w.id in s.streams && Tracks(CoreOf(w), s.streams[w.id], booked)
    && (forall slot :: slot != SlotOf(w) ==> SlotOk(s, slot))
    && (forall a :: a in s.active && a != SlotOf(w) ==> s.active[a].id != w.id)
    && (forall a, b :: a in s.active && b in s.active && a != b && a != SlotOf(w) && b != SlotOf(w)
          ==> s.active[a].id != s.active[b].id)
  }

  lemma SaveKeepsHandling(s: Store, w: Data, v: Data, booked: real)
    requires Handling(s, w, booked) && CoreOf(v) == CoreOf(w) && SlotOf(v) == SlotOf(w)
    ensures Handling(s, v, booked) && Handling(Saved(s, v), v, booked)
  {
    var t := Saved(s, v);
    forall slot | slot != SlotOf(v) ensures SlotOk(t, slot) { assert SlotOk(s, slot); }
  }

  /** What an event may announce, given the wall v as it is when the event is emitted. */
  ghost predicate Announces(w: Data, v: Data, booked: real, k: Kind, delta: real) {
    && SlotOf(v) == SlotOf(w)
    && CoreOf(v) == CoreOf(w).(status := v.status, matured := v.matured)
    && match k
       case Maturing => !w.matured && v.matured && v.status == w.status && delta == 0.0
       case PriceApproached => v.matured == w.matured && v.status == w.status && delta == 0.0
       case Resized => v.matured == w.matured && v.status == w.status && v.volume == booked + delta
       case Absorbed => v.matured == w.matured && v.status == w.status && v.volume == booked + delta
       case Weakening => w.status != Weakened && v.status == Weakened && v.matured == w.matured &&
           delta == 0.0 && v.volume == booked
       case _ => false
  }

  /** One stream grew and at most one slot changed: all others are as consistent as before. */
  lemma OthersKept(s: Store, t: Store, slot: Slot, id: string, es: seq<Event>)
    requires StreamsOk(s) && StreamOk(id, es) && t.streams == s.streams[id := es]
    requires OnlySlot(s, t, slot)
    requires forall a :: a != slot ==> SlotOk(s, a)
    requires forall a :: a in s.active && a != slot ==> s.active[a].id != id
    ensures StreamsOk(t) && forall a :: a != slot ==> SlotOk(t, a)
  {
    hide StreamOk, Tracks, CoreOf;
    forall x | x in t.streams ensures StreamOk(x, t.streams[x]) {
      if x != id { assert StreamOk(x, s.streams[x]); }
    }
    forall a | a != slot ensures SlotOk(t, a) { assert SlotOk(s, a); }
  }

  lemma EmitKeepsHandling(s: Store, w: Data, v: Data, booked: real, k: Kind, delta: real, spreadPct: real, now: int)
    requires Handling(s, w, booked) && Announces(w, v, booked, k, delta)
    ensures
      var (v1, s1) := Emitted(v, s, k, delta, spreadPct, now);
      && Handling(s1, v1, booked + delta)
      && SlotOf(v1) == SlotOf(w) && v1 == v.(eventSeq := v.eventSeq + 1)
  {
    var e := EventOf(v, k, delta, spreadPct, now);
    var es := s.streams[w.id];
    var (v1, s1) := Emitted(v, s, k, delta, spreadPct, now);
    EmitTracks(CoreOf(w), es, booked, e, CoreOf(v1));
    assert StreamOk(w.id, es);
    assert StreamOk(w.id, es + [e]);
    hide StreamOk, Tracks, Announces, SlotOk, StreamsOk;
    OthersKept(s, s1, SlotOf(w), w.id, es + [e]);
  }

  lemma BeginHandling(s: Store, slot: Slot)
    requires Inv(s) && slot in s.active
    ensures Handling(s, s.active[slot], s.active[slot].volume) && SlotOf(s.active[slot]) == slot
  {
    assert SlotOk(s, slot);
  }

  lemma EndHandling(s: Store, w: Data)
    requires Handling(s, w, w.volume)
    ensures Inv(Saved(s, w))
  {
    var t := Saved(s, w);
    forall slot ensures SlotOk(t, slot) {
      if slot != SlotOf(w) { assert SlotOk(s, slot); }
    }
  }

  // ---------------------------------------------------------------- the parts of one step

  lemma MaturityKeeps(cfg: Config, s: Store, w: Data, booked: real, spreadPct: real, now: int, clock: int)
    requires Handling(s, w, booked)
    ensures
      var (w1, s1) := MaturityChecked(cfg, w, s, spreadPct, now, clock);
      && Handling(s1, w1, booked) && w1.volume == w.volume && w1.initialVolume == w.initialVolume &&
          SlotOf(w1) == SlotOf(w)
  {
    var v := w.(matured := true);
    if !w.matured && cfg.minLifespan > 0 && AgeAt(w, now, clock) >= cfg.minLifespan {
      var t := Saved(s, v);
      forall slot | slot != SlotOf(w) ensures SlotOk(t, slot) { assert SlotOk(s, slot); }
      EmitKeepsHandling(t, w, v, booked, Maturing, 0.0, spreadPct, now);
    }
  }

  lemma ApproachKeeps(cfg: Config, s: Store, w: Data, booked: real, prev: real, spreadPct: real, now: int)
    requires Handling(s, w, booked)
    ensures
      var (w1, s1) := ApproachChecked(cfg, w, s, prev, spreadPct, now);
      && Handling(s1, w1, booked) && w1.volume == w.volume && SlotOf(w1) == SlotOf(w)
  {
    if w.distancePct <= ApproachThreshold(cfg) && prev > ApproachThreshold(cfg) {
      EmitKeepsHandling(s, w, w, booked, PriceApproached, 0.0, spreadPct, now);
    }
  }

  /** The volume event books exactly the change since the last book. */
  lemma VolumeKeeps(s: Store, w: Data, delta: real, traded: real, spreadPct: real, now: int)
    requires Handling(s, w, w.volume - delta)
    ensures
      var (w1, s1) := VolumeChecked(w, s, delta, traded, spreadPct, now);
      && Handling(s1, w1, w1.volume) && w1.volume == w.volume && SlotOf(w1) == SlotOf(w)
  {
    if delta != 0.0 {
      EmitKeepsHandling(s, w, w, w.volume - delta, if delta < 0.0 && traded > 0.0 then Absorbed else Resized,
          delta, spreadPct, now);
    }
  }

  lemma WeaknessKeeps(cfg: Config, s: Store, w: Data, spreadPct: real, now: int)
    requires Handling(s, w, w.volume)
    ensures
      var (w1, s1) := WeaknessChecked(cfg, w, s, spreadPct, now);
      && Handling(s1, w1, w1.volume) && SlotOf(w1) == SlotOf(w)
  {
    if w.initialVolume > 0.0 && w.volume / w.initialVolume * 100.0 < WeakenedThreshold(cfg) && w.status != Weakened {
      EmitKeepsHandling(s, w, w.(status := Weakened), w.volume, Weakening, 0.0, spreadPct, now);
    }
  }

  lemma ProgressKeeps(cfg: Config, s: Store, w: Data, ev: Eval, spreadPct: real, now: int, clock: int)
    requires Handling(s, w, w.volume)
    ensures
      var (w1, s1) := Progressed(cfg, w, s, ev, spreadPct, now, clock);
      && Handling(s1, w1, w.volume) && w1.volume == ev.volume && SlotOf(w1) == SlotOf(w)
  {
    var w0 := Refreshed(w, ev, now);
    SaveKeepsHandling(s, w, w0, w.volume);
    MaturityKeeps(cfg, Saved(s, w0), w0, w.volume, spreadPct, now, clock);
    var (w1, s1) := MaturityChecked(cfg, w0, Saved(s, w0), spreadPct, now, clock);
    ApproachKeeps(cfg, s1, w1, w.volume, w.distancePct, spreadPct, now);
  }

  lemma ResettleKeeps(cfg: Config, s: Store, w: Data, delta: real, traded: real, spreadPct: real, now: int)
    requires Handling(s, w, w.volume - delta)
    ensures
      var (w1, s1) := Resettled(cfg, w, s, delta, traded, spreadPct, now);
      Inv(s1) && SlotOf(w) in s1.active && s1.active[SlotOf(w)] == w1
  {
    var (w1, s1) := VolumeChecked(w, s, delta, traded, spreadPct, now);
    VolumeKeeps(s, w, delta, traded, spreadPct, now);
    WeaknessKeeps(cfg, s1, w1, spreadPct, now);
    var (w2, s2) := WeaknessChecked(cfg, w1, s1, spreadPct, now);
    EndHandling(s2, w2);
  }

  lemma ExistingKeepsInv(
    cfg: Config, s: Store, slot: Slot, ev: Eval, traded: real, spreadPct: real, now: int, clock: int)
    requires Inv(s) && slot in s.active
    ensures
      var (w1, s1) := ExistingHandled(cfg, s.active[slot], s, ev, traded, spreadPct, now, clock);
      Inv(s1) && slot in s1.active && s1.active[slot] == w1
  {
    var w := s.active[slot];
    BeginHandling(s, slot);
    ProgressKeeps(cfg, s, w, ev, spreadPct, now, clock);
    var (w1, s1) := Progressed(cfg, w, s, ev, spreadPct, now, clock);
    ResettleKeeps(cfg, s1, w1, ev.volume - w.volume, traded, spreadPct, now);
  }

  /** The terminal event of a wall that is no longer there. */
  function TerminalEvent(w: Data, traded: real, spreadPct: real, now: int): Event {
    var consumed := traded >= w.volume && w.volume > 0.0;
    var v := w.(status := if consumed then Consumed else Disappeared);
    EventOf(v, if consumed then Consuming else Disappearing, -w.volume, spreadPct, now)
  }

  lemma DisappearanceEffect(w: Data, slot: Slot, s: Store, traded: real, spreadPct: real, now: int)
    requires w.id != "" && w.id in s.streams && SlotOf(w) == slot
    ensures DisappearanceHandled(w, slot, s, traded, spreadPct, now) ==
      Store(s.active - {slot}, s.streams[w.id := s.streams[w.id] + [TerminalEvent(w, traded, spreadPct, now)]])
  {
    var t := DisappearanceHandled(w, slot, s, traded, spreadPct, now);
    assert t.active == s.active - {slot};
  }

  lemma TerminalStream(s: Store, slot: Slot, traded: real, spreadPct: real, now: int)
    requires Inv(s) && slot in s.active
    ensures
      var w := s.active[slot];
      && SlotOf(w) == slot && w.id in s.streams && StreamOk(w.id, s.streams[w.id]) &&
      var es := s.streams[w.id] + [TerminalEvent(w, traded, spreadPct, now)];
      && StreamOk(w.id, es) && Completed(es)
      && CoreOf(Replayed(es)).status == if traded >= w.volume && w.volume > 0.0 then Consumed else Disappeared
  {
    BeginHandling(s, slot);
    var w := s.active[slot];
    TerminalCompletes(CoreOf(w), s.streams[w.id], w.volume, TerminalEvent(w, traded, spreadPct, now));
    assert StreamOk(w.id, s.streams[w.id]);
    hide Replayed, Tracks, SlotOk;
  }

  lemma DisappearanceKeepsInv(s: Store, slot: Slot, traded: real, spreadPct: real, now: int)
    requires Inv(s) && slot in s.active
    ensures
      var t := DisappearanceHandled(s.active[slot], slot, s, traded, spreadPct, now);
      var id := s.active[slot].id;
      && Inv(t) && slot !in t.active
      && t.streams.Keys == s.streams.Keys && id in t.streams && Completed(t.streams[id])
      && CoreOf(Replayed(t.streams[id])).status ==
           (if traded >= s.active[slot].volume && s.active[slot].volume > 0.0 then Consumed else Disappeared)
  {
    var w := s.active[slot];
    TerminalStream(s, slot, traded, spreadPct, now);
    DisappearanceEffect(w, slot, s, traded, spreadPct, now);
    hide StreamOk, Tracks, SlotOk, StreamsOk, Completed, Replayed, DisappearanceHandled, TerminalEvent, CoreOf;
    var t := DisappearanceHandled(w, slot, s, traded, spreadPct, now);
    OthersKept(s, t, slot, w.id, t.streams[w.id]);
    NoWallThere(t, slot);
  }

  lemma NoWallThere(s: Store, slot: Slot)
    requires slot !in s.active
    ensures SlotOk(s, slot)
  {
  }

  lemma BirthEffect(cfg: Config, s: Store, slot: Slot, ev: Eval, spreadPct: real, now: int)
    requires var id := cfg.idOf(slot.symbol, now / SECOND); id != "" && id !in s.streams
    ensures
      var w := Candidate(cfg, slot, ev, now);
      var e := EventOf(w, Born, 0.0, spreadPct, now);
      var (w1, s1) := FreshHandled(w, s, spreadPct, now);
      && w1 == w.(eventSeq := 1)
      && s1 == Store(s.active[slot := w1], s.streams[w.id := [e]])
      && StreamOk(w.id, [e]) && SlotOk(s1, slot)
  {
    var w := Candidate(cfg, slot, ev, now);
    var e := EventOf(w, Born, 0.0, spreadPct, now);
    var (w1, s1) := FreshHandled(w, s, spreadPct, now);
    BornTracks(CoreOf(w1), e);
    assert s1.streams[w.id] == [] + [e] == [e];
  }

  /** A wall born under an id that has no stream yet. */
  lemma BirthKeepsInv(cfg: Config, s: Store, slot: Slot, ev: Eval, spreadPct: real, now: int)
    requires Inv(s) && slot !in s.active
    requires var id := cfg.idOf(slot.symbol, now / SECOND); id != "" && id !in s.streams
    ensures Inv(FreshHandled(Candidate(cfg, slot, ev, now), s, spreadPct, now).1)
  {
    var w := Candidate(cfg, slot, ev, now);
    forall a ensures a in s.active ==> s.active[a].id != w.id { assert SlotOk(s, a); }
    BirthEffect(cfg, s, slot, ev, spreadPct, now);
    hide StreamOk, SlotOk, StreamsOk, FreshHandled, EventOf;
    var s1 := FreshHandled(w, s, spreadPct, now).1;
    OthersKept(s, s1, slot, w.id, s1.streams[w.id]);
  }

  /** The scan of this side gives birth to a wall. */
  predicate Births(s: Store, slot: Slot, view: SideView) {
    !(slot in s.active && view.found.Some?) && view.best.Some?
  }

  /** A birth, if there is one, gets an id that no stream has yet. */
  predicate FreshBirth(cfg: Config, s: Store, slot: Slot, view: SideView, now: int) {
    Births(s, slot, view) ==>
      cfg.idOf(slot.symbol, now / SECOND) != "" && cfg.idOf(slot.symbol, now / SECOND) !in s.streams
  }

  lemma ScanKeepsInv(cfg: Config, s: Store, slot: Slot, view: SideView, spreadPct: real, now: int, clock: int)
    requires Inv(s) && FreshBirth(cfg, s, slot, view, now)
    ensures Inv(Scanned(cfg, s, slot, view, spreadPct, now, clock))
  {
    if slot in s.active && view.found.Some? {
      ExistingKeepsInv(cfg, s, slot, view.found.value, view.traded, spreadPct, now, clock);
    } else {
      var s1 := s;
      if slot in s.active {
        DisappearanceKeepsInv(s, slot, view.traded, spreadPct, now);
        s1 := DisappearanceHandled(s.active[slot], slot, s, view.traded, spreadPct, now);
      }
      if view.best.Some? { BirthKeepsInv(cfg, s1, slot, view.best.value, spreadPct, now); }
    }
  }

  // ---------------------------------------------------------------- runs

  datatype Step =
    | Book(symbol: string, bestBid: real, bestAsk: real, bid: SideView, ask: SideView, now: int, clock: int)
    | Forget(slot: Slot)

  function Next(cfg: Config, s: Store, a: Step): Store {
    match a
    case Book(symbol, bestBid, bestAsk, bid, ask, now, clock) =>
      Processed(cfg, s, symbol, bestBid, bestAsk, bid, ask, now, clock)
    case Forget(slot) => s.(active := s.active - {slot})
  }

  /** Every wall this step gives birth to has an unused id. */
  predicate FreshIds(cfg: Config, s: Store, a: Step) {
    a.Book? && Acceptable(cfg, a.bestBid, a.bestAsk) ==>
      && FreshBirth(cfg, s, Slot(a.symbol, Long), a.bid, a.now)
      && (!cfg.isSpot ==>
            FreshBirth(cfg, Scanned(cfg, s, Slot(a.symbol, Long), a.bid, SpreadPct(a.bestBid, a.bestAsk), a.now,
                a.clock),
                       Slot(a.symbol, Short), a.ask, a.now))
  }

  ghost predicate IsRun(cfg: Config, s: Store, steps: seq<Step>, end: Store)
    decreases |steps|
  {
    if steps == [] then s == end
    else FreshIds(cfg, s, steps[0]) && IsRun(cfg, Next(cfg, s, steps[0]), steps[1..], end)
  }

  lemma StepKeepsInv(cfg: Config, s: Store, a: Step)
    requires Inv(s) && FreshIds(cfg, s, a)
    ensures Inv(Next(cfg, s, a))
  {
    match a
    case Book(symbol, bestBid, bestAsk, bid, ask, now, clock) =>
      if Acceptable(cfg, bestBid, bestAsk) {
        var spreadPct := SpreadPct(bestBid, bestAsk);
        ScanKeepsInv(cfg, s, Slot(symbol, Long), bid, spreadPct, now, clock);
        if !cfg.isSpot {
          ScanKeepsInv(cfg, Scanned(cfg, s, Slot(symbol, Long), bid, spreadPct, now, clock), Slot(symbol, Short),
              ask, spreadPct, now, clock);
        }
      }
    case Forget(slot) =>
      var t := Next(cfg, s, a);
      forall b ensures SlotOk(t, b) { assert SlotOk(s, b); }
  }

  lemma {:induction false} RunKeepsInv(cfg: Config, s: Store, steps: seq<Step>, end: Store)
    requires Inv(s) && IsRun(cfg, s, steps, end)
    ensures Inv(end)
    decreases |steps|
  {
    if steps != [] {
      StepKeepsInv(cfg, s, steps[0]);
      RunKeepsInv(cfg, Next(cfg, s, steps[0]), steps[1..], end);
    }
  }

  /**
   Replay agrees with live state: after every book of every run, replaying an active wall's stream
   gives the stored wall's id, sequence number, volume, initial volume, status, matured flag and
   first-detected time.
   */
  lemma ReplayAgreesWithLiveWall(cfg: Config, steps: seq<Step>, s: Store, slot: Slot)
    requires IsRun(cfg, EMPTY_STORE, steps, s) && slot in s.active
    ensures
      var w := s.active[slot];
      && w.id in s.streams
      && CoreOf(Replayed(s.streams[w.id])) == CoreOf(w)
      && Replayed(s.streams[w.id]).volume == w.volume
  {
    RunKeepsInv(cfg, EMPTY_STORE, steps, s);
    assert SlotOk(s, slot);
  }

  /** Volume is conserved: initial volume plus all deltas is the live volume, and nothing once the stream has ended. */
  lemma VolumeIsConserved(cfg: Config, steps: seq<Step>, s: Store, id: string)
    requires IsRun(cfg, EMPTY_STORE, steps, s) && id in s.streams
    ensures s.streams[id] != []
    ensures !IsOpen(s.streams[id]) ==>
      && s.streams[id][0].volume + SumDelta(s.streams[id]) == 0.0
      && SumDrops(s.streams[id]) == s.streams[id][0].volume + SumRises(s.streams[id])
    ensures forall slot :: slot in s.active && s.active[slot].id == id ==>
      s.active[slot].initialVolume + SumDelta(s.streams[id]) == s.active[slot].volume
  {
    RunKeepsInv(cfg, EMPTY_STORE, steps, s);
    assert StreamOk(id, s.streams[id]);
    if !IsOpen(s.streams[id]) { CompletedDropsEverything(s.streams[id]); }
    forall slot | slot in s.active && s.active[slot].id == id
      ensures s.active[slot].initialVolume + SumDelta(s.streams[id]) == s.active[slot].volume
    {
      assert SlotOk(s, slot);
    }
  }

  /** Every stream of every run follows the lifecycle grammar, and an active wall's has not ended. */
  lemma StreamsFollowTheGrammar(cfg: Config, steps: seq<Step>, s: Store, id: string)
    requires IsRun(cfg, EMPTY_STORE, steps, s) && id in s.streams
    ensures WellFormed(s.streams[id])
    ensures forall slot :: slot in s.active && s.active[slot].id == id ==> IsOpen(s.streams[id])
  {
    RunKeepsInv(cfg, EMPTY_STORE, steps, s);
    assert StreamOk(id, s.streams[id]);
    forall slot | slot in s.active && s.active[slot].id == id ensures IsOpen(s.streams[id]) {
      assert SlotOk(s, slot);
    }
  }

  // ---------------------------------------------------------------- where ids collide

  /** A birth keeps its stream in the grammar exactly when the id had no stream. */
  lemma BirthIsWellFormedIffFresh(cfg: Config, s: Store, slot: Slot, ev: Eval, spreadPct: real, now: int)
    requires cfg.idOf(slot.symbol, now / SECOND) != ""
    ensures
      var id := cfg.idOf(slot.symbol, now / SECOND);
      WellFormed(FreshHandled(Candidate(cfg, slot, ev, now), s, spreadPct, now).1.streams[id]) <==>
          StreamOf(s, id) == []
  {
    var w := Candidate(cfg, slot, ev, now);
    var e := EventOf(w, Born, 0.0, spreadPct, now);
    var es := StreamOf(s, w.id);
    Snoc([], e);
    assert [] + [e] == [e];
    if es != [] { assert (es + [e])[|es|] == e; }
  }

  /**
   Ids have a resolution of one second and no side, so a futures book in which both sides show a
   fresh wall gives both the same id, and the two walls share one stream.
   */
  lemma BothSidesShareAnId(
    cfg: Config, symbol: string, bestBid: real, bestAsk: real, bid: Eval, ask: Eval, now: int, clock: int)
    requires !cfg.isSpot && Acceptable(cfg, bestBid, bestAsk) && cfg.idOf(symbol, now / SECOND) != ""
    ensures
      var s := Processed(cfg, EMPTY_STORE, symbol, bestBid, bestAsk, SideView(None, Some(bid), 0.0),
          SideView(None, Some(ask), 0.0), now, clock);
      var long, short := Slot(symbol, Long), Slot(symbol, Short);
      && long in s.active && short in s.active && s.active[long].id == s.active[short].id
      && s.active[long].id in s.streams && !WellFormed(s.streams[s.active[long].id])
      && (Replayed(s.streams[s.active[long].id]).volume == s.active[long].volume <==> bid.volume == ask.volume)
  {
    var spreadPct := SpreadPct(bestBid, bestAsk);
    var long, short := Slot(symbol, Long), Slot(symbol, Short);
    var w, v := Candidate(cfg, long, bid, now), Candidate(cfg, short, ask, now);
    var e, f := EventOf(w, Born, 0.0, spreadPct, now), EventOf(v, Born, 0.0, spreadPct, now);
    var s1 := FreshHandled(w, EMPTY_STORE, spreadPct, now).1;
    assert s1.streams[w.id] == [] + [e];
    var s2 := FreshHandled(v, s1, spreadPct, now).1;
    assert s2.streams[w.id] == [e] + [f];
    Snoc([e], f);
    assert ([e] + [f])[1] == f;
  }

  /** In the middle of a step replay and live volume do differ: a maturing event is emitted before the volume event. */
  lemma ReplayLagsInsideAStep(cfg: Config, s: Store, slot: Slot, ev: Eval, spreadPct: real, now: int, clock: int)
    requires Inv(s) && slot in s.active && !s.active[slot].matured
    requires cfg.minLifespan > 0 && AgeAt(s.active[slot], now, clock) >= cfg.minLifespan
    ensures
      var w0 := Refreshed(s.active[slot], ev, now);
      var (w1, s1) := MaturityChecked(cfg, w0, Saved(s, w0), spreadPct, now, clock);
      && w1.id in s1.streams
      && Replayed(s1.streams[w1.id]).volume == s.active[slot].volume
      && (Replayed(s1.streams[w1.id]).volume == w1.volume <==> ev.volume == s.active[slot].volume)
  {
    var w := s.active[slot];
    BeginHandling(s, slot);
    var w0 := Refreshed(w, ev, now);
    SaveKeepsHandling(s, w, w0, w.volume);
    MaturityKeeps(cfg, Saved(s, w0), w0, w.volume, spreadPct, now, clock);
  }
}

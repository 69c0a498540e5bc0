/**
 The wall detector of internal/bots/penny_jumper/application/wall_detector.go over
 the depth store of internal/bots/penny_jumper/infrastructure/store/depth_store.go.

 The detector mutates the live wall it got from the store (a copy), saves it, and
 appends to the stream of the wall's id. The functions give each handler's effect
 on wall and store; the class performs the handlers in place.
 */
module WallDetector {
  import opened Wrappers
  import opened Wall

  datatype Slot = Slot(symbol: string, side: Side)

  datatype Trade = Trade(price: real, volume: real, taker: Side)

  /** Active walls by symbol and side, event streams by wall id. */
  datatype Store = Store(active: map<Slot, Data>, streams: map<string, seq<Event>>)

  const EMPTY_STORE := Store(map[], map[])

  /** `idOf` is ExternalUniqueID for this exchange: a function of the symbol and the time in whole seconds. */
  datatype Config = Config(
    minLifespan: int, priceApproachedPct: real, weakenedPct: real, maxSpreadPct: real,
    isSpot: bool, idOf: (string, int) -> string)

  const SECOND := 1_000_000_000
  const MAX_LEVELS := 20

  function ApproachThreshold(cfg: Config): real {
    if cfg.priceApproachedPct <= 0.0 then 0.1 else cfg.priceApproachedPct
  }

  function WeakenedThreshold(cfg: Config): real {
    if cfg.weakenedPct <= 0.0 then 50.0 else cfg.weakenedPct
  }

  /** What evalLevel measures at a level that passes its filters. */
  datatype Eval = Eval(
    price: real, volume: real, distancePct: real, notional: real,
    avgNearbyVolume: real, relativeRatio: real, backingRatio: real, depthImbalance: real)

  function StreamOf(s: Store, id: string): seq<Event> {
    if id in s.streams then s.streams[id] else []
  }

  function SlotOf(w: Data): Slot {
    Slot(w.symbol, w.side)
  }

  function Saved(s: Store, w: Data): Store {
    s.(active := s.active[SlotOf(w) := w])
  }

  /** AppendWallEvent: events of a wall without an id are dropped. */
  function Appended(s: Store, id: string, e: Event): Store {
    if id == "" then s else s.(streams := s.streams[id := StreamOf(s, id) + [e]])
  }

  function EventOf(w: Data, k: Kind, delta: real, spreadPct: real, now: int): Event {
    Event(w.id, w.eventSeq + 1, now, k, w.price, w.volume, delta, w.distancePct, spreadPct, w.relativeRatio)
  }

  function Emitted(w: Data, s: Store, k: Kind, delta: real, spreadPct: real, now: int): (Data, Store) {
    var v := w.(eventSeq := w.eventSeq + 1);
    (v, Saved(Appended(s, w.id, EventOf(w, k, delta, spreadPct, now)), v))
  }

  /** The taker who trades against a wall. */
  function TakerOf(side: Side): Option<Side> {
    Some(if side == Long then Short else Long)
  }

  // Each part of handleExistingCandidate, in the order of the source.

  function Refreshed(w: Data, ev: Eval, now: int): Data {
    w.(volume := ev.volume, lastUpdatedAt := now, distancePct := ev.distancePct, avgNearbyVolume := ev.avgNearbyVolume,
       relativeRatio := ev.relativeRatio, depthImbalance := ev.depthImbalance, backingRatio := ev.backingRatio)
  }

  function MaturityChecked(cfg: Config, w: Data, s: Store, spreadPct: real, now: int, clock: int): (Data, Store) {
    if !w.matured && cfg.minLifespan > 0 && AgeAt(w, now, clock) >= cfg.minLifespan
    then Emitted(w.(matured := true), Saved(s, w.(matured := true)), Maturing, 0.0, spreadPct, now)
    else (w, s)
  }

  function ApproachChecked(
    cfg: Config, w: Data, s: Store, prevDistancePct: real, spreadPct: real, now: int): (Data, Store) {
    if w.distancePct <= ApproachThreshold(cfg) && prevDistancePct > ApproachThreshold(cfg)
    then Emitted(w, s, PriceApproached, 0.0, spreadPct, now)
    else (w, s)
  }

  function VolumeChecked(w: Data, s: Store, delta: real, traded: real, spreadPct: real, now: int): (Data, Store) {
    if delta < 0.0 then Emitted(w, s, if traded > 0.0 then Absorbed else Resized, delta, spreadPct, now)
    else if delta > 0.0 then Emitted(w, s, Resized, delta, spreadPct, now)
    else (w, s)
  }

  function WeaknessChecked(cfg: Config, w: Data, s: Store, spreadPct: real, now: int): (Data, Store) {
    if w.initialVolume > 0.0 && w.volume / w.initialVolume * 100.0 < WeakenedThreshold(cfg) && w.status != Weakened
    then Emitted(w.(status := Weakened), s, Weakening, 0.0, spreadPct, now)
    else (w, s)
  }

  /** The snapshot and the two checks made before any volume event. */
  function Progressed(cfg: Config, w: Data, s: Store, ev: Eval, spreadPct: real, now: int, clock: int): (Data, Store) {
    var w0 := Refreshed(w, ev, now);
    var (w1, s1) := MaturityChecked(cfg, w0, Saved(s, w0), spreadPct, now, clock);
    ApproachChecked(cfg, w1, s1, w.distancePct, spreadPct, now)
  }

  /** The volume event, then the weakening it may cause. */
  function Resettled(
    cfg: Config, w: Data, s: Store, delta: real, traded: real, spreadPct: real, now: int): (Data, Store) {
    var (w1, s1) := VolumeChecked(w, s, delta, traded, spreadPct, now);
    var (w2, s2) := WeaknessChecked(cfg, w1, s1, spreadPct, now);
    (w2, Saved(s2, w2))
  }

  /** `traded` is the volume traded at the wall's price by the opposite taker, as the store reports it. */
  function ExistingHandled(
    cfg: Config, w: Data, s: Store, ev: Eval, traded: real, spreadPct: real, now: int, clock: int): (Data, Store) {
    var (w1, s1) := Progressed(cfg, w, s, ev, spreadPct, now, clock);
    Resettled(cfg, w1, s1, ev.volume - w.volume, traded, spreadPct, now)
  }

  function DisappearanceHandled(w: Data, slot: Slot, s: Store, traded: real, spreadPct: real, now: int): Store {
    var (w1, s1) :=
      if traded >= w.volume && w.volume > 0.0
      then Emitted(w.(status := Consumed), s, Consuming, -w.volume, spreadPct, now)
      else Emitted(w.(status := Disappeared), s, Disappearing, -w.volume, spreadPct, now);
    s1.(active := s1.active - {slot})
  }

  function Candidate(cfg: Config, slot: Slot, ev: Eval, now: int): Data {
    Data(cfg.idOf(slot.symbol, now / SECOND), slot.symbol, slot.side, ev.price, ev.volume, ev.volume,
         ev.avgNearbyVolume, ev.relativeRatio, ev.distancePct, ev.depthImbalance, ev.backingRatio,
         now, now, None, Active, 0, false)
  }

  function FreshHandled(w: Data, s: Store, spreadPct: real, now: int): (Data, Store) {
    Emitted(w.(eventSeq := 0), s, Born, 0.0, spreadPct, now)
  }

  /**
   One side of one book: `found` is the tracked wall's level if it still qualifies, `best` the best level to
   start from.
   */
  datatype SideView = SideView(found: Option<Eval>, best: Option<Eval>, traded: real)

  /** scanSide. */
  function Scanned(cfg: Config, s: Store, slot: Slot, view: SideView, spreadPct: real, now: int, clock: int): Store {
    if slot in s.active && view.found.Some? then
      ExistingHandled(cfg, s.active[slot], s, view.found.value, view.traded, spreadPct, now, clock).1
    else
      var s1 :=
        if slot in s.active then DisappearanceHandled(s.active[slot], slot, s, view.traded, spreadPct, now) else s;
      if view.best.None? then s1 else FreshHandled(Candidate(cfg, slot, view.best.value, now), s1, spreadPct, now).1
  }

  /** Every wall is stored under its own symbol and side. */
  ghost predicate SlotsMatch(s: Store) {
    forall a :: a in s.active ==> SlotOf(s.active[a]) == a
  }

  /** From s to t only the wall of one slot may have changed, and it is w now. */
  ghost predicate Became(s: Store, t: Store, w: Data) {
    t.active[SlotOf(w) := w] == s.active[SlotOf(w) := w]
  }

  lemma ProgressedBecame(cfg: Config, w: Data, s: Store, ev: Eval, spreadPct: real, now: int, clock: int)
    ensures var (v, t) := Progressed(cfg, w, s, ev, spreadPct, now, clock); SlotOf(v) == SlotOf(w) && Became(s, t, v)
  {
  }

  lemma ResettledBecame(cfg: Config, w: Data, s: Store, delta: real, traded: real, spreadPct: real, now: int)
    ensures
      var (v, t) := Resettled(cfg, w, s, delta, traded, spreadPct, now);
      && SlotOf(v) == SlotOf(w) && Became(s, t, v)
      && SlotOf(w) in t.active && t.active[SlotOf(w)] == v
  {
  }

  /** Only the wall of one slot may differ. */
  ghost predicate OnlySlot(s: Store, t: Store, slot: Slot) {
    forall a :: a != slot ==> (a in t.active <==> a in s.active) && (a in s.active ==> t.active[a] == s.active[a])
  }

  lemma ExistingSlots(
    cfg: Config, w: Data, s: Store, ev: Eval, traded: real, spreadPct: real, now: int, clock: int)
    ensures
      var (v, t) := ExistingHandled(cfg, w, s, ev, traded, spreadPct, now, clock);
      && SlotOf(v) == SlotOf(w) && OnlySlot(s, t, SlotOf(w))
      && SlotOf(w) in t.active && t.active[SlotOf(w)] == v
  {
    ProgressedBecame(cfg, w, s, ev, spreadPct, now, clock);
    var (w1, s1) := Progressed(cfg, w, s, ev, spreadPct, now, clock);
    ResettledBecame(cfg, w1, s1, ev.volume - w.volume, traded, spreadPct, now);
    hide Progressed, Resettled;
    var (w2, s2) := Resettled(cfg, w1, s1, ev.volume - w.volume, traded, spreadPct, now);
    BecameOnly(s, s1, w1);
    BecameOnly(s1, s2, w2);
  }

  lemma DisappearanceSlots(w: Data, s: Store, traded: real, spreadPct: real, now: int)
    ensures
      var t := DisappearanceHandled(w, SlotOf(w), s, traded, spreadPct, now);
      OnlySlot(s, t, SlotOf(w)) && SlotOf(w) !in t.active
  {
  }

  lemma FreshSlots(w: Data, s: Store, spreadPct: real, now: int)
    ensures
      var (v, t) := FreshHandled(w, s, spreadPct, now);
      && SlotOf(v) == SlotOf(w) && OnlySlot(s, t, SlotOf(w))
      && SlotOf(w) in t.active && t.active[SlotOf(w)] == v
  {
  }

  /** A scan touches its own slot only, and leaves a wall there exactly when it detects one. */
  lemma ScannedSlots(cfg: Config, s: Store, slot: Slot, view: SideView, spreadPct: real, now: int, clock: int)
    requires SlotsMatch(s)
    ensures
      var t := Scanned(cfg, s, slot, view, spreadPct, now, clock);
      && SlotsMatch(t) && OnlySlot(s, t, slot)
      && (slot in t.active <==> Detects(s, slot, view))
  {
    hide ExistingHandled, DisappearanceHandled, FreshHandled;
    if slot in s.active && view.found.Some? {
      ExistingSlots(cfg, s.active[slot], s, view.found.value, view.traded, spreadPct, now, clock);
    } else {
      var s1 := s;
      if slot in s.active {
        DisappearanceSlots(s.active[slot], s, view.traded, spreadPct, now);
        s1 := DisappearanceHandled(s.active[slot], slot, s, view.traded, spreadPct, now);
      }
      if view.best.Some? { FreshSlots(Candidate(cfg, slot, view.best.value, now), s1, spreadPct, now); }
    }
  }

  lemma BecameOnly(s: Store, t: Store, w: Data)
    requires Became(s, t, w)
    ensures OnlySlot(s, t, SlotOf(w))
  {
    var u := s.active[SlotOf(w) := w];
    assert forall a :: a != SlotOf(w) ==> (a in u <==> a in s.active) && (a in u <==> a in t.active);
  }

  // ---------------------------------------------------------------- the handlers in place

  predicate Matches(t: Trade, price: real, taker: Option<Side>) {
    t.price == price && (taker.None? || taker.value == t.taker)
  }

  /** No taker (the side 0 of the source) stands for either. */
  function TradedVolume(tape: seq<Trade>, price: real, taker: Option<Side>): real {
    if tape == [] then 0.0
    else
      var t := tape[|tape| - 1];
      TradedVolume(tape[..|tape| - 1], price, taker) + if Matches(t, price, taker) then t.volume else 0.0
  }

  /** Every trade at a price has one taker or the other. */
  lemma {:induction false} EitherTaker(tape: seq<Trade>, price: real)
    ensures TradedVolume(tape, price, None) ==
      TradedVolume(tape, price, Some(Long)) + TradedVolume(tape, price, Some(Short))
    decreases |tape|
  {
    if tape != [] { EitherTaker(tape[..|tape| - 1], price); }
  }

  class DepthStore {
    var active: map<Slot, Data>
    var streams: map<string, seq<Event>>
    var trades: map<string, seq<Trade>>

    ghost function View(): Store
      reads this
    {
      Store(active, streams)
    }

    function Tape(symbol: string): seq<Trade>
      reads this
    {
      if symbol in trades then trades[symbol] else []
    }

    constructor ()
      ensures View() == EMPTY_STORE
    {
      active, streams, trades := map[], map[], map[];
    }

    method GetTradedVolume(symbol: string, price: real, taker: Option<Side>) returns (total: real)
      ensures total == TradedVolume(Tape(symbol), price, taker)
    {
      total := 0.0;
      if symbol !in trades { return; }
      var tape := trades[symbol];
      for i := 0 to |tape|
        invariant total == TradedVolume(tape[..i], price, taker)
      {
        assert tape[..i + 1][..i] == tape[..i];
        if Matches(tape[i], price, taker) { total := total + tape[i].volume; }
      }
      assert tape[..|tape|] == tape;
    }

    method SaveActiveWall(w: Data)
      modifies this`active
      ensures View() == Saved(old(View()), w)
    {
      active := active[SlotOf(w) := w];
    }

    method DeleteActiveWall(slot: Slot)
      modifies this`active
      ensures View() == old(View()).(active := old(active) - {slot})
    {
      active := active - {slot};
    }

    method AppendWallEvent(id: string, e: Event)
      modifies this`streams
      ensures View() == Appended(old(View()), id, e)
    {
      if id == "" { return; }
      var events := if id in streams then streams[id] else [];
      streams := streams[id := events + [e]];
    }
  }

  /** The levels of one side with what evalLevel makes of each; both lists are as long as the book. */
  datatype Levels = Levels(prices: seq<real>, evals: seq<Option<Eval>>)

  function Limit(n: nat): nat {
    if n < MAX_LEVELS then n else MAX_LEVELS
  }

  predicate AtPrice(price: real, wallPrice: real, priceUnit: real) {
    -(priceUnit * 0.5) <= price - wallPrice <= priceUnit * 0.5
  }

  /** The first of the top levels within half a tick of the wall decides, even when it no longer qualifies. */
  ghost predicate FoundAt(levels: Levels, wallPrice: real, priceUnit: real, r: Option<Eval>)
    requires |levels.prices| == |levels.evals|
  {
    || (exists i: nat :: i < Limit(|levels.prices|) && AtPrice(levels.prices[i], wallPrice, priceUnit)
          && r == levels.evals[i]
          && forall j: nat :: j < i ==> !AtPrice(levels.prices[j], wallPrice, priceUnit))
    || (r == None && forall j: nat :: j < Limit(|levels.prices|) ==> !AtPrice(levels.prices[j], wallPrice, priceUnit))
  }

  /** The qualifying level of greatest positive notional among the top levels, the first of equals. */
  ghost predicate BestOf(levels: Levels, r: Option<Eval>) {
    && (r.Some? ==> r.value.notional > 0.0)
    && (r.Some? ==> exists i: nat :: i < Limit(|levels.evals|) && FirstMaximum(levels.evals, i, r))
    && (forall j: nat :: j < Limit(|levels.evals|) && levels.evals[j].Some? && levels.evals[j].value.notional > 0.0
          ==> r.Some? && levels.evals[j].value.notional <= r.value.notional)
  }

  /**
   What one side's scan saw: the tracked wall's level and what was traded there, and, when there is none,
   the best level.
   */
  ghost predicate Saw(was: Store, tape: seq<Trade>, slot: Slot, levels: Levels, priceUnit: real, view: SideView)
    requires |levels.prices| == |levels.evals|
  {
    && (slot in was.active ==>
          && FoundAt(levels, was.active[slot].price, priceUnit, view.found)
          && view.traded ==
               TradedVolume(tape, was.active[slot].price, Some(if slot.side == Long then Short else Long)))
    && (!(slot in was.active && view.found.Some?) ==> BestOf(levels, view.best))
  }

  /** The scan leaves a wall in the slot. */
  predicate Detects(was: Store, slot: Slot, view: SideView) {
    (slot in was.active && view.found.Some?) || view.best.Some?
  }

  /** r stands at index i and everything before it is smaller. */
  ghost predicate FirstMaximum(evals: seq<Option<Eval>>, i: nat, r: Option<Eval>)
    requires i < |evals| && r.Some?
  {
    evals[i] == r && forall j: nat :: j < i && evals[j].Some? ==> evals[j].value.notional < r.value.notional
  }

  class Detector {
    const cfg: Config
    const store: DepthStore

    constructor (cfg: Config, store: DepthStore)
      ensures this.cfg == cfg && this.store == store
    {
      this.cfg, this.store := cfg, store;
    }

    method FindLevelByPrice(levels: Levels, wallPrice: real, priceUnit: real) returns (r: Option<Eval>)
      requires |levels.prices| == |levels.evals|
      ensures FoundAt(levels, wallPrice, priceUnit, r)
    {
      for i := 0 to Limit(|levels.prices|)
        invariant forall j: nat :: j < i ==> !AtPrice(levels.prices[j], wallPrice, priceUnit)
      {
        if AtPrice(levels.prices[i], wallPrice, priceUnit) { return levels.evals[i]; }
      }
      r := None;
    }

    method FindBestCandidate(levels: Levels) returns (r: Option<Eval>)
      requires |levels.prices| == |levels.evals|
      ensures BestOf(levels, r)
    {
      r := None;
      var maxNotional := 0.0;
      ghost var at: nat := 0;
      for i := 0 to Limit(|levels.evals|)
        invariant maxNotional >= 0.0
        invariant r.None? ==> maxNotional == 0.0
        invariant r.Some? ==> r.value.notional == maxNotional > 0.0 && at < i && FirstMaximum(levels.evals, at, r)
        invariant forall j: nat :: j < i && levels.evals[j].Some? ==> levels.evals[j].value.notional <= maxNotional
      {
        var ev := levels.evals[i];
        if ev.Some? && ev.value.notional > maxNotional {
          maxNotional := ev.value.notional;
          r := ev;
          at := i;
        }
      }
    }

    method EmitWallEvent(w: Wall, k: Kind, delta: real, spreadPct: real, now: int)
      modifies w, store`active, store`streams
      ensures (w.data, store.View()) == Emitted(old(w.data), old(store.View()), k, delta, spreadPct, now)
    {
      w.data := w.data.(eventSeq := w.data.eventSeq + 1);
      var evt := Event(w.data.id, w.data.eventSeq, now, k, w.data.price, w.data.volume, delta,
                       w.data.distancePct, spreadPct, w.data.relativeRatio);
      store.AppendWallEvent(w.data.id, evt);
      store.SaveActiveWall(w.data);
    }

    /** The maturation check of handleExistingCandidate. */
    method CheckMaturity(w: Wall, spreadPct: real, now: int, clock: int)
      modifies w, store`active, store`streams
      ensures (w.data, store.View()) == MaturityChecked(cfg, old(w.data), old(store.View()), spreadPct, now, clock)
    {
      if !w.data.matured && cfg.minLifespan > 0 && AgeAt(w.data, now, clock) >= cfg.minLifespan {
        w.data := w.data.(matured := true);
        store.SaveActiveWall(w.data);
        EmitWallEvent(w, Maturing, 0.0, spreadPct, now);
      }
    }

    /** The price-approached check of handleExistingCandidate. */
    method CheckApproach(w: Wall, prevDistancePct: real, spreadPct: real, now: int)
      modifies w, store`active, store`streams
      ensures (w.data, store.View()) == ApproachChecked(cfg, old(w.data), old(store.View()), prevDistancePct,
          spreadPct, now)
    {
      var threshold := cfg.priceApproachedPct;
      if threshold <= 0.0 { threshold := 0.1; }
      if w.data.distancePct <= threshold && prevDistancePct > threshold {
        EmitWallEvent(w, PriceApproached, 0.0, spreadPct, now);
      }
    }

    method CheckVolumeChange(slot: Slot, w: Wall, delta: real, spreadPct: real, now: int)
      modifies w, store`active, store`streams
      ensures (w.data, store.View()) ==
        VolumeChecked(old(w.data), old(store.View()), delta,
                      TradedVolume(store.Tape(slot.symbol), old(w.data).price, TakerOf(slot.side)), spreadPct, now)
    {
      if delta < 0.0 {
        var traded := store.GetTradedVolume(slot.symbol, w.data.price, TakerOf(slot.side));
        if traded > 0.0 {
          EmitWallEvent(w, Absorbed, delta, spreadPct, now);
        } else {
          EmitWallEvent(w, Resized, delta, spreadPct, now);
        }
      } else if delta > 0.0 {
        EmitWallEvent(w, Resized, delta, spreadPct, now);
      }
    }

    method CheckWeakened(w: Wall, spreadPct: real, now: int)
      modifies w, store`active, store`streams
      ensures (w.data, store.View()) == WeaknessChecked(cfg, old(w.data), old(store.View()), spreadPct, now)
    {
      var weakenedPct := cfg.weakenedPct;
      if weakenedPct <= 0.0 { weakenedPct := 50.0; }
      if w.data.initialVolume > 0.0 && w.data.volume / w.data.initialVolume * 100.0 < weakenedPct &&
          w.data.status != Weakened {
        w.data := w.data.(status := Weakened);
        EmitWallEvent(w, Weakening, 0.0, spreadPct, now);
      }
    }

    method HandleExistingCandidate(slot: Slot, candidate: Eval, w: Wall, spreadPct: real, now: int, clock: int)
      modifies w, store`active, store`streams
      ensures (w.data, store.View()) ==
        ExistingHandled(cfg, old(w.data), old(store.View()), candidate,
                        TradedVolume(store.Tape(slot.symbol), old(w.data).price, TakerOf(slot.side)), spreadPct,
                            now, clock)
    {
      var delta := candidate.volume - w.data.volume;
      Progress(candidate, w, spreadPct, now, clock);
      Resettle(slot, w, delta, spreadPct, now);
    }

    /**
     The first half of handleExistingCandidate: update and save the snapshot before any event, then the two
     checks.
     */
    method Progress(candidate: Eval, w: Wall, spreadPct: real, now: int, clock: int)
      modifies w, store`active, store`streams
      ensures (w.data, store.View()) == Progressed(cfg, old(w.data), old(store.View()), candidate, spreadPct,
          now, clock)
      ensures w.data.price == old(w.data).price
    {
      var prevDistancePct := w.data.distancePct;
      w.data := Refreshed(w.data, candidate, now);
      store.SaveActiveWall(w.data);
      CheckMaturity(w, spreadPct, now, clock);
      CheckApproach(w, prevDistancePct, spreadPct, now);
    }

    /** Its second half: the volume event, the weakening, and the last save. */
    method Resettle(slot: Slot, w: Wall, delta: real, spreadPct: real, now: int)
      modifies w, store`active, store`streams
      ensures (w.data, store.View()) ==
        Resettled(cfg, old(w.data), old(store.View()), delta,
                  TradedVolume(store.Tape(slot.symbol), old(w.data).price, TakerOf(slot.side)), spreadPct, now)
    {
      CheckVolumeChange(slot, w, delta, spreadPct, now);
      CheckWeakened(w, spreadPct, now);
      store.SaveActiveWall(w.data);
    }

    method HandleFreshCandidate(w: Wall, spreadPct: real, now: int)
      modifies w, store`active, store`streams
      ensures (w.data, store.View()) == FreshHandled(old(w.data), old(store.View()), spreadPct, now)
    {
      w.data := w.data.(eventSeq := 0);
      EmitWallEvent(w, Born, 0.0, spreadPct, now);
    }

    method HandleDisappearedWall(slot: Slot, w: Wall, spreadPct: real, now: int)
      modifies w, store`active, store`streams
      ensures store.View() ==
        DisappearanceHandled(old(w.data), slot, old(store.View()),
                             TradedVolume(store.Tape(slot.symbol), old(w.data).price, TakerOf(slot.side)),
                                 spreadPct, now)
    {
      var traded := store.GetTradedVolume(slot.symbol, w.data.price, TakerOf(slot.side));
      if traded >= w.data.volume && w.data.volume > 0.0 {
        w.data := w.data.(status := Consumed);
        EmitWallEvent(w, Consuming, -w.data.volume, spreadPct, now);
      } else {
        w.data := w.data.(status := Disappeared);
        EmitWallEvent(w, Disappearing, -w.data.volume, spreadPct, now);
      }
      store.DeleteActiveWall(slot);
    }

    /** Returns the wall it detected or kept, and what it saw of the levels. */
    method ScanSide(slot: Slot, levels: Levels, priceUnit: real, spreadPct: real, now: int, clock: int)
      returns (wall: Wall?, ghost view: SideView)
      requires |levels.prices| == |levels.evals|
      modifies store`active, store`streams
      ensures store.View() == Scanned(cfg, old(store.View()), slot, view, spreadPct, now, clock)
      ensures Saw(old(store.View()), store.Tape(slot.symbol), slot, levels, priceUnit, view)
      ensures wall != null <==> Detects(old(store.View()), slot, view)
      ensures wall != null ==> fresh(wall)
      ensures wall != null ==> SlotOf(wall.data) in store.active && store.active[SlotOf(wall.data)] == wall.data
      ensures wall != null && SlotsMatch(old(store.View())) ==> SlotOf(wall.data) == slot
    {
      hide FoundAt, BestOf, TradedVolume;
      ghost var traded := 0.0;
      if slot in store.active {
        var w := new Wall(store.active[slot]);
        traded := TradedVolume(store.Tape(slot.symbol), w.data.price, TakerOf(slot.side));
        var found := FindLevelByPrice(levels, w.data.price, priceUnit);
        if found.Some? {
          view := SideView(found, None, traded);
          HandleExistingCandidate(slot, found.value, w, spreadPct, now, clock);
          wall := w;
          return;
        }
        HandleDisappearedWall(slot, w, spreadPct, now);
      }
      var best := FindBestCandidate(levels);
      view := SideView(None, best, traded);
      if best.None? { return null, view; }
      var w := new Wall(Candidate(cfg, slot, best.value, now));
      HandleFreshCandidate(w, spreadPct, now);
      wall := w;
    }

    /** The levels come best first; the views say what each side's scan saw, if it ran. */
    method ProcessOrderBook(symbol: string, bids: Levels, asks: Levels, priceUnit: real, now: int, clock: int)
      returns (detected: seq<Wall>, ghost bid: SideView, ghost ask: SideView)
      requires |bids.prices| == |bids.evals| && |asks.prices| == |asks.evals|
      modifies store`active, store`streams
      ensures bids.prices == [] || asks.prices == [] ==> store.View() == old(store.View()) && detected == []
      ensures bids.prices != [] && asks.prices != [] ==>
        var was, long, short := old(store.View()), Slot(symbol, Long), Slot(symbol, Short);
        && store.View() == Processed(cfg, was, symbol, bids.prices[0], asks.prices[0], bid, ask, now, clock)
        && (!Acceptable(cfg, bids.prices[0], asks.prices[0]) ==> detected == [])
        && (Acceptable(cfg, bids.prices[0], asks.prices[0]) ==>
              var mid := Scanned(cfg, was, long, bid, SpreadPct(bids.prices[0], asks.prices[0]), now, clock);
              && Saw(was, store.Tape(symbol), long, bids, priceUnit, bid)
              && (!cfg.isSpot ==> Saw(mid, store.Tape(symbol), short, asks, priceUnit, ask))
              && |detected| ==
                   (if Detects(was, long, bid) then 1 else 0)
                   + (if !cfg.isSpot && Detects(mid, short, ask) then 1 else 0)
              && (SlotsMatch(was) && Detects(was, long, bid) ==>
                    long in store.active && store.active[long] == detected[0].data)
              && (SlotsMatch(was) && !cfg.isSpot && Detects(mid, short, ask) ==>
                    short in store.active && store.active[short] == detected[|detected| - 1].data))
    {
      hide Saw, Scanned, SlotsMatch;
      ghost var was := store.View();
      detected, bid, ask := [], SideView(None, None, 0.0), SideView(None, None, 0.0);
      if |bids.prices| == 0 || |asks.prices| == 0 { return; }
      var bestBid, bestAsk := bids.prices[0], asks.prices[0];
      if bestBid <= 0.0 || bestAsk <= 0.0 || bestBid >= bestAsk { return; }
      var spreadPct := (bestAsk - bestBid) / bestBid * 100.0;
      if cfg.maxSpreadPct > 0.0 && spreadPct > cfg.maxSpreadPct { return; }
      var bidWall;
      bidWall, bid := ScanSide(Slot(symbol, Long), bids, priceUnit, spreadPct, now, clock);
      if bidWall != null { detected := detected + [bidWall]; }
      if SlotsMatch(was) { ScannedSlots(cfg, was, Slot(symbol, Long), bid, spreadPct, now, clock); }
      ghost var mid := store.View();
      if !cfg.isSpot {
        var askWall;
        askWall, ask := ScanSide(Slot(symbol, Short), asks, priceUnit, spreadPct, now, clock);
        if askWall != null { detected := detected + [askWall]; }
        if SlotsMatch(was) { ScannedSlots(cfg, mid, Slot(symbol, Short), ask, spreadPct, now, clock); }
      }
    }
  }

  /** A book the detector looks at: positive, not crossed, and with a spread within the limit. */
  predicate Acceptable(cfg: Config, bestBid: real, bestAsk: real) {
    && 0.0 < bestBid < bestAsk
    && !(cfg.maxSpreadPct > 0.0 && SpreadPct(bestBid, bestAsk) > cfg.maxSpreadPct)
  }

  function SpreadPct(bestBid: real, bestAsk: real): real
    requires bestBid > 0.0
  {
    (bestAsk - bestBid) / bestBid * 100.0
  }

  function Processed(
    cfg: Config, s: Store, symbol: string, bestBid: real, bestAsk: real, bid: SideView, ask: SideView, now: int,
    clock: int): Store {
    if !Acceptable(cfg, bestBid, bestAsk) then s
    else
      var spreadPct := SpreadPct(bestBid, bestAsk);
      var s1 := Scanned(cfg, s, Slot(symbol, Long), bid, spreadPct, now, clock);
      if cfg.isSpot then s1 else Scanned(cfg, s1, Slot(symbol, Short), ask, spreadPct, now, clock)
  }
}

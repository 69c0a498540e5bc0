/**
 What the wall detector announces and stores, written out: which events each book appends to a wall's
 stream, with all they say, and the wall it leaves in the store.
 */
module WallEvents {
  import opened Wrappers
  import opened Wall
  import opened WallDetector
  import opened WallRuns

  // ---------------------------------------------------------------- streams

  function Extended(m: map<string, seq<Event>>, id: string, es: seq<Event>): map<string, seq<Event>> {
    if id == "" || es == [] then m else m[id := (if id in m then m[id] else []) + es]
  }

  lemma ExtendedTwice(m: map<string, seq<Event>>, id: string, a: seq<Event>, b: seq<Event>)
    ensures Extended(Extended(m, id, a), id, b) == Extended(m, id, a + b)
  {
    var old_ := if id in m then m[id] else [];
    assert old_ + a + b == old_ + (a + b);
    if a == [] { assert a + b == b; }
    if b == [] { assert a + b == a; }
  }

  lemma FourExtends(m: map<string, seq<Event>>, id: string, a: seq<Event>, b: seq<Event>, c: seq<Event>, d: seq<Event>)
    ensures Extended(Extended(Extended(Extended(m, id, a), id, b), id, c), id, d) == Extended(m, id, a + b + c + d)
  {
    ExtendedTwice(m, id, a, b);
    ExtendedTwice(m, id, a + b, c);
    ExtendedTwice(m, id, a + b + c, d);
  }

  // ---------------------------------------------------------------- a wall that is followed

  /** Its age has reached the minimum lifespan, for the first time. */
  predicate Matures(cfg: Config, w: Data, now: int, clock: int) {
    && !w.matured && cfg.minLifespan > 0 && w.firstDetectedAt != 0
    && (if now != 0 then now else clock) - w.firstDetectedAt >= cfg.minLifespan
  }

  /** Its distance has come under the threshold, 0.1 percent unless configured. */
  predicate Approaches(cfg: Config, w: Data, ev: Eval) {
    var near := if cfg.priceApproachedPct > 0.0 then cfg.priceApproachedPct else 0.1;
    ev.distancePct <= near < w.distancePct
  }

  /** Its volume has come under the threshold share of the initial volume, 50 percent unless configured. */
  predicate Weakens(cfg: Config, w: Data, ev: Eval) {
    var share := if cfg.weakenedPct > 0.0 then cfg.weakenedPct else 50.0;
    w.status != Weakened && w.initialVolume > 0.0 && 100.0 * ev.volume < share * w.initialVolume
  }

  /** What a book announces about a wall it finds: in this order, each at most once. */
  function Announced(cfg: Config, w: Data, ev: Eval, traded: real, now: int, clock: int): seq<Kind> {
    (if Matures(cfg, w, now, clock) then [Maturing] else [])
    + (if Approaches(cfg, w, ev) then [PriceApproached] else [])
    + (if ev.volume < w.volume && traded > 0.0 then [Absorbed] else if ev.volume != w.volume then [Resized] else [])
    + (if Weakens(cfg, w, ev) then [Weakening] else [])
  }

  /** The events: numbered on, with the new measurements, and the change of volume where it is announced. */
  function EventsOf(w: Data, ev: Eval, kinds: seq<Kind>, spreadPct: real, now: int): (es: seq<Event>)
    ensures |es| == |kinds|
  {
    seq(|kinds|, i requires 0 <= i < |kinds| =>
      Event(w.id, w.eventSeq + 1 + i, now, kinds[i], w.price, ev.volume,
            if kinds[i] == Absorbed || kinds[i] == Resized then ev.volume - w.volume else 0.0,
            ev.distancePct, spreadPct, ev.relativeRatio))
  }

  /** The wall after the book. */
  function Followed(cfg: Config, w: Data, ev: Eval, traded: real, now: int, clock: int): Data {
    w.(volume := ev.volume, lastUpdatedAt := now, distancePct := ev.distancePct, avgNearbyVolume := ev.avgNearbyVolume,
       relativeRatio := ev.relativeRatio, depthImbalance := ev.depthImbalance, backingRatio := ev.backingRatio,
       eventSeq := w.eventSeq + |Announced(cfg, w, ev, traded, now, clock)|,
       matured := w.matured || Matures(cfg, w, now, clock),
       status := if Weakens(cfg, w, ev) then Weakened else w.status)
  }

  /** One event about wall w as it is now. */
  function One(w: Data, k: Kind, delta: real, spreadPct: real, now: int): (es: seq<Event>)
    ensures |es| == 1
  {
    [Event(w.id, w.eventSeq + 1, now, k, w.price, w.volume, delta, w.distancePct, spreadPct, w.relativeRatio)]
  }

  lemma EmittedIs(w: Data, s: Store, k: Kind, delta: real, spreadPct: real, now: int)
    ensures
      var (v, t) := Emitted(w, s, k, delta, spreadPct, now);
      && v == w.(eventSeq := w.eventSeq + 1) && t.active == s.active[SlotOf(w) := v]
      && t.streams == Extended(s.streams, w.id, One(w, k, delta, spreadPct, now))
  {
  }

  lemma MaturityIs(cfg: Config, w: Data, s: Store, spreadPct: real, now: int, clock: int)
    requires w.disappearedAt.None?
    ensures
      var (v, t) := MaturityChecked(cfg, w, s, spreadPct, now, clock);
      var w0 := w.(matured := w.matured || Matures(cfg, w, now, clock));
      var a := if Matures(cfg, w, now, clock) then One(w0, Maturing, 0.0, spreadPct, now) else [];
      && v == w0.(eventSeq := w.eventSeq + |a|)
      && t.active[SlotOf(w) := v] == s.active[SlotOf(w) := v] && t.streams == Extended(s.streams, w.id, a)
  {
    var r := w.(matured := true);
    EmittedIs(r, Saved(s, r), Maturing, 0.0, spreadPct, now);
    var v := MaturityChecked(cfg, w, s, spreadPct, now, clock).0;
    assert s.active[SlotOf(w) := r][SlotOf(w) := v] == s.active[SlotOf(w) := v];
    hide Emitted, Extended, One;
  }

  // The wall before each of the four announcements, and what each appends.

  function Stage0(cfg: Config, w: Data, ev: Eval, now: int, clock: int): Data {
    Refreshed(w, ev, now).(matured := w.matured || Matures(cfg, w, now, clock))
  }

  function Part0(cfg: Config, w: Data, ev: Eval, spreadPct: real, now: int, clock: int): seq<Event> {
    if Matures(cfg, w, now, clock) then One(Stage0(cfg, w, ev, now, clock), Maturing, 0.0, spreadPct, now) else []
  }

  function Stage1(cfg: Config, w: Data, ev: Eval, spreadPct: real, now: int, clock: int): Data {
    Stage0(cfg, w, ev, now, clock).(eventSeq := w.eventSeq + |Part0(cfg, w, ev, spreadPct, now, clock)|)
  }

  function Part1(cfg: Config, w: Data, ev: Eval, spreadPct: real, now: int, clock: int): seq<Event> {
    if Approaches(cfg, w, ev)
    then One(Stage1(cfg, w, ev, spreadPct, now, clock), PriceApproached, 0.0, spreadPct, now) else []
  }

  function Stage2(cfg: Config, w: Data, ev: Eval, spreadPct: real, now: int, clock: int): Data {
    var w1 := Stage1(cfg, w, ev, spreadPct, now, clock);
    w1.(eventSeq := w1.eventSeq + |Part1(cfg, w, ev, spreadPct, now, clock)|)
  }

  function Part2(w2: Data, w: Data, ev: Eval, traded: real, spreadPct: real, now: int): seq<Event> {
    if ev.volume < w.volume && traded > 0.0 then One(w2, Absorbed, ev.volume - w.volume, spreadPct, now)
    else if ev.volume != w.volume then One(w2, Resized, ev.volume - w.volume, spreadPct, now)
    else []
  }

  function Stage3(cfg: Config, w2: Data, w: Data, ev: Eval, traded: real, spreadPct: real, now: int): Data {
    w2.(eventSeq := w2.eventSeq + |Part2(w2, w, ev, traded, spreadPct, now)|,
        status := if Weakens(cfg, w, ev) then Weakened else w2.status)
  }

  function Part3(cfg: Config, w2: Data, w: Data, ev: Eval, traded: real, spreadPct: real, now: int): seq<Event> {
    if Weakens(cfg, w, ev)
    then One(Stage3(cfg, w2, w, ev, traded, spreadPct, now), Weakening, 0.0, spreadPct, now) else []
  }

  function Stage4(cfg: Config, w2: Data, w: Data, ev: Eval, traded: real, spreadPct: real, now: int): Data {
    var w3 := Stage3(cfg, w2, w, ev, traded, spreadPct, now);
    w3.(eventSeq := w3.eventSeq + |Part3(cfg, w2, w, ev, traded, spreadPct, now)|)
  }

  lemma ProgressedIs(cfg: Config, w: Data, s: Store, ev: Eval, spreadPct: real, now: int, clock: int)
    requires w.disappearedAt.None?
    ensures
      var (v, t) := Progressed(cfg, w, s, ev, spreadPct, now, clock);
      && v == Stage2(cfg, w, ev, spreadPct, now, clock)
      && t.active[SlotOf(w) := v] == s.active[SlotOf(w) := v]
      && t.streams == Extended(Extended(s.streams, w.id, Part0(cfg, w, ev, spreadPct, now, clock)), w.id,
                               Part1(cfg, w, ev, spreadPct, now, clock))
  {
    var r := Refreshed(w, ev, now);
    MaturityIs(cfg, r, Saved(s, r), spreadPct, now, clock);
    var (w1, s1) := MaturityChecked(cfg, r, Saved(s, r), spreadPct, now, clock);
    assert Matures(cfg, r, now, clock) == Matures(cfg, w, now, clock);
    EmittedIs(w1, s1, PriceApproached, 0.0, spreadPct, now);
    var (v, t) := ApproachChecked(cfg, w1, s1, w.distancePct, spreadPct, now);
    hide Emitted, Extended, One, MaturityChecked, Matures;
    Overwrites(s.active, s1.active, SlotOf(w), w1, v);
  }

  lemma Overwrites(m: map<Slot, Data>, n: map<Slot, Data>, slot: Slot, w: Data, v: Data)
    requires n[slot := w] == m[slot := w]
    ensures n[slot := v] == m[slot := v]
  {
    assert n[slot := v] == n[slot := w][slot := v];
    assert m[slot := v] == m[slot := w][slot := v];
  }

  lemma ShareOfInitial(v: real, initial: real, pct: real)
    requires initial > 0.0
    ensures v / initial * 100.0 < pct <==> 100.0 * v < pct * initial
  {
    var q := v / initial;
    assert q * initial == v;
    if q * 100.0 < pct { assert q * 100.0 * initial < pct * initial; }
    if q * 100.0 >= pct { assert q * 100.0 * initial >= pct * initial; }
    assert q * 100.0 * initial == 100.0 * v;
  }

  lemma VolumeIs(w: Data, s: Store, delta: real, traded: real, spreadPct: real, now: int)
    ensures
      var (v, t) := VolumeChecked(w, s, delta, traded, spreadPct, now);
      var c :=
        if delta < 0.0 && traded > 0.0 then One(w, Absorbed, delta, spreadPct, now)
        else if delta != 0.0 then One(w, Resized, delta, spreadPct, now) else [];
      && v == w.(eventSeq := w.eventSeq + |c|)
      && t.active[SlotOf(w) := v] == s.active[SlotOf(w) := v] && t.streams == Extended(s.streams, w.id, c)
  {
    EmittedIs(w, s, Absorbed, delta, spreadPct, now);
    EmittedIs(w, s, Resized, delta, spreadPct, now);
    hide Emitted, One;
  }

  lemma WeaknessIs(cfg: Config, w: Data, s: Store, was: Data, ev: Eval, spreadPct: real, now: int)
    requires w.volume == ev.volume && w.initialVolume == was.initialVolume && w.status == was.status
    ensures
      var (v, t) := WeaknessChecked(cfg, w, s, spreadPct, now);
      var w1 := w.(status := if Weakens(cfg, was, ev) then Weakened else w.status);
      var d := if Weakens(cfg, was, ev) then One(w1, Weakening, 0.0, spreadPct, now) else [];
      && v == w1.(eventSeq := w.eventSeq + |d|)
      && t.active[SlotOf(w) := v] == s.active[SlotOf(w) := v] && t.streams == Extended(s.streams, w.id, d)
  {
    if w.initialVolume > 0.0 { ShareOfInitial(ev.volume, w.initialVolume, WeakenedThreshold(cfg)); }
    EmittedIs(w.(status := Weakened), s, Weakening, 0.0, spreadPct, now);
    hide Emitted, One;
  }

  lemma ResettledIs(cfg: Config, w: Data, s: Store, ev: Eval, was: Data, traded: real, spreadPct: real, now: int)
    requires w.volume == ev.volume && w.initialVolume == was.initialVolume && w.status == was.status
    ensures
      var (v, t) := Resettled(cfg, w, s, ev.volume - was.volume, traded, spreadPct, now);
      && v == Stage4(cfg, w, was, ev, traded, spreadPct, now) && t.active == s.active[SlotOf(w) := v]
      && t.streams == Extended(Extended(s.streams, w.id, Part2(w, was, ev, traded, spreadPct, now)), w.id,
                               Part3(cfg, w, was, ev, traded, spreadPct, now))
  {
    var delta := ev.volume - was.volume;
    VolumeIs(w, s, delta, traded, spreadPct, now);
    var (w1, s1) := VolumeChecked(w, s, delta, traded, spreadPct, now);
    WeaknessIs(cfg, w1, s1, was, ev, spreadPct, now);
    var (w2, s2) := WeaknessChecked(cfg, w1, s1, spreadPct, now);
    hide VolumeChecked, WeaknessChecked, Extended, One, Weakens;
    Overwrites(s.active, s1.active, SlotOf(w), w1, w2);
  }

  /** Numbering on. */
  function From(w: Data, n: nat): Data {
    w.(eventSeq := w.eventSeq + n)
  }

  lemma EventsOfConcat(w: Data, ev: Eval, a: seq<Kind>, b: seq<Kind>, n: nat, spreadPct: real, now: int)
    ensures EventsOf(From(w, n), ev, a + b, spreadPct, now) ==
      EventsOf(From(w, n), ev, a, spreadPct, now) + EventsOf(From(w, n + |a|), ev, b, spreadPct, now)
  {
  }

  /** The wall v shows the new measurements of w, n events on. */
  predicate Shows(v: Data, w: Data, ev: Eval, n: nat) {
    && v.id == w.id && v.price == w.price && v.eventSeq == w.eventSeq + n
    && v.volume == ev.volume && v.distancePct == ev.distancePct && v.relativeRatio == ev.relativeRatio
  }

  lemma OneIs(v: Data, w: Data, ev: Eval, n: nat, k: Kind, spreadPct: real, now: int)
    requires Shows(v, w, ev, n)
    ensures
      One(v, k, if k == Absorbed || k == Resized then ev.volume - w.volume else 0.0, spreadPct, now) ==
      EventsOf(From(w, n), ev, [k], spreadPct, now)
  {
  }

  lemma NoneIs(w: Data, ev: Eval, n: nat, spreadPct: real, now: int)
    ensures EventsOf(From(w, n), ev, [], spreadPct, now) == []
  {
  }

  function Kinds0(cfg: Config, w: Data, now: int, clock: int): seq<Kind> {
    if Matures(cfg, w, now, clock) then [Maturing] else []
  }

  function Kinds1(cfg: Config, w: Data, ev: Eval): seq<Kind> {
    if Approaches(cfg, w, ev) then [PriceApproached] else []
  }

  function Kinds2(w: Data, ev: Eval, traded: real): seq<Kind> {
    if ev.volume < w.volume && traded > 0.0 then [Absorbed] else if ev.volume != w.volume then [Resized] else []
  }

  function Kinds3(cfg: Config, w: Data, ev: Eval): seq<Kind> {
    if Weakens(cfg, w, ev) then [Weakening] else []
  }

  lemma FirstParts(cfg: Config, w: Data, ev: Eval, spreadPct: real, now: int, clock: int)
    ensures
      var k0, k1 := Kinds0(cfg, w, now, clock), Kinds1(cfg, w, ev);
      && Part0(cfg, w, ev, spreadPct, now, clock) == EventsOf(From(w, 0), ev, k0, spreadPct, now)
      && Part1(cfg, w, ev, spreadPct, now, clock) == EventsOf(From(w, |k0|), ev, k1, spreadPct, now)
      && Shows(Stage2(cfg, w, ev, spreadPct, now, clock), w, ev, |k0| + |k1|)
      && Stage2(cfg, w, ev, spreadPct, now, clock) == From(Stage0(cfg, w, ev, now, clock), |k0| + |k1|)
  {
    hide EventsOf, One, Matures, Approaches;
    var n := |Kinds0(cfg, w, now, clock)|;
    OneIs(Stage0(cfg, w, ev, now, clock), w, ev, 0, Maturing, spreadPct, now);
    OneIs(Stage1(cfg, w, ev, spreadPct, now, clock), w, ev, n, PriceApproached, spreadPct, now);
    NoneIs(w, ev, 0, spreadPct, now);
    NoneIs(w, ev, n, spreadPct, now);
  }

  lemma LastParts(cfg: Config, w2: Data, w: Data, ev: Eval, n: nat, traded: real, spreadPct: real, now: int)
    requires Shows(w2, w, ev, n)
    ensures
      var k2, k3 := Kinds2(w, ev, traded), Kinds3(cfg, w, ev);
      && Part2(w2, w, ev, traded, spreadPct, now) == EventsOf(From(w, n), ev, k2, spreadPct, now)
      && Part3(cfg, w2, w, ev, traded, spreadPct, now) == EventsOf(From(w, n + |k2|), ev, k3, spreadPct, now)
      && Stage4(cfg, w2, w, ev, traded, spreadPct, now) ==
           From(w2, |k2| + |k3|).(status := if Weakens(cfg, w, ev) then Weakened else w2.status)
  {
    hide EventsOf, One, Weakens;
    var m := n + |Kinds2(w, ev, traded)|;
    OneIs(w2, w, ev, n, Absorbed, spreadPct, now);
    OneIs(w2, w, ev, n, Resized, spreadPct, now);
    OneIs(Stage3(cfg, w2, w, ev, traded, spreadPct, now), w, ev, m, Weakening, spreadPct, now);
    NoneIs(w, ev, n, spreadPct, now);
    NoneIs(w, ev, m, spreadPct, now);
  }

  /** Four steps' events, each about the wall as it was then, are the announced events. */
  lemma EventsTogether(cfg: Config, w: Data, ev: Eval, traded: real, spreadPct: real, now: int, clock: int)
    ensures
      var w2 := Stage2(cfg, w, ev, spreadPct, now, clock);
      && Part0(cfg, w, ev, spreadPct, now, clock) + Part1(cfg, w, ev, spreadPct, now, clock)
         + Part2(w2, w, ev, traded, spreadPct, now) + Part3(cfg, w2, w, ev, traded, spreadPct, now)
         == EventsOf(w, ev, Announced(cfg, w, ev, traded, now, clock), spreadPct, now)
      && Stage4(cfg, w2, w, ev, traded, spreadPct, now) == Followed(cfg, w, ev, traded, now, clock)
  {
    var k0, k1 := Kinds0(cfg, w, now, clock), Kinds1(cfg, w, ev);
    var k2, k3 := Kinds2(w, ev, traded), Kinds3(cfg, w, ev);
    assert Announced(cfg, w, ev, traded, now, clock) == k0 + k1 + k2 + k3;
    FirstParts(cfg, w, ev, spreadPct, now, clock);
    LastParts(cfg, Stage2(cfg, w, ev, spreadPct, now, clock), w, ev, |k0| + |k1|, traded, spreadPct, now);
    EventsOfConcat(w, ev, k0, k1, 0, spreadPct, now);
    EventsOfConcat(w, ev, k0 + k1, k2, 0, spreadPct, now);
    EventsOfConcat(w, ev, k0 + k1 + k2, k3, 0, spreadPct, now);
    assert From(w, 0) == w;
    hide Kinds0, Kinds1, Kinds2, Kinds3, Part0, Part1, Part2, Part3;
    hide Stage2, Stage4, EventsOf, Announced, Matures, Weakens;
  }

  lemma StagesKeep(cfg: Config, w: Data, ev: Eval, spreadPct: real, now: int, clock: int)
    ensures
      var w2 := Stage2(cfg, w, ev, spreadPct, now, clock);
      && w2.id == w.id && SlotOf(w2) == SlotOf(w)
      && w2.volume == ev.volume && w2.initialVolume == w.initialVolume && w2.status == w.status
  {
  }

  /**
   A wall that is found again: exactly the announced events are appended to its stream, the wall is stored as
   Followed says, and nothing else changes.
   */
  lemma ExistingIsExactly(
    cfg: Config, w: Data, s: Store, ev: Eval, traded: real, spreadPct: real, now: int, clock: int)
    requires w.disappearedAt.None?
    ensures
      var v := Followed(cfg, w, ev, traded, now, clock);
      var es := EventsOf(w, ev, Announced(cfg, w, ev, traded, now, clock), spreadPct, now);
      ExistingHandled(cfg, w, s, ev, traded, spreadPct, now, clock) ==
        (v, Store(s.active[SlotOf(w) := v], Extended(s.streams, w.id, es)))
  {
    StagesKeep(cfg, w, ev, spreadPct, now, clock);
    EventsTogether(cfg, w, ev, traded, spreadPct, now, clock);
    ProgressedIs(cfg, w, s, ev, spreadPct, now, clock);
    var (w2, s2) := Progressed(cfg, w, s, ev, spreadPct, now, clock);
    hide Stage2, Stage4, Part0, Part1, Part2, Part3, Extended, EventsOf, Announced, Followed, Progressed;
    Settle(cfg, w, s, w2, s2, ev, traded, spreadPct, now,
           Part0(cfg, w, ev, spreadPct, now, clock), Part1(cfg, w, ev, spreadPct, now, clock));
  }

  /** The second half, after a first half that appended a and b. */
  lemma Settle(
    cfg: Config, w: Data, s: Store, w2: Data, s2: Store, ev: Eval, traded: real, spreadPct: real, now: int,
    a: seq<Event>, b: seq<Event>)
    requires w2.id == w.id && SlotOf(w2) == SlotOf(w)
    requires w2.volume == ev.volume && w2.initialVolume == w.initialVolume && w2.status == w.status
    requires s2.active[SlotOf(w) := w2] == s.active[SlotOf(w) := w2]
    requires s2.streams == Extended(Extended(s.streams, w.id, a), w.id, b)
    ensures
      var v := Stage4(cfg, w2, w, ev, traded, spreadPct, now);
      var c, d := Part2(w2, w, ev, traded, spreadPct, now), Part3(cfg, w2, w, ev, traded, spreadPct, now);
      Resettled(cfg, w2, s2, ev.volume - w.volume, traded, spreadPct, now) ==
        (v, Store(s.active[SlotOf(w) := v], Extended(s.streams, w.id, a + b + c + d)))
  {
    ResettledIs(cfg, w2, s2, ev, w, traded, spreadPct, now);
    hide Resettled, Stage4, Part2, Part3, Extended;
    var v := Stage4(cfg, w2, w, ev, traded, spreadPct, now);
    FourExtends(s.streams, w.id, a, b, Part2(w2, w, ev, traded, spreadPct, now),
                Part3(cfg, w2, w, ev, traded, spreadPct, now));
    Overwrites(s.active, s2.active, SlotOf(w), w2, v);
  }

  // ---------------------------------------------------------------- a wall that ends, a wall that begins

  /**
   A wall that is not found again ends: consumed if as much was traded at its price as stood there, else
   disappeared.
   */
  lemma DisappearanceIsExactly(w: Data, s: Store, traded: real, spreadPct: real, now: int)
    ensures
      var kind := if traded >= w.volume > 0.0 then Consuming else Disappearing;
      var e := Event(w.id, w.eventSeq + 1, now, kind, w.price, w.volume, -w.volume,
                     w.distancePct, spreadPct, w.relativeRatio);
      DisappearanceHandled(w, SlotOf(w), s, traded, spreadPct, now) ==
        Store(s.active - {SlotOf(w)}, Extended(s.streams, w.id, [e]))
  {
    var t := DisappearanceHandled(w, SlotOf(w), s, traded, spreadPct, now);
    assert t.active == s.active - {SlotOf(w)};
  }

  /** A level that is taken up becomes a wall with everything measured there, born now under the id of this second. */
  lemma BirthIsExactly(cfg: Config, slot: Slot, ev: Eval, s: Store, spreadPct: real, now: int)
    ensures
      var id := cfg.idOf(slot.symbol, now / 1_000_000_000);
      var w := Data(id, slot.symbol, slot.side, ev.price, ev.volume, ev.volume, ev.avgNearbyVolume, ev.relativeRatio,
                    ev.distancePct, ev.depthImbalance, ev.backingRatio, now, now, None, Active, 1, false);
      var e := Event(id, 1, now, Born, ev.price, ev.volume, 0.0, ev.distancePct, spreadPct, ev.relativeRatio);
      FreshHandled(Candidate(cfg, slot, ev, now), s, spreadPct, now) ==
        (w, Store(s.active[slot := w], Extended(s.streams, id, [e])))
  {
  }

  /**
   A book is looked at when it is positive and not crossed, and its spread is within the limit, in percent of
   the bid.
   */
  lemma AcceptableIff(cfg: Config, bestBid: real, bestAsk: real)
    ensures Acceptable(cfg, bestBid, bestAsk) <==>
      && 0.0 < bestBid < bestAsk
      && (cfg.maxSpreadPct > 0.0 ==> 100.0 * (bestAsk - bestBid) <= cfg.maxSpreadPct * bestBid)
    ensures bestBid > 0.0 ==> SpreadPct(bestBid, bestAsk) * bestBid == 100.0 * (bestAsk - bestBid)
  {
    if bestBid > 0.0 {
      ShareOfInitial(bestAsk - bestBid, bestBid, cfg.maxSpreadPct);
      OverShare(bestAsk - bestBid, bestBid, cfg.maxSpreadPct);
    }
  }

  lemma OverShare(v: real, base: real, pct: real)
    requires base > 0.0
    ensures v / base * 100.0 > pct <==> 100.0 * v > pct * base
    ensures (v / base * 100.0) * base == 100.0 * v
  {
    var q := v / base;
    assert q * base == v;
    if q * 100.0 > pct { assert q * 100.0 * base > pct * base; }
    if q * 100.0 <= pct { assert q * 100.0 * base <= pct * base; }
    assert q * 100.0 * base == 100.0 * v;
  }

  /** The searches look at 20 levels at most, and take a level for the wall's within half a tick either way. */
  lemma SearchReach(n: nat, price: real, wallPrice: real, priceUnit: real)
    ensures Limit(n) <= 20 && Limit(n) <= n && (Limit(n) == 20 || Limit(n) == n)
    ensures AtPrice(price, wallPrice, priceUnit) <==>
      2.0 * (if price < wallPrice then wallPrice - price else price - wallPrice) <= priceUnit
  {
  }

  // ---------------------------------------------------------------- over runs

  /** No wall in the store has disappeared. */
  ghost predicate NoneGone(s: Store) {
    SlotsMatch(s) && forall slot :: slot in s.active ==> s.active[slot].disappearedAt.None?
  }

  /** Each event's change of volume fits its kind. */
  predicate Fits(e: Event) {
    match e.kind
    case Absorbed => e.delta < 0.0
    case Resized => e.delta != 0.0
    case Disappearing => e.delta == -e.volume
    case Consuming => e.delta == -e.volume && e.volume > 0.0
    case _ => e.delta == 0.0
  }

  ghost predicate AllFit(s: Store) {
    forall id, i :: id in s.streams && 0 <= i < |s.streams[id]| ==> Fits(s.streams[id][i])
  }

  lemma ExtendedFits(s: Store, t: Store, id: string, es: seq<Event>)
    requires AllFit(s) && t.streams == Extended(s.streams, id, es)
    requires forall i :: 0 <= i < |es| ==> Fits(es[i])
    ensures AllFit(t)
  {
  }

  lemma AnnouncedFits(cfg: Config, w: Data, ev: Eval, traded: real, spreadPct: real, now: int, clock: int)
    ensures
      var es := EventsOf(w, ev, Announced(cfg, w, ev, traded, now, clock), spreadPct, now);
      forall i :: 0 <= i < |es| ==> Fits(es[i])
  {
    hide Matures, Approaches, Weakens;
  }

  lemma ScanKeepsFit(cfg: Config, s: Store, slot: Slot, view: SideView, spreadPct: real, now: int, clock: int)
    requires NoneGone(s) && AllFit(s)
    ensures
      var t := Scanned(cfg, s, slot, view, spreadPct, now, clock);
      NoneGone(t) && AllFit(t)
  {
    ScannedSlots(cfg, s, slot, view, spreadPct, now, clock);
    hide ExistingHandled, DisappearanceHandled, FreshHandled, Extended, EventsOf, Announced, Fits, AllFit;
    if slot in s.active && view.found.Some? {
      var w, ev := s.active[slot], view.found.value;
      ExistingIsExactly(cfg, w, s, ev, view.traded, spreadPct, now, clock);
      AnnouncedFits(cfg, w, ev, view.traded, spreadPct, now, clock);
      ExtendedFits(s, Scanned(cfg, s, slot, view, spreadPct, now, clock), w.id,
                   EventsOf(w, ev, Announced(cfg, w, ev, view.traded, now, clock), spreadPct, now));
    } else {
      var s1 := s;
      if slot in s.active {
        s1 := DisappearanceHandled(s.active[slot], slot, s, view.traded, spreadPct, now);
        EndKeepsFit(s, slot, view.traded, spreadPct, now);
      }
      if view.best.Some? { BirthKeepsFit(cfg, s1, slot, view.best.value, spreadPct, now); }
    }
  }

  lemma EndKeepsFit(s: Store, slot: Slot, traded: real, spreadPct: real, now: int)
    requires NoneGone(s) && AllFit(s) && slot in s.active
    ensures
      var t := DisappearanceHandled(s.active[slot], slot, s, traded, spreadPct, now);
      NoneGone(t) && AllFit(t)
  {
    var w := s.active[slot];
    DisappearanceIsExactly(w, s, traded, spreadPct, now);
    var kind := if traded >= w.volume > 0.0 then Consuming else Disappearing;
    var e := Event(w.id, w.eventSeq + 1, now, kind, w.price, w.volume, -w.volume,
                     w.distancePct, spreadPct, w.relativeRatio);
    hide DisappearanceHandled, Extended, AllFit;
    ExtendedFits(s, DisappearanceHandled(w, slot, s, traded, spreadPct, now), w.id, [e]);
  }

  lemma BirthKeepsFit(cfg: Config, s: Store, slot: Slot, ev: Eval, spreadPct: real, now: int)
    requires NoneGone(s) && AllFit(s)
    ensures
      var t := FreshHandled(Candidate(cfg, slot, ev, now), s, spreadPct, now).1;
      NoneGone(t) && AllFit(t)
  {
    BirthIsExactly(cfg, slot, ev, s, spreadPct, now);
    var id := cfg.idOf(slot.symbol, now / 1_000_000_000);
    var e := Event(id, 1, now, Born, ev.price, ev.volume, 0.0, ev.distancePct, spreadPct, ev.relativeRatio);
    hide FreshHandled, Candidate, Extended, AllFit;
    ExtendedFits(s, FreshHandled(Candidate(cfg, slot, ev, now), s, spreadPct, now).1, id, [e]);
  }

  lemma StepKeepsFit(cfg: Config, s: Store, a: Step)
    requires NoneGone(s) && AllFit(s)
    ensures NoneGone(Next(cfg, s, a)) && AllFit(Next(cfg, s, a))
  {
    hide Scanned;
    match a
    case Book(symbol, bestBid, bestAsk, bid, ask, now, clock) =>
      if Acceptable(cfg, bestBid, bestAsk) {
        var spreadPct := SpreadPct(bestBid, bestAsk);
        hide NoneGone, AllFit;
        ScanKeepsFit(cfg, s, Slot(symbol, Long), bid, spreadPct, now, clock);
        if !cfg.isSpot {
          var mid := Scanned(cfg, s, Slot(symbol, Long), bid, spreadPct, now, clock);
          ScanKeepsFit(cfg, mid, Slot(symbol, Short), ask, spreadPct, now, clock);
        }
      }
    case Forget(slot) =>
  }

  lemma {:induction false} RunKeepsFit(cfg: Config, s: Store, steps: seq<Step>, end: Store)
    requires NoneGone(s) && AllFit(s) && IsRun(cfg, s, steps, end)
    ensures NoneGone(end) && AllFit(end)
    decreases |steps|
  {
    if steps != [] {
      StepKeepsFit(cfg, s, steps[0]);
      hide NoneGone, AllFit, Next, FreshIds;
      RunKeepsFit(cfg, Next(cfg, s, steps[0]), steps[1..], end);
    }
  }

  /**
   After any run, a scan that finds its wall again appends to the wall's stream exactly the announced events:
   absorbed if and only if volume fell and was traded, resized if and only if it changed otherwise, the others
   when their thresholds are crossed; and stores the wall as Followed says.
   */
  lemma FollowedWallAnnounces(
    cfg: Config, steps: seq<Step>, s: Store, slot: Slot, view: SideView, spreadPct: real, now: int, clock: int)
    requires IsRun(cfg, EMPTY_STORE, steps, s) && slot in s.active && view.found.Some?
    ensures
      var w, ev := s.active[slot], view.found.value;
      var t := Scanned(cfg, s, slot, view, spreadPct, now, clock);
      && w.id in s.streams && w.id in t.streams
      && t.active == s.active[slot := Followed(cfg, w, ev, view.traded, now, clock)]
      && t.streams[w.id] ==
           s.streams[w.id] + EventsOf(w, ev, Announced(cfg, w, ev, view.traded, now, clock), spreadPct, now)
      && forall id :: id != w.id ==>
           (id in t.streams <==> id in s.streams) && (id in s.streams ==> t.streams[id] == s.streams[id])
  {
    RunKeepsInv(cfg, EMPTY_STORE, steps, s);
    RunKeepsFit(cfg, EMPTY_STORE, steps, s);
    var w, ev := s.active[slot], view.found.value;
    KnownWall(s, slot);
    hide Inv, NoneGone, AllFit, IsRun, Scanned, EventsOf, Announced, Followed;
    ScannedFollows(cfg, s, slot, view, spreadPct, now, clock);
  }

  lemma ScannedFollows(cfg: Config, s: Store, slot: Slot, view: SideView, spreadPct: real, now: int, clock: int)
    requires slot in s.active && view.found.Some? && SlotOf(s.active[slot]) == slot
    requires s.active[slot].id != "" && s.active[slot].id in s.streams && s.active[slot].disappearedAt.None?
    ensures
      var w, ev := s.active[slot], view.found.value;
      Scanned(cfg, s, slot, view, spreadPct, now, clock) ==
        Store(s.active[slot := Followed(cfg, w, ev, view.traded, now, clock)],
              s.streams[w.id :=
                s.streams[w.id] + EventsOf(w, ev, Announced(cfg, w, ev, view.traded, now, clock), spreadPct, now)])
  {
    var w, ev := s.active[slot], view.found.value;
    ExistingIsExactly(cfg, w, s, ev, view.traded, spreadPct, now, clock);
    var es := EventsOf(w, ev, Announced(cfg, w, ev, view.traded, now, clock), spreadPct, now);
    hide ExistingHandled, EventsOf, Announced, Followed;
    if es == [] {
      assert s.streams[w.id] + es == s.streams[w.id];
      assert s.streams[w.id := s.streams[w.id]] == s.streams;
    }
  }

  lemma KnownWall(s: Store, slot: Slot)
    requires Inv(s) && NoneGone(s) && slot in s.active
    ensures
      var w := s.active[slot];
      w.id != "" && w.id in s.streams && SlotOf(w) == slot && w.disappearedAt.None?
  {
    assert SlotOk(s, slot);
    assert StreamOk(s.active[slot].id, s.streams[s.active[slot].id]);
  }

  /** In every stream of every run each event's change of volume fits its kind. */
  lemma DeltasFitKinds(cfg: Config, steps: seq<Step>, s: Store, id: string, i: nat)
    requires IsRun(cfg, EMPTY_STORE, steps, s) && id in s.streams && i < |s.streams[id]|
    ensures Fits(s.streams[id][i])
  {
    RunKeepsFit(cfg, EMPTY_STORE, steps, s);
  }
}

/**
 The wall aggregate, its event stream and its replay:
 internal/bots/penny_jumper/domain/wall.go and wall_event.go.

 Times are nanoseconds and 0 is Go's zero time. Prices and volumes are exact reals.
 Fields that neither the detector nor the replay touches are left out of Data.
 */
module Wall {
  import opened Wrappers

  datatype Side = Long | Short

  /** NoStatus is the empty string of a Wall that no event has touched. */
  datatype Status = NoStatus | Active | Weakened | Disappeared | Consumed

  datatype Kind = Born | Maturing | Resized | Absorbed | PriceApproached | Weakening | Disappearing | Consuming

  datatype Event = Event(
    wallId: string, seqNo: int, timestamp: int, kind: Kind,
    price: real, volume: real, delta: real,
    distancePct: real, spreadPct: real, relativeRatio: real)

  datatype Data = Data(
    id: string, symbol: string, side: Side, price: real,
    volume: real, initialVolume: real,
    avgNearbyVolume: real, relativeRatio: real, distancePct: real, depthImbalance: real, backingRatio: real,
    firstDetectedAt: int, lastUpdatedAt: int, disappearedAt: Option<int>,
    status: Status, eventSeq: int, matured: bool)

  /** The zero value of the struct. */
  const BLANK := Data("", "", Long, 0.0, 0.0, 0.0, 0.0, 0.0, 0.0, 0.0, 0.0, 0, 0, None, NoStatus, 0, false)

  /** GetAgeAt; `clock` is the time read when `at` is the zero time. */
  function AgeAt(w: Data, at: int, clock: int): int {
    if w.firstDetectedAt == 0 then 0
    else if w.disappearedAt.Some? && w.disappearedAt.value != 0 then w.disappearedAt.value - w.firstDetectedAt
    else if at != 0 then at - w.firstDetectedAt
    else clock - w.firstDetectedAt
  }

  function Applied(w: Data, e: Event): Data {
    var v := w.(eventSeq := e.seqNo, lastUpdatedAt := e.timestamp);
    match e.kind
    case Born => v.(id := e.wallId, volume := e.volume, initialVolume := e.volume, distancePct := e.distancePct,
                    relativeRatio := e.relativeRatio, firstDetectedAt := e.timestamp, status := Active)
    case Maturing => v.(matured := true)
    case Resized => v.(volume := e.volume, distancePct := e.distancePct, relativeRatio := e.relativeRatio)
    case Absorbed => v.(volume := e.volume, distancePct := e.distancePct, relativeRatio := e.relativeRatio)
    case PriceApproached => v.(distancePct := e.distancePct)
    case Weakening => v.(status := Weakened, volume := e.volume)
    case Disappearing => v.(status := Disappeared, disappearedAt := Some(e.timestamp))
    case Consuming => v.(status := Consumed, volume := 0.0, disappearedAt := Some(e.timestamp))
  }

  /** ProjectWallFromEvents of a non-empty stream. */
  function Replayed(es: seq<Event>): Data {
    if es == [] then BLANK else Applied(Replayed(es[..|es| - 1]), es[|es| - 1])
  }

  class Wall {
    var data: Data

    constructor (d: Data)
      ensures data == d
    {
      data := d;
    }

    method ApplyEvent(evt: Event)
      modifies this
      ensures data == Applied(old(data), evt)
    {
      data := data.(eventSeq := evt.seqNo);
      data := data.(lastUpdatedAt := evt.timestamp);
      match evt.kind {
        case Born =>
          data := data.(id := evt.wallId);
          data := data.(volume := evt.volume);
          data := data.(initialVolume := evt.volume);
          data := data.(distancePct := evt.distancePct);
          data := data.(relativeRatio := evt.relativeRatio);
          data := data.(firstDetectedAt := evt.timestamp);
          data := data.(status := Active);
        case Maturing =>
          data := data.(matured := true);
        case Resized =>
          data := data.(volume := evt.volume);
          data := data.(distancePct := evt.distancePct);
          data := data.(relativeRatio := evt.relativeRatio);
        case Absorbed =>
          data := data.(volume := evt.volume);
          data := data.(distancePct := evt.distancePct);
          data := data.(relativeRatio := evt.relativeRatio);
        case PriceApproached =>
          data := data.(distancePct := evt.distancePct);
        case Weakening =>
          data := data.(status := Weakened);
          data := data.(volume := evt.volume);
        case Disappearing =>
          data := data.(status := Disappeared);
          data := data.(disappearedAt := Some(evt.timestamp));
        case Consuming =>
          data := data.(status := Consumed);
          data := data.(volume := 0.0);
          data := data.(disappearedAt := Some(evt.timestamp));
      }
    }
  }

  method ProjectWallFromEvents(events: seq<Event>) returns (wall: Wall?)
    ensures wall == null <==> events == []
    ensures wall != null ==> fresh(wall) && wall.data == Replayed(events)
  {
    if |events| == 0 { return null; }
    var w := new Wall(BLANK);
    for i := 0 to |events|
      invariant fresh(w) && w.data == Replayed(events[..i])
    {
      assert events[..i + 1][..i] == events[..i];
      w.ApplyEvent(events[i]);
    }
    assert events[..|events|] == events;
    wall := w;
  }

  /** The latest event of one of these kinds. */
  ghost predicate Latest(es: seq<Event>, i: nat, kinds: set<Kind>) {
    i < |es| && es[i].kind in kinds && forall j :: i < j < |es| ==> es[j].kind !in kinds
  }

  ghost predicate Never(es: seq<Event>, kinds: set<Kind>) {
    forall j :: 0 <= j < |es| ==> es[j].kind !in kinds
  }

  lemma LatestOfPrefix(es: seq<Event>, i: nat, kinds: set<Kind>)
    requires Latest(es, i, kinds) && i < |es| - 1
    ensures Latest(es[..|es| - 1], i, kinds) && es[|es| - 1].kind !in kinds
  {
  }

  lemma {:induction false} ReplayShowsBirth(es: seq<Event>, i: nat)
    requires Latest(es, i, {Born})
    ensures
      var w, e := Replayed(es), es[i];
      w.id == e.wallId && w.initialVolume == e.volume && w.firstDetectedAt == e.timestamp
    decreases |es|
  {
    if i < |es| - 1 {
      LatestOfPrefix(es, i, {Born});
      ReplayShowsBirth(es[..|es| - 1], i);
    }
  }

  lemma {:induction false} ReplayShowsDistance(es: seq<Event>, i: nat)
    requires Latest(es, i, {Born, Resized, Absorbed, PriceApproached})
    ensures Replayed(es).distancePct == es[i].distancePct
    decreases |es|
  {
    if i < |es| - 1 {
      LatestOfPrefix(es, i, {Born, Resized, Absorbed, PriceApproached});
      ReplayShowsDistance(es[..|es| - 1], i);
    }
  }

  lemma {:induction false} ReplayShowsRatio(es: seq<Event>, i: nat)
    requires Latest(es, i, {Born, Resized, Absorbed})
    ensures Replayed(es).relativeRatio == es[i].relativeRatio
    decreases |es|
  {
    if i < |es| - 1 {
      LatestOfPrefix(es, i, {Born, Resized, Absorbed});
      ReplayShowsRatio(es[..|es| - 1], i);
    }
  }

  lemma {:induction false} ReplayShowsVolume(es: seq<Event>, i: nat)
    requires Latest(es, i, {Born, Resized, Absorbed, Weakening, Consuming})
    ensures Replayed(es).volume == if es[i].kind == Consuming then 0.0 else es[i].volume
    decreases |es|
  {
    if i < |es| - 1 {
      LatestOfPrefix(es, i, {Born, Resized, Absorbed, Weakening, Consuming});
      ReplayShowsVolume(es[..|es| - 1], i);
    }
  }

  lemma {:induction false} ReplayShowsStatus(es: seq<Event>, i: nat)
    requires Latest(es, i, {Born, Weakening, Disappearing, Consuming})
    ensures Replayed(es).status ==
      if es[i].kind == Born then Active
      else if es[i].kind == Weakening then Weakened
      else if es[i].kind == Disappearing then Disappeared
      else Consumed
    decreases |es|
  {
    if i < |es| - 1 {
      LatestOfPrefix(es, i, {Born, Weakening, Disappearing, Consuming});
      ReplayShowsStatus(es[..|es| - 1], i);
    }
  }

  lemma {:induction false} ReplayShowsEnd(es: seq<Event>, i: nat)
    requires Latest(es, i, {Disappearing, Consuming})
    ensures Replayed(es).disappearedAt == Some(es[i].timestamp)
    decreases |es|
  {
    if i < |es| - 1 {
      LatestOfPrefix(es, i, {Disappearing, Consuming});
      ReplayShowsEnd(es[..|es| - 1], i);
    }
  }

  lemma {:induction false} ReplayShowsMaturity(es: seq<Event>)
    ensures Replayed(es).matured <==> exists i :: 0 <= i < |es| && es[i].kind == Maturing
    decreases |es|
  {
    if es != [] {
      var n := |es| - 1;
      ReplayShowsMaturity(es[..n]);
      if i :| 0 <= i < |es[..n]| && es[..n][i].kind == Maturing { assert es[i].kind == Maturing; }
    }
  }

  /** Replay shows, field by field, what the latest event that carries the field says. */
  lemma ReplayShowsLatest(es: seq<Event>, i: nat)
    requires i < |es|
    ensures
      var w, e := Replayed(es), es[i];
      && w.eventSeq == es[|es| - 1].seqNo && w.lastUpdatedAt == es[|es| - 1].timestamp
      && (Latest(es, i, {Born}) ==> w.id == e.wallId && w.initialVolume == e.volume && w.firstDetectedAt == e.timestamp)
      && (Latest(es, i, {Born, Resized, Absorbed, PriceApproached}) ==> w.distancePct == e.distancePct)
      && (Latest(es, i, {Born, Resized, Absorbed}) ==> w.relativeRatio == e.relativeRatio)
      && (Latest(es, i, {Born, Resized, Absorbed, Weakening, Consuming}) ==>
            w.volume == if e.kind == Consuming then 0.0 else e.volume)
      && (Latest(es, i, {Disappearing, Consuming}) ==> w.disappearedAt == Some(e.timestamp))
      && (w.matured <==> exists j :: 0 <= j < |es| && es[j].kind == Maturing)
  {
    ReplayShowsMaturity(es);
    if Latest(es, i, {Born}) { ReplayShowsBirth(es, i); }
    if Latest(es, i, {Born, Resized, Absorbed, PriceApproached}) { ReplayShowsDistance(es, i); }
    if Latest(es, i, {Born, Resized, Absorbed}) { ReplayShowsRatio(es, i); }
    if Latest(es, i, {Born, Resized, Absorbed, Weakening, Consuming}) { ReplayShowsVolume(es, i); }
    if Latest(es, i, {Disappearing, Consuming}) { ReplayShowsEnd(es, i); }
  }

  /** And nothing that no event says. */
  lemma {:induction false} ReplayShowsNothingElse(es: seq<Event>)
    ensures
      var w := Replayed(es);
      && (Never(es, {Maturing}) ==> !w.matured)
      && (Never(es, {Disappearing, Consuming}) ==> w.disappearedAt.None?)
      && w.price == 0.0 && w.symbol == "" && w.side == Long
    decreases |es|
  {
    if es != [] { ReplayShowsNothingElse(es[..|es| - 1]); }
  }

  // ---------------------------------------------------------------- reconciliation

  datatype Metrics = Metrics(
    initialVolume: real, finalVolume: real, totalDrop: real, totalTraded: real,
    absorbed: real, pulled: real, resizeCount: nat)

  function SumDelta(es: seq<Event>): real {
    if es == [] then 0.0 else SumDelta(es[..|es| - 1]) + es[|es| - 1].delta
  }

  function SumDrops(es: seq<Event>): real {
    if es == [] then 0.0
    else SumDrops(es[..|es| - 1]) + if es[|es| - 1].delta < 0.0 then -es[|es| - 1].delta else 0.0
  }

  function SumRises(es: seq<Event>): real {
    if es == [] then 0.0
    else SumRises(es[..|es| - 1]) + if es[|es| - 1].delta > 0.0 then es[|es| - 1].delta else 0.0
  }

  function CountKind(es: seq<Event>, k: Kind): nat {
    if es == [] then 0 else CountKind(es[..|es| - 1], k) + if es[|es| - 1].kind == k then 1 else 0
  }

  function SumVolumes(trades: seq<real>): real {
    if trades == [] then 0.0 else SumVolumes(trades[..|trades| - 1]) + trades[|trades| - 1]
  }

  /** `trades` are the volumes of the matching public trades; `wall` is consulted when there are no events. */
  method ReconcileWallData(wall: Option<Data>, events: seq<Event>, trades: seq<real>) returns (m: Metrics)
    ensures events != [] ==> m.initialVolume == events[0].volume && m.finalVolume == events[|events| - 1].volume
    ensures events == [] && wall.Some? ==>
        m.initialVolume == wall.value.initialVolume && m.finalVolume == wall.value.volume
    ensures events == [] && wall.None? ==> m.initialVolume == 0.0 && m.finalVolume == 0.0
    ensures m.totalDrop == SumDrops(events) && m.totalTraded == SumVolumes(trades)
    ensures m.resizeCount == CountKind(events, Resized)
    ensures m.absorbed + m.pulled == m.totalDrop
    ensures m.absorbed <= m.totalTraded && m.pulled >= 0.0
    ensures m.absorbed == m.totalTraded || m.pulled == 0.0
  {
    var initialVol, finalVol := 0.0, 0.0;
    if |events| > 0 {
      initialVol := events[0].volume;
      finalVol := events[|events| - 1].volume;
    } else if wall.Some? {
      initialVol := wall.value.initialVolume;
      finalVol := wall.value.volume;
    }
    var totalDrop, resizeCount := 0.0, 0;
    for i := 0 to |events|
      invariant totalDrop == SumDrops(events[..i]) && resizeCount == CountKind(events[..i], Resized)
    {
      assert events[..i + 1][..i] == events[..i];
      if events[i].kind == Resized { resizeCount := resizeCount + 1; }
      if events[i].delta < 0.0 { totalDrop := totalDrop - events[i].delta; }
    }
    assert events[..|events|] == events;
    var totalTraded := 0.0;
    for i := 0 to |trades|
      invariant totalTraded == SumVolumes(trades[..i])
    {
      assert trades[..i + 1][..i] == trades[..i];
      totalTraded := totalTraded + trades[i];
    }
    assert trades[..|trades|] == trades;
    var absorbed := if totalDrop < totalTraded then totalDrop else totalTraded;
    var pulled := if totalDrop - absorbed > 0.0 then totalDrop - absorbed else 0.0;
    m := Metrics(initialVol, finalVol, totalDrop, totalTraded, absorbed, pulled, resizeCount);
  }

  lemma {:induction false} DeltaSplits(es: seq<Event>)
    ensures SumDelta(es) == SumRises(es) - SumDrops(es)
    decreases |es|
  {
    if es != [] { DeltaSplits(es[..|es| - 1]); }
  }

  // ---------------------------------------------------------------- the lifecycle grammar

  predicate IsTerminal(k: Kind) {
    k == Disappearing || k == Consuming
  }

  /**
   Numbered from 1, born first and only first, matured and weakened at most once each,
   and a terminal event only as the last.
   */
  ghost predicate WellFormed(es: seq<Event>) {
    && es != []
    && (forall i :: 0 <= i < |es| ==> es[i].seqNo == i + 1 && es[i].wallId == es[0].wallId)
    && (forall i :: 0 <= i < |es| ==> (es[i].kind == Born <==> i == 0))
    && CountKind(es, Maturing) <= 1 && CountKind(es, Weakening) <= 1
    && (forall i :: 0 <= i < |es| - 1 ==> !IsTerminal(es[i].kind))
  }

  predicate IsOpen(es: seq<Event>) {
    es != [] && !IsTerminal(es[|es| - 1].kind)
  }

  /** What live wall and replay must agree on, the volume apart. */
  datatype Core = Core(id: string, eventSeq: int, initialVolume: real, status: Status, matured: bool,
      firstDetectedAt: int)

  function CoreOf(w: Data): Core {
    Core(w.id, w.eventSeq, w.initialVolume, w.status, w.matured, w.firstDetectedAt)
  }

  /**
   Stream es tells the story of a live wall with core c, and has booked volume `booked`:
   between two emits of one step the wall's own volume may already be another.
   */
  ghost predicate Tracks(c: Core, es: seq<Event>, booked: real) {
    && WellFormed(es) && IsOpen(es)
    && es[0].wallId == c.id && c.eventSeq == |es|
    && c.status == (if CountKind(es, Weakening) == 1 then Weakened else Active)
    && (c.matured <==> CountKind(es, Maturing) == 1)
    && CoreOf(Replayed(es)) == c
    && Replayed(es).volume == booked
    && es[0].volume == c.initialVolume
    && es[0].volume + SumDelta(es) == booked
  }

  lemma Snoc(es: seq<Event>, e: Event)
    ensures
      && Replayed(es + [e]) == Applied(Replayed(es), e)
      && SumDelta(es + [e]) == SumDelta(es) + e.delta
      && (forall k :: CountKind(es + [e], k) == CountKind(es, k) + if e.kind == k then 1 else 0)
  {
    assert (es + [e])[..|es|] == es;
  }

  /** A Born event opens a stream that tracks its wall. */
  lemma BornTracks(c: Core, e: Event)
    requires e.kind == Born && e.seqNo == 1 && e.wallId == c.id && e.volume == c.initialVolume && e.delta == 0.0
    requires c == Core(e.wallId, 1, e.volume, Active, false, e.timestamp)
    ensures Tracks(c, [e], e.volume)
  {
    Snoc([], e);
    assert [] + [e] == [e];
  }

  /** Every other event the detector emits keeps the stream on the wall's track. */
  lemma EmitTracks(c: Core, es: seq<Event>, booked: real, e: Event, c': Core)
    requires Tracks(c, es, booked)
    requires e.wallId == c.id && e.seqNo == c.eventSeq + 1
    requires c' == c.(eventSeq := c.eventSeq + 1, status := c'.status, matured := c'.matured)
    requires
      match e.kind
      case Maturing => !c.matured && c'.matured && c'.status == c.status && e.delta == 0.0
      case PriceApproached => c'.matured == c.matured && c'.status == c.status && e.delta == 0.0
      case Resized => c'.matured == c.matured && c'.status == c.status && e.volume == booked + e.delta
      case Absorbed => c'.matured == c.matured && c'.status == c.status && e.volume == booked + e.delta
      case Weakening => c.status != Weakened && c'.status == Weakened && c'.matured == c.matured &&
          e.delta == 0.0 && e.volume == booked
      case _ => false
    ensures Tracks(c', es + [e], booked + e.delta)
  {
    Snoc(es, e);
  }

  /** A finished stream: nothing is left of the wall's volume. */
  ghost predicate Completed(es: seq<Event>) {
    && WellFormed(es) && !IsOpen(es)
    && es[0].volume + SumDelta(es) == 0.0
  }

  lemma TerminalCompletes(c: Core, es: seq<Event>, volume: real, e: Event)
    requires Tracks(c, es, volume)
    requires IsTerminal(e.kind) && e.wallId == c.id && e.seqNo == c.eventSeq + 1 && e.delta == -volume
    ensures Completed(es + [e])
    ensures CoreOf(Replayed(es + [e])) == c.(eventSeq := c.eventSeq + 1,
        status := if e.kind == Consuming then Consumed else Disappeared)
  {
    Snoc(es, e);
  }

  /**
   A completed stream accounts for every unit: what dropped out is the initial volume plus everything
   added. ReconcileWallData reports this drop and splits it into absorbed and pulled.
   */
  lemma CompletedDropsEverything(es: seq<Event>)
    requires Completed(es)
    ensures SumDrops(es) == es[0].volume + SumRises(es)
  {
    DeltaSplits(es);
  }

  /**
   After the terminal event the replay shows what is left of the wall only if it was consumed, or was empty
   already.
   */
  lemma ReplayKeepsPulledVolume(c: Core, es: seq<Event>, volume: real, e: Event)
    requires Tracks(c, es, volume) && IsTerminal(e.kind) && e.delta == -volume
    ensures Replayed(es + [e]).volume == es[0].volume + SumDelta(es + [e]) <==> e.kind == Consuming || volume == 0.0
  {
    Snoc(es, e);
  }
}
